/**
 * The non-common metadata report the permissions analyser writes after an
 * extraction (`non_common_metadata.json`).
 *
 * For each org whose processed permissions file could be read, the names
 * of its profiles, permission sets, permission set groups and muting
 * permission sets are collected into a summary: per kind, item name to the
 * list of orgs holding it, in org order.  An item is reported as
 * non-common when that list is shorter than the number of orgs requested;
 * the report also names the orgs the item is missing from.
 */
module NonCommonMetadata {
  import opened Common

  datatype Kind = Profiles | PermissionSets | PermissionSetGroups | MutingPermissionSets

  /** The item names of one org's processed file, per kind (the keys of its JSON objects). */
  datatype OrgItems = OrgItems(
    profiles: seq<string>,
    permissionSets: seq<string>,
    permissionSetGroups: seq<string>,
    mutingPermissionSets: seq<string>)

  function ItemsOf(o: OrgItems, k: Kind): seq<string>
  {
    match k
    case Profiles => o.profiles
    case PermissionSets => o.permissionSets
    case PermissionSetGroups => o.permissionSetGroups
    case MutingPermissionSets => o.mutingPermissionSets
  }

  /** One entry of the report. */
  datatype NonCommonItem = NonCommonItem(name: string, existsIn: seq<string>, missingFrom: seq<string>)

  datatype NonCommonReport = NonCommonReport(
    profiles: seq<NonCommonItem>,
    permissionSets: seq<NonCommonItem>,
    permissionSetGroups: seq<NonCommonItem>,
    mutingPermissionSets: seq<NonCommonItem>)

  /**
   * The processed files, one per requested org: `None` when the file is
   * missing or unreadable (the source skips that org).  Object keys are
   * unique, so no org lists an item twice.
   */
  ghost predicate Keyed(found: seq<Option<OrgItems>>)
  {
    forall i, k :: 0 <= i < |found| && found[i].Some? ==> NoDup(ItemsOf(found[i].value, k))
  }

  /** Org `i` lists item `x` of kind `k`. */
  predicate Holds(found: seq<Option<OrgItems>>, k: Kind, i: nat, x: string)
    requires i < |found|
  {
    found[i].Some? && x in ItemsOf(found[i].value, k)
  }

  /** `summary[k][x]` after the first `n` orgs: the orgs holding `x`, in org order. */
  function Holders(orgs: seq<string>, found: seq<Option<OrgItems>>, k: Kind, x: string, n: nat): seq<string>
    requires n <= |orgs| == |found|
  {
    if n == 0 then []
    else Holders(orgs, found, k, x, n - 1) + (if Holds(found, k, n - 1, x) then [orgs[n - 1]] else [])
  }

  /** The items of kind `k` in the order the summary first sees them, after the first `n` orgs. */
  function Seen(found: seq<Option<OrgItems>>, k: Kind, n: nat): seq<string>
    requires n <= |found|
  {
    if n == 0 then []
    else if found[n - 1].None? then Seen(found, k, n - 1)
    else AddAll(Seen(found, k, n - 1), ItemsOf(found[n - 1].value, k))
  }

  /** `orgs.filter(o => !orgList.includes(o))`. */
  function Missing(orgs: seq<string>, holders: seq<string>): seq<string>
  {
    if orgs == [] then []
    else Missing(orgs[..|orgs| - 1], holders) + (if orgs[|orgs| - 1] in holders then [] else [orgs[|orgs| - 1]])
  }

  /** The report entries for the items `xs`, given each item's holders. */
  function EntriesFor(orgs: seq<string>, xs: seq<string>, holders: map<string, seq<string>>): seq<NonCommonItem>
    requires forall x :: x in xs ==> x in holders
  {
    if xs == [] then []
    else
      var x := xs[|xs| - 1];
      EntriesFor(orgs, xs[..|xs| - 1], holders)
        + (if |holders[x]| < |orgs| then [NonCommonItem(x, holders[x], Missing(orgs, holders[x]))] else [])
  }

  /** The summary for kind `k`: each seen item with its holders. */
  function Summary(orgs: seq<string>, found: seq<Option<OrgItems>>, k: Kind): (s: map<string, seq<string>>)
    requires |orgs| == |found|
  {
    map x | x in Seen(found, k, |found|) :: Holders(orgs, found, k, x, |found|)
  }

  /** The non-common items of kind `k`, in the summary's order. */
  function NonCommonOf(orgs: seq<string>, found: seq<Option<OrgItems>>, k: Kind): seq<NonCommonItem>
    requires |orgs| == |found|
  {
    EntriesFor(orgs, Seen(found, k, |found|), Summary(orgs, found, k))
  }

  // ---------------------------------------------------------------------
  // The computation

  /** Record, for every item of kind `k`, the orgs holding it. */
  method Summarize(orgs: seq<string>, found: seq<Option<OrgItems>>, k: Kind)
    returns (order: seq<string>, summary: map<string, seq<string>>)
    requires |orgs| == |found| && Keyed(found)
    ensures order == Seen(found, k, |found|)
    ensures summary == Summary(orgs, found, k)
  {
    order := [];
    summary := map[];
    for i := 0 to |orgs|
      invariant order == Seen(found, k, i)
      invariant forall x :: x in summary <==> x in order
      invariant forall x :: x in summary ==> summary[x] == Holders(orgs, found, k, x, i)
    {
      if found[i].Some? {
        order, summary := AddOrg(orgs, found, k, i, order, summary);
      } else {
        forall x | x in summary ensures summary[x] == Holders(orgs, found, k, x, i + 1) {
          assert Holders(orgs, found, k, x, i + 1) == Holders(orgs, found, k, x, i) + [];
        }
      }
    }
    SummaryOf(orgs, found, k, order, summary);
  }

  /** The items of org `i` pushed into the summary, one by one. */
  method AddOrg(orgs: seq<string>, found: seq<Option<OrgItems>>, k: Kind, i: nat,
                order0: seq<string>, summary0: map<string, seq<string>>)
    returns (order: seq<string>, summary: map<string, seq<string>>)
    requires i < |orgs| == |found| && Keyed(found) && found[i].Some?
    requires order0 == Seen(found, k, i)
    requires forall x :: x in summary0 <==> x in order0
    requires forall x :: x in summary0 ==> summary0[x] == Holders(orgs, found, k, x, i)
    ensures order == Seen(found, k, i + 1)
    ensures forall x :: x in summary <==> x in order
    ensures forall x :: x in summary ==> summary[x] == Holders(orgs, found, k, x, i + 1)
  {
    var items := ItemsOf(found[i].value, k);
    assert NoDup(items);
    order, summary := order0, summary0;
    for j := 0 to |items|
      invariant order == AddAll(order0, items[..j])
      invariant forall x :: x in summary <==> x in order
      invariant forall x :: x in summary ==>
        summary[x] == Holders(orgs, found, k, x, i) + (if x in items[..j] then [orgs[i]] else [])
    {
      var x := items[j];
      assert items[..j + 1] == items[..j] + [x];
      assert x !in items[..j];
      AddAllSpec(order0, items[..j]);
      if x in summary {
        summary := summary[x := summary[x] + [orgs[i]]];
      } else {
        HoldersUnseen(orgs, found, k, x, i);
        summary := summary[x := [orgs[i]]];
      }
      if x !in order {
        order := order + [x];
      }
      forall y | y in summary
        ensures summary[y] == Holders(orgs, found, k, y, i) + (if y in items[..j + 1] then [orgs[i]] else [])
      {
        if y != x {
          assert y in items[..j + 1] <==> y in items[..j];
        }
      }
    }
    assert items[..|items|] == items;
    forall x | x in summary ensures summary[x] == Holders(orgs, found, k, x, i + 1) {
      assert Holds(found, k, i, x) <==> x in items;
    }
  }

  /** An item no org has listed yet has no holders yet. */
  lemma {:induction false} HoldersUnseen(orgs: seq<string>, found: seq<Option<OrgItems>>, k: Kind, x: string, n: nat)
    requires n <= |orgs| == |found|
    requires x !in Seen(found, k, n)
    ensures Holders(orgs, found, k, x, n) == []
  {
    if n > 0 {
      if found[n - 1].Some? {
        AddAllSpec(Seen(found, k, n - 1), ItemsOf(found[n - 1].value, k));
      }
      HoldersUnseen(orgs, found, k, x, n - 1);
    }
  }

  /** A summary built item by item is the summary of the specification. */
  lemma SummaryOf(orgs: seq<string>, found: seq<Option<OrgItems>>, k: Kind,
                  order: seq<string>, summary: map<string, seq<string>>)
    requires |orgs| == |found|
    requires order == Seen(found, k, |found|)
    requires forall x :: x in summary <==> x in order
    requires forall x :: x in summary ==> summary[x] == Holders(orgs, found, k, x, |found|)
    ensures summary == Summary(orgs, found, k)
  {
  }

  /** `orgs.filter(o => !orgList.includes(o))`, element by element. */
  method MissingFrom(orgs: seq<string>, holders: seq<string>) returns (r: seq<string>)
    ensures r == Missing(orgs, holders)
  {
    r := [];
    for i := 0 to |orgs|
      invariant r == Missing(orgs[..i], holders)
    {
      assert orgs[..i + 1][..i] == orgs[..i];
      if orgs[i] !in holders {
        r := r + [orgs[i]];
      }
    }
    assert orgs[..|orgs|] == orgs;
  }

  /** The entries for the items shorter-held than the number of orgs. */
  method Entries(orgs: seq<string>, order: seq<string>, summary: map<string, seq<string>>)
    returns (r: seq<NonCommonItem>)
    requires forall x :: x in order ==> x in summary
    ensures r == EntriesFor(orgs, order, summary)
  {
    r := [];
    for i := 0 to |order|
      invariant r == EntriesFor(orgs, order[..i], summary)
    {
      assert order[..i + 1][..i] == order[..i];
      var x := order[i];
      var orgList := summary[x];
      if |orgList| < |orgs| {
        var missing := MissingFrom(orgs, orgList);
        r := r + [NonCommonItem(x, orgList, missing)];
      }
    }
    assert order[..|order|] == order;
  }

  method NonCommonItems(orgs: seq<string>, found: seq<Option<OrgItems>>, k: Kind) returns (r: seq<NonCommonItem>)
    requires |orgs| == |found| && Keyed(found)
    ensures r == NonCommonOf(orgs, found, k)
  {
    var order, summary := Summarize(orgs, found, k);
    r := Entries(orgs, order, summary);
  }

  /** The report for all four kinds. */
  method FindNonCommon(orgs: seq<string>, found: seq<Option<OrgItems>>) returns (r: NonCommonReport)
    requires |orgs| == |found| && Keyed(found)
    ensures r == NonCommonReport(NonCommonOf(orgs, found, Profiles), NonCommonOf(orgs, found, PermissionSets),
                                 NonCommonOf(orgs, found, PermissionSetGroups),
                                 NonCommonOf(orgs, found, MutingPermissionSets))
  {
    var profiles := NonCommonItems(orgs, found, Profiles);
    var permissionSets := NonCommonItems(orgs, found, PermissionSets);
    var groups := NonCommonItems(orgs, found, PermissionSetGroups);
    var muting := NonCommonItems(orgs, found, MutingPermissionSets);
    r := NonCommonReport(profiles, permissionSets, groups, muting);
  }

  // ---------------------------------------------------------------------
  // Properties

  /** An item is seen iff some read org lists it. */
  lemma {:induction false} SeenSpec(found: seq<Option<OrgItems>>, k: Kind, n: nat, x: string)
    requires n <= |found|
    ensures x in Seen(found, k, n) <==> exists i :: 0 <= i < n && Holds(found, k, i, x)
  {
    if n > 0 {
      SeenSpec(found, k, n - 1, x);
      if found[n - 1].Some? {
        AddAllSpec(Seen(found, k, n - 1), ItemsOf(found[n - 1].value, k));
      }
      if x in Seen(found, k, n) && x !in Seen(found, k, n - 1) {
        assert Holds(found, k, n - 1, x);
      }
      if exists i :: 0 <= i < n && Holds(found, k, i, x) {
        var i :| 0 <= i < n && Holds(found, k, i, x);
        if i < n - 1 { assert x in Seen(found, k, n - 1); }
      }
    }
  }

  /** An org is a holder iff it is the name of some org listing the item. */
  lemma {:induction false} HoldersSpec(orgs: seq<string>, found: seq<Option<OrgItems>>, k: Kind, x: string, n: nat, o: string)
    requires n <= |orgs| == |found|
    ensures o in Holders(orgs, found, k, x, n) <==> exists i :: 0 <= i < n && orgs[i] == o && Holds(found, k, i, x)
  {
    if n > 0 {
      HoldersSpec(orgs, found, k, x, n - 1, o);
    }
  }

  /** There are at most as many holders as orgs, and exactly as many iff every org lists the item. */
  lemma {:induction false} HoldersCount(orgs: seq<string>, found: seq<Option<OrgItems>>, k: Kind, x: string, n: nat)
    requires n <= |orgs| == |found|
    ensures |Holders(orgs, found, k, x, n)| <= n
    ensures |Holders(orgs, found, k, x, n)| == n <==> forall i :: 0 <= i < n ==> Holds(found, k, i, x)
  {
    if n > 0 {
      HoldersCount(orgs, found, k, x, n - 1);
    }
  }

  /** The missing orgs are the requested orgs that are not holders, in order. */
  lemma {:induction false} MissingSpec(orgs: seq<string>, holders: seq<string>, o: string)
    ensures o in Missing(orgs, holders) <==> o in orgs && o !in holders
  {
    if orgs != [] {
      MissingSpec(orgs[..|orgs| - 1], holders, o);
      assert forall y :: y in orgs <==> y in orgs[..|orgs| - 1] || y == orgs[|orgs| - 1];
    }
  }

  /** The entry for `x` is reported iff its holders are fewer than the orgs; it is reported at most once. */
  lemma {:induction false} EntriesSpec(orgs: seq<string>, xs: seq<string>, holders: map<string, seq<string>>, e: NonCommonItem)
    requires forall x :: x in xs ==> x in holders
    ensures e in EntriesFor(orgs, xs, holders)
        <==> e.name in xs && |holders[e.name]| < |orgs|
             && e.existsIn == holders[e.name] && e.missingFrom == Missing(orgs, holders[e.name])
  {
    if xs != [] {
      var init := xs[..|xs| - 1];
      EntriesSpec(orgs, init, holders, e);
      assert forall y :: y in xs <==> y in init || y == xs[|xs| - 1];
    }
  }

  /**
   * An item of kind `k` is reported iff some org lists it and it is held by
   * fewer orgs than were requested; its entry lists exactly the orgs
   * holding it, and as missing exactly the requested orgs not holding it.
   */
  lemma NonCommonSpec(orgs: seq<string>, found: seq<Option<OrgItems>>, k: Kind, e: NonCommonItem)
    requires |orgs| == |found|
    ensures var h := Holders(orgs, found, k, e.name, |found|);
            e in NonCommonOf(orgs, found, k)
            <==> (exists i :: 0 <= i < |found| && Holds(found, k, i, e.name))
                 && |h| < |orgs| && e.existsIn == h && e.missingFrom == Missing(orgs, h)
  {
    var xs := Seen(found, k, |found|);
    EntriesSpec(orgs, xs, Summary(orgs, found, k), e);
    SeenSpec(found, k, |found|, e.name);
  }

  /** A reported entry's orgs: holders are exactly the orgs listing it; missing ones the rest. */
  lemma ReportedOrgs(orgs: seq<string>, found: seq<Option<OrgItems>>, k: Kind, e: NonCommonItem, o: string)
    requires |orgs| == |found|
    requires e in NonCommonOf(orgs, found, k)
    ensures o in e.existsIn <==> exists i :: 0 <= i < |found| && orgs[i] == o && Holds(found, k, i, e.name)
    ensures o in e.missingFrom <==> o in orgs && o !in e.existsIn
  {
    NonCommonSpec(orgs, found, k, e);
    HoldersSpec(orgs, found, k, e.name, |found|, o);
    MissingSpec(orgs, Holders(orgs, found, k, e.name, |found|), o);
  }

  /**
   * An item listed somewhere is non-common iff some requested org does not
   * list it (an org whose file was not read counts as not listing it).
   */
  lemma NonCommonIffSomeOrgLacks(orgs: seq<string>, found: seq<Option<OrgItems>>, k: Kind, x: string)
    requires |orgs| == |found|
    requires exists i :: 0 <= i < |found| && Holds(found, k, i, x)
    ensures var h := Holders(orgs, found, k, x, |found|);
            NonCommonItem(x, h, Missing(orgs, h)) in NonCommonOf(orgs, found, k)
            <==> exists i :: 0 <= i < |found| && !Holds(found, k, i, x)
  {
    var h := Holders(orgs, found, k, x, |found|);
    NonCommonSpec(orgs, found, k, NonCommonItem(x, h, Missing(orgs, h)));
    HoldersCount(orgs, found, k, x, |found|);
  }

  /** With distinct org names, a reported item is missing from at least one org. */
  lemma ReportedIsMissingSomewhere(orgs: seq<string>, found: seq<Option<OrgItems>>, k: Kind, e: NonCommonItem)
    requires |orgs| == |found| && NoDup(orgs)
    requires e in NonCommonOf(orgs, found, k)
    ensures e.missingFrom != []
  {
    NonCommonSpec(orgs, found, k, e);
    var h := Holders(orgs, found, k, e.name, |found|);
    HoldersCount(orgs, found, k, e.name, |found|);
    var i :| 0 <= i < |found| && !Holds(found, k, i, e.name);
    HoldersSpec(orgs, found, k, e.name, |found|, orgs[i]);
    forall j | 0 <= j < |found| && orgs[j] == orgs[i] ensures j == i { }
    assert orgs[i] !in h;
    MissingSpec(orgs, h, orgs[i]);
  }
}
