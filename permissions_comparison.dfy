/**
 * The permissions comparison engine of the permissions analyser: for every
 * profile, permission set and permission set group that all orgs share, the
 * entries (object, field, user, Apex class, Visualforce page, tab,
 * application and custom permissions, included and muting permission sets)
 * whose settings are not the same in every org that holds it.
 */
module PermissionsComparison {
  import opened Common

  // ---------------------------------------------------------------------
  // Data model

  /** One org's metadata for one profile or permission set: list-valued keys such as `objectPermissions`. */
  type Metadata = map<string, seq<Record>>

  /** The data an org holds for one compared item: permission lists, or a group's permission set names. */
  datatype Data = Meta(m: Metadata) | Group(g: map<string, seq<string>>)

  /** An org holding the compared item, in the order of the org data. */
  datatype Holder = Holder(org: string, data: Data)

  /** What an org contributes for one entry name: a fixed-order tuple of flags, or one value. */
  type Setting = seq<Value>

  /** The kinds of entry the comparison knows, each with its list key, name key and default. */
  datatype Kind =
    | ObjectPermissions | FieldPermissions | UserPermissions | ApexClasses | VisualforcePages
    | TabVisibilities | ApplicationVisibilities | CustomPermissions
    | IncludedSets | MutingSets
  {
    /** The key of the org data's list holding the entries of this kind. */
    function ListKey(): string
    {
      match this
      case ObjectPermissions => "objectPermissions"
      case FieldPermissions => "fieldPermissions"
      case UserPermissions => "userPermissions"
      case ApexClasses => "classAccesses"
      case VisualforcePages => "pageAccesses"
      case TabVisibilities => "tabVisibilities"
      case ApplicationVisibilities => "applicationVisibilities"
      case CustomPermissions => "customPermissions"
      case IncludedSets => "permissionSets"
      case MutingSets => "mutingPermissionSets"
    }

    /** The key under which the selected options enable this kind, and under which its differences are reported. */
    function OptionKey(): string
    {
      match this
      case ApexClasses => "apexClasses"
      case VisualforcePages => "visualforcePages"
      case _ => ListKey()
    }

    /** The field of an entry that names it. */
    function NameKey(): string
    {
      match this
      case ObjectPermissions => "object"
      case FieldPermissions => "field"
      case ApexClasses => "apexClass"
      case VisualforcePages => "apexPage"
      case TabVisibilities => "tab"
      case ApplicationVisibilities => "application"
      case _ => "name"
    }

    /** Kinds compared value by value (a set of distinct values) rather than as dicts of flags. */
    predicate Simple()
    {
      !(ObjectPermissions? || FieldPermissions? || ApplicationVisibilities?)
    }

    /** The flags of a dict-valued kind, each read with default False. */
    function Flags(): seq<string>
    {
      match this
      case ObjectPermissions =>
        ["allowCreate", "allowRead", "allowEdit", "allowDelete", "viewAllRecords", "modifyAllRecords"]
      case FieldPermissions => ["readable", "editable"]
      case ApplicationVisibilities => ["visible", "default"]
      case _ => []
    }

    /** The field holding the value of a simple kind. */
    function ValueKey(): string
    {
      if TabVisibilities? then "visibility" else "enabled"
    }

    /** The value of a simple kind for an org that does not list the entry. */
    function Default(): Value
    {
      if TabVisibilities? then Str("Hidden") else Bool(false)
    }

    /** The setting of an org that does not list the entry. */
    function DefaultSetting(): Setting
    {
      if Simple() then [Default()] else AllFalse(|Flags()|)
    }

    /** The setting read from an org's entry. */
    function Project(e: Record): Setting
    {
      if Simple() then [Get(e, ValueKey())] else FlagsOf(e, Flags())
    }
  }

  function AllFalse(n: nat): (s: Setting)
    ensures |s| == n && forall i :: 0 <= i < n ==> s[i] == Bool(false)
  {
    if n == 0 then [] else AllFalse(n - 1) + [Bool(false)]
  }

  /** `entry.get(flag, False)` for each flag in turn. */
  function FlagsOf(e: Record, flags: seq<string>): (s: Setting)
    ensures |s| == |flags|
    ensures forall i :: 0 <= i < |flags| ==> s[i] == if flags[i] in e then e[flags[i]] else Bool(false)
  {
    if flags == [] then []
    else
      var f := flags[|flags| - 1];
      FlagsOf(e, flags[..|flags| - 1]) + [if f in e then e[f] else Bool(false)]
  }

  // ---------------------------------------------------------------------
  // The two difference checks

  /** `_has_permission_differences`: at least two orgs and some value differs from the first. */
  predicate HasPermissionDifferences(values: seq<Setting>)
  {
    |values| >= 2 && exists i :: 1 <= i < |values| && values[i] != values[0]
  }

  /** `_has_simple_differences`: at least two orgs and more than one distinct value. */
  predicate HasSimpleDifferences(values: seq<Setting>)
  {
    |values| >= 2 && |Dedup(values)| > 1
  }

  predicate NotAllEqual(values: seq<Setting>)
  {
    exists i, j :: 0 <= i < |values| && 0 <= j < |values| && values[i] != values[j]
  }

  /** Both checks report exactly the value lists that are not all equal; the simple one is its distinct count. */
  lemma DifferenceChecks(values: seq<Setting>)
    ensures HasPermissionDifferences(values) <==> NotAllEqual(values)
    ensures HasSimpleDifferences(values) <==> NotAllEqual(values)
    ensures HasSimpleDifferences(values) <==> |Dedup(values)| > 1
  {
    DedupMany(values);
    if NotAllEqual(values) {
      var i, j :| 0 <= i < |values| && 0 <= j < |values| && values[i] != values[j];
      if values[i] == values[0] { assert j >= 1 && values[j] != values[0]; }
      else { assert i >= 1; }
    }
  }

  /** The check a kind uses. */
  predicate Differs(k: Kind, values: seq<Setting>)
  {
    if k.Simple() then HasSimpleDifferences(values) else HasPermissionDifferences(values)
  }

  // ---------------------------------------------------------------------
  // One kind across the orgs holding the item

  /** `data.get(list_key, [])`. */
  function Entries(m: Metadata, k: Kind): seq<Record>
  {
    if k.ListKey() in m then m[k.ListKey()] else []
  }

  function Members(g: map<string, seq<string>>, k: Kind): seq<string>
  {
    if k.ListKey() in g then g[k.ListKey()] else []
  }

  /** The names of the entries carrying a string name. */
  function EntryNames(es: seq<Record>, key: string): set<string>
  {
    if es == [] then {}
    else
      var v := Get(es[|es| - 1], key);
      EntryNames(es[..|es| - 1], key) + (if v.Str? then {v.s} else {})
  }

  lemma {:induction false} EntryNamesSpec(es: seq<Record>, key: string, x: string)
    ensures x in EntryNames(es, key) <==> exists i :: 0 <= i < |es| && Get(es[i], key) == Str(x)
  {
    if es != [] {
      var init := es[..|es| - 1];
      EntryNamesSpec(init, key, x);
      assert forall i :: 0 <= i < |init| ==> init[i] == es[i];
    }
  }

  /** The names one org lists for a kind. */
  function NamesIn(d: Data, k: Kind): set<string>
  {
    match d
    case Meta(m) => EntryNames(Entries(m, k), k.NameKey())
    case Group(g) => set x | x in Members(g, k)
  }

  /** The set of names listed by any of the orgs. */
  function HolderNames(hs: seq<Holder>, k: Kind): set<string>
  {
    if hs == [] then {} else HolderNames(hs[..|hs| - 1], k) + NamesIn(hs[|hs| - 1].data, k)
  }

  lemma {:induction false} HolderNamesSpec(hs: seq<Holder>, k: Kind, x: string)
    ensures x in HolderNames(hs, k) <==> exists t :: 0 <= t < |hs| && x in NamesIn(hs[t].data, k)
  {
    if hs != [] {
      var init := hs[..|hs| - 1];
      HolderNamesSpec(init, k, x);
      assert forall t :: 0 <= t < |init| ==> init[t] == hs[t];
    }
  }

  /** `next(e for e in entries if e[name_key] == name, None)`. */
  function FirstNamed(es: seq<Record>, key: string, name: string): Option<Record>
  {
    if es == [] then None
    else if Get(es[0], key) == Str(name) then Some(es[0])
    else FirstNamed(es[1..], key, name)
  }

  /** The entry found is the earliest one carrying the name, and none is found only when no entry carries it. */
  lemma {:induction false} FirstNamedSpec(es: seq<Record>, key: string, name: string)
    ensures FirstNamed(es, key, name).None? <==> forall i :: 0 <= i < |es| ==> Get(es[i], key) != Str(name)
    ensures FirstNamed(es, key, name).Some? ==>
      exists i :: 0 <= i < |es| && es[i] == FirstNamed(es, key, name).value && Get(es[i], key) == Str(name) &&
        forall j :: 0 <= j < i ==> Get(es[j], key) != Str(name)
  {
    if es != [] && Get(es[0], key) != Str(name) {
      FirstNamedSpec(es[1..], key, name);
      if FirstNamed(es[1..], key, name).Some? {
        var i :| 0 <= i < |es[1..]| && es[1..][i] == FirstNamed(es[1..], key, name).value &&
          Get(es[1..][i], key) == Str(name) && forall j :: 0 <= j < i ==> Get(es[1..][j], key) != Str(name);
        assert es[i + 1] == es[1..][i];
        forall j | 0 <= j < i + 1 ensures Get(es[j], key) != Str(name) {
          if j > 0 { assert es[j] == es[1..][j - 1]; }
        }
      }
    }
  }

  /** An org's setting for a name: read from its first entry so named, else the kind's default. */
  function SettingOf(d: Data, k: Kind, name: string): Setting
  {
    match d
    case Meta(m) =>
      (match FirstNamed(Entries(m, k), k.NameKey(), name)
       case None => k.DefaultSetting()
       case Some(e) => k.Project(e))
    case Group(g) => [Bool(name in Members(g, k))]
  }

  datatype OrgSetting = OrgSetting(org: string, setting: Setting)

  /** A reported entry: its name and every holding org's setting, in org order. */
  datatype Difference = Difference(name: string, perOrg: seq<OrgSetting>)
  {
    function Settings(): (s: seq<Setting>)
      ensures |s| == |perOrg|
    {
      seq(|perOrg|, i requires 0 <= i < |perOrg| => perOrg[i].setting)
    }
  }

  function PerOrg(hs: seq<Holder>, k: Kind, name: string): (r: seq<OrgSetting>)
    ensures |r| == |hs|
  {
    if hs == [] then []
    else
      var h := hs[|hs| - 1];
      PerOrg(hs[..|hs| - 1], k, name) + [OrgSetting(h.org, SettingOf(h.data, k, name))]
  }

  lemma {:induction false} PerOrgAt(hs: seq<Holder>, k: Kind, name: string, t: nat)
    requires t < |hs|
    ensures PerOrg(hs, k, name)[t] == OrgSetting(hs[t].org, SettingOf(hs[t].data, k, name))
  {
    if t < |hs| - 1 {
      PerOrgAt(hs[..|hs| - 1], k, name, t);
    }
  }

  function DifferenceOf(hs: seq<Holder>, k: Kind, name: string): Difference
  {
    Difference(name, PerOrg(hs, k, name))
  }

  /** The report for one name: its difference when the kind's check finds the settings differing. */
  function Report(hs: seq<Holder>, k: Kind): string -> Option<Difference>
  {
    x => if Differs(k, DifferenceOf(hs, k, x).Settings()) then Some(DifferenceOf(hs, k, x)) else None
  }

  function NamesOf(ds: seq<Difference>): (r: seq<string>)
    ensures |r| == |ds|
  {
    seq(|ds|, i requires 0 <= i < |ds| => ds[i].name)
  }

  lemma NamesOfSnoc(ds: seq<Difference>, extra: seq<Difference>)
    ensures NamesOf(ds + extra) == NamesOf(ds) + NamesOf(extra)
  {
    assert forall i :: 0 <= i < |ds| ==> (ds + extra)[i] == ds[i];
  }

  /** The names of the reports of f over a list of names, when f files each report under its own name. */
  lemma ReportsSnoc(f: string -> Option<Difference>, names: seq<string>, last: string)
    requires forall y :: f(y).Some? ==> f(y).value.name == y
    ensures NamesOf(MapSomes(f, names + [last])) ==
      NamesOf(MapSomes(f, names)) + if f(last).Some? then [last] else []
  {
    MapSomesSnoc(f, names, last);
    if f(last).Some? {
      NamesOfSnoc(MapSomes(f, names), [f(last).value]);
    } else {
      assert MapSomes(f, names + [last]) == MapSomes(f, names);
    }
  }

  /** A report function that files each report under its own name keeps exactly the names it reports. */
  lemma {:induction false} ReportedNames(f: string -> Option<Difference>, names: seq<string>, x: string)
    requires forall y :: f(y).Some? ==> f(y).value.name == y
    ensures x in NamesOf(MapSomes(f, names)) <==> x in names && f(x).Some?
  {
    if names != [] {
      var init := names[..|names| - 1];
      var last := names[|names| - 1];
      ReportedNames(f, init, x);
      assert names == init + [last];
      ReportsSnoc(f, init, last);
    }
  }

  /** Reporting from a sorted duplicate-free list of names keeps them sorted and duplicate-free. */
  lemma {:induction false} ReportedSorted(f: string -> Option<Difference>, names: seq<string>)
    requires forall y :: f(y).Some? ==> f(y).value.name == y
    requires Sorted(names) && NoDup(names)
    ensures Sorted(NamesOf(MapSomes(f, names))) && NoDup(NamesOf(MapSomes(f, names)))
  {
    if names != [] {
      var init := names[..|names| - 1];
      var last := names[|names| - 1];
      assert Sorted(init) && NoDup(init);
      ReportedSorted(f, init);
      assert names == init + [last];
      ReportsSnoc(f, init, last);
      var n0 := NamesOf(MapSomes(f, init));
      if f(last).Some? {
        var n := n0 + [last];
        forall i | 0 <= i < |n0| ensures n0[i] in init {
          ReportedNames(f, init, n0[i]);
        }
        forall i, j | 0 <= i < j < |n| ensures LessEq(n[i], n[j]) && n[i] != n[j] {
          if j == |n0| {
            assert n[i] == n0[i];
            var p :| 0 <= p < |init| && init[p] == n[i];
            assert names[p] == n[i] && names[|names| - 1] == n[j];
          }
        }
      }
    }
  }

  /**
   * One `_compare_*` function: the names listed by any org, in sorted
   * order, whose settings are not the same in every org.
   */
  function KindDiffs(hs: seq<Holder>, k: Kind): seq<Difference>
  {
    MapSomes(Report(hs, k), SortedOfSet(HolderNames(hs, k)))
  }

  /** A name's report is present exactly when its settings are not all equal, and is filed under that name. */
  lemma ReportSpec(hs: seq<Holder>, k: Kind)
    ensures forall y :: Report(hs, k)(y).Some? ==> Report(hs, k)(y).value == DifferenceOf(hs, k, y)
    ensures forall y :: Report(hs, k)(y).Some? <==> NotAllEqual(DifferenceOf(hs, k, y).Settings())
  {
    forall y ensures Report(hs, k)(y).Some? <==> NotAllEqual(DifferenceOf(hs, k, y).Settings()) {
      DifferenceChecks(DifferenceOf(hs, k, y).Settings());
    }
  }

  /** Each report of a kind is the difference of its own name. */
  lemma KindDiffsMembers(hs: seq<Holder>, k: Kind)
    ensures forall d :: d in KindDiffs(hs, k) ==> d == DifferenceOf(hs, k, d.name)
  {
    var f := Report(hs, k);
    forall d | d in KindDiffs(hs, k) ensures d == DifferenceOf(hs, k, d.name) {
      MapSomesMembers(f, SortedOfSet(HolderNames(hs, k)), d);
    }
  }

  /**
   * A name is reported exactly when some org lists it and the orgs'
   * settings, with the kind's default for an org that does not list it,
   * are not all equal; each report carries every org's setting; the names
   * come out sorted and once each.
   */
  lemma KindDiffsSpec(hs: seq<Holder>, k: Kind, x: string)
    ensures x in NamesOf(KindDiffs(hs, k)) <==>
      (exists t :: 0 <= t < |hs| && x in NamesIn(hs[t].data, k)) && NotAllEqual(DifferenceOf(hs, k, x).Settings())
    ensures forall d :: d in KindDiffs(hs, k) ==> d.perOrg == PerOrg(hs, k, d.name)
    ensures Sorted(NamesOf(KindDiffs(hs, k))) && NoDup(NamesOf(KindDiffs(hs, k)))
  {
    var names := HolderNames(hs, k);
    var f := Report(hs, k);
    SortedOfSetSpec(names);
    HolderNamesSpec(hs, k, x);
    ReportSpec(hs, k);
    ReportedNames(f, SortedOfSet(names), x);
    ReportedSorted(f, SortedOfSet(names));
    KindDiffsMembers(hs, k);
  }

  /** An org that lists no entry of the name takes the kind's default: all flags False, False, or 'Hidden' for a tab. */
  lemma AbsentTakesDefault(hs: seq<Holder>, k: Kind, name: string, t: nat)
    requires t < |hs| && hs[t].data.Meta? && name !in NamesIn(hs[t].data, k)
    ensures PerOrg(hs, k, name)[t].setting == k.DefaultSetting()
    ensures k.DefaultSetting() == if k.TabVisibilities? then [Str("Hidden")]
                                  else if k.Simple() then [Bool(false)]
                                  else AllFalse(|k.Flags()|)
  {
    PerOrgAt(hs, k, name, t);
    var es := Entries(hs[t].data.m, k);
    FirstNamedSpec(es, k.NameKey(), name);
    if FirstNamed(es, k.NameKey(), name).Some? {
      var i :| 0 <= i < |es| && Get(es[i], k.NameKey()) == Str(name);
      EntryNamesSpec(es, k.NameKey(), name);
    }
  }

  /**
   * An org listing a name with a non-default setting beside an org not
   * listing it at all makes the name a difference.
   */
  lemma PartialListingReported(hs: seq<Holder>, k: Kind, name: string, t: nat, u: nat)
    requires t < |hs| && u < |hs| && hs[u].data.Meta?
    requires name in NamesIn(hs[t].data, k) && name !in NamesIn(hs[u].data, k)
    requires PerOrg(hs, k, name)[t].setting != k.DefaultSetting()
    ensures name in NamesOf(KindDiffs(hs, k))
  {
    AbsentTakesDefault(hs, k, name, u);
    var s := DifferenceOf(hs, k, name).Settings();
    assert s[t] != s[u];
    KindDiffsSpec(hs, k, name);
  }

  // ---------------------------------------------------------------------
  // The loops of one `_compare_*` function

  /** The names of one org's entries added to a running set: `all_objects.add(entry[name_key])`. */
  method AddEntryNames(names0: set<string>, es: seq<Record>, key: string) returns (names: set<string>)
    ensures names == names0 + EntryNames(es, key)
  {
    names := names0;
    var j := 0;
    while j < |es|
      invariant 0 <= j <= |es|
      invariant names == names0 + EntryNames(es[..j], key)
    {
      var v := Get(es[j], key);
      if v.Str? {
        names := names + {v.s};
      }
      assert es[..j + 1][..j] == es[..j];
      j := j + 1;
    }
    assert es[..j] == es;
  }

  /** The first loop of a `_compare_*` function: every name any org lists. */
  method CollectNames(hs: seq<Holder>, k: Kind) returns (names: set<string>)
    ensures names == HolderNames(hs, k)
  {
    names := {};
    var i := 0;
    while i < |hs|
      invariant 0 <= i <= |hs|
      invariant names == HolderNames(hs[..i], k)
    {
      match hs[i].data {
        case Meta(m) =>
          names := AddEntryNames(names, Entries(m, k), k.NameKey());
        case Group(g) =>
          names := names + set x | x in Members(g, k);
      }
      assert hs[..i + 1][..i] == hs[..i];
      i := i + 1;
    }
    assert hs[..i] == hs;
  }

  /** The inner loop: each org's setting for one name, in org order. */
  method OrgSettings(hs: seq<Holder>, k: Kind, name: string) returns (perOrg: seq<OrgSetting>)
    ensures perOrg == PerOrg(hs, k, name)
  {
    perOrg := [];
    var i := 0;
    while i < |hs|
      invariant 0 <= i <= |hs|
      invariant perOrg == PerOrg(hs[..i], k, name)
    {
      perOrg := perOrg + [OrgSetting(hs[i].org, SettingOf(hs[i].data, k, name))];
      assert hs[..i + 1][..i] == hs[..i];
      i := i + 1;
    }
    assert hs[..i] == hs;
  }

  /** The body of the outer loop: one name's settings, kept when the kind's check finds them differing. */
  method CompareName(hs: seq<Holder>, k: Kind, name: string) returns (r: Option<Difference>)
    ensures r == Report(hs, k)(name)
  {
    var perOrg := OrgSettings(hs, k, name);
    var d := Difference(name, perOrg);
    if Differs(k, d.Settings()) {
      r := Some(d);
    } else {
      r := None;
    }
  }

  /** One `_compare_*` function: the differing entries of a kind, by sorted name. */
  method CompareKind(hs: seq<Holder>, k: Kind) returns (diffs: seq<Difference>)
    ensures diffs == KindDiffs(hs, k)
  {
    var all := CollectNames(hs, k);
    var names := SortedOfSet(all);
    diffs := [];
    var i := 0;
    while i < |names|
      invariant 0 <= i <= |names|
      invariant diffs == MapSomes(Report(hs, k), names[..i])
    {
      var r := CompareName(hs, k, names[i]);
      MapSomesStep(Report(hs, k), names, i, r);
      if r.Some? {
        diffs := diffs + [r.value];
      }
      i := i + 1;
    }
    assert names[..i] == names;
  }

  // ---------------------------------------------------------------------
  // One profile, permission set or permission set group

  /** What one org holds: its profiles, permission sets and permission set groups by name. */
  datatype OrgData = OrgData(
    org: string,
    profiles: map<string, Metadata>,
    permissionSets: map<string, Metadata>,
    groups: map<string, map<string, seq<string>>>)

  datatype Category = Profiles | PermissionSets | PermissionSetGroups
  {
    /** The kinds compared for an item of this category, in the order the comparison visits them. */
    function Options(): seq<Kind>
    {
      match this
      case Profiles =>
        [ObjectPermissions, FieldPermissions, UserPermissions, ApexClasses,
         VisualforcePages, TabVisibilities, ApplicationVisibilities]
      case PermissionSets => [ObjectPermissions, FieldPermissions, UserPermissions, CustomPermissions]
      case PermissionSetGroups => [IncludedSets, MutingSets]
    }
  }

  /** The names of the items of a category an org holds. */
  function Items(o: OrgData, c: Category): set<string>
  {
    match c
    case Profiles => o.profiles.Keys
    case PermissionSets => o.permissionSets.Keys
    case PermissionSetGroups => o.groups.Keys
  }

  function ItemData(o: OrgData, c: Category, name: string): Data
    requires name in Items(o, c)
  {
    match c
    case Profiles => Meta(o.profiles[name])
    case PermissionSets => Meta(o.permissionSets[name])
    case PermissionSetGroups => Group(o.groups[name])
  }

  /** The orgs holding an item, with their data for it, in org order. */
  function Holders(orgs: seq<OrgData>, c: Category, name: string): seq<Holder>
  {
    if orgs == [] then []
    else
      var o := orgs[|orgs| - 1];
      Holders(orgs[..|orgs| - 1], c, name) + (if name in Items(o, c) then [Holder(o.org, ItemData(o, c, name))] else [])
  }

  /** An item every org holds is compared across all of them, in org order. */
  lemma {:induction false} HoldersOfShared(orgs: seq<OrgData>, c: Category, name: string)
    requires forall t :: 0 <= t < |orgs| ==> name in Items(orgs[t], c)
    ensures |Holders(orgs, c, name)| == |orgs|
    ensures forall t :: 0 <= t < |orgs| ==>
      Holders(orgs, c, name)[t] == Holder(orgs[t].org, ItemData(orgs[t], c, name))
  {
    if orgs != [] {
      var init := orgs[..|orgs| - 1];
      assert forall t :: 0 <= t < |init| ==> init[t] == orgs[t];
      HoldersOfShared(init, c, name);
    }
  }

  /** The holders are exactly the orgs holding the item. */
  lemma {:induction false} HoldersSpec(orgs: seq<OrgData>, c: Category, name: string, h: Holder)
    ensures h in Holders(orgs, c, name) <==>
      exists t :: 0 <= t < |orgs| && name in Items(orgs[t], c) && h == Holder(orgs[t].org, ItemData(orgs[t], c, name))
  {
    if orgs != [] {
      var init := orgs[..|orgs| - 1];
      assert forall t :: 0 <= t < |init| ==> init[t] == orgs[t];
      HoldersSpec(init, c, name, h);
    }
  }

  /** The differences of one kind, reported under the kind's option key. */
  datatype Section = Section(kind: Kind, diffs: seq<Difference>)
  {
    function Key(): string { kind.OptionKey() }
  }

  function SectionOf(hs: seq<Holder>): Kind -> Option<Section>
  {
    k => if KindDiffs(hs, k) != [] then Some(Section(k, KindDiffs(hs, k))) else None
  }

  /** The kinds compared for an item: the selected options, or both lists of a group (always compared). */
  function Compared(c: Category, selected: Record): (ks: seq<Kind>)
    ensures forall k :: k in ks <==>
      k in c.Options() && (c.PermissionSetGroups? || Truthy(Get(selected, k.OptionKey())))
  {
    if c.PermissionSetGroups? then c.Options()
    else Filter((k: Kind) => Truthy(Get(selected, k.OptionKey())), c.Options())
  }

  /**
   * `_compare_profile_permissions`, `_compare_permission_set_permissions`
   * and `_compare_psg_configuration`: nothing when fewer than two orgs hold
   * the item, else one section per compared kind with some difference.
   */
  function ItemDifferences(orgs: seq<OrgData>, c: Category, name: string, selected: Record): seq<Section>
  {
    var hs := Holders(orgs, c, name);
    if |hs| < 2 then [] else MapSomes(SectionOf(hs), Compared(c, selected))
  }

  /** Every section is the non-empty differences of one of the kinds. */
  lemma SectionsSound(hs: seq<Holder>, ks: seq<Kind>)
    ensures forall s :: s in MapSomes(SectionOf(hs), ks) ==>
      s.kind in ks && s.diffs == KindDiffs(hs, s.kind) && s.diffs != []
  {
    forall s | s in MapSomes(SectionOf(hs), ks)
      ensures s.kind in ks && s.diffs == KindDiffs(hs, s.kind) && s.diffs != []
    {
      MapSomesMembers(SectionOf(hs), ks, s);
      var t :| 0 <= t < |ks| && SectionOf(hs)(ks[t]) == Some(s);
      assert ks[t] in ks;
    }
  }

  /** Every kind with differences has its section. */
  lemma SectionsComplete(hs: seq<Holder>, ks: seq<Kind>, k: Kind)
    requires k in ks && KindDiffs(hs, k) != []
    ensures Section(k, KindDiffs(hs, k)) in MapSomes(SectionOf(hs), ks)
  {
    var t :| 0 <= t < |ks| && ks[t] == k;
    MapSomesMembers(SectionOf(hs), ks, Section(k, KindDiffs(hs, k)));
  }

  /**
   * Fewer than two holders give no section; otherwise every section is the
   * non-empty differences of a compared kind, and every compared kind with
   * differences has its section.
   */
  lemma ItemDifferencesSpec(orgs: seq<OrgData>, c: Category, name: string, selected: Record)
    ensures |Holders(orgs, c, name)| < 2 ==> ItemDifferences(orgs, c, name, selected) == []
    ensures forall s :: s in ItemDifferences(orgs, c, name, selected) ==>
      s.kind in Compared(c, selected) && s.diffs == KindDiffs(Holders(orgs, c, name), s.kind) && s.diffs != []
    ensures forall k ::
      (k in Compared(c, selected) && |Holders(orgs, c, name)| >= 2 && KindDiffs(Holders(orgs, c, name), k) != []) ==>
        Section(k, KindDiffs(Holders(orgs, c, name), k)) in ItemDifferences(orgs, c, name, selected)
  {
    var hs := Holders(orgs, c, name);
    SectionsSound(hs, Compared(c, selected));
    forall k | k in Compared(c, selected) && |hs| >= 2 && KindDiffs(hs, k) != []
      ensures Section(k, KindDiffs(hs, k)) in ItemDifferences(orgs, c, name, selected)
    {
      SectionsComplete(hs, Compared(c, selected), k);
    }
  }

  /** The holders of an item, collected by the first loop of `_compare_profile_permissions`. */
  method CollectHolders(orgs: seq<OrgData>, c: Category, name: string) returns (hs: seq<Holder>)
    ensures hs == Holders(orgs, c, name)
  {
    hs := [];
    var i := 0;
    while i < |orgs|
      invariant 0 <= i <= |orgs|
      invariant hs == Holders(orgs[..i], c, name)
    {
      if name in Items(orgs[i], c) {
        hs := hs + [Holder(orgs[i].org, ItemData(orgs[i], c, name))];
      }
      assert orgs[..i + 1][..i] == orgs[..i];
      i := i + 1;
    }
    assert orgs[..i] == orgs;
  }

  /** The chain of `if selected ...` blocks, one kind at a time, each kept when it has differences. */
  method CompareKinds(hs: seq<Holder>, ks: seq<Kind>) returns (sections: seq<Section>)
    ensures sections == MapSomes(SectionOf(hs), ks)
  {
    sections := [];
    var i := 0;
    while i < |ks|
      invariant 0 <= i <= |ks|
      invariant sections == MapSomes(SectionOf(hs), ks[..i])
    {
      var diffs := CompareKind(hs, ks[i]);
      var r := if diffs != [] then Some(Section(ks[i], diffs)) else None;
      MapSomesStep(SectionOf(hs), ks, i, r);
      if r.Some? {
        sections := sections + [r.value];
      }
      i := i + 1;
    }
    assert ks[..i] == ks;
  }

  /** The comparison of one item across the orgs holding it. */
  method CompareItem(orgs: seq<OrgData>, c: Category, name: string, selected: Record) returns (sections: seq<Section>)
    ensures sections == ItemDifferences(orgs, c, name, selected)
  {
    var hs := CollectHolders(orgs, c, name);
    if |hs| < 2 {
      return [];
    }
    sections := CompareKinds(hs, Compared(c, selected));
  }

  // ---------------------------------------------------------------------
  // A whole category: `compare_profiles`, `compare_permission_sets`, `compare_permission_set_groups`

  /** The org data is a dict keyed by org, so no org appears twice. */
  predicate DistinctOrgs(orgs: seq<OrgData>)
  {
    forall i, j :: 0 <= i < j < |orgs| ==> orgs[i].org != orgs[j].org
  }

  /** Every item any org holds. */
  function AllItems(orgs: seq<OrgData>, c: Category): set<string>
  {
    if orgs == [] then {} else AllItems(orgs[..|orgs| - 1], c) + Items(orgs[|orgs| - 1], c)
  }

  /** Each org's items, by org. */
  function ItemMap(orgs: seq<OrgData>, c: Category): map<string, set<string>>
  {
    if orgs == [] then map[]
    else ItemMap(orgs[..|orgs| - 1], c)[orgs[|orgs| - 1].org := Items(orgs[|orgs| - 1], c)]
  }

  /** `set.intersection` of every org's items; empty when there is no org. */
  function CommonItems(orgs: seq<OrgData>, c: Category): set<string>
  {
    if orgs == [] then {}
    else if |orgs| == 1 then Items(orgs[0], c)
    else CommonItems(orgs[..|orgs| - 1], c) * Items(orgs[|orgs| - 1], c)
  }

  /** Each org's items outside the common ones, for the orgs that have some. */
  function UniqueMap(orgs: seq<OrgData>, c: Category, common: set<string>): map<string, set<string>>
  {
    if orgs == [] then map[]
    else
      var o := orgs[|orgs| - 1];
      var u := Items(o, c) - common;
      var m := UniqueMap(orgs[..|orgs| - 1], c, common);
      if u != {} then m[o.org := u] else m
  }

  /** The entries of f over ps whose value is not empty. */
  function NonEmpty(f: string -> seq<Section>, ps: set<string>): map<string, seq<Section>>
  {
    map p | p in ps && f(p) != [] :: f(p)
  }

  /** One step of a loop filling the map from a shrinking set of pending keys. */
  lemma NonEmptyStep(f: string -> seq<Section>, ps: set<string>, rest: set<string>, p: string,
                     secs: seq<Section>, m: map<string, seq<Section>>)
    requires rest <= ps && p in rest && secs == f(p) && m == NonEmpty(f, ps - rest)
    ensures (if secs != [] then m[p := secs] else m) == NonEmpty(f, ps - (rest - {p}))
  {
    assert ps - (rest - {p}) == (ps - rest) + {p};
  }

  function ItemDiffs(orgs: seq<OrgData>, c: Category, selected: Record): string -> seq<Section>
  {
    p => ItemDifferences(orgs, c, p, selected)
  }

  /** What a category comparison returns. */
  datatype Comparison = Comparison(
    all: set<string>,
    perOrg: map<string, set<string>>,
    common: set<string>,
    unique: map<string, set<string>>,
    differences: map<string, seq<Section>>)

  /** The spelled-out result of comparing a category across the orgs. */
  function CategoryComparison(orgs: seq<OrgData>, c: Category, selected: Record): Comparison
  {
    var common := CommonItems(orgs, c);
    Comparison(
      AllItems(orgs, c),
      ItemMap(orgs, c),
      common,
      if c.PermissionSetGroups? then map[] else UniqueMap(orgs, c, common),
      NonEmpty(ItemDiffs(orgs, c, selected), common))
  }

  lemma {:induction false} AllItemsSpec(orgs: seq<OrgData>, c: Category, x: string)
    ensures x in AllItems(orgs, c) <==> exists t :: 0 <= t < |orgs| && x in Items(orgs[t], c)
  {
    if orgs != [] {
      var init := orgs[..|orgs| - 1];
      assert forall t :: 0 <= t < |init| ==> init[t] == orgs[t];
      AllItemsSpec(init, c, x);
    }
  }

  /** Each org is listed with exactly its own items. */
  lemma {:induction false} ItemMapSpec(orgs: seq<OrgData>, c: Category)
    requires DistinctOrgs(orgs)
    ensures forall o :: o in ItemMap(orgs, c) <==> exists t :: 0 <= t < |orgs| && orgs[t].org == o
    ensures forall t :: 0 <= t < |orgs| ==> ItemMap(orgs, c)[orgs[t].org] == Items(orgs[t], c)
  {
    if orgs != [] {
      var init := orgs[..|orgs| - 1];
      assert forall t :: 0 <= t < |init| ==> init[t] == orgs[t];
      assert DistinctOrgs(init);
      ItemMapSpec(init, c);
    }
  }

  /** The common items are those every org holds, and there are none without orgs. */
  lemma {:induction false} CommonItemsSpec(orgs: seq<OrgData>, c: Category, x: string)
    ensures x in CommonItems(orgs, c) <==> orgs != [] && forall t :: 0 <= t < |orgs| ==> x in Items(orgs[t], c)
  {
    if |orgs| > 1 {
      var init := orgs[..|orgs| - 1];
      assert forall t :: 0 <= t < |init| ==> init[t] == orgs[t];
      CommonItemsSpec(init, c, x);
    }
  }

  /** Only orgs of the data are listed with unique items. */
  lemma {:induction false} UniqueMapDomain(orgs: seq<OrgData>, c: Category, common: set<string>, o: string)
    requires o in UniqueMap(orgs, c, common)
    ensures exists t :: 0 <= t < |orgs| && orgs[t].org == o
  {
    var init := orgs[..|orgs| - 1];
    if o != orgs[|orgs| - 1].org {
      UniqueMapDomain(init, c, common, o);
      var t :| 0 <= t < |init| && init[t].org == o;
      assert orgs[t] == init[t];
    }
  }

  /** An org is listed with its non-common items exactly when it has some. */
  lemma {:induction false} UniqueMapAt(orgs: seq<OrgData>, c: Category, common: set<string>, t: nat)
    requires DistinctOrgs(orgs) && t < |orgs|
    ensures orgs[t].org in UniqueMap(orgs, c, common) <==> Items(orgs[t], c) - common != {}
    ensures orgs[t].org in UniqueMap(orgs, c, common) ==>
      UniqueMap(orgs, c, common)[orgs[t].org] == Items(orgs[t], c) - common
  {
    var init := orgs[..|orgs| - 1];
    if t < |init| {
      assert init[t] == orgs[t];
      assert DistinctOrgs(init);
      UniqueMapAt(init, c, common, t);
      assert orgs[t].org != orgs[|orgs| - 1].org;
    } else if orgs[t].org in UniqueMap(init, c, common) {
      assert forall j :: 0 <= j < |init| ==> init[j] == orgs[j];
      UniqueMapDomain(init, c, common, orgs[t].org);
    }
  }

  /**
   * An item appears among the differences exactly when every org holds it,
   * there are at least two orgs, and some compared kind has a difference
   * across them.
   */
  lemma DifferencesSpec(orgs: seq<OrgData>, c: Category, selected: Record, p: string)
    ensures p in CategoryComparison(orgs, c, selected).differences <==>
      |orgs| >= 2 && (forall t :: 0 <= t < |orgs| ==> p in Items(orgs[t], c)) &&
      exists k :: k in Compared(c, selected) && KindDiffs(Holders(orgs, c, p), k) != []
  {
    CommonItemsSpec(orgs, c, p);
    var shared := forall t :: 0 <= t < |orgs| ==> p in Items(orgs[t], c);
    if shared {
      HoldersOfShared(orgs, c, p);
    }
    CompareDifferences(orgs, c, selected, p, shared);
  }

  lemma CompareDifferences(orgs: seq<OrgData>, c: Category, selected: Record, p: string, shared: bool)
    requires p in CommonItems(orgs, c) <==> orgs != [] && shared
    requires shared ==> |Holders(orgs, c, p)| == |orgs|
    ensures p in NonEmpty(ItemDiffs(orgs, c, selected), CommonItems(orgs, c)) <==>
      |orgs| >= 2 && shared && exists k :: k in Compared(c, selected) && KindDiffs(Holders(orgs, c, p), k) != []
  {
    ItemDifferencesSpec(orgs, c, p, selected);
    var secs := ItemDifferences(orgs, c, p, selected);
    if secs != [] {
      assert secs[0] in secs;
    }
  }

  /** Every org's items split into the common ones and its unique ones. */
  lemma UniquePartition(orgs: seq<OrgData>, c: Category, selected: Record, t: nat)
    requires DistinctOrgs(orgs) && t < |orgs| && !c.PermissionSetGroups?
    ensures var r := CategoryComparison(orgs, c, selected);
      r.common <= Items(orgs[t], c) &&
      Items(orgs[t], c) == r.common + (if orgs[t].org in r.unique then r.unique[orgs[t].org] else {}) &&
      (orgs[t].org in r.unique ==> r.unique[orgs[t].org] * r.common == {})
  {
    var common := CommonItems(orgs, c);
    UniqueMapAt(orgs, c, common, t);
    forall x | x in common ensures x in Items(orgs[t], c) {
      CommonItemsSpec(orgs, c, x);
    }
  }

  /** The first loop: every org's items, and all items together. */
  method CollectItems(orgs: seq<OrgData>, c: Category) returns (all: set<string>, perOrg: map<string, set<string>>)
    ensures all == AllItems(orgs, c) && perOrg == ItemMap(orgs, c)
  {
    all := {};
    perOrg := map[];
    var i := 0;
    while i < |orgs|
      invariant 0 <= i <= |orgs|
      invariant all == AllItems(orgs[..i], c) && perOrg == ItemMap(orgs[..i], c)
    {
      perOrg := perOrg[orgs[i].org := Items(orgs[i], c)];
      all := all + Items(orgs[i], c);
      assert orgs[..i + 1][..i] == orgs[..i];
      i := i + 1;
    }
    assert orgs[..i] == orgs;
  }

  /** The unique-items loop: each org's items outside the common ones, when it has some. */
  method CollectUnique(orgs: seq<OrgData>, c: Category, common: set<string>) returns (unique: map<string, set<string>>)
    ensures unique == UniqueMap(orgs, c, common)
  {
    unique := map[];
    var i := 0;
    while i < |orgs|
      invariant 0 <= i <= |orgs|
      invariant unique == UniqueMap(orgs[..i], c, common)
    {
      var u := Items(orgs[i], c) - common;
      if u != {} {
        unique := unique[orgs[i].org := u];
      }
      assert orgs[..i + 1][..i] == orgs[..i];
      i := i + 1;
    }
    assert orgs[..i] == orgs;
  }

  /** The last loop: each common item compared, in whatever order the set yields them, kept when it differs. */
  method CompareCommon(orgs: seq<OrgData>, c: Category, selected: Record, common: set<string>)
    returns (differences: map<string, seq<Section>>)
    ensures differences == NonEmpty(ItemDiffs(orgs, c, selected), common)
  {
    differences := map[];
    var rest := common;
    while rest != {}
      invariant rest <= common
      invariant differences == NonEmpty(ItemDiffs(orgs, c, selected), common - rest)
      decreases |rest|
    {
      var p :| p in rest;
      var secs := CompareItem(orgs, c, p, selected);
      NonEmptyStep(ItemDiffs(orgs, c, selected), common, rest, p, secs, differences);
      if secs != [] {
        differences := differences[p := secs];
      }
      rest := rest - {p};
    }
    assert common - rest == common;
  }

  method CompareCategory(orgs: seq<OrgData>, c: Category, selected: Record) returns (r: Comparison)
    requires DistinctOrgs(orgs)
    ensures r == CategoryComparison(orgs, c, selected)
  {
    var all, perOrg := CollectItems(orgs, c);
    // the intersection of the per-org sets; with distinct orgs these are each org's items
    var common := CommonItems(orgs, c);
    // the group comparison does not compute unique items
    var unique: map<string, set<string>> := map[];
    if !c.PermissionSetGroups? {
      unique := CollectUnique(orgs, c, common);
    }
    var differences := CompareCommon(orgs, c, selected, common);
    r := Comparison(all, perOrg, common, unique, differences);
  }
}
