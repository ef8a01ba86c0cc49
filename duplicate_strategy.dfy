/**
 * The duplicate foreign-key strategy of the JavaScript data-comparison worker:
 * collect every record with a truthy foreign-key value across the orgs,
 * report the values that occur in at least two distinct orgs together with a
 * severity ratio, and turn each reported value into a `keep` or `blacklist`
 * resolution according to a named strategy.
 */
module DuplicateStrategy {
  import opened Common

  // ---------------------------------------------------------------------
  // Grouping with insertion order (a JavaScript `Map`, or an object filled by pushing)

  /** One record carrying a truthy foreign-key value: its org, its index in that org's file, the record. */
  datatype Occurrence = Occurrence(org: string, recordIndex: nat, record: Record)

  /** An occurrence together with the value it is grouped under. */
  datatype Tagged<K> = Tagged(tag: K, occ: Occurrence)

  /** Keys in order of first insertion, each with the occurrences pushed under it. */
  datatype Groups<K> = Groups(order: seq<K>, members: map<K, seq<Occurrence>>)

  /** `if (!g.has(k)) g.set(k, []); g.get(k).push(occ)` */
  function AddTo<K>(g: Groups<K>, t: Tagged<K>): Groups<K>
  {
    if t.tag in g.members then Groups(g.order, g.members[t.tag := g.members[t.tag] + [t.occ]])
    else Groups(g.order + [t.tag], g.members[t.tag := [t.occ]])
  }

  /** The groups after pushing every element of `ts`, in order, onto `g`. */
  function AddAll<K>(g: Groups<K>, ts: seq<Tagged<K>>): Groups<K>
  {
    if ts == [] then g else AddTo(AddAll(g, ts[..|ts| - 1]), ts[|ts| - 1])
  }

  function GroupsOf<K>(ts: seq<Tagged<K>>): Groups<K>
  {
    AddAll(Groups([], map[]), ts)
  }

  function TagsOf<K>(ts: seq<Tagged<K>>): (r: seq<K>)
    ensures |r| == |ts|
  {
    if ts == [] then [] else TagsOf(ts[..|ts| - 1]) + [ts[|ts| - 1].tag]
  }

  /** The occurrences tagged `k`, in order: the independent account of one group. */
  function WithTag<K(==)>(ts: seq<Tagged<K>>, k: K): seq<Occurrence>
  {
    if ts == [] then []
    else WithTag(ts[..|ts| - 1], k) + (if ts[|ts| - 1].tag == k then [ts[|ts| - 1].occ] else [])
  }

  lemma {:induction false} TagsOfIndex<K>(ts: seq<Tagged<K>>)
    ensures forall i :: 0 <= i < |ts| ==> TagsOf(ts)[i] == ts[i].tag
  {
    if ts != [] {
      TagsOfIndex(ts[..|ts| - 1]);
    }
  }

  lemma {:induction false} WithTagMembers<K>(ts: seq<Tagged<K>>, k: K, o: Occurrence)
    ensures o in WithTag(ts, k) <==> exists i :: 0 <= i < |ts| && ts[i] == Tagged(k, o)
  {
    if ts != [] {
      var init := ts[..|ts| - 1];
      WithTagMembers(init, k, o);
      if o in WithTag(init, k) {
        var i :| 0 <= i < |init| && init[i] == Tagged(k, o);
        assert ts[i] == Tagged(k, o);
      }
      if exists i :: 0 <= i < |ts| && ts[i] == Tagged(k, o) {
        var i :| 0 <= i < |ts| && ts[i] == Tagged(k, o);
        if i < |init| { assert init[i] == ts[i]; }
      }
    }
  }

  lemma AddAllSnoc<K>(g: Groups<K>, ts: seq<Tagged<K>>, t: Tagged<K>)
    ensures AddAll(g, ts + [t]) == AddTo(AddAll(g, ts), t)
  {
    assert (ts + [t])[..|ts + [t]| - 1] == ts;
  }

  /** Pushing `a` and then `b` is pushing `a + b`. */
  lemma {:induction false} AddAllConcat<K>(g: Groups<K>, a: seq<Tagged<K>>, b: seq<Tagged<K>>)
    ensures AddAll(g, a + b) == AddAll(AddAll(g, a), b)
    decreases |b|
  {
    if b == [] {
      assert a + b == a;
    } else {
      assert (a + b)[..|a + b| - 1] == a + b[..|b| - 1];
      AddAllConcat(g, a, b[..|b| - 1]);
    }
  }

  /**
   * The grouping keeps every tag once, in order of first appearance, and each
   * group holds exactly the occurrences with that tag, in order.
   */
  lemma {:induction false} GroupsOfSpec<K(!new)>(ts: seq<Tagged<K>>)
    ensures GroupsOf(ts).order == Dedup(TagsOf(ts))
    ensures forall k :: k in GroupsOf(ts).members <==> k in TagsOf(ts)
    ensures forall k :: k in GroupsOf(ts).members ==> GroupsOf(ts).members[k] == WithTag(ts, k) != []
    ensures forall k :: k !in GroupsOf(ts).members ==> WithTag(ts, k) == []
  {
    if ts != [] {
      var init := ts[..|ts| - 1];
      var t := ts[|ts| - 1];
      GroupsOfSpec(init);
      assert TagsOf(ts)[..|ts| - 1] == TagsOf(init);
      assert forall k :: k in TagsOf(ts) <==> k in TagsOf(init) || k == t.tag;
      var g := GroupsOf(init);
      assert GroupsOf(ts) == AddTo(g, t);
      forall k
        ensures k in GroupsOf(ts).members ==> GroupsOf(ts).members[k] == WithTag(ts, k) != []
        ensures k !in GroupsOf(ts).members ==> WithTag(ts, k) == []
      {
        assert WithTag(ts, k) == WithTag(init, k) + (if t.tag == k then [t.occ] else []);
        if k != t.tag {
          assert WithTag(ts, k) == WithTag(init, k) + [];
        } else if k !in g.members {
          assert WithTag(ts, k) == [] + [t.occ];
        }
      }
    }
  }

  lemma {:induction false} GroupsOfOrdered<K(!new)>(ts: seq<Tagged<K>>)
    ensures NoDup(GroupsOf(ts).order)
    ensures forall k :: k in GroupsOf(ts).order <==> k in GroupsOf(ts).members
  {
    GroupsOfSpec(ts);
  }

  // ---------------------------------------------------------------------
  // Org directories and the foreign-key index

  /** `orgName.replace(/[@.]/g, '_')`: the directory name of an org. */
  function SanitizeOrgName(org: string): string
  {
    ReplaceChar(ReplaceChar(org, '@', '_'), '.', '_')
  }

  /** The directory name keeps every other character, replaces `@` and `.`, and sanitising twice changes nothing. */
  lemma SanitizeOrgNameSpec(org: string)
    ensures |SanitizeOrgName(org)| == |org|
    ensures forall i :: 0 <= i < |org| ==> SanitizeOrgName(org)[i] == (if org[i] in "@." then '_' else org[i])
    ensures '@' !in SanitizeOrgName(org) && '.' !in SanitizeOrgName(org)
    ensures SanitizeOrgName(SanitizeOrgName(org)) == SanitizeOrgName(org)
  {
    var r := SanitizeOrgName(org);
    assert forall i :: 0 <= i < |r| ==> r[i] != '@' && r[i] != '.';
    assert SanitizeOrgName(r) == r;
  }

  /**
   * The records read from an org's file, keyed by directory name; an org
   * without a file, or whose file fails to load, contributes nothing.
   */
  function LoadedRecords(files: map<string, seq<Record>>, org: string): seq<Record>
  {
    if SanitizeOrgName(org) in files then files[SanitizeOrgName(org)] else []
  }

  /** The records among `records[..n]` with a truthy key, tagged by that key. */
  function FkTagged(org: string, records: seq<Record>, fk: string, n: nat): seq<Tagged<Value>>
    requires n <= |records|
  {
    if n == 0 then []
    else
      FkTagged(org, records, fk, n - 1)
      + (if Truthy(Get(records[n - 1], fk)) then [Tagged(Get(records[n - 1], fk), Occurrence(org, n - 1, records[n - 1]))] else [])
  }

  /** Every keyed record of `orgs[..n]`, org by org, in file order. */
  function AllFkTagged(orgs: seq<string>, files: map<string, seq<Record>>, fk: string, n: nat): seq<Tagged<Value>>
    requires n <= |orgs|
  {
    if n == 0 then []
    else
      var records := LoadedRecords(files, orgs[n - 1]);
      AllFkTagged(orgs, files, fk, n - 1) + FkTagged(orgs[n - 1], records, fk, |records|)
  }

  /** Only records whose key is truthy are indexed, each under its own key, and every such record is. */
  lemma {:induction false} FkTaggedSpec(org: string, records: seq<Record>, fk: string, n: nat, t: Tagged<Value>)
    requires n <= |records|
    ensures t in FkTagged(org, records, fk, n) <==>
              t.occ.org == org && t.occ.recordIndex < n && t.occ.record == records[t.occ.recordIndex]
              && Truthy(t.tag) && t.tag == Get(t.occ.record, fk)
  {
    if n > 0 {
      FkTaggedSpec(org, records, fk, n - 1, t);
    }
  }

  // ---------------------------------------------------------------------
  // Severity

  /** The compared fields: those of the first record not starting with `_`. */
  function FieldNames(r: Record): set<string>
  {
    set k | k in r && !StartsWith(k, "_")
  }

  /** `new Set(records.map(r => r[f]).filter(v => v !== null && v !== undefined))` */
  function NonNullValues(records: seq<Record>, f: string): set<Value>
  {
    if records == [] then {}
    else NonNullValues(records[..|records| - 1], f) + (if Get(records[|records| - 1], f) != Null then {Get(records[|records| - 1], f)} else {})
  }

  predicate Differs(records: seq<Record>, f: string)
  {
    |NonNullValues(records, f)| > 1
  }

  /** A field differs exactly when two records hold different non-null values for it. */
  lemma DiffersSpec(records: seq<Record>, f: string)
    ensures Differs(records, f) <==>
              exists i, j :: 0 <= i < |records| && 0 <= j < |records| && Get(records[i], f) != Null && Get(records[j], f) != Null
                             && Get(records[i], f) != Get(records[j], f)
  {
    if Differs(records, f) {
      DiffersWitness(records, f);
    } else {
      forall i, j | 0 <= i < |records| && 0 <= j < |records| && Get(records[i], f) != Null && Get(records[j], f) != Null
        ensures Get(records[i], f) == Get(records[j], f)
      {
        if Get(records[i], f) != Get(records[j], f) {
          TwoValuesDiffer(records, f, i, j);
        }
      }
    }
  }

  lemma DiffersWitness(records: seq<Record>, f: string)
    requires Differs(records, f)
    ensures exists i, j :: 0 <= i < |records| && 0 <= j < |records| && Get(records[i], f) != Null && Get(records[j], f) != Null
                           && Get(records[i], f) != Get(records[j], f)
  {
    var vs := NonNullValues(records, f);
    NonNullValuesMembers(records, f);
    var a :| a in vs;
    assert |vs - {a}| == |vs| - 1;
    var b :| b in vs - {a};
    var i :| 0 <= i < |records| && Get(records[i], f) == a;
    var j :| 0 <= j < |records| && Get(records[j], f) == b;
  }

  lemma TwoValuesDiffer(records: seq<Record>, f: string, i: nat, j: nat)
    requires i < |records| && j < |records| && Get(records[i], f) != Null && Get(records[j], f) != Null
    requires Get(records[i], f) != Get(records[j], f)
    ensures Differs(records, f)
  {
    var vs := NonNullValues(records, f);
    NonNullValuesMembers(records, f);
    var pair := {Get(records[i], f), Get(records[j], f)};
    assert pair <= vs;
    assert |pair| == 2;
    SubsetCard(pair, vs);
  }

  lemma SubsetCard<T>(a: set<T>, b: set<T>)
    requires a <= b
    ensures |a| <= |b|
  {
    assert b == a + (b - a);
  }

  lemma {:induction false} NonNullValuesMembers(records: seq<Record>, f: string)
    ensures forall v :: v in NonNullValues(records, f) <==> v != Null && exists i :: 0 <= i < |records| && Get(records[i], f) == v
  {
    if records != [] {
      var init := records[..|records| - 1];
      NonNullValuesMembers(init, f);
      forall v
        ensures v in NonNullValues(records, f) <==> v != Null && exists i :: 0 <= i < |records| && Get(records[i], f) == v
      {
        if v in NonNullValues(init, f) {
          var i :| 0 <= i < |init| && Get(init[i], f) == v;
          assert records[i] == init[i];
        }
        if exists i :: 0 <= i < |records| && Get(records[i], f) == v {
          var i :| 0 <= i < |records| && Get(records[i], f) == v;
          if i < |init| { assert init[i] == records[i]; }
        }
      }
    }
  }

  /** How many of `fields[..n]` differ across the records. */
  function CountDiffering(records: seq<Record>, fields: seq<string>, n: nat): (c: nat)
    requires n <= |fields|
    ensures c <= n
  {
    if n == 0 then 0 else CountDiffering(records, fields, n - 1) + (if Differs(records, fields[n - 1]) then 1 else 0)
  }

  lemma {:induction false} CountDifferingExtremes(records: seq<Record>, fields: seq<string>, n: nat)
    requires n <= |fields|
    ensures CountDiffering(records, fields, n) == 0 <==> forall i :: 0 <= i < n ==> !Differs(records, fields[i])
    ensures CountDiffering(records, fields, n) == n <==> forall i :: 0 <= i < n ==> Differs(records, fields[i])
  {
    if n > 0 {
      CountDifferingExtremes(records, fields, n - 1);
    }
  }

  /** `calculateDuplicateSeverity` on the first record of each org: the share of compared fields that differ. */
  function Severity(records: seq<Record>): real
  {
    if |records| < 2 then 0.0
    else
      var fields := SortedOfSet(FieldNames(records[0]));
      if |fields| > 0 then CountDiffering(records, fields, |fields|) as real / |fields| as real else 0.0
  }

  lemma RatioBounds(d: nat, t: nat)
    requires d <= t && t > 0
    ensures 0.0 <= d as real / t as real <= 1.0
    ensures d as real / t as real == 0.0 <==> d == 0
    ensures d as real / t as real == 1.0 <==> d == t
  {
    var q := d as real / t as real;
    assert q * t as real == d as real;
  }

  /**
   * Severity lies in [0, 1]; it is 0 for fewer than two orgs or when no
   * compared field differs, and 1 exactly when there are compared fields and
   * every one of them differs.
   */
  lemma SeverityBounds(records: seq<Record>)
    ensures 0.0 <= Severity(records) <= 1.0
    ensures |records| < 2 ==> Severity(records) == 0.0
    ensures |records| >= 2 ==>
              (Severity(records) == 0.0 <==> forall f :: f in FieldNames(records[0]) ==> !Differs(records, f))
    ensures Severity(records) == 1.0 <==>
              |records| >= 2 && FieldNames(records[0]) != {} && forall f :: f in FieldNames(records[0]) ==> Differs(records, f)
  {
    if |records| >= 2 {
      var names := FieldNames(records[0]);
      var fields := SortedOfSet(names);
      SortedOfSetSpec(names);
      CountDifferingExtremes(records, fields, |fields|);
      if |fields| > 0 {
        RatioBounds(CountDiffering(records, fields, |fields|), |fields|);
      }
      assert (forall f :: f in names ==> !Differs(records, f)) <==> forall i :: 0 <= i < |fields| ==> !Differs(records, fields[i]);
      assert (forall f :: f in names ==> Differs(records, f)) <==> forall i :: 0 <= i < |fields| ==> Differs(records, fields[i]);
    }
  }

  /** The first record of each listed org: `orgs.map(org => orgGroups[org][0].record)`. */
  function FirstRecords(g: Groups<string>, orgs: seq<string>): (rs: seq<Record>)
    requires forall o :: o in orgs ==> o in g.members && g.members[o] != []
    ensures |rs| == |orgs|
  {
    if orgs == [] then [] else FirstRecords(g, orgs[..|orgs| - 1]) + [g.members[orgs[|orgs| - 1]][0].record]
  }

  /** Well-formed org groups: every listed org has a non-empty group. */
  ghost predicate WellGrouped(g: Groups<string>)
  {
    forall o :: o in g.order ==> o in g.members && g.members[o] != []
  }

  method CalculateDuplicateSeverity(g: Groups<string>) returns (severity: real)
    requires WellGrouped(g)
    ensures severity == Severity(FirstRecords(g, g.order))
  {
    var orgs := g.order;
    if |orgs| < 2 {
      return 0.0;
    }
    var records := FirstRecords(g, orgs);
    var fieldNames := SortedOfSet(FieldNames(records[0]));
    var totalFields := 0;
    var differentFields := 0;
    for i := 0 to |fieldNames|
      invariant totalFields == i
      invariant differentFields == CountDiffering(records, fieldNames, i)
    {
      totalFields := totalFields + 1;
      if |NonNullValues(records, fieldNames[i])| > 1 {
        differentFields := differentFields + 1;
      }
    }
    severity := if totalFields > 0 then differentFields as real / totalFields as real else 0.0;
  }

  // ---------------------------------------------------------------------
  // Duplicates of one object

  /** `orgGroups`: the occurrences of one key grouped by org, in order of first appearance. */
  function ByOrg(occs: seq<Occurrence>): (ts: seq<Tagged<string>>)
    ensures |ts| == |occs|
    ensures forall i :: 0 <= i < |occs| ==> ts[i] == Tagged(occs[i].org, occs[i])
  {
    if occs == [] then [] else ByOrg(occs[..|occs| - 1]) + [Tagged(occs[|occs| - 1].org, occs[|occs| - 1])]
  }

  datatype DuplicateInfo = DuplicateInfo(totalOccurrences: nat, orgsAffected: seq<string>, orgBreakdown: Groups<string>,
                                         severity: real)

  datatype DuplicateEntry = DuplicateEntry(key: Value, info: DuplicateInfo)

  /** Two occurrences of the list lie in different orgs. */
  ghost predicate InTwoOrgs(occs: seq<Occurrence>)
  {
    exists a, b :: 0 <= a < |occs| && 0 <= b < |occs| && occs[a].org != occs[b].org
  }

  function OrgsOf(occs: seq<Occurrence>): (orgs: seq<string>)
    ensures |orgs| == |occs|
    ensures forall i :: 0 <= i < |occs| ==> orgs[i] == occs[i].org
  {
    if occs == [] then [] else OrgsOf(occs[..|occs| - 1]) + [occs[|occs| - 1].org]
  }

  /** The record of the first occurrence of each org, in order of first appearance. */
  function FirstOfEach(occs: seq<Occurrence>): seq<Record>
  {
    if occs == [] then []
    else
      var init := occs[..|occs| - 1];
      FirstOfEach(init) + (if occs[|occs| - 1].org in OrgsOf(init) then [] else [occs[|occs| - 1].record])
  }

  /**
   * The report entry for one key of the index: present if the key occurs more
   * than once and in more than one org, with the orgs in order of first
   * appearance, the occurrences grouped by org, and the severity over the
   * first record of each org.
   */
  function DuplicateFor(ix: Groups<Value>, key: Value): Option<DuplicateEntry>
    requires key in ix.members
  {
    var occs := ix.members[key];
    var orgs := Dedup(OrgsOf(occs));
    if |occs| > 1 && |orgs| > 1 then
      Some(DuplicateEntry(key, DuplicateInfo(|occs|, orgs, GroupsOf(ByOrg(occs)), Severity(FirstOfEach(occs)))))
    else None
  }

  lemma {:induction false} ByOrgTags(occs: seq<Occurrence>)
    ensures TagsOf(ByOrg(occs)) == OrgsOf(occs)
  {
    TagsOfIndex(ByOrg(occs));
  }

  /** `orgGroups` lists the orgs in order of first appearance, each with exactly its occurrences. */
  lemma BreakdownSpec(occs: seq<Occurrence>)
    ensures GroupsOf(ByOrg(occs)).order == Dedup(OrgsOf(occs))
    ensures WellGrouped(GroupsOf(ByOrg(occs)))
    ensures forall o :: o in GroupsOf(ByOrg(occs)).members ==> GroupsOf(ByOrg(occs)).members[o] == WithTag(ByOrg(occs), o)
  {
    GroupsOfSpec(ByOrg(occs));
    GroupsOfOrdered(ByOrg(occs));
    ByOrgTags(occs);
  }

  lemma {:induction false} FirstRecordsFrame(g1: Groups<string>, g2: Groups<string>, orgs: seq<string>)
    requires forall o :: o in orgs ==> o in g1.members && g1.members[o] != []
    requires forall o :: o in orgs ==> o in g2.members && g2.members[o] != [] && g2.members[o][0] == g1.members[o][0]
    ensures FirstRecords(g1, orgs) == FirstRecords(g2, orgs)
  {
    if orgs != [] {
      assert forall o :: o in orgs[..|orgs| - 1] ==> o in orgs;
      FirstRecordsFrame(g1, g2, orgs[..|orgs| - 1]);
    }
  }

  lemma AddToWellGrouped(g: Groups<string>, t: Tagged<string>)
    requires WellGrouped(g)
    ensures WellGrouped(AddTo(g, t))
    ensures forall o :: o in g.order ==> AddTo(g, t).members[o][0] == g.members[o][0]
  {
  }

  lemma OrgGroupKeys(occs: seq<Occurrence>, o: string)
    ensures o in GroupsOf(ByOrg(occs)).members <==> o in OrgsOf(occs)
  {
    GroupsOfSpec(ByOrg(occs));
    ByOrgTags(occs);
  }

  /** `orgs.map(org => orgGroups[org][0].record)` is the first record of each org. */
  lemma {:induction false} FirstRecordsAgree(occs: seq<Occurrence>)
    ensures WellGrouped(GroupsOf(ByOrg(occs)))
    ensures FirstRecords(GroupsOf(ByOrg(occs)), GroupsOf(ByOrg(occs)).order) == FirstOfEach(occs)
  {
    if occs != [] {
      var init := occs[..|occs| - 1];
      var last := occs[|occs| - 1];
      var t := Tagged(last.org, last);
      FirstRecordsAgree(init);
      assert ByOrg(occs) == ByOrg(init) + [t];
      AddAllSnoc(Groups([], map[]), ByOrg(init), t);
      var g := GroupsOf(ByOrg(init));
      var g' := GroupsOf(ByOrg(occs));
      assert g' == AddTo(g, t);
      AddToWellGrouped(g, t);
      FirstRecordsFrame(g, g', g.order);
      OrgGroupKeys(init, last.org);
      if last.org !in g.members {
        assert g'.order[..|g'.order| - 1] == g.order;
      }
    }
  }

  /** The values present in a sequence of options, in order. */
  function Somes<T>(opts: seq<Option<T>>): seq<T>
  {
    if opts == [] then []
    else Somes(opts[..|opts| - 1]) + match opts[|opts| - 1] { case Some(x) => [x] case None => [] }
  }

  lemma {:induction false} SomesMembers<T>(opts: seq<Option<T>>, x: T)
    ensures x in Somes(opts) <==> Some(x) in opts
  {
    if opts != [] {
      var init := opts[..|opts| - 1];
      SomesMembers(init, x);
      assert opts == init + [opts[|opts| - 1]];
    }
  }

  /** `DuplicateFor` applied to each of `keys[..n]`. */
  function Candidates(ix: Groups<Value>, keys: seq<Value>, n: nat): (cs: seq<Option<DuplicateEntry>>)
    requires n <= |keys|
    requires forall k :: k in keys ==> k in ix.members
    ensures |cs| == n
  {
    if n == 0 then [] else Candidates(ix, keys, n - 1) + [DuplicateFor(ix, keys[n - 1])]
  }

  lemma {:induction false} CandidatesIndex(ix: Groups<Value>, keys: seq<Value>, n: nat)
    requires n <= |keys|
    requires forall k :: k in keys ==> k in ix.members
    ensures forall i :: 0 <= i < n ==> Candidates(ix, keys, n)[i] == DuplicateFor(ix, keys[i])
  {
    if n > 0 { CandidatesIndex(ix, keys, n - 1); }
  }

  /** The entries for the keys of `keys`, in order. */
  function DuplicatesOver(ix: Groups<Value>, keys: seq<Value>): seq<DuplicateEntry>
    requires forall k :: k in keys ==> k in ix.members
  {
    Somes(Candidates(ix, keys, |keys|))
  }

  /** `findDuplicatesForObject`: the index over every org's file, then its duplicated keys in index order. */
  function FindDuplicates(orgs: seq<string>, files: map<string, seq<Record>>, fk: string): seq<DuplicateEntry>
  {
    var ix := GroupsOf(AllFkTagged(orgs, files, fk, |orgs|));
    GroupsOfOrdered(AllFkTagged(orgs, files, fk, |orgs|));
    DuplicatesOver(ix, ix.order)
  }

  lemma DuplicateForHasKey(ix: Groups<Value>, key: Value)
    requires key in ix.members
    ensures DuplicateFor(ix, key).Some? ==> DuplicateFor(ix, key).value.key == key
  {
  }

  /** A key is reported exactly when its occurrences span two orgs. */
  lemma DuplicateForIff(ix: Groups<Value>, key: Value)
    requires key in ix.members
    ensures DuplicateFor(ix, key).Some? <==> InTwoOrgs(ix.members[key])
  {
    var occs := ix.members[key];
    DedupMany(OrgsOf(occs));
  }

  /** A reported entry counts every occurrence, lists each affected org once, and has a severity in [0, 1]. */
  lemma DuplicateForInfo(ix: Groups<Value>, key: Value)
    requires key in ix.members && DuplicateFor(ix, key).Some?
    ensures var info := DuplicateFor(ix, key).value.info;
              info.totalOccurrences == |ix.members[key]| && NoDup(info.orgsAffected)
              && (forall o :: o in info.orgsAffected <==> exists a :: 0 <= a < |ix.members[key]| && ix.members[key][a].org == o)
              && 0.0 <= info.severity <= 1.0
  {
    var occs := ix.members[key];
    SeverityBounds(FirstOfEach(occs));
    forall o ensures o in OrgsOf(occs) <==> exists a :: 0 <= a < |occs| && occs[a].org == o {
      if o in OrgsOf(occs) {
        var a :| 0 <= a < |occs| && OrgsOf(occs)[a] == o;
      }
    }
  }

  /** Two records carrying `key` come from different orgs. */
  ghost predicate KeyInTwoOrgs(ts: seq<Tagged<Value>>, key: Value)
  {
    exists i, j :: 0 <= i < |ts| && 0 <= j < |ts| && ts[i].tag == key && ts[j].tag == key && ts[i].occ.org != ts[j].occ.org
  }

  /** The occurrences grouped under a key span two orgs exactly when two records with that key come from different orgs. */
  lemma TwoOrgsOfKey(ts: seq<Tagged<Value>>, key: Value)
    ensures InTwoOrgs(WithTag(ts, key)) <==> KeyInTwoOrgs(ts, key)
  {
    var occs := WithTag(ts, key);
    if InTwoOrgs(occs) {
      var a, b :| 0 <= a < |occs| && 0 <= b < |occs| && occs[a].org != occs[b].org;
      WithTagMembers(ts, key, occs[a]);
      WithTagMembers(ts, key, occs[b]);
    }
    if exists i, j :: 0 <= i < |ts| && 0 <= j < |ts| && ts[i].tag == key && ts[j].tag == key && ts[i].occ.org != ts[j].occ.org {
      var i, j :| 0 <= i < |ts| && 0 <= j < |ts| && ts[i].tag == key && ts[j].tag == key && ts[i].occ.org != ts[j].occ.org;
      WithTagMembers(ts, key, ts[i].occ);
      WithTagMembers(ts, key, ts[j].occ);
      var a :| 0 <= a < |occs| && occs[a] == ts[i].occ;
      var b :| 0 <= b < |occs| && occs[b] == ts[j].occ;
    }
  }

  /** The index lists exactly the keys that some record carries. */
  lemma IndexKeys(ts: seq<Tagged<Value>>, key: Value)
    ensures key in GroupsOf(ts).order <==> exists i :: 0 <= i < |ts| && ts[i].tag == key
    ensures key in GroupsOf(ts).order ==> key in GroupsOf(ts).members && GroupsOf(ts).members[key] == WithTag(ts, key)
  {
    GroupsOfSpec(ts);
    GroupsOfOrdered(ts);
    TagsOfIndex(ts);
    if key in TagsOf(ts) {
      var i :| 0 <= i < |ts| && TagsOf(ts)[i] == key;
    }
  }

  /** An entry reported over the index is the report of one of its keys. */
  lemma EntryOfKey(ix: Groups<Value>, e: DuplicateEntry) returns (i: nat)
    requires forall k :: k in ix.order ==> k in ix.members
    requires e in DuplicatesOver(ix, ix.order)
    ensures i < |ix.order| && DuplicateFor(ix, ix.order[i]) == Some(e)
  {
    var cs := Candidates(ix, ix.order, |ix.order|);
    SomesMembers(cs, e);
    i :| 0 <= i < |cs| && cs[i] == Some(e);
    CandidatesIndex(ix, ix.order, |ix.order|);
  }

  /** The report of a key of the index is among the entries. */
  lemma KeyReported(ix: Groups<Value>, i: nat)
    requires forall k :: k in ix.order ==> k in ix.members
    requires i < |ix.order| && DuplicateFor(ix, ix.order[i]).Some?
    ensures DuplicateFor(ix, ix.order[i]).value in DuplicatesOver(ix, ix.order)
  {
    var cs := Candidates(ix, ix.order, |ix.order|);
    CandidatesIndex(ix, ix.order, |ix.order|);
    assert cs[i] == DuplicateFor(ix, ix.order[i]);
    SomesMembers(cs, DuplicateFor(ix, ix.order[i]).value);
  }

  /** Over any stream of keyed records: a key is reported exactly when two of its records come from different orgs. */
  lemma ReportedIff(ts: seq<Tagged<Value>>, key: Value)
    requires forall k :: k in GroupsOf(ts).order ==> k in GroupsOf(ts).members
    ensures (exists e :: e in DuplicatesOver(GroupsOf(ts), GroupsOf(ts).order) && e.key == key) <==> KeyInTwoOrgs(ts, key)
  {
    var ix := GroupsOf(ts);
    IndexKeys(ts, key);
    TwoOrgsOfKey(ts, key);
    if exists e :: e in DuplicatesOver(ix, ix.order) && e.key == key {
      var e :| e in DuplicatesOver(ix, ix.order) && e.key == key;
      var i := EntryOfKey(ix, e);
      DuplicateForHasKey(ix, ix.order[i]);
      DuplicateForIff(ix, key);
    }
    if KeyInTwoOrgs(ts, key) {
      var i :| 0 <= i < |ix.order| && ix.order[i] == key;
      DuplicateForIff(ix, key);
      DuplicateForHasKey(ix, key);
      KeyReported(ix, i);
    }
  }

  /** A key is reported by `findDuplicatesForObject` exactly when two records carrying it come from different orgs. */
  lemma FindDuplicatesSpec(orgs: seq<string>, files: map<string, seq<Record>>, fk: string, key: Value)
    ensures (exists e :: e in FindDuplicates(orgs, files, fk) && e.key == key) <==>
              KeyInTwoOrgs(AllFkTagged(orgs, files, fk, |orgs|), key)
  {
    var ts := AllFkTagged(orgs, files, fk, |orgs|);
    GroupsOfOrdered(ts);
    assert FindDuplicates(orgs, files, fk) == DuplicatesOver(GroupsOf(ts), GroupsOf(ts).order);
    ReportedIff(ts, key);
  }

  function KeysOf(es: seq<DuplicateEntry>): (ks: seq<Value>)
    ensures |ks| == |es|
  {
    if es == [] then [] else KeysOf(es[..|es| - 1]) + [es[|es| - 1].key]
  }

  lemma SomesSnoc<T>(opts: seq<Option<T>>, o: Option<T>)
    ensures Somes(opts + [o]) == Somes(opts) + match o { case Some(x) => [x] case None => [] }
  {
    assert (opts + [o])[..|opts + [o]| - 1] == opts;
  }

  lemma KeysOfSnoc(es: seq<DuplicateEntry>, e: DuplicateEntry)
    ensures KeysOf(es + [e]) == KeysOf(es) + [e.key]
  {
    assert (es + [e])[..|es + [e]| - 1] == es;
  }

  lemma NoDupSnoc<T>(s: seq<T>, x: T)
    requires NoDup(s) && x !in s
    ensures NoDup(s + [x])
  {
  }

  lemma {:induction false} DistinctCandidates(ix: Groups<Value>, keys: seq<Value>, n: nat)
    requires n <= |keys| && NoDup(keys)
    requires forall k :: k in keys ==> k in ix.members
    ensures NoDup(KeysOf(Somes(Candidates(ix, keys, n))))
    ensures forall k :: k in KeysOf(Somes(Candidates(ix, keys, n))) ==> k in keys[..n]
  {
    if n > 0 {
      var cs := Candidates(ix, keys, n - 1);
      var o := DuplicateFor(ix, keys[n - 1]);
      DistinctCandidates(ix, keys, n - 1);
      assert Candidates(ix, keys, n) == cs + [o];
      SomesSnoc(cs, o);
      assert forall k :: k in keys[..n - 1] ==> k in keys[..n];
      var prev := Somes(cs);
      if o.Some? {
        DuplicateForHasKey(ix, keys[n - 1]);
        KeysOfSnoc(prev, o.value);
        assert keys[n - 1] !in keys[..n - 1];
        NoDupSnoc(KeysOf(prev), keys[n - 1]);
        assert keys[n - 1] in keys[..n];
      } else {
        assert Somes(cs + [o]) == prev + [];
        assert prev + [] == prev;
      }
    }
  }

  /** Reported keys are distinct: the duplicates form a map from key to entry. */
  lemma FindDuplicatesDistinct(orgs: seq<string>, files: map<string, seq<Record>>, fk: string)
    ensures NoDup(KeysOf(FindDuplicates(orgs, files, fk)))
  {
    var ts := AllFkTagged(orgs, files, fk, |orgs|);
    var ix := GroupsOf(ts);
    GroupsOfOrdered(ts);
    DistinctCandidates(ix, ix.order, |ix.order|);
  }

  // ---------------------------------------------------------------------
  // The scanning loops of findDuplicatesForObject

  /** The inner loop: push every keyed record of one org's file onto the index. */
  method IndexOrg(ix0: Groups<Value>, org: string, records: seq<Record>, fk: string) returns (ix: Groups<Value>)
    ensures ix == AddAll(ix0, FkTagged(org, records, fk, |records|))
  {
    ix := ix0;
    for i := 0 to |records|
      invariant ix == AddAll(ix0, FkTagged(org, records, fk, i))
    {
      var fkValue := Get(records[i], fk);
      if Truthy(fkValue) {
        var t := Tagged(fkValue, Occurrence(org, i, records[i]));
        var prev := FkTagged(org, records, fk, i);
        assert FkTagged(org, records, fk, i + 1) == prev + [t];
        AddAllSnoc(ix0, prev, t);
        ix := AddTo(ix, t);
      } else {
        var prev := FkTagged(org, records, fk, i);
        assert FkTagged(org, records, fk, i + 1) == prev + [];
        assert prev + [] == prev;
      }
    }
  }

  /** The outer loop over the orgs: the index of every keyed record, org by org. */
  method IndexForeignKeys(orgs: seq<string>, files: map<string, seq<Record>>, fk: string) returns (ix: Groups<Value>)
    ensures ix == GroupsOf(AllFkTagged(orgs, files, fk, |orgs|))
  {
    ix := Groups([], map[]);
    for i := 0 to |orgs|
      invariant ix == GroupsOf(AllFkTagged(orgs, files, fk, i))
    {
      var orgDir := SanitizeOrgName(orgs[i]);
      if orgDir in files {
        ix := IndexOrg(ix, orgs[i], files[orgDir], fk);
      } else {
        ix := IndexOrg(ix, orgs[i], [], fk);
      }
      AddAllConcat(Groups([], map[]), AllFkTagged(orgs, files, fk, i), FkTagged(orgs[i], LoadedRecords(files, orgs[i]), fk, |LoadedRecords(files, orgs[i])|));
    }
  }

  /** `occurrences.forEach(occ => orgGroups[occ.org].push(occ))` */
  method GroupByOrg(occs: seq<Occurrence>) returns (g: Groups<string>)
    ensures g == GroupsOf(ByOrg(occs))
  {
    g := Groups([], map[]);
    for i := 0 to |occs|
      invariant g == GroupsOf(ByOrg(occs[..i]))
    {
      assert occs[..i + 1][..i] == occs[..i];
      g := AddTo(g, Tagged(occs[i].org, occs[i]));
    }
    assert occs[..|occs|] == occs;
  }

  method ReportKey(ix: Groups<Value>, key: Value) returns (e: Option<DuplicateEntry>)
    requires key in ix.members
    ensures e == DuplicateFor(ix, key)
  {
    var occurrences := ix.members[key];
    if |occurrences| > 1 {
      var orgGroups := GroupByOrg(occurrences);
      BreakdownSpec(occurrences);
      if |orgGroups.order| > 1 {
        var severity := CalculateDuplicateSeverity(orgGroups);
        FirstRecordsAgree(occurrences);
        return Some(DuplicateEntry(key, DuplicateInfo(|occurrences|, orgGroups.order, orgGroups, severity)));
      }
    }
    return None;
  }

  method FindDuplicatesForObject(orgs: seq<string>, files: map<string, seq<Record>>, objectName: string, fk: string)
    returns (duplicates: seq<DuplicateEntry>)
    ensures duplicates == FindDuplicates(orgs, files, fk)
  {
    var ix := IndexForeignKeys(orgs, files, fk);
    GroupsOfOrdered(AllFkTagged(orgs, files, fk, |orgs|));
    duplicates := [];
    for i := 0 to |ix.order|
      invariant duplicates == Somes(Candidates(ix, ix.order, i))
    {
      var e := ReportKey(ix, ix.order[i]);
      var cs := Candidates(ix, ix.order, i);
      assert Candidates(ix, ix.order, i + 1) == cs + [e];
      assert (cs + [e])[..|cs + [e]| - 1] == cs;
      if e.Some? {
        duplicates := duplicates + [e.value];
      } else {
        assert Somes(cs + [e]) == duplicates + [];
      }
    }
  }

  // ---------------------------------------------------------------------
  // Resolution strategies

  /** An org name without `scratch`, `test` or `dev` in it counts as a production org. */
  predicate IsProduction(org: string)
  {
    !Contains(org, "scratch") && !Contains(org, "test") && !Contains(org, "dev")
  }

  function ProductionOrgs(orgs: seq<string>): seq<string>
  {
    if orgs == [] then []
    else ProductionOrgs(orgs[..|orgs| - 1]) + (if IsProduction(orgs[|orgs| - 1]) then [orgs[|orgs| - 1]] else [])
  }

  lemma {:induction false} ProductionOrgsMembers(orgs: seq<string>)
    ensures forall o :: o in ProductionOrgs(orgs) <==> o in orgs && IsProduction(o)
  {
    if orgs != [] {
      ProductionOrgsMembers(orgs[..|orgs| - 1]);
      assert orgs == orgs[..|orgs| - 1] + [orgs[|orgs| - 1]];
    }
  }

  /**
   * `selectBestOrg`: the alphabetically first production org, else the
   * alphabetically first org; nothing (JavaScript `undefined`) when there is no org.
   */
  function SelectBestOrg(orgBreakdown: Groups<string>): Option<string>
  {
    var orgs := orgBreakdown.order;
    var production := ProductionOrgs(orgs);
    if |production| > 0 then Some(Min(production))
    else if |orgs| > 0 then Some(Min(orgs))
    else None
  }

  lemma SelectBestOrgSpec(orgBreakdown: Groups<string>)
    ensures SelectBestOrg(orgBreakdown).Some? <==> orgBreakdown.order != []
    ensures SelectBestOrg(orgBreakdown).Some? ==> SelectBestOrg(orgBreakdown).value in orgBreakdown.order
    ensures (exists o :: o in orgBreakdown.order && IsProduction(o)) ==>
              var best := SelectBestOrg(orgBreakdown).value;
              IsProduction(best) && forall o :: o in orgBreakdown.order && IsProduction(o) ==> LessEq(best, o)
    ensures (forall o :: o in orgBreakdown.order ==> !IsProduction(o)) && orgBreakdown.order != [] ==>
              forall o :: o in orgBreakdown.order ==> LessEq(SelectBestOrg(orgBreakdown).value, o)
  {
    ProductionOrgsMembers(orgBreakdown.order);
    if exists o :: o in orgBreakdown.order && IsProduction(o) {
      var o :| o in orgBreakdown.order && IsProduction(o);
      assert o in ProductionOrgs(orgBreakdown.order);
    }
  }

  datatype Action = Keep | Blacklist

  /** The reason attached to a resolution; `ReasonText` gives its wording. */
  datatype Reason =
    | NoReason
    | HighSeverity
    | LowSeverity(org: Option<string>)
    | SevereConflict
    | Manageable(org: Option<string>)
    | BlacklistAllStrategy
    | KeepFirstStrategy(org: Option<string>)
    | UnknownStrategy

  /** A possibly undefined org name interpolated into a template string. */
  function OrgText(org: Option<string>): string
  {
    match org
    case Some(o) => o
    case None => "undefined"
  }

  function ReasonText(reason: Reason): string
  {
    match reason
    case NoReason => ""
    case HighSeverity => "High-severity duplicate - data differs significantly across orgs"
    case LowSeverity(org) => "Low-severity duplicate - keeping record from " + OrgText(org)
    case SevereConflict => "Severe data conflict - completely different records"
    case Manageable(org) => "Manageable duplicate - keeping record from " + OrgText(org)
    case BlacklistAllStrategy => "Blacklist-all strategy - removing all duplicate foreign keys"
    case KeepFirstStrategy(org) => "Keep-first strategy - keeping record from " + OrgText(org)
    case UnknownStrategy => "Unknown strategy - defaulting to keep"
  }

  datatype Resolution = Resolution(objectName: string, foreignKeyValue: Value, severity: real, orgsAffected: seq<string>,
                                   totalOccurrences: nat, action: Action, reason: Reason, selectedOrg: Option<string>)

  /**
   * `resolveSingleDuplicate`. Under `keep_first` the affected-org list is
   * sorted in place, so the resolution carries it sorted.
   */
  function ResolveSingleDuplicate(objectName: string, fkValue: Value, info: DuplicateInfo, strategy: string): (r: Resolution)
  {
    var base := Resolution(objectName, fkValue, info.severity, info.orgsAffected, info.totalOccurrences, Keep, NoReason, None);
    if strategy == "conservative" then
      if info.severity >= 0.8 then
        base.(action := Blacklist, reason := HighSeverity)
      else
        var selected := SelectBestOrg(info.orgBreakdown);
        base.(selectedOrg := selected, reason := LowSeverity(selected))
    else if strategy == "aggressive" then
      if info.severity >= 0.95 then
        base.(action := Blacklist, reason := SevereConflict)
      else
        var selected := SelectBestOrg(info.orgBreakdown);
        base.(selectedOrg := selected, reason := Manageable(selected))
    else if strategy == "blacklist_all" then
      base.(action := Blacklist, reason := BlacklistAllStrategy)
    else if strategy == "keep_first" then
      var sorted := Sort(info.orgsAffected);
      var first := if |sorted| > 0 then Some(sorted[0]) else None;
      base.(orgsAffected := sorted, selectedOrg := first, reason := KeepFirstStrategy(first))
    else
      base.(reason := UnknownStrategy)
  }

  /** Whether a strategy blacklists a duplicate of the given severity. */
  function StrategyAction(severity: real, strategy: string): Action
  {
    if strategy == "blacklist_all" then Blacklist
    else if strategy == "conservative" && severity >= 0.8 then Blacklist
    else if strategy == "aggressive" && severity >= 0.95 then Blacklist
    else Keep
  }

  /** The resolution takes the strategy's action and names the duplicate's object and key. */
  lemma ResolveAction(objectName: string, fkValue: Value, info: DuplicateInfo, strategy: string)
    ensures ResolveSingleDuplicate(objectName, fkValue, info, strategy).action == StrategyAction(info.severity, strategy)
    ensures ResolveSingleDuplicate(objectName, fkValue, info, strategy).objectName == objectName
    ensures ResolveSingleDuplicate(objectName, fkValue, info, strategy).foreignKeyValue == fkValue
  {
  }

  /**
   * The strategies are ordered by how readily they blacklist: `aggressive`
   * only from 0.95, `conservative` from 0.8, `blacklist_all` always;
   * `keep_first` and unknown strategies never blacklist.
   */
  lemma StrategyThresholds(severity: real)
    ensures StrategyAction(severity, "blacklist_all") == Blacklist
    ensures StrategyAction(severity, "aggressive") == Blacklist ==> StrategyAction(severity, "conservative") == Blacklist
    ensures StrategyAction(severity, "conservative") == Blacklist <==> severity >= 0.8
    ensures StrategyAction(severity, "aggressive") == Blacklist <==> severity >= 0.95
    ensures forall strategy :: strategy !in {"conservative", "aggressive", "blacklist_all"} ==> StrategyAction(severity, strategy) == Keep
  {
  }

  /** A severity ratio reaches a threshold `p/q` exactly when the differing-field count does in whole numbers. */
  lemma ThresholdInCounts(d: nat, t: nat, p: nat, q: nat)
    requires t > 0 && q > 0
    ensures d as real / t as real >= p as real / q as real <==> d * q >= p * t
  {
    var x := d as real / t as real;
    var y := p as real / q as real;
    assert x * t as real == d as real;
    assert y * q as real == p as real;
    assert (d * q) as real == x * (t as real) * (q as real);
    assert (p * t) as real == y * (q as real) * (t as real);
    if x >= y {
      assert x * (t as real) * (q as real) >= y * (t as real) * (q as real);
    } else {
      assert x * (t as real) * (q as real) < y * (t as real) * (q as real);
    }
  }

  /**
   * On the first records of the affected orgs, `conservative` blacklists
   * exactly when at least four fields in five differ, and `aggressive`
   * exactly when at least nineteen in twenty do.
   */
  lemma ThresholdsInCounts(records: seq<Record>)
    requires |records| >= 2 && FieldNames(records[0]) != {}
    ensures var fields := SortedOfSet(FieldNames(records[0]));
              var d := CountDiffering(records, fields, |fields|);
              (StrategyAction(Severity(records), "conservative") == Blacklist <==> 5 * d >= 4 * |fields|)
              && (StrategyAction(Severity(records), "aggressive") == Blacklist <==> 20 * d >= 19 * |fields|)
  {
    var fields := SortedOfSet(FieldNames(records[0]));
    SortedOfSetSpec(FieldNames(records[0]));
    var d := CountDiffering(records, fields, |fields|);
    ThresholdInCounts(d, |fields|, 4, 5);
    ThresholdInCounts(d, |fields|, 19, 20);
    assert 0.8 == 4 as real / 5 as real;
    assert 0.95 == 19 as real / 20 as real;
  }

  /**
   * A kept resolution names the org whose records survive: under the
   * threshold strategies the best org, under `keep_first` the alphabetically
   * first affected org; a blacklisted one names none. The other fields copy
   * the duplicate's report entry.
   */
  lemma ResolveSingleDuplicateSpec(objectName: string, fkValue: Value, info: DuplicateInfo, strategy: string)
    requires info.orgsAffected != [] && info.orgBreakdown.order == info.orgsAffected
    ensures var r := ResolveSingleDuplicate(objectName, fkValue, info, strategy);
              r.objectName == objectName && r.foreignKeyValue == fkValue && r.severity == info.severity
              && r.totalOccurrences == info.totalOccurrences
              && (r.action == Blacklist ==> r.selectedOrg == None)
              && (r.action == Keep && strategy in {"conservative", "aggressive"} ==>
                    r.selectedOrg == SelectBestOrg(info.orgBreakdown) && r.selectedOrg.Some? && r.selectedOrg.value in info.orgsAffected)
              && (strategy == "keep_first" ==>
                    r.selectedOrg == Some(Min(info.orgsAffected)) && Sorted(r.orgsAffected)
                    && multiset(r.orgsAffected) == multiset(info.orgsAffected))
              && (strategy != "keep_first" ==> r.orgsAffected == info.orgsAffected)
  {
    SelectBestOrgSpec(info.orgBreakdown);
    if strategy == "keep_first" {
      SortSpec(info.orgsAffected);
      SortHeadIsMin(info.orgsAffected);
    }
  }

  // ---------------------------------------------------------------------
  // Resolving the duplicates of one object

  datatype ObjectResolutions = ObjectResolutions(resolutions: seq<Resolution>, blacklisted: seq<string>, kept: seq<string>,
                                                 strategy: string)

  /** The blacklist entry of a key: `${objectName}:${fkValue}`. */
  function EntryName(objectName: string, key: Value): string
  {
    objectName + ":" + JsString(key)
  }

  function ResolutionsOf(objectName: string, entries: seq<DuplicateEntry>, strategy: string): (rs: seq<Resolution>)
    ensures |rs| == |entries|
  {
    if entries == [] then []
    else
      var e := entries[|entries| - 1];
      ResolutionsOf(objectName, entries[..|entries| - 1], strategy) + [ResolveSingleDuplicate(objectName, e.key, e.info, strategy)]
  }

  lemma {:induction false} ResolutionsOfFields(objectName: string, entries: seq<DuplicateEntry>, strategy: string)
    ensures forall i :: 0 <= i < |entries| ==>
              var r := ResolutionsOf(objectName, entries, strategy)[i];
              r.objectName == objectName && r.foreignKeyValue == entries[i].key
              && r.action == StrategyAction(entries[i].info.severity, strategy)
  {
    if entries != [] {
      var e := entries[|entries| - 1];
      ResolutionsOfFields(objectName, entries[..|entries| - 1], strategy);
      ResolveAction(objectName, e.key, e.info, strategy);
    }
  }

  /** The entry names of the resolutions taking action `a`, in order. */
  function NamesWith(rs: seq<Resolution>, a: Action): seq<string>
  {
    if rs == [] then []
    else
      var r := rs[|rs| - 1];
      NamesWith(rs[..|rs| - 1], a) + (if r.action == a then [EntryName(r.objectName, r.foreignKeyValue)] else [])
  }

  /** Every resolution lands in exactly one of the two lists. */
  lemma {:induction false} NamesPartition(rs: seq<Resolution>)
    ensures |NamesWith(rs, Blacklist)| + |NamesWith(rs, Keep)| == |rs|
  {
    if rs != [] {
      NamesPartition(rs[..|rs| - 1]);
    }
  }

  lemma {:induction false} NamesWithMembers(rs: seq<Resolution>, a: Action, x: string)
    ensures x in NamesWith(rs, a) <==> exists i :: 0 <= i < |rs| && rs[i].action == a && x == EntryName(rs[i].objectName, rs[i].foreignKeyValue)
  {
    if rs != [] {
      var init := rs[..|rs| - 1];
      NamesWithMembers(init, a, x);
      if exists i :: 0 <= i < |init| && init[i].action == a && x == EntryName(init[i].objectName, init[i].foreignKeyValue) {
        var i :| 0 <= i < |init| && init[i].action == a && x == EntryName(init[i].objectName, init[i].foreignKeyValue);
        assert rs[i] == init[i];
      }
      if exists i :: 0 <= i < |rs| && rs[i].action == a && x == EntryName(rs[i].objectName, rs[i].foreignKeyValue) {
        var i :| 0 <= i < |rs| && rs[i].action == a && x == EntryName(rs[i].objectName, rs[i].foreignKeyValue);
        if i < |init| { assert init[i] == rs[i]; }
      }
    }
  }

  /**
   * The blacklist of an object holds exactly the `object:key` names of the
   * duplicates the strategy blacklists; every duplicate is either blacklisted
   * or kept.
   */
  lemma BlacklistedSpec(objectName: string, entries: seq<DuplicateEntry>, strategy: string, x: string)
    ensures var rs := ResolutionsOf(objectName, entries, strategy);
              (x in NamesWith(rs, Blacklist) <==>
                 exists i :: 0 <= i < |entries| && StrategyAction(entries[i].info.severity, strategy) == Blacklist
                             && x == EntryName(objectName, entries[i].key))
              && |NamesWith(rs, Blacklist)| + |NamesWith(rs, Keep)| == |entries|
  {
    var rs := ResolutionsOf(objectName, entries, strategy);
    ResolutionsOfFields(objectName, entries, strategy);
    NamesWithMembers(rs, Blacklist, x);
    NamesPartition(rs);
  }

  lemma NamesWithSnoc(rs: seq<Resolution>, r: Resolution)
    ensures NamesWith(rs + [r], Blacklist) == NamesWith(rs, Blacklist) + (if r.action == Blacklist then [EntryName(r.objectName, r.foreignKeyValue)] else [])
    ensures NamesWith(rs + [r], Keep) == NamesWith(rs, Keep) + (if r.action == Keep then [EntryName(r.objectName, r.foreignKeyValue)] else [])
  {
    assert (rs + [r])[..|rs + [r]| - 1] == rs;
  }

  method ResolveObjectDuplicates(objectName: string, entries: seq<DuplicateEntry>, strategy: string)
    returns (out: ObjectResolutions)
    ensures out.resolutions == ResolutionsOf(objectName, entries, strategy)
    ensures out.blacklisted == NamesWith(out.resolutions, Blacklist)
    ensures out.kept == NamesWith(out.resolutions, Keep)
    ensures out.strategy == strategy
  {
    var resolutions: seq<Resolution> := [];
    var blacklisted: seq<string> := [];
    var kept: seq<string> := [];
    for i := 0 to |entries|
      invariant resolutions == ResolutionsOf(objectName, entries[..i], strategy)
      invariant blacklisted == NamesWith(resolutions, Blacklist)
      invariant kept == NamesWith(resolutions, Keep)
    {
      assert entries[..i + 1][..i] == entries[..i];
      var resolution := ResolveSingleDuplicate(objectName, entries[i].key, entries[i].info, strategy);
      ResolveAction(objectName, entries[i].key, entries[i].info, strategy);
      NamesWithSnoc(resolutions, resolution);
      resolutions := resolutions + [resolution];
      if resolution.action == Blacklist {
        blacklisted := blacklisted + [EntryName(objectName, entries[i].key)];
      } else {
        kept := kept + [EntryName(objectName, entries[i].key)];
      }
    }
    assert entries[..|entries|] == entries;
    out := ObjectResolutions(resolutions, blacklisted, kept, strategy);
  }

  // ---------------------------------------------------------------------
  // The action breakdown of the resolution summary

  datatype Breakdown = Breakdown(blacklist: nat, keep: nat, other: nat)

  function CountFor(b: Breakdown, a: Action): nat
  {
    match a
    case Blacklist => b.blacklist
    case Keep => b.keep
  }

  function Bump(b: Breakdown, a: Action): Breakdown
  {
    match a
    case Blacklist => b.(blacklist := b.blacklist + 1)
    case Keep => b.(keep := b.keep + 1)
  }

  function ActionsOf(rs: seq<Resolution>): (acts: seq<Action>)
    ensures |acts| == |rs|
  {
    if rs == [] then [] else ActionsOf(rs[..|rs| - 1]) + [rs[|rs| - 1].action]
  }

  /**
   * `generateResolutionSummary` as written: a counter is bumped only when it
   * is already truthy, and every counter starts at 0, so every resolution is
   * counted as `other`.
   */
  function TallyAsWritten(actions: seq<Action>): Breakdown
  {
    if actions == [] then Breakdown(0, 0, 0)
    else
      var b := TallyAsWritten(actions[..|actions| - 1]);
      var a := actions[|actions| - 1];
      if CountFor(b, a) != 0 then Bump(b, a) else b.(other := b.other + 1)
  }

  lemma {:induction false} TallyAsWrittenAllOther(actions: seq<Action>)
    ensures TallyAsWritten(actions) == Breakdown(0, 0, |actions|)
  {
    if actions != [] {
      TallyAsWrittenAllOther(actions[..|actions| - 1]);
    }
  }

  /** A one-resolution batch that is blacklisted, yet counted only as `other`. */
  lemma TallyAsWrittenLosesActions()
    ensures TallyAsWritten([Blacklist]) == Breakdown(0, 0, 1)
  {
    TallyAsWrittenAllOther([Blacklist]);
  }

  /** The evidently intended breakdown: each resolution counted under its own action. */
  function Tally(actions: seq<Action>): Breakdown
  {
    if actions == [] then Breakdown(0, 0, 0)
    else Bump(Tally(actions[..|actions| - 1]), actions[|actions| - 1])
  }

  lemma {:induction false} TallySpec(actions: seq<Action>)
    ensures Tally(actions).blacklist == Count(Blacklist, actions)
    ensures Tally(actions).keep == Count(Keep, actions)
    ensures Tally(actions).other == 0
    ensures Tally(actions).blacklist + Tally(actions).keep == |actions|
  {
    if actions != [] {
      TallySpec(actions[..|actions| - 1]);
    }
  }

  /** The summary's per-resolution loop, counting each resolution under its action. */
  method TallyActions(rs: seq<Resolution>) returns (b: Breakdown)
    ensures b == Tally(ActionsOf(rs))
  {
    b := Breakdown(0, 0, 0);
    for i := 0 to |rs|
      invariant b == Tally(ActionsOf(rs[..i]))
    {
      assert rs[..i + 1][..i] == rs[..i];
      assert ActionsOf(rs[..i + 1])[..i] == ActionsOf(rs[..i]);
      b := Bump(b, rs[i].action);
    }
    assert rs[..|rs|] == rs;
  }

  // ---------------------------------------------------------------------
  // The summary counts of the duplicate report

  /** The report's `duplicatesFound`: each object with its duplicate entries. */
  type DuplicatesFound = seq<(string, seq<DuplicateEntry>)>

  /** The number of duplicate entries over all objects. */
  function TotalDuplicates(found: DuplicatesFound): nat
  {
    if found == [] then 0 else TotalDuplicates(found[..|found| - 1]) + |found[|found| - 1].1|
  }

  /** The orgs of a list, as a set. */
  function OrgSet(orgs: seq<string>): set<string>
  {
    set o | o in orgs
  }

  /** The orgs affected by some entry of the list. */
  function EntriesOrgs(es: seq<DuplicateEntry>): set<string>
  {
    if es == [] then {} else EntriesOrgs(es[..|es| - 1]) + OrgSet(es[|es| - 1].info.orgsAffected)
  }

  /** The orgs affected by some entry of some object. */
  function AffectedOrgs(found: DuplicatesFound): set<string>
  {
    if found == [] then {} else AffectedOrgs(found[..|found| - 1]) + EntriesOrgs(found[|found| - 1].1)
  }

  lemma {:induction false} EntriesOrgsMembers(es: seq<DuplicateEntry>, o: string)
    ensures o in EntriesOrgs(es) <==> exists j :: 0 <= j < |es| && o in es[j].info.orgsAffected
  {
    if es != [] {
      var init := es[..|es| - 1];
      EntriesOrgsMembers(init, o);
      if exists j :: 0 <= j < |es| && o in es[j].info.orgsAffected {
        var j :| 0 <= j < |es| && o in es[j].info.orgsAffected;
        if j < |init| {
          assert init[j] == es[j];
        }
      }
      if exists j :: 0 <= j < |init| && o in init[j].info.orgsAffected {
        var j :| 0 <= j < |init| && o in init[j].info.orgsAffected;
        assert es[j] == init[j];
      }
    }
  }

  /** An org is counted exactly when some duplicate entry of some object lists it as affected. */
  lemma {:induction false} AffectedOrgsMembers(found: DuplicatesFound, o: string)
    ensures o in AffectedOrgs(found) <==>
              exists i, j :: 0 <= i < |found| && 0 <= j < |found[i].1| && o in found[i].1[j].info.orgsAffected
  {
    if found != [] {
      var init := found[..|found| - 1];
      var last := found[|found| - 1];
      AffectedOrgsMembers(init, o);
      EntriesOrgsMembers(last.1, o);
      if exists i, j :: 0 <= i < |found| && 0 <= j < |found[i].1| && o in found[i].1[j].info.orgsAffected {
        var i, j :| 0 <= i < |found| && 0 <= j < |found[i].1| && o in found[i].1[j].info.orgsAffected;
        if i < |init| {
          assert init[i] == found[i];
        }
      }
      if exists i, j :: 0 <= i < |init| && 0 <= j < |init[i].1| && o in init[i].1[j].info.orgsAffected {
        var i, j :| 0 <= i < |init| && 0 <= j < |init[i].1| && o in init[i].1[j].info.orgsAffected;
        assert found[i] == init[i];
      }
    }
  }

  /** Some object has an entry exactly when the total is positive. */
  lemma {:induction false} TotalDuplicatesZero(found: DuplicatesFound)
    ensures TotalDuplicates(found) == 0 <==> forall i :: 0 <= i < |found| ==> found[i].1 == []
  {
    if found != [] {
      var init := found[..|found| - 1];
      TotalDuplicatesZero(init);
      assert forall i :: 0 <= i < |init| ==> init[i] == found[i];
    }
  }

  /** Every entry `findDuplicatesForObject` reports lists at least two affected orgs, each once. */
  lemma ReportedEntriesQualify(orgs: seq<string>, files: map<string, seq<Record>>, fk: string, e: DuplicateEntry)
    requires e in FindDuplicates(orgs, files, fk)
    ensures |e.info.orgsAffected| >= 2 && NoDup(e.info.orgsAffected)
  {
    var ts := AllFkTagged(orgs, files, fk, |orgs|);
    var ix := GroupsOf(ts);
    GroupsOfOrdered(ts);
    var i := EntryOfKey(ix, e);
    DuplicateForInfo(ix, ix.order[i]);
  }

  /**
   * For entries as the strategy reports them, each affecting at least two orgs,
   * the report counts no affected org exactly when it counts no duplicate, and
   * at least two orgs as soon as it counts one.
   */
  lemma SummaryCountsAgree(found: DuplicatesFound)
    requires forall i, j :: 0 <= i < |found| && 0 <= j < |found[i].1| ==> |found[i].1[j].info.orgsAffected| >= 2
                                                                            && NoDup(found[i].1[j].info.orgsAffected)
    ensures TotalDuplicates(found) == 0 <==> |AffectedOrgs(found)| == 0
    ensures TotalDuplicates(found) > 0 ==> |AffectedOrgs(found)| >= 2
  {
    TotalDuplicatesZero(found);
    if TotalDuplicates(found) > 0 {
      var i :| 0 <= i < |found| && found[i].1 != [];
      var orgs := found[i].1[0].info.orgsAffected;
      var a, b := orgs[0], orgs[1];
      AffectedOrgsMembers(found, a);
      AffectedOrgsMembers(found, b);
      assert {a, b} <= AffectedOrgs(found);
      assert |{a, b}| == 2;
      SubsetCard({a, b}, AffectedOrgs(found));
    } else {
      forall o | o in AffectedOrgs(found)
        ensures false
      {
        AffectedOrgsMembers(found, o);
      }
      assert AffectedOrgs(found) == {};
    }
  }

  /**
   * `calculateSummaryStats`: one count per duplicate entry of every object, and
   * every affected org added to a set whose size is reported.
   */
  method CalculateSummaryStats(found: DuplicatesFound) returns (totalDuplicates: nat, affectedOrgs: nat)
    ensures totalDuplicates == TotalDuplicates(found)
    ensures affectedOrgs == |AffectedOrgs(found)|
  {
    totalDuplicates := 0;
    var orgs: set<string> := {};
    for i := 0 to |found|
      invariant totalDuplicates == TotalDuplicates(found[..i])
      invariant orgs == AffectedOrgs(found[..i])
    {
      assert found[..i + 1][..i] == found[..i];
      var entries := found[i].1;
      for j := 0 to |entries|
        invariant totalDuplicates == TotalDuplicates(found[..i]) + j
        invariant orgs == AffectedOrgs(found[..i]) + EntriesOrgs(entries[..j])
      {
        assert entries[..j + 1][..j] == entries[..j];
        totalDuplicates := totalDuplicates + 1;
        var affected := entries[j].info.orgsAffected;
        for k := 0 to |affected|
          invariant orgs == AffectedOrgs(found[..i]) + EntriesOrgs(entries[..j]) + OrgSet(affected[..k])
        {
          assert OrgSet(affected[..k + 1]) == OrgSet(affected[..k]) + {affected[k]};
          orgs := orgs + {affected[k]};
        }
        assert affected[..|affected|] == affected;
      }
      assert entries[..|entries|] == entries;
    }
    assert found[..|found|] == found;
    affectedOrgs := |orgs|;
  }
}
