/**
 * The detailed all-vs-all comparator: the key sets of every unordered org pair,
 * the per-field differences on their common records, a cross-org value table per
 * key and field with NULL / MISSING markers and a classification of each
 * differing cell, and the per-object and per-run summaries.
 */
module DetailedComparison {
  import opened Common

  /** At most this many keys or differences are sampled. */
  const SampleLimit: nat := 10
  const MissingText := "MISSING"
  const NullText := "NULL"

  /** One org's records of an object, indexed by their key value (`set_index(key_field)`). */
  datatype OrgTable = OrgTable(columns: seq<string>, rows: map<string, Record>)

  /** pandas `str()` of a cell: a missing value prints as `nan`. */
  function CellText(v: Value): string
  {
    if v == Null then "nan" else PyStr(v)
  }

  /** `s[:n]`. */
  function Prefix<T>(s: seq<T>, n: nat): (r: seq<T>)
    ensures |r| == if |s| <= n then |s| else n
    ensures forall i :: 0 <= i < |r| ==> r[i] == s[i]
  {
    if |s| <= n then s else s[..n]
  }

  // ---------------------------------------------------------------------
  // Unordered pairs

  /** The pairs (a, b) for each b of `rest`, in order. */
  function PairsWith(a: string, rest: seq<string>): seq<(string, string)>
  {
    if rest == [] then [] else PairsWith(a, rest[..|rest| - 1]) + [(a, rest[|rest| - 1])]
  }

  /** The pairs (orgs[i], orgs[j]) with i < j and i < n, in the order of the nested loops. */
  function PairsBelow(orgs: seq<string>, n: nat): seq<(string, string)>
    requires n <= |orgs|
  {
    if n == 0 then [] else PairsBelow(orgs, n - 1) + PairsWith(orgs[n - 1], orgs[n..])
  }

  function UnorderedPairs(orgs: seq<string>): seq<(string, string)>
  {
    PairsBelow(orgs, |orgs|)
  }

  lemma {:induction false} PairsWithSpec(a: string, rest: seq<string>)
    ensures |PairsWith(a, rest)| == |rest|
    ensures forall k :: 0 <= k < |rest| ==> PairsWith(a, rest)[k] == (a, rest[k])
  {
    if rest != [] {
      PairsWithSpec(a, rest[..|rest| - 1]);
    }
  }

  lemma Double(n: nat, m: int)
    ensures n * (2 * m - n - 1) == (n - 1) * (2 * m - (n - 1) - 1) + 2 * (m - n)
  {
  }

  lemma {:induction false} PairsBelowCount(orgs: seq<string>, n: nat)
    requires n <= |orgs|
    ensures 2 * |PairsBelow(orgs, n)| == n * (2 * |orgs| - n - 1)
  {
    if n > 0 {
      PairsBelowCount(orgs, n - 1);
      PairsWithSpec(orgs[n - 1], orgs[n..]);
      Double(n, |orgs|);
    }
  }

  /** The number of unordered pairs of n items: n·(n−1)/2. */
  function PairCount(n: nat): nat
  {
    n * (n - 1) / 2
  }

  /** n orgs give n·(n−1)/2 comparisons. */
  lemma UnorderedPairsCount(orgs: seq<string>)
    ensures |UnorderedPairs(orgs)| == PairCount(|orgs|)
  {
    PairsBelowCount(orgs, |orgs|);
  }

  /** A pair is compared iff its first org comes strictly before its second in the list. */
  lemma {:induction false} PairsBelowMembers(orgs: seq<string>, n: nat)
    requires n <= |orgs|
    ensures forall p :: p in PairsBelow(orgs, n) <==>
      exists i, j :: 0 <= i < n && i < j < |orgs| && p == (orgs[i], orgs[j])
  {
    if n > 0 {
      PairsBelowMembers(orgs, n - 1);
      var a := orgs[n - 1];
      PairsWithSpec(a, orgs[n..]);
      forall p | p in PairsWith(a, orgs[n..]) ensures exists i, j :: 0 <= i < n && i < j < |orgs| && p == (orgs[i], orgs[j]) {
        var k :| 0 <= k < |orgs[n..]| && PairsWith(a, orgs[n..])[k] == p;
        assert p == (orgs[n - 1], orgs[n + k]);
      }
      forall p | (exists i, j :: 0 <= i < n && i < j < |orgs| && p == (orgs[i], orgs[j]))
        ensures p in PairsBelow(orgs, n)
      {
        var i, j :| 0 <= i < n && i < j < |orgs| && p == (orgs[i], orgs[j]);
        if i == n - 1 {
          assert PairsWith(a, orgs[n..])[j - n] == p;
        }
      }
    }
  }

  function PairLabel(org1: string, org2: string): string
  {
    org1 + "_vs_" + org2
  }

  // ---------------------------------------------------------------------
  // Comparing two instances

  datatype SampleDiff = SampleDiff(key: string, referenceValue: string, comparisonValue: string)
  datatype FieldDiff = FieldDiff(differenceCount: nat, differencePercentage: real, samples: seq<SampleDiff>)
  /**
   * The key sets of two instances. The reported counts and the samples of keys
   * found on one side only are derived from them.
   */
  datatype KeySplit = KeySplit(commonKeys: set<string>, refOnlyKeys: set<string>, compOnlyKeys: set<string>)
  {
    function CommonRecords(): nat { |commonKeys| }
    function RefOnlyRecords(): nat { |refOnlyKeys| }
    function CompOnlyRecords(): nat { |compOnlyKeys| }
    function RefOnlySample(): seq<string> { Sample(refOnlyKeys) }
    function CompOnlySample(): seq<string> { Sample(compOnlyKeys) }
  }

  /** The comparison of two instances: their key sets and the columns that differ on common records. */
  datatype PairResult = PairResult(keys: KeySplit, fieldDifferences: map<string, FieldDiff>)

  function SplitKeys(refKeys: set<string>, compKeys: set<string>): KeySplit
  {
    KeySplit(refKeys * compKeys, refKeys - compKeys, compKeys - refKeys)
  }

  /** `part / whole * 100`. */
  function Percent(part: nat, whole: nat): real
    requires whole > 0
  {
    (part as real) / (whole as real) * 100.0
  }

  /** Up to ten keys of a key set (the listing order of a Python set is not fixed; sorted here). */
  function Sample(keys: set<string>): seq<string>
  {
    Prefix(SortedOfSet(keys), SampleLimit)
  }

  lemma SampleSpec(keys: set<string>)
    ensures |Sample(keys)| == if |keys| <= SampleLimit then |keys| else SampleLimit
    ensures NoDup(Sample(keys))
    ensures forall k :: k in Sample(keys) ==> k in keys
  {
    SortedOfSetSpec(keys);
    var r := Sample(keys);
    forall k | k in r ensures k in keys {
      var i :| 0 <= i < |r| && r[i] == k;
      assert SortedOfSet(keys)[i] == k;
    }
  }

  /**
   * Whether the two orgs' values of a column differ on a key; `same` is the
   * column's equality test (tolerant on numeric columns, on text otherwise).
   */
  predicate Differs(ref: OrgTable, comp: OrgTable, column: string, k: string, same: (string, Value, Value) -> bool)
  {
    k in ref.rows && k in comp.rows && !same(column, Get(ref.rows[k], column), Get(comp.rows[k], column))
  }

  /** The keys of `keys` on which a column differs, in order. */
  function DifferingKeys(ref: OrgTable, comp: OrgTable, column: string, keys: seq<string>,
                         same: (string, Value, Value) -> bool): seq<string>
  {
    if keys == [] then []
    else
      var rest := DifferingKeys(ref, comp, column, keys[..|keys| - 1], same);
      var k := keys[|keys| - 1];
      if Differs(ref, comp, column, k, same) then rest + [k] else rest
  }

  lemma {:induction false} DifferingKeysSpec(ref: OrgTable, comp: OrgTable, column: string, keys: seq<string>,
                                             same: (string, Value, Value) -> bool)
    ensures |DifferingKeys(ref, comp, column, keys, same)| <= |keys|
    ensures forall k :: k in DifferingKeys(ref, comp, column, keys, same) <==> k in keys && Differs(ref, comp, column, k, same)
  {
    if keys != [] {
      var init := keys[..|keys| - 1];
      DifferingKeysSpec(ref, comp, column, init, same);
      assert forall x :: x in keys <==> x in init || x == keys[|keys| - 1];
    }
  }

  /** One sampled difference: the key and both values as text, `N/A` where a side lacks the key. */
  function SampleOf(ref: OrgTable, comp: OrgTable, column: string, k: string): SampleDiff
  {
    SampleDiff(k,
               if k in ref.rows then CellText(Get(ref.rows[k], column)) else "N/A",
               if k in comp.rows then CellText(Get(comp.rows[k], column)) else "N/A")
  }

  function SamplesOf(ref: OrgTable, comp: OrgTable, column: string, keys: seq<string>): seq<SampleDiff>
  {
    if keys == [] then [] else SamplesOf(ref, comp, column, keys[..|keys| - 1]) + [SampleOf(ref, comp, column, keys[|keys| - 1])]
  }

  function FieldDiffOf(ref: OrgTable, comp: OrgTable, column: string, commonKeys: seq<string>,
                       same: (string, Value, Value) -> bool): FieldDiff
    requires |commonKeys| > 0
  {
    var dk := DifferingKeys(ref, comp, column, commonKeys, same);
    FieldDiff(|dk|, Percent(|dk|, |commonKeys|), SamplesOf(ref, comp, column, Prefix(dk, SampleLimit)))
  }

  function CommonColumns(ref: OrgTable, comp: OrgTable): set<string>
  {
    set c | c in ref.columns && c in comp.columns
  }

  /** The columns of `columns` on which some common key differs, each with its count, percentage and samples. */
  function FieldDiffMap(ref: OrgTable, comp: OrgTable, columns: seq<string>, commonKeys: seq<string>,
                        same: (string, Value, Value) -> bool): map<string, FieldDiff>
    requires |commonKeys| > 0
  {
    if columns == [] then map[]
    else
      var m := FieldDiffMap(ref, comp, columns[..|columns| - 1], commonKeys, same);
      var c := columns[|columns| - 1];
      if |DifferingKeys(ref, comp, c, commonKeys, same)| > 0 then m[c := FieldDiffOf(ref, comp, c, commonKeys, same)] else m
  }

  lemma {:induction false} FieldDiffMapSpec(ref: OrgTable, comp: OrgTable, columns: seq<string>, commonKeys: seq<string>,
                                            same: (string, Value, Value) -> bool, c: string)
    requires |commonKeys| > 0
    ensures c in FieldDiffMap(ref, comp, columns, commonKeys, same) <==>
      c in columns && |DifferingKeys(ref, comp, c, commonKeys, same)| > 0
    ensures c in FieldDiffMap(ref, comp, columns, commonKeys, same) ==>
      FieldDiffMap(ref, comp, columns, commonKeys, same)[c] == FieldDiffOf(ref, comp, c, commonKeys, same)
  {
    if columns != [] {
      var init := columns[..|columns| - 1];
      FieldDiffMapSpec(ref, comp, init, commonKeys, same, c);
      assert forall x :: x in columns <==> x in init || x == columns[|columns| - 1];
    }
  }

  /** The columns present in both tables on which some common record differs, with their counts and samples. */
  function FieldDifferences(ref: OrgTable, comp: OrgTable, same: (string, Value, Value) -> bool): map<string, FieldDiff>
  {
    var commonKeys := SortedOfSet(ref.rows.Keys * comp.rows.Keys);
    if |commonKeys| == 0 then map[]
    else FieldDiffMap(ref, comp, SortedOfSet(CommonColumns(ref, comp)), commonKeys, same)
  }

  /** The per-column loop over the columns both tables have. */
  method CompareCommonRecords(ref: OrgTable, comp: OrgTable, commonKeys: seq<string>, same: (string, Value, Value) -> bool)
    returns (fieldDifferences: map<string, FieldDiff>)
    requires |commonKeys| > 0
    ensures fieldDifferences == FieldDiffMap(ref, comp, SortedOfSet(CommonColumns(ref, comp)), commonKeys, same)
  {
    var columns := SortedOfSet(CommonColumns(ref, comp));
    fieldDifferences := map[];
    var i := 0;
    while i < |columns|
      invariant 0 <= i <= |columns|
      invariant fieldDifferences == FieldDiffMap(ref, comp, columns[..i], commonKeys, same)
    {
      var column := columns[i];
      assert columns[..i + 1][..i] == columns[..i];
      var diffKeys := DifferingKeys(ref, comp, column, commonKeys, same);
      if |diffKeys| > 0 {
        var samples := SamplesOf(ref, comp, column, Prefix(diffKeys, SampleLimit));
        fieldDifferences := fieldDifferences[column := FieldDiff(|diffKeys|, Percent(|diffKeys|, |commonKeys|), samples)];
      }
      i := i + 1;
    }
    assert columns[..i] == columns;
  }

  /** What comparing two instances yields: their key sets and the differing columns. */
  function PairOf(ref: OrgTable, comp: OrgTable, same: (string, Value, Value) -> bool): PairResult
  {
    PairResult(SplitKeys(ref.rows.Keys, comp.rows.Keys), FieldDifferences(ref, comp, same))
  }

  /** Key-set comparison of two instances, then the column comparison when they share records. */
  method CompareTwoInstances(ref: OrgTable, comp: OrgTable, same: (string, Value, Value) -> bool) returns (r: PairResult)
    ensures r == PairOf(ref, comp, same)
  {
    var refKeys, compKeys := ref.rows.Keys, comp.rows.Keys;
    var commonKeys := SortedOfSet(refKeys * compKeys);
    var fieldDifferences := map[];
    if |commonKeys| > 0 {
      fieldDifferences := CompareCommonRecords(ref, comp, commonKeys, same);
    }
    r := PairResult(SplitKeys(refKeys, compKeys), fieldDifferences);
  }

  /**
   * The common, reference-only and compared-only keys are what their names say,
   * and their counts partition each side's keys.
   */
  lemma SplitKeysPartition(refKeys: set<string>, compKeys: set<string>)
    ensures var r := SplitKeys(refKeys, compKeys);
      && r.CommonRecords() + r.RefOnlyRecords() == |refKeys|
      && r.CommonRecords() + r.CompOnlyRecords() == |compKeys|
      && (forall k :: k in r.commonKeys <==> k in refKeys && k in compKeys)
      && (forall k :: k in r.refOnlyKeys <==> k in refKeys && k !in compKeys)
      && (forall k :: k in r.compOnlyKeys <==> k in compKeys && k !in refKeys)
  {
    assert refKeys == (refKeys * compKeys) + (refKeys - compKeys);
    assert compKeys == (refKeys * compKeys) + (compKeys - refKeys);
  }

  /** At most ten one-sided keys are listed, all distinct and all one-sided. */
  lemma SplitKeysSamples(refKeys: set<string>, compKeys: set<string>)
    ensures var r := SplitKeys(refKeys, compKeys);
      && |r.RefOnlySample()| == (if r.RefOnlyRecords() <= SampleLimit then r.RefOnlyRecords() else SampleLimit)
      && |r.CompOnlySample()| == (if r.CompOnlyRecords() <= SampleLimit then r.CompOnlyRecords() else SampleLimit)
      && NoDup(r.RefOnlySample()) && NoDup(r.CompOnlySample())
      && (forall k :: k in r.RefOnlySample() ==> k in refKeys && k !in compKeys)
      && (forall k :: k in r.CompOnlySample() ==> k in compKeys && k !in refKeys)
  {
    SampleSpec(refKeys - compKeys);
    SampleSpec(compKeys - refKeys);
  }

  /** A column differs on some common key iff the ordered scan of the common keys finds one. */
  lemma DifferingKeysOfCommon(ref: OrgTable, comp: OrgTable, c: string, same: (string, Value, Value) -> bool)
    ensures var dk := DifferingKeys(ref, comp, c, SortedOfSet(ref.rows.Keys * comp.rows.Keys), same);
      && (|dk| > 0 <==> exists k :: Differs(ref, comp, c, k, same))
      && |dk| <= |ref.rows.Keys * comp.rows.Keys|
  {
    var commonKeys := SortedOfSet(ref.rows.Keys * comp.rows.Keys);
    SortedOfSetSpec(ref.rows.Keys * comp.rows.Keys);
    DifferingKeysSpec(ref, comp, c, commonKeys, same);
    var dk := DifferingKeys(ref, comp, c, commonKeys, same);
    if exists k :: Differs(ref, comp, c, k, same) {
      var k :| Differs(ref, comp, c, k, same);
      assert k in commonKeys;
      assert k in dk;
    }
    if |dk| > 0 {
      assert Differs(ref, comp, c, dk[0], same);
    }
  }

  /** A column is reported iff both tables have it and some common record differs on it. */
  lemma FieldDifferencesKeys(ref: OrgTable, comp: OrgTable, same: (string, Value, Value) -> bool, c: string)
    ensures c in FieldDifferences(ref, comp, same) <==>
      c in ref.columns && c in comp.columns && exists k :: Differs(ref, comp, c, k, same)
  {
    DifferingKeysOfCommon(ref, comp, c, same);
    var commonKeys := SortedOfSet(ref.rows.Keys * comp.rows.Keys);
    SortedOfSetSpec(CommonColumns(ref, comp));
    if |commonKeys| > 0 {
      FieldDiffMapSpec(ref, comp, SortedOfSet(CommonColumns(ref, comp)), commonKeys, same, c);
    }
    if exists k :: Differs(ref, comp, c, k, same) {
      var k :| Differs(ref, comp, c, k, same);
      assert k in ref.rows.Keys * comp.rows.Keys;
    }
  }

  /**
   * A reported column counts the common records that differ on it, at least one;
   * its percentage lies in (0, 100] and it carries at most ten samples.
   */
  lemma FieldDifferencesValues(ref: OrgTable, comp: OrgTable, same: (string, Value, Value) -> bool, c: string)
    requires c in FieldDifferences(ref, comp, same)
    ensures var d := FieldDifferences(ref, comp, same)[c];
      && 1 <= d.differenceCount <= |ref.rows.Keys * comp.rows.Keys|
      && 0.0 < d.differencePercentage <= 100.0
      && |d.samples| <= SampleLimit
  {
    var commonKeys := SortedOfSet(ref.rows.Keys * comp.rows.Keys);
    SortedOfSetSpec(ref.rows.Keys * comp.rows.Keys);
    DifferingKeysOfCommon(ref, comp, c, same);
    var dk := DifferingKeys(ref, comp, c, commonKeys, same);
    assert |commonKeys| > 0;
    FieldDiffMapSpec(ref, comp, SortedOfSet(CommonColumns(ref, comp)), commonKeys, same, c);
    SamplesLength(ref, comp, c, Prefix(dk, SampleLimit));
    PercentBounds(|dk|, |commonKeys|);
  }

  lemma {:induction false} SamplesLength(ref: OrgTable, comp: OrgTable, column: string, keys: seq<string>)
    ensures |SamplesOf(ref, comp, column, keys)| == |keys|
  {
    if keys != [] { SamplesLength(ref, comp, column, keys[..|keys| - 1]); }
  }

  lemma PercentBounds(part: nat, whole: nat)
    requires 0 < part <= whole
    ensures 0.0 < Percent(part, whole) <= 100.0
  {
    assert (part as real) / (whole as real) <= 1.0;
  }

  // ---------------------------------------------------------------------
  // All-vs-all comparison

  /** The table of an org; every org of the list has one, an empty table stands for none. */
  function TableOf(orgData: map<string, OrgTable>, org: string): OrgTable
  {
    if org in orgData then orgData[org] else OrgTable([], map[])
  }

  /** The entry `org1_vs_org2` of the results dictionary. */
  function Entry(orgData: map<string, OrgTable>, p: (string, string), same: (string, Value, Value) -> bool)
    : (string, PairResult)
  {
    (PairLabel(p.0, p.1), PairOf(TableOf(orgData, p.0), TableOf(orgData, p.1), same))
  }

  /** The labelled result of each pair, in order. */
  function ResultsFor(orgData: map<string, OrgTable>, pairs: seq<(string, string)>, same: (string, Value, Value) -> bool)
    : seq<(string, PairResult)>
  {
    if pairs == [] then []
    else ResultsFor(orgData, pairs[..|pairs| - 1], same) + [Entry(orgData, pairs[|pairs| - 1], same)]
  }

  lemma {:induction false} ResultsForLength(orgData: map<string, OrgTable>, pairs: seq<(string, string)>,
                                            same: (string, Value, Value) -> bool)
    ensures |ResultsFor(orgData, pairs, same)| == |pairs|
  {
    if pairs != [] {
      ResultsForLength(orgData, pairs[..|pairs| - 1], same);
    }
  }

  /** Each result is the comparison of its own pair, under that pair's label. */
  lemma {:induction false} ResultsForAt(orgData: map<string, OrgTable>, pairs: seq<(string, string)>,
                                        same: (string, Value, Value) -> bool)
    ensures |ResultsFor(orgData, pairs, same)| == |pairs|
    ensures forall k :: 0 <= k < |pairs| ==> ResultsFor(orgData, pairs, same)[k] == Entry(orgData, pairs[k], same)
  {
    if pairs != [] {
      var init := pairs[..|pairs| - 1];
      ResultsForAt(orgData, init, same);
      assert forall k :: 0 <= k < |init| ==> init[k] == pairs[k];
    }
  }

  lemma {:induction false} ResultsForAppend(orgData: map<string, OrgTable>, ps: seq<(string, string)>, qs: seq<(string, string)>,
                                            same: (string, Value, Value) -> bool)
    ensures ResultsFor(orgData, ps + qs, same) == ResultsFor(orgData, ps, same) + ResultsFor(orgData, qs, same)
    decreases |qs|
  {
    if qs != [] {
      var init := qs[..|qs| - 1];
      assert (ps + qs)[..|ps + qs| - 1] == ps + init;
      assert (ps + qs)[|ps + qs| - 1] == qs[|qs| - 1];
      ResultsForAppend(orgData, ps, init, same);
      var e := [Entry(orgData, qs[|qs| - 1], same)];
      assert (ResultsFor(orgData, ps, same) + ResultsFor(orgData, init, same)) + e
        == ResultsFor(orgData, ps, same) + (ResultsFor(orgData, init, same) + e);
    } else {
      assert ps + qs == ps;
    }
  }

  lemma PairsWithStep(a: string, orgs: seq<string>, lo: nat, j: nat)
    requires lo <= j < |orgs|
    ensures PairsWith(a, orgs[lo..j + 1]) == PairsWith(a, orgs[lo..j]) + [(a, orgs[j])]
  {
    assert orgs[lo..j + 1][..j - lo] == orgs[lo..j];
  }

  lemma ResultsForStep(orgData: map<string, OrgTable>, ps: seq<(string, string)>, p: (string, string),
                       same: (string, Value, Value) -> bool)
    ensures ResultsFor(orgData, ps + [p], same) == ResultsFor(orgData, ps, same) + [Entry(orgData, p, same)]
  {
    assert (ps + [p])[..|ps|] == ps;
  }

  /** The inner loop: compares the org at `i` with every org after it. */
  method CompareWithLater(orgData: map<string, OrgTable>, orgList: seq<string>, i: nat, same: (string, Value, Value) -> bool)
    returns (results: seq<(string, PairResult)>)
    requires i < |orgList|
    ensures results == ResultsFor(orgData, PairsWith(orgList[i], orgList[i + 1..]), same)
  {
    var org1 := orgList[i];
    results := [];
    var j := i + 1;
    while j < |orgList|
      invariant i + 1 <= j <= |orgList|
      invariant results == ResultsFor(orgData, PairsWith(org1, orgList[i + 1..j]), same)
    {
      var org2 := orgList[j];
      PairsWithStep(org1, orgList, i + 1, j);
      ResultsForStep(orgData, PairsWith(org1, orgList[i + 1..j]), (org1, org2), same);
      var result := CompareTwoInstances(TableOf(orgData, org1), TableOf(orgData, org2), same);
      assert result == Entry(orgData, (org1, org2), same).1;
      results := results + [(PairLabel(org1, org2), result)];
      j := j + 1;
    }
    assert orgList[i + 1..j] == orgList[i + 1..];
  }

  lemma PairsBelowStep(orgData: map<string, OrgTable>, orgList: seq<string>, i: nat, same: (string, Value, Value) -> bool)
    requires i < |orgList|
    ensures ResultsFor(orgData, PairsBelow(orgList, i + 1), same)
      == ResultsFor(orgData, PairsBelow(orgList, i), same) + ResultsFor(orgData, PairsWith(orgList[i], orgList[i + 1..]), same)
    ensures |ResultsFor(orgData, PairsWith(orgList[i], orgList[i + 1..]), same)| == |orgList| - i - 1
  {
    ResultsForAppend(orgData, PairsBelow(orgList, i), PairsWith(orgList[i], orgList[i + 1..]), same);
    ResultsForLength(orgData, PairsWith(orgList[i], orgList[i + 1..]), same);
    PairsWithSpec(orgList[i], orgList[i + 1..]);
  }

  /**
   * Compares every unordered pair (i < j) of the org list, in loop order, and
   * counts the comparisons: n·(n−1)/2 of them.
   */
  method PerformAllVsAll(orgData: map<string, OrgTable>, orgList: seq<string>, same: (string, Value, Value) -> bool)
    returns (results: seq<(string, PairResult)>, comparisonCount: nat)
    ensures results == ResultsFor(orgData, UnorderedPairs(orgList), same)
    ensures comparisonCount == PairCount(|orgList|)
  {
    results := [];
    comparisonCount := 0;
    var i := 0;
    while i < |orgList|
      invariant 0 <= i <= |orgList|
      invariant results == ResultsFor(orgData, PairsBelow(orgList, i), same)
      invariant comparisonCount == |results|
    {
      var inner := CompareWithLater(orgData, orgList, i, same);
      PairsBelowStep(orgData, orgList, i, same);
      comparisonCount := comparisonCount + |inner|;
      results := results + inner;
      i := i + 1;
    }
    ResultsForLength(orgData, UnorderedPairs(orgList), same);
    UnorderedPairsCount(orgList);
  }

  // ---------------------------------------------------------------------
  // Detailed cross-org table

  datatype Category = RecordMissing | MixedMissingValue | NullValueDifference | ValueDifference

  /** The classification of a cell from the set of distinct texts the orgs hold. */
  function Categorize(distinct: set<string>): Category
  {
    if MissingText in distinct then
      (if |distinct| == 2 then RecordMissing else MixedMissingValue)
    else if NullText in distinct then NullValueDifference
    else ValueDifference
  }

  /** An org's text for a key and field: MISSING without record or column, NULL for a missing value. */
  function Cell(t: OrgTable, key: string, field: string): string
  {
    if key in t.rows && field in t.columns then
      var v := Get(t.rows[key], field);
      if v == Null then NullText else PyStr(v)
    else MissingText
  }

  /** The texts of the listed orgs for one key and field (the `values` dictionary), filled org by org. */
  function ValuesAt(tables: map<string, OrgTable>, orgs: seq<string>, key: string, field: string): map<string, string>
  {
    if orgs == [] then map[]
    else
      var o := orgs[|orgs| - 1];
      ValuesAt(tables, orgs[..|orgs| - 1], key, field)[o := Cell(TableOf(tables, o), key, field)]
  }

  /** The `values` dictionary has one entry per listed org, holding that org's text. */
  lemma {:induction false} ValuesAtSpec(tables: map<string, OrgTable>, orgs: seq<string>, key: string, field: string)
    ensures forall o :: o in ValuesAt(tables, orgs, key, field) <==> o in orgs
    ensures forall o :: o in ValuesAt(tables, orgs, key, field) ==>
      ValuesAt(tables, orgs, key, field)[o] == Cell(TableOf(tables, o), key, field)
  {
    if orgs != [] {
      var init := orgs[..|orgs| - 1];
      ValuesAtSpec(tables, init, key, field);
      assert forall x :: x in orgs <==> x in init || x == orgs[|orgs| - 1];
    }
  }

  /** One output row: key field and value, `object.field`, and each org's text (its `Org_<org>` column). */
  datatype DetailRow = DetailRow(foreignKeyField: string, foreignKeyValue: string, objectFieldName: string,
                                 orgValues: map<string, string>)
  {
    /** The "DifferenceType" column, derived from the org texts. */
    function DifferenceType(): Category
    {
      Categorize(orgValues.Values)
    }
  }

  /** A key differs in a field when the orgs' texts there are not all one (`len(set(values.values())) > 1`). */
  predicate HasDifference(tables: map<string, OrgTable>, orgs: seq<string>, key: string, field: string)
  {
    |ValuesAt(tables, orgs, key, field).Values| > 1
  }

  /** A map holds more than one distinct value exactly when two of its keys map to different values. */
  lemma DistinctValues(m: map<string, string>)
    ensures |m.Values| > 1 <==> exists o, p :: o in m && p in m && m[o] != m[p]
  {
    if |m.Values| > 1 {
      var a :| a in m.Values;
      assert |m.Values - {a}| == |m.Values| - 1;
      var b :| b in m.Values - {a};
      var o :| o in m && m[o] == a;
      var p :| p in m && m[p] == b;
      assert m[o] != m[p];
    }
    if exists o, p :: o in m && p in m && m[o] != m[p] {
      var o, p :| o in m && p in m && m[o] != m[p];
      var two := {m[o], m[p]};
      assert |two| == 2;
      SubsetCard(two, m.Values);
    }
  }

  /** A difference is exactly two listed orgs whose texts disagree. */
  lemma HasDifferenceMeaning(tables: map<string, OrgTable>, orgs: seq<string>, key: string, field: string)
    ensures HasDifference(tables, orgs, key, field) <==>
      exists o, p :: o in orgs && p in orgs && Cell(TableOf(tables, o), key, field) != Cell(TableOf(tables, p), key, field)
  {
    var m := ValuesAt(tables, orgs, key, field);
    ValuesAtSpec(tables, orgs, key, field);
    DistinctValues(m);
  }

  function RowAt(tables: map<string, OrgTable>, orgs: seq<string>, keyField: string, sfObject: string, field: string,
                 key: string): DetailRow
  {
    DetailRow(keyField, key, sfObject + "." + field, ValuesAt(tables, orgs, key, field))
  }

  /** The rows of one field over the keys, in key order. */
  function FieldRowsFor(tables: map<string, OrgTable>, orgs: seq<string>, keyField: string, sfObject: string,
                        field: string, keys: seq<string>): seq<DetailRow>
  {
    if keys == [] then []
    else
      var rest := FieldRowsFor(tables, orgs, keyField, sfObject, field, keys[..|keys| - 1]);
      var key := keys[|keys| - 1];
      if HasDifference(tables, orgs, key, field) then rest + [RowAt(tables, orgs, keyField, sfObject, field, key)] else rest
  }

  /** The rows of all fields, field by field. */
  function DetailedRows(tables: map<string, OrgTable>, orgs: seq<string>, keyField: string, sfObject: string,
                        fields: seq<string>, keys: seq<string>): seq<DetailRow>
  {
    if fields == [] then []
    else
      DetailedRows(tables, orgs, keyField, sfObject, fields[..|fields| - 1], keys)
        + FieldRowsFor(tables, orgs, keyField, sfObject, fields[|fields| - 1], keys)
  }

  datatype FieldSummary = FieldSummary(totalRecordsWithDifferences: nat, totalRecords: nat, differencePercentage: real)

  /** The summary of the fields with at least one differing key. */
  function SummaryOf(tables: map<string, OrgTable>, orgs: seq<string>, keyField: string, sfObject: string,
                     fields: seq<string>, keys: seq<string>): map<string, FieldSummary>
  {
    if fields == [] then map[]
    else
      var s := SummaryOf(tables, orgs, keyField, sfObject, fields[..|fields| - 1], keys);
      var field := fields[|fields| - 1];
      var n := |FieldRowsFor(tables, orgs, keyField, sfObject, field, keys)|;
      if n > 0 then
        FieldRowsLength(tables, orgs, keyField, sfObject, field, keys);
        s[field := FieldSummary(n, |keys|, Percent(n, |keys|))]
      else s
  }

  lemma {:induction false} FieldRowsLength(tables: map<string, OrgTable>, orgs: seq<string>, keyField: string,
                                           sfObject: string, field: string, keys: seq<string>)
    ensures |FieldRowsFor(tables, orgs, keyField, sfObject, field, keys)| <= |keys|
  {
    if keys != [] { FieldRowsLength(tables, orgs, keyField, sfObject, field, keys[..|keys| - 1]); }
  }

  /** The union of the record keys of the listed orgs' tables. */
  function KeysOver(tables: map<string, OrgTable>, orgs: seq<string>): set<string>
  {
    if orgs == [] then {}
    else KeysOver(tables, orgs[..|orgs| - 1]) + TableOf(tables, orgs[|orgs| - 1]).rows.Keys
  }

  function ColumnSet(t: OrgTable): set<string>
  {
    set c | c in t.columns
  }

  /** The union of the columns of the listed orgs' tables. */
  function FieldsOver(tables: map<string, OrgTable>, orgs: seq<string>): set<string>
  {
    if orgs == [] then {}
    else FieldsOver(tables, orgs[..|orgs| - 1]) + ColumnSet(TableOf(tables, orgs[|orgs| - 1]))
  }

  /** A key (a field) is gathered exactly when some listed org's table holds it. */
  lemma {:induction false} KeysFieldsOverSpec(tables: map<string, OrgTable>, orgs: seq<string>)
    ensures forall k :: k in KeysOver(tables, orgs) <==> exists o :: o in orgs && k in TableOf(tables, o).rows
    ensures forall c :: c in FieldsOver(tables, orgs) <==> exists o :: o in orgs && c in TableOf(tables, o).columns
  {
    if orgs != [] {
      var init := orgs[..|orgs| - 1];
      KeysFieldsOverSpec(tables, init);
      assert forall x :: x in orgs <==> x in init || x == orgs[|orgs| - 1];
    }
  }

  /** The first loop of the detailed comparison: every key and every column of every org. */
  method GatherKeysAndFields(tables: map<string, OrgTable>, orgs: seq<string>)
    returns (keys: set<string>, fields: set<string>)
    ensures keys == KeysOver(tables, orgs) && fields == FieldsOver(tables, orgs)
  {
    keys, fields := {}, {};
    var i := 0;
    while i < |orgs|
      invariant 0 <= i <= |orgs|
      invariant keys == KeysOver(tables, orgs[..i]) && fields == FieldsOver(tables, orgs[..i])
    {
      assert orgs[..i + 1][..i] == orgs[..i];
      var t := TableOf(tables, orgs[i]);
      keys := keys + t.rows.Keys;
      fields := fields + ColumnSet(t);
      i := i + 1;
    }
    assert orgs[..i] == orgs;
  }

  datatype DetailedResult = DetailedResult(sfObject: string, keyField: string, totalOrgs: nat, orgList: seq<string>,
                                           totalRecords: nat, totalFields: nat, fieldsWithDifferences: nat,
                                           totalDifferenceRows: nat, fieldSummary: map<string, FieldSummary>,
                                           rows: seq<DetailRow>)

  /** What the detailed comparison computes: every field in sorted order, every key in sorted order, orgs sorted. */
  function DetailedOf(tables: map<string, OrgTable>, keyField: string, sfObject: string): DetailedResult
  {
    var orgs := SortedOfSet(tables.Keys);
    var keys := SortedOfSet(KeysOver(tables, orgs));
    var fields := SortedOfSet(FieldsOver(tables, orgs));
    var rows := DetailedRows(tables, orgs, keyField, sfObject, fields, keys);
    var summary := SummaryOf(tables, orgs, keyField, sfObject, fields, keys);
    DetailedResult(sfObject, keyField, |orgs|, orgs, |keys|, |fields|, |summary|, |rows|, summary, rows)
  }

  /** The per-org loop filling `values` for one key and field. */
  method CollectValues(tables: map<string, OrgTable>, orgList: seq<string>, key: string, field: string)
    returns (values: map<string, string>)
    ensures values == ValuesAt(tables, orgList, key, field)
  {
    values := map[];
    var i := 0;
    while i < |orgList|
      invariant 0 <= i <= |orgList|
      invariant values == ValuesAt(tables, orgList[..i], key, field)
    {
      assert orgList[..i + 1][..i] == orgList[..i];
      var org := orgList[i];
      var t := TableOf(tables, org);
      if key in t.rows && field in t.columns {
        var v := Get(t.rows[key], field);
        if v == Null {
          values := values[org := NullText];
        } else {
          values := values[org := PyStr(v)];
        }
      } else {
        values := values[org := MissingText];
      }
      i := i + 1;
    }
    assert orgList[..i] == orgList;
  }

  /** The per-key loop of one field: a row for each key whose texts differ, and their count. */
  method FieldPass(tables: map<string, OrgTable>, orgList: seq<string>, keyField: string, sfObject: string,
                   field: string, keys: seq<string>)
    returns (rows: seq<DetailRow>, fieldDifferences: nat)
    ensures rows == FieldRowsFor(tables, orgList, keyField, sfObject, field, keys)
    ensures fieldDifferences == |rows|
  {
    rows := [];
    fieldDifferences := 0;
    var k := 0;
    while k < |keys|
      invariant 0 <= k <= |keys|
      invariant rows == FieldRowsFor(tables, orgList, keyField, sfObject, field, keys[..k])
      invariant fieldDifferences == |rows|
    {
      var key := keys[k];
      assert keys[..k + 1][..k] == keys[..k];
      var values := CollectValues(tables, orgList, key, field);
      if |values.Values| > 1 {
        fieldDifferences := fieldDifferences + 1;
        rows := rows + [DetailRow(keyField, key, sfObject + "." + field, values)];
      }
      k := k + 1;
    }
    assert keys[..k] == keys;
  }

  lemma DetailedStep(tables: map<string, OrgTable>, orgs: seq<string>, keyField: string, sfObject: string,
                     fields: seq<string>, f: nat, keys: seq<string>)
    requires f < |fields|
    ensures DetailedRows(tables, orgs, keyField, sfObject, fields[..f + 1], keys)
      == DetailedRows(tables, orgs, keyField, sfObject, fields[..f], keys)
         + FieldRowsFor(tables, orgs, keyField, sfObject, fields[f], keys)
    ensures var n := |FieldRowsFor(tables, orgs, keyField, sfObject, fields[f], keys)|;
      SummaryOf(tables, orgs, keyField, sfObject, fields[..f + 1], keys)
        == if n > 0 then SummaryOf(tables, orgs, keyField, sfObject, fields[..f], keys)[fields[f] := FieldSummary(n, |keys|, Percent(n, |keys|))]
           else SummaryOf(tables, orgs, keyField, sfObject, fields[..f], keys)
  {
    assert fields[..f + 1][..f] == fields[..f];
    FieldRowsLength(tables, orgs, keyField, sfObject, fields[f], keys);
  }

  /**
   * The field-by-field pass: for each field and each key, the orgs' texts; a row
   * and a count when they hold more than one distinct text; a summary entry for
   * each field with a difference.
   */
  method FieldsPass(tables: map<string, OrgTable>, orgList: seq<string>, keyField: string, sfObject: string,
                    allFields: seq<string>, allKeys: seq<string>)
    returns (rows: seq<DetailRow>, summary: map<string, FieldSummary>)
    ensures rows == DetailedRows(tables, orgList, keyField, sfObject, allFields, allKeys)
    ensures summary == SummaryOf(tables, orgList, keyField, sfObject, allFields, allKeys)
  {
    rows := [];
    summary := map[];
    var f := 0;
    while f < |allFields|
      invariant 0 <= f <= |allFields|
      invariant rows == DetailedRows(tables, orgList, keyField, sfObject, allFields[..f], allKeys)
      invariant summary == SummaryOf(tables, orgList, keyField, sfObject, allFields[..f], allKeys)
    {
      var field := allFields[f];
      var fieldRows, fieldDifferences := FieldPass(tables, orgList, keyField, sfObject, field, allKeys);
      DetailedStep(tables, orgList, keyField, sfObject, allFields, f, allKeys);
      rows := rows + fieldRows;
      if fieldDifferences > 0 {
        summary := summary[field := FieldSummary(fieldDifferences, |allKeys|, Percent(fieldDifferences, |allKeys|))];
      }
      f := f + 1;
    }
    assert allFields[..f] == allFields;
  }

  /** The detailed comparison: sorted keys, fields and orgs, then the field-by-field pass. */
  method CreateDetailedComparison(tables: map<string, OrgTable>, keyField: string, sfObject: string)
    returns (d: DetailedResult)
    ensures d == DetailedOf(tables, keyField, sfObject)
  {
    var orgList := SortedOfSet(tables.Keys);
    var keySet, fieldSet := GatherKeysAndFields(tables, orgList);
    var allKeys := SortedOfSet(keySet);
    var allFields := SortedOfSet(fieldSet);
    var rows, summary := FieldsPass(tables, orgList, keyField, sfObject, allFields, allKeys);
    d := DetailedResult(sfObject, keyField, |orgList|, orgList, |allKeys|, |allFields|, |summary|, |rows|, summary, rows);
  }

  /**
   * A row is emitted for a field and a key exactly when the orgs hold more than
   * one distinct text there; each row carries that field's `object.field` name,
   * the key and all orgs' texts.
   */
  lemma {:induction false} FieldRowsMembers(tables: map<string, OrgTable>, orgs: seq<string>, keyField: string,
                                            sfObject: string, field: string, keys: seq<string>)
    ensures forall row :: row in FieldRowsFor(tables, orgs, keyField, sfObject, field, keys) <==>
      exists key :: key in keys && HasDifference(tables, orgs, key, field)
        && row == RowAt(tables, orgs, keyField, sfObject, field, key)
  {
    if keys != [] {
      var init := keys[..|keys| - 1];
      FieldRowsMembers(tables, orgs, keyField, sfObject, field, init);
      assert forall x :: x in keys <==> x in init || x == keys[|keys| - 1];
    }
  }

  lemma {:induction false} DetailedRowsMembers(tables: map<string, OrgTable>, orgs: seq<string>, keyField: string,
                                               sfObject: string, fields: seq<string>, keys: seq<string>)
    ensures forall row :: row in DetailedRows(tables, orgs, keyField, sfObject, fields, keys) <==>
      exists field, key :: field in fields && key in keys && HasDifference(tables, orgs, key, field)
        && row == RowAt(tables, orgs, keyField, sfObject, field, key)
  {
    if fields != [] {
      var init := fields[..|fields| - 1];
      var last := fields[|fields| - 1];
      DetailedRowsMembers(tables, orgs, keyField, sfObject, init, keys);
      FieldRowsMembers(tables, orgs, keyField, sfObject, last, keys);
      assert forall x :: x in fields <==> x in init || x == last;
    }
  }

  /**
   * Every row of the detailed table is a field and a key where two orgs hold
   * different texts, and it lists every org of the table with its text.
   */
  lemma DetailedRowsDiffer(tables: map<string, OrgTable>, keyField: string, sfObject: string, row: DetailRow)
    requires row in DetailedOf(tables, keyField, sfObject).rows
    ensures |row.orgValues.Values| > 1
    ensures forall o :: o in row.orgValues <==> o in tables
    ensures exists field ::
              && row.objectFieldName == sfObject + "." + field
              && forall o :: o in row.orgValues ==> row.orgValues[o] == Cell(TableOf(tables, o), row.foreignKeyValue, field)
  {
    var orgs := SortedOfSet(tables.Keys);
    var fields := SortedOfSet(FieldsOver(tables, orgs));
    var keys := SortedOfSet(KeysOver(tables, orgs));
    assert row in DetailedRows(tables, orgs, keyField, sfObject, fields, keys);
    SortedOfSetSpec(tables.Keys);
    DetailedRowsMembers(tables, orgs, keyField, sfObject, fields, keys);
    var field, key :| field in fields && key in keys && HasDifference(tables, orgs, key, field)
      && row == RowAt(tables, orgs, keyField, sfObject, field, key);
    ValuesAtSpec(tables, orgs, key, field);
    assert row.objectFieldName == sfObject + "." + field;
  }

  /** The summary lists exactly the fields with a differing key, each with its row count. */
  lemma {:induction false} SummaryOfSpec(tables: map<string, OrgTable>, orgs: seq<string>, keyField: string,
                                         sfObject: string, fields: seq<string>, keys: seq<string>, field: string)
    ensures field in SummaryOf(tables, orgs, keyField, sfObject, fields, keys) <==>
      field in fields && |FieldRowsFor(tables, orgs, keyField, sfObject, field, keys)| > 0
    ensures field in SummaryOf(tables, orgs, keyField, sfObject, fields, keys) ==>
      var s := SummaryOf(tables, orgs, keyField, sfObject, fields, keys)[field];
      s.totalRecordsWithDifferences == |FieldRowsFor(tables, orgs, keyField, sfObject, field, keys)|
        && s.totalRecordsWithDifferences <= s.totalRecords == |keys|
  {
    if fields != [] {
      var init := fields[..|fields| - 1];
      SummaryOfSpec(tables, orgs, keyField, sfObject, init, keys, field);
      assert forall x :: x in fields <==> x in init || x == fields[|fields| - 1];
      FieldRowsLength(tables, orgs, keyField, sfObject, field, keys);
    }
  }

  // ---------------------------------------------------------------------
  // Classification

  /**
   * RECORD_MISSING means: some org lacks the record (or the column), and all the
   * orgs that have it agree on one text.
   */
  lemma RecordMissingMeaning(vals: map<string, string>)
    requires |vals.Values| > 1
    ensures Categorize(vals.Values) == RecordMissing <==>
      (exists o :: o in vals && vals[o] == MissingText)
      && (forall o, p :: o in vals && p in vals && vals[o] != MissingText && vals[p] != MissingText ==> vals[o] == vals[p])
  {
    var s := vals.Values;
    if Categorize(s) == RecordMissing {
      assert MissingText in s && |s| == 2;
      var rest := s - {MissingText};
      assert |rest| == 1;
      var v :| v in rest;
      assert rest - {v} == {} by { assert |rest - {v}| == 0; }
      forall o, p | o in vals && p in vals && vals[o] != MissingText && vals[p] != MissingText
        ensures vals[o] == vals[p]
      {
        assert vals[o] in s && vals[p] in s;
        assert vals[o] in rest && vals[p] in rest;
      }
    }
    if (exists o :: o in vals && vals[o] == MissingText)
      && (forall o, p :: o in vals && p in vals && vals[o] != MissingText && vals[p] != MissingText ==> vals[o] == vals[p])
    {
      assert MissingText in s;
      var w :| w in s && w != MissingText by {
        var a :| a in s && a != MissingText by {
          var x :| x in s && x != MissingText by {
            if forall x :: x in s ==> x == MissingText {
              assert s <= {MissingText};
              SubsetCard(s, {MissingText});
            }
          }
        }
      }
      assert s == {MissingText, w} by {
        forall x | x in s ensures x == MissingText || x == w {
          var o :| o in vals && vals[o] == x;
          var q :| q in vals && vals[q] == w;
        }
      }
      assert |s| == 2;
    }
  }

  lemma SubsetCard(a: set<string>, b: set<string>)
    requires a <= b
    ensures |a| <= |b|
  {
    assert b == a + (b - a);
  }

  /** NULL_VALUE_DIFFERENCE means: every org has the record and some org holds a missing value there. */
  lemma NullDifferenceMeaning(vals: map<string, string>)
    ensures Categorize(vals.Values) == NullValueDifference <==>
      (forall o :: o in vals ==> vals[o] != MissingText) && (exists o :: o in vals && vals[o] == NullText)
  {
  }

  // ---------------------------------------------------------------------
  // Object summary

  datatype ObjectSummary = ObjectSummary(objectName: string, totalComparisons: nat, comparisonsWithDifferences: nat,
                                         totalFieldDifferences: nat, consistencyScore: real,
                                         totalRecords: nat, totalFields: nat, fieldsWithDifferences: nat,
                                         totalDifferenceRows: nat)

  /** How many pair comparisons found at least one differing field. */
  function WithDifferences(results: seq<(string, PairResult)>): nat
  {
    if results == [] then 0
    else WithDifferences(results[..|results| - 1]) + (if |results[|results| - 1].1.fieldDifferences| > 0 then 1 else 0)
  }

  /** The number of differing fields summed over the pair comparisons. */
  function FieldDifferenceTotal(results: seq<(string, PairResult)>): nat
  {
    if results == [] then 0
    else FieldDifferenceTotal(results[..|results| - 1]) + |results[|results| - 1].1.fieldDifferences|
  }

  lemma {:induction false} WithDifferencesBounds(results: seq<(string, PairResult)>)
    ensures WithDifferences(results) <= |results|
    ensures WithDifferences(results) == 0 <==> forall k :: 0 <= k < |results| ==> |results[k].1.fieldDifferences| == 0
    ensures WithDifferences(results) == |results| <==> forall k :: 0 <= k < |results| ==> |results[k].1.fieldDifferences| > 0
    ensures WithDifferences(results) <= FieldDifferenceTotal(results)
  {
    if results != [] {
      var init := results[..|results| - 1];
      WithDifferencesBounds(init);
      assert forall k :: 0 <= k < |init| ==> init[k] == results[k];
    }
  }

  /** `(total − with_diffs) / total · 100`; no comparison results is an error. */
  function GenerateObjectSummary(results: seq<(string, PairResult)>, detailed: DetailedResult): Result<ObjectSummary>
  {
    if results == [] then Err("No comparison results")
    else
      var total := |results|;
      var withDiffs := WithDifferences(results);
      Ok(ObjectSummary(detailed.sfObject, total, withDiffs, FieldDifferenceTotal(results),
                       ((total - withDiffs) as real) / (total as real) * 100.0,
                       detailed.totalRecords, detailed.totalFields, detailed.fieldsWithDifferences, detailed.totalDifferenceRows))
  }

  /**
   * The consistency score lies in [0, 100]; it is 100 exactly when no pair
   * differs and 0 exactly when every pair does.
   */
  lemma ConsistencyScoreBounds(results: seq<(string, PairResult)>, detailed: DetailedResult)
    ensures GenerateObjectSummary(results, detailed).Err? <==> results == []
    ensures GenerateObjectSummary(results, detailed).Ok? ==>
      var s := GenerateObjectSummary(results, detailed).value;
      && 0.0 <= s.consistencyScore <= 100.0
      && (s.consistencyScore == 100.0 <==> forall k :: 0 <= k < |results| ==> |results[k].1.fieldDifferences| == 0)
      && (s.consistencyScore == 0.0 <==> forall k :: 0 <= k < |results| ==> |results[k].1.fieldDifferences| > 0)
  {
    if results != [] {
      WithDifferencesBounds(results);
      var total := |results|;
      var withDiffs := WithDifferences(results);
      RatioBounds((total - withDiffs) as real, total as real);
    }
  }

  lemma RatioBounds(a: real, b: real)
    requires 0.0 <= a <= b && b > 0.0
    ensures 0.0 <= a / b * 100.0 <= 100.0
    ensures a / b * 100.0 == 100.0 <==> a == b
    ensures a / b * 100.0 == 0.0 <==> a == 0.0
  {
    assert a / b <= 1.0;
    assert a / b >= 0.0;
  }

  // ---------------------------------------------------------------------
  // One object across all orgs

  datatype ObjectOutcome =
    | Skipped(reason: string)
    | Completed(sfObject: string, keyField: string, availableOrgs: seq<string>, orgData: map<string, OrgTable>,
                same: (string, Value, Value) -> bool)
  {
    /** The number of orgs compared. */
    function TotalOrgs(): nat
      requires Completed?
    {
      |availableOrgs|
    }

    /** The pairwise results, over the orgs in load order. */
    function Comparisons(): seq<(string, PairResult)>
      requires Completed?
    {
      ResultsFor(orgData, UnorderedPairs(availableOrgs), same)
    }

    /** The detailed cross-org table. */
    function Detailed(): DetailedResult
      requires Completed?
    {
      DetailedOf(orgData, keyField, sfObject)
    }

    /** The object summary. */
    function Summary(): Result<ObjectSummary>
      requires Completed?
    {
      GenerateObjectSummary(Comparisons(), Detailed())
    }
  }

  /** The orgs, in discovery order, whose table loaded with at least one record. */
  function OrgsWithData(orgs: seq<string>, loaded: map<string, OrgTable>): seq<string>
  {
    if orgs == [] then []
    else
      var rest := OrgsWithData(orgs[..|orgs| - 1], loaded);
      var o := orgs[|orgs| - 1];
      if o in loaded && |loaded[o].rows| > 0 then rest + [o] else rest
  }

  lemma {:induction false} OrgsWithDataSpec(orgs: seq<string>, loaded: map<string, OrgTable>)
    ensures forall o :: o in OrgsWithData(orgs, loaded) <==> o in orgs && o in loaded && |loaded[o].rows| > 0
    ensures NoDup(orgs) ==> NoDup(OrgsWithData(orgs, loaded))
  {
    if orgs != [] {
      var init := orgs[..|orgs| - 1];
      OrgsWithDataSpec(init, loaded);
      assert forall x :: x in orgs <==> x in init || x == orgs[|orgs| - 1];
      if NoDup(orgs) { assert NoDup(init); }
    }
  }

  /** The key field: the caller's when given and non-empty, else the configured one, else none (""). */
  function KeyFieldFor(sfObject: string, customKey: string, mappings: map<string, string>): string
  {
    if customKey != "" then customKey else if sfObject in mappings then mappings[sfObject] else ""
  }

  /** The `org_data` dictionary: each listed org with its loaded table. */
  function Restricted(loaded: map<string, OrgTable>, orgs: seq<string>): map<string, OrgTable>
  {
    if orgs == [] then map[]
    else
      var o := orgs[|orgs| - 1];
      Restricted(loaded, orgs[..|orgs| - 1])[o := TableOf(loaded, o)]
  }

  /** What comparing one object yields. */
  function SingleObjectOf(sfObject: string, customKey: string, mappings: map<string, string>, orgs: seq<string>,
                          loaded: map<string, OrgTable>, same: (string, Value, Value) -> bool): ObjectOutcome
  {
    var keyField := KeyFieldFor(sfObject, customKey, mappings);
    if keyField == "" then Skipped("No foreign key defined for " + sfObject)
    else
      var withData := OrgsWithData(orgs, loaded);
      if |withData| < 2 then
        Skipped("Insufficient instances with data (found " + NatToString(|withData|) + ", need >=2)")
      else
        Completed(sfObject, keyField, withData, Restricted(loaded, withData), same)
  }

  /**
   * An object without a key field, or with fewer than two orgs holding data, is
   * skipped; otherwise it completes with n·(n−1)/2 comparisons over the n orgs
   * with data, and its summary always exists.
   */
  lemma SingleObjectOutcome(sfObject: string, customKey: string, mappings: map<string, string>, orgs: seq<string>,
                            loaded: map<string, OrgTable>, same: (string, Value, Value) -> bool)
    ensures var r := SingleObjectOf(sfObject, customKey, mappings, orgs, loaded, same);
      r.Skipped? <==> KeyFieldFor(sfObject, customKey, mappings) == "" || |OrgsWithData(orgs, loaded)| < 2
    ensures var r := SingleObjectOf(sfObject, customKey, mappings, orgs, loaded, same);
      r.Completed? ==> r.TotalOrgs() >= 2 && |r.Comparisons()| == PairCount(r.TotalOrgs()) && r.Summary().Ok?
  {
    var keyField := KeyFieldFor(sfObject, customKey, mappings);
    var withData := OrgsWithData(orgs, loaded);
    if keyField != "" && |withData| >= 2 {
      var orgData := Restricted(loaded, withData);
      var comparisons := ResultsFor(orgData, UnorderedPairs(withData), same);
      var detailed := DetailedOf(orgData, keyField, sfObject);
      ResultsForLength(orgData, UnorderedPairs(withData), same);
      UnorderedPairsCount(withData);
      PairCountPositive(|withData|);
      ConsistencyScoreBounds(comparisons, detailed);
    }
  }

  lemma PairCountPositive(n: nat)
    requires n >= 2
    ensures PairCount(n) >= 1
  {
    assert n * (n - 1) >= 2 * 1;
  }

  /** What a completed object's comparison computes: the pair results, the detailed table and the summary. */
  datatype ObjectResults = ObjectResults(comparisons: seq<(string, PairResult)>, detailed: DetailedResult,
                                         summary: Result<ObjectSummary>)

  /**
   * Loads the orgs with data, then runs the pairwise and the detailed comparison
   * and the summary; these are the derived members of the completed outcome.
   */
  method CompareSingleObject(sfObject: string, customKey: string, mappings: map<string, string>, orgs: seq<string>,
                             loaded: map<string, OrgTable>, same: (string, Value, Value) -> bool)
    returns (outcome: ObjectOutcome, computed: Option<ObjectResults>)
    ensures outcome == SingleObjectOf(sfObject, customKey, mappings, orgs, loaded, same)
    ensures computed.Some? <==> outcome.Completed?
    ensures outcome.Completed? ==>
      computed == Some(ObjectResults(outcome.Comparisons(), outcome.Detailed(), outcome.Summary()))
  {
    var keyField := KeyFieldFor(sfObject, customKey, mappings);
    if keyField == "" {
      return Skipped("No foreign key defined for " + sfObject), None;
    }
    var withData: seq<string> := [];
    var orgData: map<string, OrgTable> := map[];
    var i := 0;
    while i < |orgs|
      invariant 0 <= i <= |orgs|
      invariant withData == OrgsWithData(orgs[..i], loaded)
      invariant orgData == Restricted(loaded, withData)
    {
      assert orgs[..i + 1][..i] == orgs[..i];
      var org := orgs[i];
      if org in loaded && |loaded[org].rows| > 0 {
        assert (withData + [org])[..|withData|] == withData;
        withData := withData + [org];
        orgData := orgData[org := loaded[org]];
      }
      i := i + 1;
    }
    assert orgs[..i] == orgs;
    if |withData| < 2 {
      return Skipped("Insufficient instances with data (found " + NatToString(|withData|) + ", need >=2)"), None;
    }
    var comparisons, _ := PerformAllVsAll(orgData, withData, same);
    var detailed := CreateDetailedComparison(orgData, keyField, sfObject);
    outcome := Completed(sfObject, keyField, withData, orgData, same);
    computed := Some(ObjectResults(comparisons, detailed, GenerateObjectSummary(comparisons, detailed)));
  }

  // ---------------------------------------------------------------------
  // All objects

  /** The objects that have (keep) or lack (!keep) a configured key field, in order. */
  function ByMapping(objects: seq<string>, mappings: map<string, string>, keep: bool): seq<string>
  {
    if objects == [] then []
    else
      var rest := ByMapping(objects[..|objects| - 1], mappings, keep);
      var o := objects[|objects| - 1];
      if (o in mappings) == keep then rest + [o] else rest
  }

  /** Every requested object lands in exactly one of the two lists. */
  lemma {:induction false} ByMappingSplit(objects: seq<string>, mappings: map<string, string>)
    ensures |ByMapping(objects, mappings, true)| + |ByMapping(objects, mappings, false)| == |objects|
    ensures forall o :: o in ByMapping(objects, mappings, true) <==> o in objects && o in mappings
    ensures forall o :: o in ByMapping(objects, mappings, false) <==> o in objects && o !in mappings
  {
    if objects != [] {
      var init := objects[..|objects| - 1];
      ByMappingSplit(init, mappings);
      assert forall x :: x in objects <==> x in init || x == objects[|objects| - 1];
    }
  }

  datatype RunSummary = RunSummary(totalObjectsRequested: nat, objectsWithForeignKeys: nat, objectsWithoutForeignKeys: nat,
                                   skippedObjects: seq<string>, completedObjects: nat, objectsWithDifferences: nat,
                                   objectResults: map<string, ObjectOutcome>)

  /** A completed object some of whose pair comparisons found a differing field. */
  predicate HasPairDifferences(r: ObjectOutcome)
  {
    r.Completed? && WithDifferences(r.Comparisons()) > 0
  }

  /** That is the run's test: the object's summary reports comparisons with differences. */
  lemma HasPairDifferencesMeaning(r: ObjectOutcome)
    ensures HasPairDifferences(r) <==>
      r.Completed? && r.Summary().Ok? && r.Summary().value.comparisonsWithDifferences > 0
  {
    if r.Completed? && r.Comparisons() == [] {
      assert WithDifferences(r.Comparisons()) == 0;
    }
  }

  function LoadedFor(loadedByObject: map<string, map<string, OrgTable>>, sfObject: string): map<string, OrgTable>
  {
    if sfObject in loadedByObject then loadedByObject[sfObject] else map[]
  }

  function OutcomeOf(sfObject: string, mappings: map<string, string>, orgs: seq<string>,
                     loadedByObject: map<string, map<string, OrgTable>>, same: (string, Value, Value) -> bool): ObjectOutcome
  {
    SingleObjectOf(sfObject, "", mappings, orgs, LoadedFor(loadedByObject, sfObject), same)
  }

  /** The outcome of each object, in order. */
  function OutcomesOf(objects: seq<string>, mappings: map<string, string>, orgs: seq<string>,
                      loadedByObject: map<string, map<string, OrgTable>>, same: (string, Value, Value) -> bool)
    : seq<ObjectOutcome>
  {
    if objects == [] then []
    else OutcomesOf(objects[..|objects| - 1], mappings, orgs, loadedByObject, same)
           + [OutcomeOf(objects[|objects| - 1], mappings, orgs, loadedByObject, same)]
  }

  lemma {:induction false} OutcomesOfAt(objects: seq<string>, mappings: map<string, string>, orgs: seq<string>,
                                        loadedByObject: map<string, map<string, OrgTable>>, same: (string, Value, Value) -> bool)
    ensures |OutcomesOf(objects, mappings, orgs, loadedByObject, same)| == |objects|
    ensures forall k :: 0 <= k < |objects| ==>
      OutcomesOf(objects, mappings, orgs, loadedByObject, same)[k] == OutcomeOf(objects[k], mappings, orgs, loadedByObject, same)
  {
    if objects != [] {
      var init := objects[..|objects| - 1];
      OutcomesOfAt(init, mappings, orgs, loadedByObject, same);
      assert forall k :: 0 <= k < |init| ==> init[k] == objects[k];
    }
  }

  /** The results dictionary: each object mapped to its outcome (a later duplicate overwrites). */
  function ResultsMap(objects: seq<string>, mappings: map<string, string>, orgs: seq<string>,
                      loadedByObject: map<string, map<string, OrgTable>>, same: (string, Value, Value) -> bool)
    : map<string, ObjectOutcome>
  {
    if objects == [] then map[]
    else
      var o := objects[|objects| - 1];
      ResultsMap(objects[..|objects| - 1], mappings, orgs, loadedByObject, same)[o := OutcomeOf(o, mappings, orgs, loadedByObject, same)]
  }

  /** Every object with a key field has an entry, and it holds that object's outcome. */
  lemma {:induction false} ResultsMapSpec(objects: seq<string>, mappings: map<string, string>, orgs: seq<string>,
                                          loadedByObject: map<string, map<string, OrgTable>>,
                                          same: (string, Value, Value) -> bool, o: string)
    ensures o in ResultsMap(objects, mappings, orgs, loadedByObject, same) <==> o in objects
    ensures o in objects ==> ResultsMap(objects, mappings, orgs, loadedByObject, same)[o] == OutcomeOf(o, mappings, orgs, loadedByObject, same)
  {
    if objects != [] {
      var init := objects[..|objects| - 1];
      ResultsMapSpec(init, mappings, orgs, loadedByObject, same, o);
      assert o in objects <==> o in init || o == objects[|objects| - 1];
    }
  }

  function CountCompleted(outcomes: seq<ObjectOutcome>): nat
  {
    if outcomes == [] then 0
    else CountCompleted(outcomes[..|outcomes| - 1]) + (if outcomes[|outcomes| - 1].Completed? then 1 else 0)
  }

  function CountDiffering(outcomes: seq<ObjectOutcome>): nat
  {
    if outcomes == [] then 0
    else CountDiffering(outcomes[..|outcomes| - 1]) + (if HasPairDifferences(outcomes[|outcomes| - 1]) then 1 else 0)
  }

  /** Objects with differences are among the completed ones. */
  lemma {:induction false} DifferingAmongCompleted(outcomes: seq<ObjectOutcome>)
    ensures CountDiffering(outcomes) <= CountCompleted(outcomes) <= |outcomes|
  {
    if outcomes != [] {
      DifferingAmongCompleted(outcomes[..|outcomes| - 1]);
    }
  }

  lemma OutcomesStep(objects: seq<string>, i: nat, mappings: map<string, string>, orgs: seq<string>,
                     loadedByObject: map<string, map<string, OrgTable>>, same: (string, Value, Value) -> bool,
                     done: seq<ObjectOutcome>, outcome: ObjectOutcome)
    requires i < |objects|
    requires done == OutcomesOf(objects[..i], mappings, orgs, loadedByObject, same)
    requires outcome == OutcomeOf(objects[i], mappings, orgs, loadedByObject, same)
    ensures done + [outcome] == OutcomesOf(objects[..i + 1], mappings, orgs, loadedByObject, same)
    ensures ResultsMap(objects[..i + 1], mappings, orgs, loadedByObject, same)
      == ResultsMap(objects[..i], mappings, orgs, loadedByObject, same)[objects[i] := outcome]
    ensures CountCompleted(done + [outcome]) == CountCompleted(done) + (if outcome.Completed? then 1 else 0)
    ensures CountDiffering(done + [outcome]) == CountDiffering(done) + (if HasPairDifferences(outcome) then 1 else 0)
  {
    assert objects[..i + 1][..i] == objects[..i];
    assert (done + [outcome])[..|done|] == done;
  }

  /**
   * The body of the per-object loop: compares the object, then counts it when it
   * completed and, among those, when its pair comparisons found differences.
   */
  method ProcessObject(sfObject: string, mappings: map<string, string>, orgs: seq<string>,
                       loadedByObject: map<string, map<string, OrgTable>>, same: (string, Value, Value) -> bool,
                       completed: nat, differing: nat)
    returns (outcome: ObjectOutcome, completed': nat, differing': nat)
    ensures outcome == OutcomeOf(sfObject, mappings, orgs, loadedByObject, same)
    ensures completed' == completed + (if outcome.Completed? then 1 else 0)
    ensures differing' == differing + (if HasPairDifferences(outcome) then 1 else 0)
  {
    var computed;
    outcome, computed := CompareSingleObject(sfObject, "", mappings, orgs, LoadedFor(loadedByObject, sfObject), same);
    completed', differing' := completed, differing;
    if outcome.Completed? {
      completed' := completed' + 1;
      var summary := computed.value.summary;
      HasPairDifferencesMeaning(outcome);
      if summary.Ok? && summary.value.comparisonsWithDifferences > 0 {
        differing' := differing' + 1;
      }
    }
  }

  /** The per-object loop: each object's outcome, and the completed and differing counts. */
  method CompareEach(withKeys: seq<string>, mappings: map<string, string>, orgs: seq<string>,
                     loadedByObject: map<string, map<string, OrgTable>>, same: (string, Value, Value) -> bool)
    returns (results: map<string, ObjectOutcome>, completed: nat, differing: nat)
    ensures results == ResultsMap(withKeys, mappings, orgs, loadedByObject, same)
    ensures completed == CountCompleted(OutcomesOf(withKeys, mappings, orgs, loadedByObject, same))
    ensures differing == CountDiffering(OutcomesOf(withKeys, mappings, orgs, loadedByObject, same))
  {
    completed := 0;
    differing := 0;
    results := map[];
    ghost var outcomes: seq<ObjectOutcome> := [];
    var i := 0;
    while i < |withKeys|
      invariant 0 <= i <= |withKeys|
      invariant outcomes == OutcomesOf(withKeys[..i], mappings, orgs, loadedByObject, same)
      invariant completed == CountCompleted(outcomes)
      invariant differing == CountDiffering(outcomes)
      invariant results == ResultsMap(withKeys[..i], mappings, orgs, loadedByObject, same)
    {
      var sfObject := withKeys[i];
      var outcome;
      outcome, completed, differing := ProcessObject(sfObject, mappings, orgs, loadedByObject, same, completed, differing);
      OutcomesStep(withKeys, i, mappings, orgs, loadedByObject, same, outcomes, outcome);
      outcomes := outcomes + [outcome];
      results := results[sfObject := outcome];
      i := i + 1;
    }
    assert withKeys[..i] == withKeys;
  }

  /**
   * Compares the requested objects (the common objects when none are requested)
   * that have a key field, skipping the others; fails when none has one.
   */
  method CompareAllObjects(sfObjects: seq<string>, commonObjects: seq<string>, mappings: map<string, string>,
                           orgs: seq<string>, loadedByObject: map<string, map<string, OrgTable>>,
                           same: (string, Value, Value) -> bool)
    returns (r: Result<RunSummary>)
    ensures var requested := if sfObjects != [] then sfObjects else commonObjects;
      var withKeys := ByMapping(requested, mappings, true);
      var outcomes := OutcomesOf(withKeys, mappings, orgs, loadedByObject, same);
      && (r.Err? <==> withKeys == [])
      && (r.Ok? ==>
           && r.value.totalObjectsRequested == |requested|
           && r.value.objectsWithForeignKeys == |withKeys|
           && r.value.objectsWithoutForeignKeys == |requested| - |withKeys|
           && r.value.skippedObjects == ByMapping(requested, mappings, false)
           && r.value.completedObjects == CountCompleted(outcomes)
           && r.value.objectsWithDifferences == CountDiffering(outcomes)
           && r.value.objectResults == ResultsMap(withKeys, mappings, orgs, loadedByObject, same))
  {
    var requested := if sfObjects != [] then sfObjects else commonObjects;
    var withKeys := ByMapping(requested, mappings, true);
    var withoutKeys := ByMapping(requested, mappings, false);
    if withKeys == [] {
      return Err("No objects with foreign keys found");
    }
    var results, completed, differing := CompareEach(withKeys, mappings, orgs, loadedByObject, same);
    ByMappingSplit(requested, mappings);
    r := Ok(RunSummary(|requested|, |withKeys|, |withoutKeys|, withoutKeys, completed, differing, results));
  }
}
