/**
 * The duplicate foreign-key detector: reads each org's JSONL export line by line,
 * groups the records of every configured object by the value of its foreign-key
 * field, keeps the values held by more than one record, and reports them with the
 * field-level differences of each duplicate against the first one.
 */
module DuplicateDetector {
  import opened Common

  // ---------------------------------------------------------------------
  // Lines and keys

  /** One line of a JSONL file, as the JSON parser sees it. */
  datatype Line =
    | Blank               // only whitespace: skipped, and the line counter does not move
    | Malformed           // not JSON: logged, and the line counter moves on
    | NotObject           // JSON that is not an object: reading its key fails and the file is abandoned
    | Parsed(record: Record)

  /** A record together with the line number the scan gave it. */
  datatype Occurrence = Occurrence(lineNumber: nat, record: Record)

  /** The group a record joins: none for a null or empty key value, else `str(value)`. */
  function KeyOf(r: Record, field: string): Option<string>
  {
    var v := Get(r, field);
    if v == Null || v == Str("") then None else Some(PyStr(v))
  }

  /** The scan of a file so far: the next line number, the groups by key, and whether it was abandoned. */
  datatype ScanState = ScanState(nextLine: nat, groups: map<string, seq<Occurrence>>, failed: bool)

  function ScanStep(st: ScanState, line: Line, field: string): ScanState
  {
    if st.failed then st
    else match line
      case Blank => st
      case Malformed => st.(nextLine := st.nextLine + 1)
      case NotObject => st.(failed := true)
      case Parsed(r) =>
        match KeyOf(r, field)
        case None => st.(nextLine := st.nextLine + 1)
        case Some(k) =>
          var prior := if k in st.groups then st.groups[k] else [];
          ScanState(st.nextLine + 1, st.groups[k := prior + [Occurrence(st.nextLine, r)]], false)
  }

  /** The scan of a whole file, line numbers starting at 1. */
  function Scan(lines: seq<Line>, field: string): ScanState
  {
    if lines == [] then ScanState(1, map[], false)
    else ScanStep(Scan(lines[..|lines| - 1], field), lines[|lines| - 1], field)
  }

  /** The number of lines that are not blank. */
  function NonBlank(lines: seq<Line>): nat
  {
    if lines == [] then 0
    else NonBlank(lines[..|lines| - 1]) + (if lines[|lines| - 1].Blank? then 0 else 1)
  }

  /** The line number the scan gives line `i`: one more than the non-blank lines before it. */
  function LineNumberAt(lines: seq<Line>, i: nat): nat
    requires i <= |lines|
  {
    1 + NonBlank(lines[..i])
  }

  /** The number of records whose key is `k`. */
  function CountKey(lines: seq<Line>, field: string, k: string): nat
  {
    if lines == [] then 0
    else
      var last := lines[|lines| - 1];
      CountKey(lines[..|lines| - 1], field, k) + (if last.Parsed? && KeyOf(last.record, field) == Some(k) then 1 else 0)
  }

  /**
   * The scan is abandoned exactly when some line is JSON but not an object;
   * otherwise the next line number is one past the non-blank lines.
   */
  lemma {:induction false} ScanProgress(lines: seq<Line>, field: string)
    ensures Scan(lines, field).failed <==> NotObject in lines
    ensures !Scan(lines, field).failed ==> Scan(lines, field).nextLine == 1 + NonBlank(lines)
  {
    if lines != [] {
      var init := lines[..|lines| - 1];
      ScanProgress(init, field);
      assert NotObject in lines <==> NotObject in init || lines[|lines| - 1] == NotObject;
    }
  }

  /** A key has a group exactly when some record carries it, and the group holds one entry per such record. */
  lemma {:induction false} ScanCounts(lines: seq<Line>, field: string, k: string)
    requires !Scan(lines, field).failed
    ensures k in Scan(lines, field).groups <==> CountKey(lines, field, k) > 0
    ensures k in Scan(lines, field).groups ==> |Scan(lines, field).groups[k]| == CountKey(lines, field, k)
  {
    if lines != [] {
      var init := lines[..|lines| - 1];
      assert !Scan(init, field).failed;
      ScanCounts(init, field, k);
    }
  }

  /** Every entry carries its group's key and a line number below the next one, increasing within the group. */
  ghost predicate Ordered(st: ScanState, field: string)
  {
    && (forall k, j :: k in st.groups && 0 <= j < |st.groups[k]| ==>
          st.groups[k][j].lineNumber < st.nextLine && KeyOf(st.groups[k][j].record, field) == Some(k))
    && (forall k, a, b :: k in st.groups && 0 <= a < b < |st.groups[k]| ==>
          st.groups[k][a].lineNumber < st.groups[k][b].lineNumber)
  }

  lemma ScanStepOrdered(st: ScanState, line: Line, field: string)
    requires Ordered(st, field)
    ensures Ordered(ScanStep(st, line, field), field)
  {
    if !st.failed && line.Parsed? && KeyOf(line.record, field).Some? {
      var k := KeyOf(line.record, field).value;
      var prior := if k in st.groups then st.groups[k] else [];
      var grown := prior + [Occurrence(st.nextLine, line.record)];
      assert forall j :: 0 <= j < |prior| ==> grown[j] == prior[j];
    }
  }

  /** Every entry carries its group's key, and the line numbers of a group strictly increase. */
  lemma {:induction false} ScanGroupOrder(lines: seq<Line>, field: string)
    ensures Ordered(Scan(lines, field), field)
  {
    if lines != [] {
      ScanGroupOrder(lines[..|lines| - 1], field);
      ScanStepOrdered(Scan(lines[..|lines| - 1], field), lines[|lines| - 1], field);
    }
  }

  /** Some line of the file is the record `occ.record`, with key `k`, numbered `occ.lineNumber`. */
  ghost predicate Occurs(lines: seq<Line>, field: string, k: string, occ: Occurrence)
  {
    exists i :: 0 <= i < |lines| && lines[i] == Parsed(occ.record) && KeyOf(occ.record, field) == Some(k)
      && occ.lineNumber == LineNumberAt(lines, i)
  }

  lemma OccursExtend(lines: seq<Line>, field: string, k: string, occ: Occurrence)
    requires lines != []
    ensures var n := |lines| - 1;
      Occurs(lines, field, k, occ) <==>
        || Occurs(lines[..n], field, k, occ)
        || (lines[n] == Parsed(occ.record) && KeyOf(occ.record, field) == Some(k) && occ.lineNumber == LineNumberAt(lines, n))
  {
    var n := |lines| - 1;
    var init := lines[..n];
    if Occurs(lines, field, k, occ) {
      var i :| 0 <= i < |lines| && lines[i] == Parsed(occ.record) && KeyOf(occ.record, field) == Some(k)
        && occ.lineNumber == LineNumberAt(lines, i);
      if i < n {
        assert lines[..i] == init[..i];
        assert init[i] == lines[i];
        assert Occurs(init, field, k, occ);
      }
    }
    if Occurs(init, field, k, occ) {
      var i :| 0 <= i < |init| && init[i] == Parsed(occ.record) && KeyOf(occ.record, field) == Some(k)
        && occ.lineNumber == LineNumberAt(init, i);
      assert lines[..i] == init[..i];
      assert lines[i] == Parsed(occ.record) && occ.lineNumber == LineNumberAt(lines, i);
    }
  }

  /**
   * Every entry of every group is a record line of the file, carrying that
   * line's number, and every record line with a key is in its key's group.
   */
  lemma {:induction false} ScanOccurrences(lines: seq<Line>, field: string)
    requires !Scan(lines, field).failed
    ensures var g := Scan(lines, field).groups;
      forall k, occ :: k in g && occ in g[k] <==> Occurs(lines, field, k, occ)
  {
    if lines != [] {
      var n := |lines| - 1;
      var init := lines[..n];
      assert !Scan(init, field).failed;
      ScanOccurrences(init, field);
      ScanProgress(init, field);
      assert Scan(init, field).nextLine == LineNumberAt(lines, n);
      forall k, occ ensures k in Scan(lines, field).groups && occ in Scan(lines, field).groups[k] <==> Occurs(lines, field, k, occ) {
        OccursExtend(lines, field, k, occ);
      }
    }
  }

  /** The groups with more than one record. */
  function DuplicatesOf(groups: map<string, seq<Occurrence>>): map<string, seq<Occurrence>>
  {
    map k | k in groups && |groups[k]| > 1 :: groups[k]
  }

  /** A key is reported for a file exactly when more than one of its records carries it. */
  lemma DuplicateKeys(lines: seq<Line>, field: string, k: string)
    requires !Scan(lines, field).failed
    ensures k in DuplicatesOf(Scan(lines, field).groups) <==> CountKey(lines, field, k) > 1
  {
    ScanCounts(lines, field, k);
  }

  /** The per-line loop over one file; `failed` when a line is JSON but not an object. */
  method ScanLines(lines: seq<Line>, field: string) returns (failed: bool, fkRecords: map<string, seq<Occurrence>>)
    ensures failed == Scan(lines, field).failed
    ensures !failed ==> fkRecords == Scan(lines, field).groups
  {
    fkRecords := map[];
    var lineNumber := 1;
    var i := 0;
    while i < |lines|
      invariant 0 <= i <= |lines|
      invariant Scan(lines[..i], field) == ScanState(lineNumber, fkRecords, false)
    {
      assert lines[..i + 1][..i] == lines[..i];
      match lines[i] {
        case Blank =>
        case Malformed =>
          lineNumber := lineNumber + 1;
        case NotObject =>
          ScanProgress(lines, field);
          return true, fkRecords;
        case Parsed(record) =>
          var fkValue := Get(record, field);
          if fkValue == Null || fkValue == Str("") {
            lineNumber := lineNumber + 1;
          } else {
            var key := PyStr(fkValue);
            var prior := if key in fkRecords then fkRecords[key] else [];
            fkRecords := fkRecords[key := prior + [Occurrence(lineNumber, record)]];
            lineNumber := lineNumber + 1;
          }
      }
      i := i + 1;
    }
    assert lines[..i] == lines;
    failed := false;
  }

  /** The loop keeping the groups with more than one record. */
  method FindDuplicates(fkRecords: map<string, seq<Occurrence>>) returns (objectDuplicates: map<string, seq<Occurrence>>)
    ensures objectDuplicates == DuplicatesOf(fkRecords)
  {
    objectDuplicates := map[];
    var todo := fkRecords.Keys;
    while todo != {}
      invariant todo <= fkRecords.Keys
      invariant objectDuplicates == map k | k in fkRecords.Keys - todo && |fkRecords[k]| > 1 :: fkRecords[k]
      decreases |todo|
    {
      var k :| k in todo;
      if |fkRecords[k]| > 1 {
        objectDuplicates := objectDuplicates[k := fkRecords[k]];
      }
      todo := todo - {k};
    }
  }

  // ---------------------------------------------------------------------
  // Differences between duplicates

  datatype FieldChange = FieldChange(baseValue: Value, compareValue: Value)

  datatype RecordDiff = RecordDiff(baseRecordLine: nat, compareRecordLine: nat, differentFields: map<string, FieldChange>)

  /** The fields, over the union of both records' fields, whose values differ. */
  function ChangedFields(base: Record, other: Record): map<string, FieldChange>
  {
    map f | f in base.Keys + other.Keys && Get(base, f) != Get(other, f) :: FieldChange(Get(base, f), Get(other, f))
  }

  /** A field is reported exactly when the two records' values for it differ (an absent field reads as null). */
  lemma ChangedFieldsSpec(base: Record, other: Record, f: string)
    ensures f in ChangedFields(base, other) <==> Get(base, f) != Get(other, f)
    ensures f in ChangedFields(base, other) ==>
      ChangedFields(base, other)[f] == FieldChange(Get(base, f), Get(other, f))
  {
    if f !in base && f !in other {
      assert Get(base, f) == Null == Get(other, f);
    }
  }

  /** The differences of records 1 .. n−1 against record 0, in order, skipping identical ones. */
  function DiffsUpTo(records: seq<Occurrence>, n: nat): seq<RecordDiff>
    requires 1 <= n <= |records|
  {
    if n == 1 then []
    else
      var d := ChangedFields(records[0].record, records[n - 1].record);
      DiffsUpTo(records, n - 1) + (if d != map[] then [RecordDiff(records[0].lineNumber, records[n - 1].lineNumber, d)] else [])
  }

  /** What the difference calculation yields; fewer than two records give none. */
  function RecordDifferences(records: seq<Occurrence>): seq<RecordDiff>
  {
    if |records| < 2 then [] else DiffsUpTo(records, |records|)
  }

  /**
   * Each difference compares some later record with the first, lists exactly the
   * fields where they differ, and exists exactly when there is such a field; at
   * most one difference per later record.
   */
  lemma {:induction false} DiffsUpToSpec(records: seq<Occurrence>, n: nat)
    requires 1 <= n <= |records|
    ensures |DiffsUpTo(records, n)| <= n - 1
    ensures forall d :: d in DiffsUpTo(records, n) <==>
      exists i :: 1 <= i < n && ChangedFields(records[0].record, records[i].record) != map[]
        && d == RecordDiff(records[0].lineNumber, records[i].lineNumber, ChangedFields(records[0].record, records[i].record))
  {
    if n > 1 {
      DiffsUpToSpec(records, n - 1);
    }
  }

  lemma RecordDifferencesSpec(records: seq<Occurrence>)
    ensures |records| < 2 ==> RecordDifferences(records) == []
    ensures |records| >= 2 ==> |RecordDifferences(records)| < |records|
    ensures forall d :: d in RecordDifferences(records) <==>
      exists i :: 1 <= i < |records| && ChangedFields(records[0].record, records[i].record) != map[]
        && d == RecordDiff(records[0].lineNumber, records[i].lineNumber, ChangedFields(records[0].record, records[i].record))
  {
    if |records| >= 2 {
      DiffsUpToSpec(records, |records|);
    }
  }

  /** The changed fields among the listed ones. */
  function ChangedOver(base: Record, other: Record, fields: seq<string>): map<string, FieldChange>
  {
    if fields == [] then map[]
    else
      var rest := ChangedOver(base, other, fields[..|fields| - 1]);
      var f := fields[|fields| - 1];
      if Get(base, f) != Get(other, f) then rest[f := FieldChange(Get(base, f), Get(other, f))] else rest
  }

  lemma {:induction false} ChangedOverSpec(base: Record, other: Record, fields: seq<string>, f: string)
    ensures f in ChangedOver(base, other, fields) <==> f in fields && Get(base, f) != Get(other, f)
    ensures f in ChangedOver(base, other, fields) ==>
      ChangedOver(base, other, fields)[f] == FieldChange(Get(base, f), Get(other, f))
  {
    if fields != [] {
      ChangedOverSpec(base, other, fields[..|fields| - 1], f);
      assert f in fields <==> f in fields[..|fields| - 1] || f == fields[|fields| - 1];
    }
  }

  /** Going through the union of the fields in any complete order finds exactly the changed fields. */
  lemma ChangedOverAll(base: Record, other: Record, fields: seq<string>)
    requires forall f :: f in fields <==> f in base.Keys + other.Keys
    ensures ChangedOver(base, other, fields) == ChangedFields(base, other)
  {
    forall f ensures f in ChangedOver(base, other, fields) <==> f in ChangedFields(base, other) {
      ChangedOverSpec(base, other, fields, f);
      ChangedFieldsSpec(base, other, f);
    }
    forall f | f in ChangedFields(base, other)
      ensures ChangedOver(base, other, fields)[f] == ChangedFields(base, other)[f]
    {
      ChangedOverSpec(base, other, fields, f);
    }
  }

  /** The loop over the union of two records' fields. */
  method CompareRecordFields(base: Record, other: Record) returns (recordDiff: map<string, FieldChange>)
    ensures recordDiff == ChangedFields(base, other)
  {
    var allFields := SortedOfSet(base.Keys + other.Keys);
    recordDiff := map[];
    var i := 0;
    while i < |allFields|
      invariant 0 <= i <= |allFields|
      invariant recordDiff == ChangedOver(base, other, allFields[..i])
    {
      assert allFields[..i + 1][..i] == allFields[..i];
      var field := allFields[i];
      var baseValue := Get(base, field);
      var compareValue := Get(other, field);
      if baseValue != compareValue {
        recordDiff := recordDiff[field := FieldChange(baseValue, compareValue)];
      }
      i := i + 1;
    }
    assert allFields[..i] == allFields;
    SortedOfSetSpec(base.Keys + other.Keys);
    ChangedOverAll(base, other, allFields);
  }

  /** Compares each later duplicate with the first one. */
  method CalculateRecordDifferences(records: seq<Occurrence>) returns (differences: seq<RecordDiff>)
    ensures differences == RecordDifferences(records)
  {
    if |records| < 2 {
      return [];
    }
    differences := [];
    var baseRecord := records[0].record;
    var i := 1;
    while i < |records|
      invariant 1 <= i <= |records|
      invariant differences == DiffsUpTo(records, i)
    {
      var recordDiff := CompareRecordFields(baseRecord, records[i].record);
      if recordDiff != map[] {
        differences := differences + [RecordDiff(records[0].lineNumber, records[i].lineNumber, recordDiff)];
      }
      i := i + 1;
    }
  }

  // ---------------------------------------------------------------------
  // One org

  type Groups = map<string, seq<Occurrence>>

  /** The duplicates of one object's file, or none when the file is absent, abandoned or clean. */
  function ObjectDuplicates(files: map<string, seq<Line>>, objectName: string, field: string): Option<Groups>
  {
    if objectName !in files then None
    else
      var st := Scan(files[objectName], field);
      if st.failed || DuplicatesOf(st.groups) == map[] then None else Some(DuplicatesOf(st.groups))
  }

  /** The org's duplicates over the listed objects. */
  function OrgDuplicatesOver(mappings: map<string, string>, files: map<string, seq<Line>>, objects: seq<string>)
    : map<string, Groups>
  {
    if objects == [] then map[]
    else
      var rest := OrgDuplicatesOver(mappings, files, objects[..|objects| - 1]);
      var o := objects[|objects| - 1];
      var d := if o in mappings then ObjectDuplicates(files, o, mappings[o]) else None;
      if d.Some? then rest[o := d.value] else rest
  }

  /** The org's duplicates: every configured object whose file has a duplicated key. */
  function OrgDuplicatesOf(mappings: map<string, string>, files: map<string, seq<Line>>): map<string, Groups>
  {
    OrgDuplicatesOver(mappings, files, SortedOfSet(mappings.Keys))
  }

  /**
   * An object is listed exactly when it is configured, its file exists and
   * is not abandoned, and some key there is held by more than one record; it
   * lists exactly those keys.
   */
  lemma {:induction false} OrgDuplicatesOverSpec(mappings: map<string, string>, files: map<string, seq<Line>>,
                                                 objects: seq<string>, o: string)
    ensures o in OrgDuplicatesOver(mappings, files, objects) <==>
      o in objects && o in mappings && ObjectDuplicates(files, o, mappings[o]).Some?
    ensures o in OrgDuplicatesOver(mappings, files, objects) ==>
      OrgDuplicatesOver(mappings, files, objects)[o] == ObjectDuplicates(files, o, mappings[o]).value
  {
    if objects != [] {
      OrgDuplicatesOverSpec(mappings, files, objects[..|objects| - 1], o);
      assert o in objects <==> o in objects[..|objects| - 1] || o == objects[|objects| - 1];
    }
  }

  lemma OrgDuplicatesMembers(mappings: map<string, string>, files: map<string, seq<Line>>, o: string)
    ensures o in OrgDuplicatesOf(mappings, files) <==>
      && o in mappings && o in files
      && !Scan(files[o], mappings[o]).failed
      && exists k :: CountKey(files[o], mappings[o], k) > 1
    ensures o in OrgDuplicatesOf(mappings, files) ==>
      forall k :: k in OrgDuplicatesOf(mappings, files)[o] <==> CountKey(files[o], mappings[o], k) > 1
  {
    SortedOfSetSpec(mappings.Keys);
    OrgDuplicatesOverSpec(mappings, files, SortedOfSet(mappings.Keys), o);
    if o in mappings && o in files && !Scan(files[o], mappings[o]).failed {
      var g := Scan(files[o], mappings[o]).groups;
      forall k ensures k in DuplicatesOf(g) <==> CountKey(files[o], mappings[o], k) > 1 {
        DuplicateKeys(files[o], mappings[o], k);
      }
      if DuplicatesOf(g) != map[] {
        var k :| k in DuplicatesOf(g);
        assert CountKey(files[o], mappings[o], k) > 1;
      }
      if exists k :: CountKey(files[o], mappings[o], k) > 1 {
        var k :| CountKey(files[o], mappings[o], k) > 1;
        assert k in DuplicatesOf(g);
      }
    }
  }

  /** One object's pass: the file's duplicated keys, or none when absent, abandoned or clean. */
  method DetectInObject(files: map<string, seq<Line>>, objectName: string, field: string) returns (found: Option<Groups>)
    ensures found == ObjectDuplicates(files, objectName, field)
  {
    if objectName !in files {
      return None;
    }
    var failed, fkRecords := ScanLines(files[objectName], field);
    if failed {
      return None;
    }
    var objectDuplicates := FindDuplicates(fkRecords);
    found := if objectDuplicates == map[] then None else Some(objectDuplicates);
  }

  // ---------------------------------------------------------------------
  // The report

  datatype DuplicateRecord = DuplicateRecord(lineNumber: nat, recordId: Value, recordData: Record)

  datatype DuplicateEntry = DuplicateEntry(foreignKey: string, recordCount: nat, records: seq<DuplicateRecord>,
                                           differences: seq<RecordDiff>)

  datatype ObjectReport = ObjectReport(objectName: string, foreignKeyField: string, duplicateCount: nat,
                                       duplicates: map<string, DuplicateEntry>)

  datatype OrgReport = OrgReport(orgName: string, objectsWithDuplicates: nat, objects: map<string, ObjectReport>)

  datatype ReportSummary = ReportSummary(totalOrgsWithDuplicates: nat, totalObjectsWithDuplicates: nat,
                                         totalDuplicateFks: nat, requiresResolution: bool)

  datatype Report = Report(summary: ReportSummary, duplicates: map<string, OrgReport>)

  type Duplicates = map<string, map<string, Groups>>

  /** The record's `Id`, or "Unknown" when it has none. */
  function RecordIdOf(r: Record): Value
  {
    if "Id" in r then r["Id"] else Str("Unknown")
  }

  /** The listed records of a duplicate group, in scan order. */
  function RecordsOf(occs: seq<Occurrence>): seq<DuplicateRecord>
  {
    if occs == [] then []
    else
      var o := occs[|occs| - 1];
      RecordsOf(occs[..|occs| - 1]) + [DuplicateRecord(o.lineNumber, RecordIdOf(o.record), o.record)]
  }

  /** Each occurrence is listed once, at its own position, with its line number, id and data. */
  lemma {:induction false} RecordsOfSpec(occs: seq<Occurrence>)
    ensures |RecordsOf(occs)| == |occs|
    ensures forall i :: 0 <= i < |occs| ==>
      RecordsOf(occs)[i] == DuplicateRecord(occs[i].lineNumber, RecordIdOf(occs[i].record), occs[i].record)
  {
    if occs != [] {
      RecordsOfSpec(occs[..|occs| - 1]);
    }
  }

  function EntryOf(fk: string, occs: seq<Occurrence>): DuplicateEntry
  {
    DuplicateEntry(fk, |occs|, RecordsOf(occs), RecordDifferences(occs))
  }

  /** The report entries of the listed keys. */
  function EntriesOver(groups: Groups, fks: seq<string>): map<string, DuplicateEntry>
  {
    if fks == [] then map[]
    else
      var rest := EntriesOver(groups, fks[..|fks| - 1]);
      var fk := fks[|fks| - 1];
      if fk in groups then rest[fk := EntryOf(fk, groups[fk])] else rest
  }

  lemma {:induction false} EntriesOverSpec(groups: Groups, fks: seq<string>, fk: string)
    ensures fk in EntriesOver(groups, fks) <==> fk in fks && fk in groups
    ensures fk in EntriesOver(groups, fks) ==> EntriesOver(groups, fks)[fk] == EntryOf(fk, groups[fk])
  {
    if fks != [] {
      EntriesOverSpec(groups, fks[..|fks| - 1], fk);
      assert fk in fks <==> fk in fks[..|fks| - 1] || fk == fks[|fks| - 1];
    }
  }

  function FieldFor(mappings: map<string, string>, objectName: string): string
  {
    if objectName in mappings then mappings[objectName] else "Unknown"
  }

  function ObjectReportOf(mappings: map<string, string>, objectName: string, groups: Groups): ObjectReport
  {
    ObjectReport(objectName, FieldFor(mappings, objectName), |groups|, EntriesOver(groups, SortedOfSet(groups.Keys)))
  }

  /** The object reports of the listed objects. */
  function ObjectReportsOver(mappings: map<string, string>, orgDups: map<string, Groups>, objects: seq<string>)
    : map<string, ObjectReport>
  {
    if objects == [] then map[]
    else
      var rest := ObjectReportsOver(mappings, orgDups, objects[..|objects| - 1]);
      var o := objects[|objects| - 1];
      if o in orgDups then rest[o := ObjectReportOf(mappings, o, orgDups[o])] else rest
  }

  lemma {:induction false} ObjectReportsOverSpec(mappings: map<string, string>, orgDups: map<string, Groups>,
                                                 objects: seq<string>, o: string)
    ensures o in ObjectReportsOver(mappings, orgDups, objects) <==> o in objects && o in orgDups
    ensures o in ObjectReportsOver(mappings, orgDups, objects) ==>
      ObjectReportsOver(mappings, orgDups, objects)[o] == ObjectReportOf(mappings, o, orgDups[o])
  {
    if objects != [] {
      ObjectReportsOverSpec(mappings, orgDups, objects[..|objects| - 1], o);
      assert o in objects <==> o in objects[..|objects| - 1] || o == objects[|objects| - 1];
    }
  }

  function OrgReportOf(mappings: map<string, string>, orgName: string, orgDups: map<string, Groups>): OrgReport
  {
    OrgReport(orgName, |orgDups|, ObjectReportsOver(mappings, orgDups, SortedOfSet(orgDups.Keys)))
  }

  /** The org reports of the listed orgs. */
  function OrgReportsOver(mappings: map<string, string>, dups: Duplicates, orgs: seq<string>): map<string, OrgReport>
  {
    if orgs == [] then map[]
    else
      var rest := OrgReportsOver(mappings, dups, orgs[..|orgs| - 1]);
      var o := orgs[|orgs| - 1];
      if o in dups then rest[o := OrgReportOf(mappings, o, dups[o])] else rest
  }

  lemma {:induction false} OrgReportsOverSpec(mappings: map<string, string>, dups: Duplicates, orgs: seq<string>, o: string)
    ensures o in OrgReportsOver(mappings, dups, orgs) <==> o in orgs && o in dups
    ensures o in OrgReportsOver(mappings, dups, orgs) ==>
      OrgReportsOver(mappings, dups, orgs)[o] == OrgReportOf(mappings, o, dups[o])
  {
    if orgs != [] {
      OrgReportsOverSpec(mappings, dups, orgs[..|orgs| - 1], o);
      assert o in orgs <==> o in orgs[..|orgs| - 1] || o == orgs[|orgs| - 1];
    }
  }

  /** The number of duplicated keys over the listed objects of one org. */
  function KeysOver(orgDups: map<string, Groups>, objects: seq<string>): nat
  {
    if objects == [] then 0
    else
      var o := objects[|objects| - 1];
      KeysOver(orgDups, objects[..|objects| - 1]) + (if o in orgDups then |orgDups[o]| else 0)
  }

  /** The number of objects over the listed orgs. */
  function ObjectsOver(dups: Duplicates, orgs: seq<string>): nat
  {
    if orgs == [] then 0
    else
      var o := orgs[|orgs| - 1];
      ObjectsOver(dups, orgs[..|orgs| - 1]) + (if o in dups then |dups[o]| else 0)
  }

  /** The number of duplicated keys over the listed orgs. */
  function FksOver(dups: Duplicates, orgs: seq<string>): nat
  {
    if orgs == [] then 0
    else
      var o := orgs[|orgs| - 1];
      FksOver(dups, orgs[..|orgs| - 1]) + (if o in dups then KeysOver(dups[o], SortedOfSet(dups[o].Keys)) else 0)
  }

  /** The report's totals. */
  function SummaryOf(dups: Duplicates): ReportSummary
  {
    if dups == map[] then ReportSummary(0, 0, 0, false)
    else
      var orgs := SortedOfSet(dups.Keys);
      var fks := FksOver(dups, orgs);
      ReportSummary(|dups|, ObjectsOver(dups, orgs), fks, fks > 0)
  }

  /** What the report says about the detector's findings. */
  function ReportOf(dups: Duplicates, mappings: map<string, string>): Report
  {
    Report(SummaryOf(dups), OrgReportsOver(mappings, dups, SortedOfSet(dups.Keys)))
  }

  /** What the detector keeps: no empty org entry, no empty object entry, no single-record group. */
  ghost predicate WellFormed(dups: Duplicates)
  {
    forall org :: org in dups ==> OrgWellFormed(dups[org])
  }

  /** No empty object entry and no single-record group. */
  ghost predicate OrgWellFormed(orgDups: map<string, Groups>)
  {
    && orgDups != map[]
    && forall obj :: obj in orgDups ==> orgDups[obj] != map[] && forall k :: k in orgDups[obj] ==> |orgDups[obj][k]| > 1
  }

  /** Each listed object with at least one key adds at least one to the count. */
  lemma {:induction false} KeysOverBound(orgDups: map<string, Groups>, objects: seq<string>)
    requires forall o :: o in objects ==> o in orgDups && orgDups[o] != map[]
    ensures KeysOver(orgDups, objects) >= |objects|
  {
    if objects != [] {
      var last := objects[|objects| - 1];
      KeysOverBound(orgDups, objects[..|objects| - 1]);
      assert |orgDups[last]| >= 1 by { var k :| k in orgDups[last]; }
    }
  }

  /** Each listed org adds at least one object, and each object at least one key. */
  lemma {:induction false} TotalsOverBound(dups: Duplicates, orgs: seq<string>)
    requires WellFormed(dups)
    requires forall o :: o in orgs ==> o in dups
    ensures ObjectsOver(dups, orgs) >= |orgs|
    ensures FksOver(dups, orgs) >= ObjectsOver(dups, orgs)
  {
    if orgs != [] {
      var last := orgs[|orgs| - 1];
      TotalsOverBound(dups, orgs[..|orgs| - 1]);
      assert OrgWellFormed(dups[last]);
      assert |dups[last]| >= 1 by { var k :| k in dups[last]; }
      var objects := SortedOfSet(dups[last].Keys);
      SortedOfSetSpec(dups[last].Keys);
      KeysOverBound(dups[last], objects);
    }
  }

  /**
   * The summary counts orgs, objects and keys; each org has an object and each
   * object a key, so orgs ≤ objects ≤ keys, and resolution is required exactly
   * when some org has duplicates.
   */
  lemma ReportSummaryBounds(dups: Duplicates)
    requires WellFormed(dups)
    ensures var s := SummaryOf(dups);
      && s.totalOrgsWithDuplicates == |dups|
      && s.totalOrgsWithDuplicates <= s.totalObjectsWithDuplicates <= s.totalDuplicateFks
      && (s.requiresResolution <==> s.totalDuplicateFks > 0)
      && (s.requiresResolution <==> dups != map[])
  {
    if dups != map[] {
      SortedOfSetSpec(dups.Keys);
      TotalsOverBound(dups, SortedOfSet(dups.Keys));
    }
  }

  /**
   * The report lists every org, object and duplicated key of the findings and
   * nothing else; each key's entry counts and lists its records in scan order
   * and carries their differences against the first.
   */
  lemma ReportEntries(dups: Duplicates, mappings: map<string, string>, org: string, obj: string, fk: string)
    ensures org in ReportOf(dups, mappings).duplicates <==> org in dups
    ensures org in dups ==>
      var orgReport := ReportOf(dups, mappings).duplicates[org];
      && orgReport.objectsWithDuplicates == |dups[org]|
      && (obj in orgReport.objects <==> obj in dups[org])
    ensures org in dups && obj in dups[org] ==>
      var objectReport := ReportOf(dups, mappings).duplicates[org].objects[obj];
      && objectReport.foreignKeyField == FieldFor(mappings, obj)
      && objectReport.duplicateCount == |dups[org][obj]|
      && (fk in objectReport.duplicates <==> fk in dups[org][obj])
    ensures org in dups && obj in dups[org] && fk in dups[org][obj] ==>
      var entry := ReportOf(dups, mappings).duplicates[org].objects[obj].duplicates[fk];
      var occs := dups[org][obj][fk];
      && entry.recordCount == |occs| == |entry.records|
      && (forall i :: 0 <= i < |occs| ==> entry.records[i].lineNumber == occs[i].lineNumber)
      && entry.differences == RecordDifferences(occs)
  {
    SortedOfSetSpec(dups.Keys);
    OrgReportsOverSpec(mappings, dups, SortedOfSet(dups.Keys), org);
    if org in dups {
      SortedOfSetSpec(dups[org].Keys);
      ObjectReportsOverSpec(mappings, dups[org], SortedOfSet(dups[org].Keys), obj);
      if obj in dups[org] {
        SortedOfSetSpec(dups[org][obj].Keys);
        EntriesOverSpec(dups[org][obj], SortedOfSet(dups[org][obj].Keys), fk);
        if fk in dups[org][obj] {
          RecordsOfSpec(dups[org][obj][fk]);
        }
      }
    }
  }

  /** The per-record loop of one entry. */
  method ListRecords(records: seq<Occurrence>) returns (listed: seq<DuplicateRecord>)
    ensures listed == RecordsOf(records)
  {
    listed := [];
    var i := 0;
    while i < |records|
      invariant 0 <= i <= |records|
      invariant listed == RecordsOf(records[..i])
    {
      assert records[..i + 1][..i] == records[..i];
      listed := listed + [DuplicateRecord(records[i].lineNumber, RecordIdOf(records[i].record), records[i].record)];
      i := i + 1;
    }
    assert records[..i] == records;
  }

  /** The per-key loop of one object's report. */
  method ObjectReportFor(mappings: map<string, string>, objectName: string, objectDuplicates: Groups)
    returns (report: ObjectReport)
    ensures report == ObjectReportOf(mappings, objectName, objectDuplicates)
  {
    var fks := SortedOfSet(objectDuplicates.Keys);
    var entries: map<string, DuplicateEntry> := map[];
    var i := 0;
    while i < |fks|
      invariant 0 <= i <= |fks|
      invariant entries == EntriesOver(objectDuplicates, fks[..i])
    {
      assert fks[..i + 1][..i] == fks[..i];
      var fk := fks[i];
      if fk in objectDuplicates {
        var records := objectDuplicates[fk];
        var listed := ListRecords(records);
        var differences := CalculateRecordDifferences(records);
        entries := entries[fk := DuplicateEntry(fk, |records|, listed, differences)];
      }
      i := i + 1;
    }
    assert fks[..i] == fks;
    report := ObjectReport(objectName, FieldFor(mappings, objectName), |objectDuplicates|, entries);
  }

  /** The per-object loop of one org's report, with the number of keys it adds. */
  method OrgReportFor(mappings: map<string, string>, orgName: string, orgDups: map<string, Groups>)
    returns (report: OrgReport, keyCount: nat)
    ensures report == OrgReportOf(mappings, orgName, orgDups)
    ensures keyCount == KeysOver(orgDups, SortedOfSet(orgDups.Keys))
  {
    var objects := SortedOfSet(orgDups.Keys);
    var reports: map<string, ObjectReport> := map[];
    keyCount := 0;
    var i := 0;
    while i < |objects|
      invariant 0 <= i <= |objects|
      invariant reports == ObjectReportsOver(mappings, orgDups, objects[..i])
      invariant keyCount == KeysOver(orgDups, objects[..i])
    {
      assert objects[..i + 1][..i] == objects[..i];
      var objectName := objects[i];
      if objectName in orgDups {
        var objectReport := ObjectReportFor(mappings, objectName, orgDups[objectName]);
        reports := reports[objectName := objectReport];
        keyCount := keyCount + |orgDups[objectName]|;
      }
      i := i + 1;
    }
    assert objects[..i] == objects;
    report := OrgReport(orgName, |orgDups|, reports);
  }

  /** The per-org loop of the report, with its running totals. */
  method OrgsPass(mappings: map<string, string>, dups: Duplicates, orgs: seq<string>)
    returns (detailed: map<string, OrgReport>, totalObjects: nat, totalDuplicateFks: nat)
    ensures detailed == OrgReportsOver(mappings, dups, orgs)
    ensures totalObjects == ObjectsOver(dups, orgs)
    ensures totalDuplicateFks == FksOver(dups, orgs)
  {
    detailed := map[];
    totalObjects := 0;
    totalDuplicateFks := 0;
    var i := 0;
    while i < |orgs|
      invariant 0 <= i <= |orgs|
      invariant detailed == OrgReportsOver(mappings, dups, orgs[..i])
      invariant totalObjects == ObjectsOver(dups, orgs[..i])
      invariant totalDuplicateFks == FksOver(dups, orgs[..i])
    {
      assert orgs[..i + 1][..i] == orgs[..i];
      var orgName := orgs[i];
      if orgName in dups {
        var orgReport, keyCount := OrgReportFor(mappings, orgName, dups[orgName]);
        detailed := detailed[orgName := orgReport];
        totalObjects := totalObjects + |dups[orgName]|;
        totalDuplicateFks := totalDuplicateFks + keyCount;
      }
      i := i + 1;
    }
    assert orgs[..i] == orgs;
  }

  // ---------------------------------------------------------------------
  // The detector

  /** The key field of every configured object that declares one. */
  function MappingsOf(objects: map<string, Option<string>>): map<string, string>
  {
    map o | o in objects && objects[o].Some? :: objects[o].value
  }

  /** The detector's state after visiting the listed org directories; hidden ones are skipped. */
  function DetectedOver(dups: Duplicates, mappings: map<string, string>, dirs: seq<(string, map<string, seq<Line>>)>)
    : Duplicates
  {
    if dirs == [] then dups
    else
      var before := DetectedOver(dups, mappings, dirs[..|dirs| - 1]);
      var (org, files) := dirs[|dirs| - 1];
      var found := OrgDuplicatesOf(mappings, files);
      if StartsWith(org, ".") || found == map[] then before else before[org := found]
  }

  /** An org's duplicates are never empty, and every listed key is held by more than one record. */
  lemma OrgDuplicatesWellFormed(mappings: map<string, string>, files: map<string, seq<Line>>, org: string, dups: Duplicates)
    requires WellFormed(dups)
    ensures OrgDuplicatesOf(mappings, files) != map[] ==> WellFormed(dups[org := OrgDuplicatesOf(mappings, files)])
  {
    var found := OrgDuplicatesOf(mappings, files);
    forall obj | obj in found ensures found[obj] != map[] && forall k :: k in found[obj] ==> |found[obj][k]| > 1 {
      SortedOfSetSpec(mappings.Keys);
      OrgDuplicatesOverSpec(mappings, files, SortedOfSet(mappings.Keys), obj);
    }
  }

  lemma {:induction false} DetectedOverWellFormed(dups: Duplicates, mappings: map<string, string>,
                                                  dirs: seq<(string, map<string, seq<Line>>)>)
    requires WellFormed(dups)
    ensures WellFormed(DetectedOver(dups, mappings, dirs))
  {
    if dirs != [] {
      DetectedOverWellFormed(dups, mappings, dirs[..|dirs| - 1]);
      var (org, files) := dirs[|dirs| - 1];
      OrgDuplicatesWellFormed(mappings, files, org, DetectedOver(dups, mappings, dirs[..|dirs| - 1]));
    }
  }

  class Detector {
    var mappings: map<string, string>
    var duplicates: Duplicates

    ghost predicate Valid()
      reads this
    {
      WellFormed(duplicates)
    }

    /** Reads the configured key field of each object; no duplicates yet. */
    constructor (objects: map<string, Option<string>>)
      ensures mappings == MappingsOf(objects) && duplicates == map[]
      ensures Valid()
    {
      var m: map<string, string> := map[];
      var todo := objects.Keys;
      while todo != {}
        invariant todo <= objects.Keys
        invariant m == map o | o in objects.Keys - todo && objects[o].Some? :: objects[o].value
        decreases |todo|
      {
        var o :| o in todo;
        if objects[o].Some? {
          m := m[o := objects[o].value];
        }
        todo := todo - {o};
      }
      mappings := m;
      duplicates := map[];
    }

    /** The per-object loop over one org's files. */
    method DetectDuplicatesInOrg(files: map<string, seq<Line>>) returns (orgDuplicates: map<string, Groups>)
      ensures orgDuplicates == OrgDuplicatesOf(mappings, files)
    {
      var objects := SortedOfSet(mappings.Keys);
      orgDuplicates := map[];
      var i := 0;
      while i < |objects|
        invariant 0 <= i <= |objects|
        invariant orgDuplicates == OrgDuplicatesOver(mappings, files, objects[..i])
      {
        assert objects[..i + 1][..i] == objects[..i];
        var objectName := objects[i];
        if objectName in mappings {
          var found := DetectInObject(files, objectName, mappings[objectName]);
          if found.Some? {
            orgDuplicates := orgDuplicates[objectName := found.value];
          }
        }
        i := i + 1;
      }
      assert objects[..i] == objects;
    }

    /** Visits every org directory that is not hidden and records its duplicates, if any. */
    method DetectAllDuplicates(dirs: seq<(string, map<string, seq<Line>>)>)
      requires Valid()
      modifies this
      ensures Valid()
      ensures mappings == old(mappings)
      ensures duplicates == DetectedOver(old(duplicates), mappings, dirs)
    {
      var i := 0;
      while i < |dirs|
        invariant 0 <= i <= |dirs|
        invariant mappings == old(mappings)
        invariant duplicates == DetectedOver(old(duplicates), mappings, dirs[..i])
      {
        assert dirs[..i + 1][..i] == dirs[..i];
        var (orgName, files) := dirs[i];
        if !StartsWith(orgName, ".") {
          var orgDuplicates := DetectDuplicatesInOrg(files);
          if orgDuplicates != map[] {
            duplicates := duplicates[orgName := orgDuplicates];
          }
        }
        i := i + 1;
      }
      assert dirs[..i] == dirs;
      DetectedOverWellFormed(old(duplicates), mappings, dirs);
    }

    /** The report: one entry per org, object and key, with the totals. */
    method GenerateDuplicateReport() returns (report: Report)
      ensures report == ReportOf(duplicates, mappings)
    {
      if duplicates == map[] {
        return Report(ReportSummary(0, 0, 0, false), map[]);
      }
      var orgs := SortedOfSet(duplicates.Keys);
      var detailed, totalObjects, totalDuplicateFks := OrgsPass(mappings, duplicates, orgs);
      report := Report(ReportSummary(|duplicates|, totalObjects, totalDuplicateFks, totalDuplicateFks > 0), detailed);
    }
  }
}
