/**
 * The set-based ALL-vs-ALL record comparison: every loaded object file of
 * every org is stripped of excluded fields, tagged with its object, org and
 * primary key, filtered against the blacklist and given a composite key; the
 * comparison then takes `ref - comp` over composite keys for every ordered
 * org pair and records one difference row per differing field.
 */
module OptimizedComparison {
  import opened Common

  /** The ten Salesforce system fields excluded by default. */
  const DefaultExclusions: set<string> :=
    {"CreatedDate", "CreatedBy", "CreatedById", "CreatedBy_Name",
     "LastModifiedDate", "LastModifiedBy", "LastModifiedById", "LastModifiedBy_Name",
     "SystemModstamp", "Id"}

  /** Columns added to every record for bookkeeping; never compared. */
  const MetadataColumns: set<string> := {"org_name", "composite_key", "object_name", "primary_key"}

  /** Directory names that are never org folders. */
  const ExcludedDirs: set<string> := {".buffers", "comparison_results", "results", "output", "temp", "tmp"}

  /** The marker stored as the compared value when a record is absent. */
  const MissingMarker: Value := Str("MISSING")

  /** The exclusion set: the defaults united with the caller's names. */
  function Exclusions(extra: seq<string>): (s: set<string>)
    ensures DefaultExclusions <= s
    ensures forall f :: f in s <==> f in DefaultExclusions || f in extra
  {
    DefaultExclusions + set f | f in extra
  }

  // ---------------------------------------------------------------------
  // Discovery

  /** One entry of the base directory: its name, whether it is a directory, and the files inside it. */
  datatype DirEntry = DirEntry(name: string, isDir: bool, files: seq<string>)

  predicate IsOrgFolder(e: DirEntry)
  {
    e.isDir && !StartsWith(e.name, ".") && e.name !in ExcludedDirs
  }

  function OrgFolders(listing: seq<DirEntry>): (r: seq<DirEntry>)
    ensures forall e :: e in r <==> e in listing && IsOrgFolder(e)
  {
    if listing == [] then []
    else
      var rest := OrgFolders(listing[..|listing| - 1]);
      var e := listing[|listing| - 1];
      if IsOrgFolder(e) then rest + [e] else rest
  }

  function FolderNames(folders: seq<DirEntry>): (r: seq<string>)
    ensures |r| == |folders|
    ensures forall k :: 0 <= k < |folders| ==> r[k] == folders[k].name
  {
    if folders == [] then [] else FolderNames(folders[..|folders| - 1]) + [folders[|folders| - 1].name]
  }

  /** The object a data file holds: its name with every `.parquet`, `.csv` or `.jsonl` removed. */
  function ObjectOfFile(file: string): Option<string>
  {
    if EndsWith(file, ".parquet") then Some(ReplaceAll(file, ".parquet", ""))
    else if EndsWith(file, ".csv") then Some(ReplaceAll(file, ".csv", ""))
    else if EndsWith(file, ".jsonl") then Some(ReplaceAll(file, ".jsonl", ""))
    else None
  }

  function ObjectNames(files: seq<string>): (r: seq<string>)
    ensures forall o :: o in r <==> exists f :: f in files && ObjectOfFile(f) == Some(o)
  {
    if files == [] then []
    else
      var rest := ObjectNames(files[..|files| - 1]);
      var f := files[|files| - 1];
      assert forall g :: g in files <==> g in files[..|files| - 1] || g == f;
      match ObjectOfFile(f)
      case Some(o) => rest + [o]
      case None => rest
  }

  predicate InAllOrgs(o: string, folders: seq<DirEntry>)
  {
    forall k :: 0 <= k < |folders| ==> o in ObjectNames(folders[k].files)
  }

  function KeepInAllOrgs(candidates: seq<string>, folders: seq<DirEntry>): (r: seq<string>)
    ensures forall o :: o in r <==> o in candidates && InAllOrgs(o, folders)
  {
    if candidates == [] then []
    else
      var rest := KeepInAllOrgs(candidates[..|candidates| - 1], folders);
      var o := candidates[|candidates| - 1];
      if InAllOrgs(o, folders) then rest + [o] else rest
  }

  /** Objects present in every org folder, sorted and without repeats. */
  function CommonObjectsOf(folders: seq<DirEntry>): (r: seq<string>)
    requires |folders| > 0
    ensures Sorted(r) && NoDup(r)
    ensures forall o :: o in r <==> InAllOrgs(o, folders)
  {
    SortedSet(KeepInAllOrgs(ObjectNames(folders[0].files), folders))
  }

  // ---------------------------------------------------------------------
  // The combined frame

  /** A loaded object file: its column order and its records. */
  datatype Frame = Frame(columns: seq<string>, rows: seq<Record>)

  /** The hashable key of a record: object, primary key, then every data value in column order. */
  datatype CompositeKey = CompositeKey(objectName: string, primaryKey: Value, values: seq<Value>)

  /** A record of the combined frame with its metadata columns. */
  datatype MegaRow = MegaRow(objectName: string, orgName: string, primaryKey: Value, key: CompositeKey, data: Record)

  /** The combined frame: the union of data columns in first-seen order, and all rows. */
  datatype MegaFrame = MegaFrame(columns: seq<string>, rows: seq<MegaRow>)

  /** The rows of one (object, org) file after filtering, with the data columns they carry. */
  datatype Batch = Batch(columns: seq<string>, rows: seq<MegaRow>)

  /** Columns that survive exclusion and are not metadata. */
  function DataColumns(columns: seq<string>, excl: set<string>): (r: seq<string>)
    ensures forall c :: c in r <==> c in columns && c !in excl && c !in MetadataColumns
  {
    if columns == [] then []
    else
      var rest := DataColumns(columns[..|columns| - 1], excl);
      var c := columns[|columns| - 1];
      if c !in excl && c !in MetadataColumns then rest + [c] else rest
  }

  function Cells(row: Record, columns: seq<string>): (r: seq<Value>)
    ensures |r| == |columns|
    ensures forall k :: 0 <= k < |columns| ==> r[k] == Get(row, columns[k])
  {
    if columns == [] then [] else Cells(row, columns[..|columns| - 1]) + [Get(row, columns[|columns| - 1])]
  }

  /**
   * The `primary_key` column: the key field's value when that column survives
   * exclusion (or names one of the two metadata columns just added), else None.
   */
  function PrimaryKeyValue(row: Record, frame: Frame, pk: string, excl: set<string>, objectName: string, org: string): Value
  {
    if pk == "org_name" then Str(org)
    else if pk == "object_name" then Str(objectName)
    else if pk in frame.columns && pk !in excl then Get(row, pk)
    else Null
  }

  /** A record is blacklisted when its primary key is present and `object:key` is listed. */
  predicate Blacklisted(objectName: string, pk: Value, blacklist: set<string>)
  {
    pk != Null && objectName + ":" + PyStr(pk) in blacklist
  }

  function CompositeKeyOf(objectName: string, pk: Value, row: Record, dataCols: seq<string>): (k: CompositeKey)
    ensures k.objectName == objectName && k.primaryKey == pk
    ensures |k.values| == |dataCols|
    ensures forall i :: 0 <= i < |dataCols| ==> k.values[i] == Get(row, dataCols[i])
  {
    CompositeKey(objectName, pk, Cells(row, dataCols))
  }

  /** A record limited to the given columns: what the row holds after exclusion. */
  function Restrict(row: Record, cols: seq<string>): (r: Record)
    ensures forall c :: c in r <==> c in row && c in cols
  {
    map c | c in row && c in cols :: row[c]
  }

  predicate GoodRow(r: MegaRow, cols: seq<string>, excl: set<string>, blacklist: set<string>)
  {
    !Blacklisted(r.objectName, r.primaryKey, blacklist)
    && (forall c :: c in r.data ==> c in cols)
    && r.key.objectName == r.objectName && r.key.primaryKey == r.primaryKey
  }

  predicate GoodBatch(b: Batch, excl: set<string>, blacklist: set<string>)
  {
    (forall c :: c in b.columns ==> c !in excl && c !in MetadataColumns)
    && forall r :: r in b.rows ==> GoodRow(r, b.columns, excl, blacklist)
  }

  /** Tags, filters and keys the records of one file, in order. */
  function TagRows(records: seq<Record>, frame: Frame, objectName: string, org: string, pk: string,
                   excl: set<string>, blacklist: set<string>): (r: seq<MegaRow>)
    ensures |r| <= |records|
    ensures forall m :: m in r ==> m.objectName == objectName && m.orgName == org
    ensures forall m :: m in r ==> GoodRow(m, DataColumns(frame.columns, excl), excl, blacklist)
  {
    if records == [] then []
    else
      var rest := TagRows(records[..|records| - 1], frame, objectName, org, pk, excl, blacklist);
      var row := records[|records| - 1];
      var dataCols := DataColumns(frame.columns, excl);
      var pkv := PrimaryKeyValue(row, frame, pk, excl, objectName, org);
      if Blacklisted(objectName, pkv, blacklist) then rest
      else rest + [MegaRow(objectName, org, pkv, CompositeKeyOf(objectName, pkv, row, dataCols), Restrict(row, dataCols))]
  }

  /** The filter drops only blacklisted records: every other record of the file is kept, restricted and keyed. */
  lemma {:induction false} TagRowsKeeps(records: seq<Record>, frame: Frame, objectName: string, org: string, pk: string,
                                        excl: set<string>, blacklist: set<string>, i: nat)
    requires i < |records|
    requires !Blacklisted(objectName, PrimaryKeyValue(records[i], frame, pk, excl, objectName, org), blacklist)
    ensures var pkv := PrimaryKeyValue(records[i], frame, pk, excl, objectName, org);
      var dataCols := DataColumns(frame.columns, excl);
      MegaRow(objectName, org, pkv, CompositeKeyOf(objectName, pkv, records[i], dataCols), Restrict(records[i], dataCols))
        in TagRows(records, frame, objectName, org, pk, excl, blacklist)
  {
    if i < |records| - 1 {
      TagRowsKeeps(records[..|records| - 1], frame, objectName, org, pk, excl, blacklist, i);
    }
  }

  /** One batch per org whose file for this object was loaded and is not empty. */
  function BatchesForObject(objectName: string, pk: string, orgs: seq<string>, loaded: map<(string, string), Frame>,
                            excl: set<string>, blacklist: set<string>): (r: seq<Batch>)
    ensures |r| <= |orgs|
    ensures forall b :: b in r ==> GoodBatch(b, excl, blacklist)
    ensures forall b, m :: b in r && m in b.rows ==> m.objectName == objectName
  {
    if orgs == [] then []
    else
      var rest := BatchesForObject(objectName, pk, orgs[..|orgs| - 1], loaded, excl, blacklist);
      var org := orgs[|orgs| - 1];
      if (org, objectName) in loaded && |loaded[(org, objectName)].rows| > 0 then
        var frame := loaded[(org, objectName)];
        rest + [Batch(DataColumns(frame.columns, excl), TagRows(frame.rows, frame, objectName, org, pk, excl, blacklist))]
      else rest
  }

  /** The common objects that have a foreign key mapping, in order. */
  function ObjectsWithKeys(objects: seq<string>, mappings: map<string, string>): (r: seq<string>)
    ensures forall o :: o in r <==> o in objects && o in mappings
  {
    if objects == [] then []
    else
      var rest := ObjectsWithKeys(objects[..|objects| - 1], mappings);
      var o := objects[|objects| - 1];
      if o in mappings then rest + [o] else rest
  }

  function Batches(objects: seq<string>, mappings: map<string, string>, orgs: seq<string>,
                   loaded: map<(string, string), Frame>, excl: set<string>, blacklist: set<string>): (r: seq<Batch>)
    requires forall o :: o in objects ==> o in mappings
    ensures forall b :: b in r ==> GoodBatch(b, excl, blacklist)
    ensures forall b, m :: b in r && m in b.rows ==> m.objectName in objects
  {
    if objects == [] then []
    else
      var o := objects[|objects| - 1];
      Batches(objects[..|objects| - 1], mappings, orgs, loaded, excl, blacklist)
        + BatchesForObject(o, mappings[o], orgs, loaded, excl, blacklist)
  }

  function AllColumns(batches: seq<Batch>): (r: seq<string>)
    ensures forall c :: c in r <==> exists b :: b in batches && c in b.columns
  {
    if batches == [] then []
    else
      var init := batches[..|batches| - 1];
      assert forall b :: b in batches <==> b in init || b == batches[|batches| - 1];
      AllColumns(init) + batches[|batches| - 1].columns
  }

  function AllRows(batches: seq<Batch>): (r: seq<MegaRow>)
    ensures forall m :: m in r <==> exists b :: b in batches && m in b.rows
  {
    if batches == [] then []
    else
      var init := batches[..|batches| - 1];
      assert forall b :: b in batches <==> b in init || b == batches[|batches| - 1];
      AllRows(init) + batches[|batches| - 1].rows
  }

  /** Phase 1: the combined frame, or the source's two ValueErrors. */
  function CreateMegaFrame(commonObjects: seq<string>, mappings: map<string, string>, orgs: seq<string>,
                           loaded: map<(string, string), Frame>, excl: set<string>, blacklist: set<string>): Result<MegaFrame>
  {
    var objects := ObjectsWithKeys(commonObjects, mappings);
    if objects == [] then Err("No objects with foreign keys found")
    else
      var batches := Batches(objects, mappings, orgs, loaded, excl, blacklist);
      if batches == [] then Err("No data found for orgs")
      else Ok(MegaFrame(Dedup(AllColumns(batches)), AllRows(batches)))
  }

  /**
   * No column of the combined frame is excluded or metadata, no record in it is
   * blacklisted (so a null key never is), every record belongs to a common object
   * with a mapping, and every record's data lies within the frame's columns.
   */
  lemma MegaFrameClean(commonObjects: seq<string>, mappings: map<string, string>, orgs: seq<string>,
                       loaded: map<(string, string), Frame>, excl: set<string>, blacklist: set<string>)
    requires CreateMegaFrame(commonObjects, mappings, orgs, loaded, excl, blacklist).Ok?
    ensures var m := CreateMegaFrame(commonObjects, mappings, orgs, loaded, excl, blacklist).value;
      (forall c :: c in m.columns ==> c !in excl && c !in MetadataColumns)
      && (forall r :: r in m.rows ==> !Blacklisted(r.objectName, r.primaryKey, blacklist))
      && (forall r :: r in m.rows ==> r.objectName in commonObjects && r.objectName in mappings)
      && (forall r, c :: r in m.rows && c in r.data ==> c in m.columns)
  {
    var objects := ObjectsWithKeys(commonObjects, mappings);
    var batches := Batches(objects, mappings, orgs, loaded, excl, blacklist);
    var m := CreateMegaFrame(commonObjects, mappings, orgs, loaded, excl, blacklist).value;
    forall r, c | r in m.rows && c in r.data ensures c in m.columns {
      var b :| b in batches && r in b.rows;
      assert GoodRow(r, b.columns, excl, blacklist);
    }
  }

  /** The combined frame is refused exactly when no common object has a key, or nothing was loaded. */
  lemma MegaFrameErrors(commonObjects: seq<string>, mappings: map<string, string>, orgs: seq<string>,
                        loaded: map<(string, string), Frame>, excl: set<string>, blacklist: set<string>)
    ensures CreateMegaFrame(commonObjects, mappings, orgs, loaded, excl, blacklist).Err? <==>
      (forall o :: o in commonObjects ==> o !in mappings)
      || (forall o, org :: o in commonObjects && o in mappings && org in orgs ==>
            (org, o) !in loaded || loaded[(org, o)].rows == [])
  {
    var objects := ObjectsWithKeys(commonObjects, mappings);
    if objects != [] {
      BatchesEmpty(objects, mappings, orgs, loaded, excl, blacklist);
    }
  }

  lemma {:induction false} BatchesEmpty(objects: seq<string>, mappings: map<string, string>, orgs: seq<string>,
                                        loaded: map<(string, string), Frame>, excl: set<string>, blacklist: set<string>)
    requires forall o :: o in objects ==> o in mappings
    ensures Batches(objects, mappings, orgs, loaded, excl, blacklist) == [] <==>
      forall o, org :: o in objects && org in orgs ==> (org, o) !in loaded || loaded[(org, o)].rows == []
  {
    if objects != [] {
      var o := objects[|objects| - 1];
      BatchesEmpty(objects[..|objects| - 1], mappings, orgs, loaded, excl, blacklist);
      BatchesForObjectEmpty(o, mappings[o], orgs, loaded, excl, blacklist);
      assert forall p :: p in objects <==> p in objects[..|objects| - 1] || p == o;
    }
  }

  lemma {:induction false} BatchesForObjectEmpty(objectName: string, pk: string, orgs: seq<string>,
                                                 loaded: map<(string, string), Frame>, excl: set<string>, blacklist: set<string>)
    ensures BatchesForObject(objectName, pk, orgs, loaded, excl, blacklist) == [] <==>
      forall org :: org in orgs ==> (org, objectName) !in loaded || loaded[(org, objectName)].rows == []
  {
    if orgs != [] {
      var org := orgs[|orgs| - 1];
      BatchesForObjectEmpty(objectName, pk, orgs[..|orgs| - 1], loaded, excl, blacklist);
      assert forall p :: p in orgs <==> p in orgs[..|orgs| - 1] || p == org;
    }
  }

  // ---------------------------------------------------------------------
  // Difference rows

  datatype DifferenceType = RecordMissing | ValueDifference

  /**
   * One output row: key field and value, `object.field` and the two orgs' values.
   * Its "Difference Type" column is not stored but derived from the two values,
   * exactly as it is decided when the row is appended.
   */
  datatype DiffRow = DiffRow(foreignKeyField: string, foreignKeyValue: Value, objectFieldName: string,
                             org1: string, val1: Value, org2: string, val2: Value)
  {
    function Kind(): DifferenceType
    {
      if val1 == MissingMarker || val2 == MissingMarker then RecordMissing else ValueDifference
    }
  }

  /** The configured key field of an object, `Id` when it has none. */
  function ForeignKeyField(mappings: map<string, string>, objectName: string): string
  {
    if objectName in mappings then mappings[objectName] else "Id"
  }

  function DiffRowFor(mappings: map<string, string>, pk: Value, objectName: string, field: string,
                      org1: string, val1: Value, org2: string, val2: Value): (row: DiffRow)
    ensures row.objectFieldName == objectName + "." + field
    ensures row.org1 == org1 && row.org2 == org2 && row.val1 == val1 && row.val2 == val2
  {
    DiffRow(ForeignKeyField(mappings, objectName), pk, objectName + "." + field, org1, val1, org2, val2)
  }

  /** What every row emitted for the pair (org1, org2) satisfies. */
  predicate RowOfPair(row: DiffRow, objects: set<string>, cols: seq<string>, org1: string, org2: string)
  {
    row.org1 == org1 && row.org2 == org2
    && exists o, c :: o in objects && c in cols && row.objectFieldName == o + "." + c
  }

  /** pandas `isna` on both sides: two missing values count as equal. */
  predicate BothNull(a: Value, b: Value) { a == Null && b == Null }

  predicate SameCell(a: Value, b: Value) { BothNull(a, b) || a == b }

  /** Two records agree on every non-metadata column. */
  predicate RecordsIdentical(r1: MegaRow, r2: MegaRow, cols: seq<string>)
  {
    forall k :: 0 <= k < |cols| ==> SameCell(Get(r1.data, cols[k]), Get(r2.data, cols[k]))
  }

  /** One row per column, the compared value being the MISSING marker. */
  function MissingRows(mappings: map<string, string>, ref: MegaRow, cols: seq<string>, org1: string, org2: string): seq<DiffRow>
  {
    if cols == [] then []
    else
      var c := cols[|cols| - 1];
      MissingRows(mappings, ref, cols[..|cols| - 1], org1, org2)
        + [DiffRowFor(mappings, ref.primaryKey, ref.objectName, c, org1, Get(ref.data, c), org2, MissingMarker)]
  }

  /**
   * A record absent from the compared org yields exactly one row per column,
   * in column order, each holding the reference value and the MISSING marker.
   */
  lemma {:induction false} MissingRowsAt(mappings: map<string, string>, ref: MegaRow, cols: seq<string>, org1: string, org2: string)
    ensures |MissingRows(mappings, ref, cols, org1, org2)| == |cols|
    ensures forall k :: 0 <= k < |cols| ==>
      (MissingRows(mappings, ref, cols, org1, org2)[k] ==
       DiffRowFor(mappings, ref.primaryKey, ref.objectName, cols[k], org1, Get(ref.data, cols[k]), org2, MissingMarker))
  {
    if cols != [] {
      MissingRowsAt(mappings, ref, cols[..|cols| - 1], org1, org2);
    }
  }

  /** One row per column on which the two records differ (two missing values agree). */
  function FieldRows(mappings: map<string, string>, ref: MegaRow, comp: MegaRow, cols: seq<string>, org1: string, org2: string): seq<DiffRow>
  {
    if cols == [] then []
    else
      var c := cols[|cols| - 1];
      var rest := FieldRows(mappings, ref, comp, cols[..|cols| - 1], org1, org2);
      var v1, v2 := Get(ref.data, c), Get(comp.data, c);
      if SameCell(v1, v2) then rest
      else rest + [DiffRowFor(mappings, ref.primaryKey, ref.objectName, c, org1, v1, org2, v2)]
  }

  /** Every field row is for a column of the frame on which the two values really differ. */
  lemma {:induction false} FieldRowsSpec(mappings: map<string, string>, ref: MegaRow, comp: MegaRow, cols: seq<string>, org1: string, org2: string)
    ensures |FieldRows(mappings, ref, comp, cols, org1, org2)| <= |cols|
    ensures forall row :: row in FieldRows(mappings, ref, comp, cols, org1, org2) ==>
      && row.val1 != row.val2 && !BothNull(row.val1, row.val2)
      && exists c :: c in cols && row == DiffRowFor(mappings, ref.primaryKey, ref.objectName, c, org1, Get(ref.data, c), org2, Get(comp.data, c))
  {
    if cols != [] {
      var init := cols[..|cols| - 1];
      FieldRowsSpec(mappings, ref, comp, init, org1, org2);
      var c := cols[|cols| - 1];
      assert c in cols;
      forall row | row in FieldRows(mappings, ref, comp, init, org1, org2)
        ensures exists d :: d in cols && row == DiffRowFor(mappings, ref.primaryKey, ref.objectName, d, org1, Get(ref.data, d), org2, Get(comp.data, d))
      {
        var d :| d in init && row == DiffRowFor(mappings, ref.primaryKey, ref.objectName, d, org1, Get(ref.data, d), org2, Get(comp.data, d));
        assert d in cols;
      }
    }
  }

  /** Two records yield no field rows exactly when they are identical. */
  lemma {:induction false} FieldRowsEmptyIffIdentical(mappings: map<string, string>, ref: MegaRow, comp: MegaRow,
                                                      cols: seq<string>, org1: string, org2: string)
    ensures FieldRows(mappings, ref, comp, cols, org1, org2) == [] <==> RecordsIdentical(ref, comp, cols)
  {
    if cols != [] {
      var init := cols[..|cols| - 1];
      FieldRowsEmptyIffIdentical(mappings, ref, comp, init, org1, org2);
      assert RecordsIdentical(ref, comp, cols) <==>
        RecordsIdentical(ref, comp, init) && SameCell(Get(ref.data, cols[|cols| - 1]), Get(comp.data, cols[|cols| - 1])) by {
        if RecordsIdentical(ref, comp, init) && SameCell(Get(ref.data, cols[|cols| - 1]), Get(comp.data, cols[|cols| - 1])) {
          forall k | 0 <= k < |cols| ensures SameCell(Get(ref.data, cols[k]), Get(comp.data, cols[k])) {
            if k < |cols| - 1 { assert cols[k] == init[k]; }
          }
        }
        if RecordsIdentical(ref, comp, cols) {
          forall k | 0 <= k < |init| ensures SameCell(Get(ref.data, init[k]), Get(comp.data, init[k])) {
            assert init[k] == cols[k];
          }
        }
      }
    }
  }

  /** The records of one org (`mega_df[mega_df['org_name'] == org]`), in frame order. */
  function RowsOfOrg(rows: seq<MegaRow>, org: string): seq<MegaRow>
  {
    if rows == [] then []
    else
      var rest := RowsOfOrg(rows[..|rows| - 1], org);
      var m := rows[|rows| - 1];
      if m.orgName == org then rest + [m] else rest
  }

  lemma {:induction false} RowsOfOrgMembers(rows: seq<MegaRow>, org: string)
    ensures forall m :: m in RowsOfOrg(rows, org) <==> m in rows && m.orgName == org
  {
    if rows != [] {
      var init := rows[..|rows| - 1];
      RowsOfOrgMembers(init, org);
      assert forall x :: x in rows <==> x in init || x == rows[|rows| - 1];
    }
  }

  function KeysOf(rows: seq<MegaRow>): (r: seq<CompositeKey>)
    ensures |r| == |rows|
    ensures forall k :: 0 <= k < |rows| ==> r[k] == rows[k].key
  {
    if rows == [] then [] else KeysOf(rows[..|rows| - 1]) + [rows[|rows| - 1].key]
  }

  /** The keys of `keys` that are (inOther) or are not (!inOther) among `other`, in order. */
  function KeepKeys(keys: seq<CompositeKey>, other: seq<CompositeKey>, inOther: bool): seq<CompositeKey>
  {
    if keys == [] then []
    else
      var rest := KeepKeys(keys[..|keys| - 1], other, inOther);
      var k := keys[|keys| - 1];
      if (k in other) == inOther then rest + [k] else rest
  }

  lemma {:induction false} KeepKeysSpec(keys: seq<CompositeKey>, other: seq<CompositeKey>, inOther: bool)
    ensures forall k :: k in KeepKeys(keys, other, inOther) <==> k in keys && ((k in other) == inOther)
    ensures NoDup(keys) ==> NoDup(KeepKeys(keys, other, inOther))
  {
    if keys != [] {
      var init := keys[..|keys| - 1];
      KeepKeysSpec(init, other, inOther);
      assert forall x :: x in keys <==> x in init || x == keys[|keys| - 1];
      if NoDup(keys) {
        assert NoDup(init);
      }
    }
  }

  /** `ref_set - comp_set`, enumerated in the reference org's record order. */
  function DifferenceKeys(refRows: seq<MegaRow>, compRows: seq<MegaRow>): seq<CompositeKey>
  {
    KeepKeys(Dedup(KeysOf(refRows)), KeysOf(compRows), false)
  }

  /** `ref_set & comp_set`, enumerated in the reference org's record order. */
  function CommonKeys(refRows: seq<MegaRow>, compRows: seq<MegaRow>): seq<CompositeKey>
  {
    KeepKeys(Dedup(KeysOf(refRows)), KeysOf(compRows), true)
  }

  /** Each key of the reference org missing from the compared org is enumerated once. */
  lemma DifferenceKeysSpec(refRows: seq<MegaRow>, compRows: seq<MegaRow>)
    ensures NoDup(DifferenceKeys(refRows, compRows))
    ensures forall k :: k in DifferenceKeys(refRows, compRows) <==> k in KeysOf(refRows) && k !in KeysOf(compRows)
  {
    KeepKeysSpec(Dedup(KeysOf(refRows)), KeysOf(compRows), false);
  }

  /** Each key present in both orgs is enumerated once. */
  lemma CommonKeysSpec(refRows: seq<MegaRow>, compRows: seq<MegaRow>)
    ensures NoDup(CommonKeys(refRows, compRows))
    ensures forall k :: k in CommonKeys(refRows, compRows) <==> k in KeysOf(refRows) && k in KeysOf(compRows)
  {
    KeepKeysSpec(Dedup(KeysOf(refRows)), KeysOf(compRows), true);
  }

  /** The first record carrying a composite key (`.iloc[0]`). */
  function FirstWithKey(rows: seq<MegaRow>, k: CompositeKey): Option<MegaRow>
  {
    if rows == [] then None
    else if rows[0].key == k then Some(rows[0])
    else FirstWithKey(rows[1..], k)
  }

  /** The lookup finds a record with that key, and finds none only when no record has it. */
  lemma {:induction false} FirstWithKeySpec(rows: seq<MegaRow>, k: CompositeKey)
    ensures FirstWithKey(rows, k).Some? ==> FirstWithKey(rows, k).value in rows && FirstWithKey(rows, k).value.key == k
    ensures FirstWithKey(rows, k).None? <==> k !in KeysOf(rows)
  {
    if rows != [] {
      assert KeysOf(rows) == [rows[0].key] + KeysOf(rows[1..]) by {
        assert KeysOf(rows[1..]) == KeysOf(rows)[1..];
      }
      if rows[0].key != k { FirstWithKeySpec(rows[1..], k); }
    }
  }

  /** The first record of the same object whose primary key equals the given one; a null key matches nothing. */
  function FirstWithPrimaryKey(rows: seq<MegaRow>, pk: Value, objectName: string): Option<MegaRow>
  {
    if rows == [] || pk == Null then None
    else if rows[0].primaryKey == pk && rows[0].objectName == objectName then Some(rows[0])
    else FirstWithPrimaryKey(rows[1..], pk, objectName)
  }

  /**
   * A counterpart is found exactly when some record of the compared org has the
   * same object and the same non-null primary key.
   */
  lemma {:induction false} FirstWithPrimaryKeySpec(rows: seq<MegaRow>, pk: Value, objectName: string)
    ensures var r := FirstWithPrimaryKey(rows, pk, objectName);
      r.Some? ==> r.value in rows && r.value.primaryKey == pk && pk != Null && r.value.objectName == objectName
    ensures FirstWithPrimaryKey(rows, pk, objectName).None? <==>
      pk == Null || forall m :: m in rows ==> m.primaryKey != pk || m.objectName != objectName
  {
    if rows != [] && pk != Null && !(rows[0].primaryKey == pk && rows[0].objectName == objectName) {
      FirstWithPrimaryKeySpec(rows[1..], pk, objectName);
      assert forall m :: m in rows <==> m == rows[0] || m in rows[1..];
    }
  }

  /** Rows for one difference key: all-MISSING when the compared org lacks the record, else the differing fields. */
  function DifferenceRowsFor(mappings: map<string, string>, refRows: seq<MegaRow>, compRows: seq<MegaRow>, k: CompositeKey,
                             cols: seq<string>, org1: string, org2: string): seq<DiffRow>
  {
    match FirstWithKey(refRows, k)
    case None => []
    case Some(ref) =>
      match FirstWithPrimaryKey(compRows, ref.primaryKey, ref.objectName)
      case None => MissingRows(mappings, ref, cols, org1, org2)
      case Some(comp) => FieldRows(mappings, ref, comp, cols, org1, org2)
  }

  /** Rows for one common key: the differing fields unless the two records are identical. */
  function CommonRowsFor(mappings: map<string, string>, refRows: seq<MegaRow>, compRows: seq<MegaRow>, k: CompositeKey,
                         cols: seq<string>, org1: string, org2: string): seq<DiffRow>
  {
    match (FirstWithKey(refRows, k), FirstWithKey(compRows, k))
    case (Some(ref), Some(comp)) =>
      if RecordsIdentical(ref, comp, cols) then [] else FieldRows(mappings, ref, comp, cols, org1, org2)
    case _ => []
  }

  function DifferenceRows(mappings: map<string, string>, refRows: seq<MegaRow>, compRows: seq<MegaRow>, keys: seq<CompositeKey>,
                          cols: seq<string>, org1: string, org2: string): seq<DiffRow>
  {
    if keys == [] then []
    else
      DifferenceRows(mappings, refRows, compRows, keys[..|keys| - 1], cols, org1, org2)
      + DifferenceRowsFor(mappings, refRows, compRows, keys[|keys| - 1], cols, org1, org2)
  }

  function CommonRows(mappings: map<string, string>, refRows: seq<MegaRow>, compRows: seq<MegaRow>, keys: seq<CompositeKey>,
                      cols: seq<string>, org1: string, org2: string): seq<DiffRow>
  {
    if keys == [] then []
    else
      CommonRows(mappings, refRows, compRows, keys[..|keys| - 1], cols, org1, org2)
      + CommonRowsFor(mappings, refRows, compRows, keys[|keys| - 1], cols, org1, org2)
  }

  /** One step of `process_differences`: the rows for `keys[i]` extend the rows for `keys[..i]`. */
  lemma DifferenceRowsExtend(mappings: map<string, string>, refRows: seq<MegaRow>, compRows: seq<MegaRow>, keys: seq<CompositeKey>,
                             i: nat, cols: seq<string>, org1: string, org2: string,
                             base: seq<DiffRow>, before: seq<DiffRow>, after: seq<DiffRow>)
    requires i < |keys|
    requires before == base + DifferenceRows(mappings, refRows, compRows, keys[..i], cols, org1, org2)
    requires after == before + DifferenceRowsFor(mappings, refRows, compRows, keys[i], cols, org1, org2)
    ensures after == base + DifferenceRows(mappings, refRows, compRows, keys[..i + 1], cols, org1, org2)
  {
    assert keys[..i + 1][..i] == keys[..i];
    AppendAssoc(base, DifferenceRows(mappings, refRows, compRows, keys[..i], cols, org1, org2),
                DifferenceRowsFor(mappings, refRows, compRows, keys[i], cols, org1, org2));
  }

  /** One step of `check_value_differences`: the rows for `keys[i]` extend the rows for `keys[..i]`. */
  lemma CommonRowsExtend(mappings: map<string, string>, refRows: seq<MegaRow>, compRows: seq<MegaRow>, keys: seq<CompositeKey>,
                         i: nat, cols: seq<string>, org1: string, org2: string,
                         base: seq<DiffRow>, before: seq<DiffRow>, after: seq<DiffRow>)
    requires i < |keys|
    requires before == base + CommonRows(mappings, refRows, compRows, keys[..i], cols, org1, org2)
    requires after == before + CommonRowsFor(mappings, refRows, compRows, keys[i], cols, org1, org2)
    ensures after == base + CommonRows(mappings, refRows, compRows, keys[..i + 1], cols, org1, org2)
  {
    assert keys[..i + 1][..i] == keys[..i];
    AppendAssoc(base, CommonRows(mappings, refRows, compRows, keys[..i], cols, org1, org2),
                CommonRowsFor(mappings, refRows, compRows, keys[i], cols, org1, org2));
  }

  /** Everything recorded for the ordered pair (ref, comp). */
  function PairRows(mappings: map<string, string>, mega: MegaFrame, ref: string, comp: string): seq<DiffRow>
  {
    var refRows := RowsOfOrg(mega.rows, ref);
    var compRows := RowsOfOrg(mega.rows, comp);
    DifferenceRows(mappings, refRows, compRows, DifferenceKeys(refRows, compRows), mega.columns, ref, comp)
      + CommonRows(mappings, refRows, compRows, CommonKeys(refRows, compRows), mega.columns, ref, comp)
  }

  /** The pairs (a, b) with b != a, b running over orgs in order. */
  function PairsFrom(a: string, orgs: seq<string>): seq<(string, string)>
  {
    if orgs == [] then []
    else
      var rest := PairsFrom(a, orgs[..|orgs| - 1]);
      var b := orgs[|orgs| - 1];
      if b != a then rest + [(a, b)] else rest
  }

  lemma PairsFromStep(a: string, orgs: seq<string>, j: nat)
    requires j < |orgs|
    ensures |PairsFrom(a, orgs[..j + 1])| == |PairsFrom(a, orgs[..j])| + (if orgs[j] != a then 1 else 0)
  {
    assert orgs[..j + 1][..j] == orgs[..j];
  }

  /** The ordered pairs visited by the nested loops: refs from `refs`, compared orgs from `orgs`. */
  function OrderedPairs(refs: seq<string>, orgs: seq<string>): seq<(string, string)>
  {
    if refs == [] then []
    else OrderedPairs(refs[..|refs| - 1], orgs) + PairsFrom(refs[|refs| - 1], orgs)
  }

  lemma {:induction false} PairsFromMembers(a: string, orgs: seq<string>)
    ensures forall p :: p in PairsFrom(a, orgs) <==> p.0 == a && p.1 in orgs && p.1 != a
  {
    if orgs != [] {
      var init := orgs[..|orgs| - 1];
      PairsFromMembers(a, init);
      assert forall x :: x in orgs <==> x in init || x == orgs[|orgs| - 1];
    }
  }

  /** The visited pairs are exactly the pairs of distinct orgs with the first drawn from `refs`. */
  lemma {:induction false} OrderedPairsMembers(refs: seq<string>, orgs: seq<string>)
    ensures forall p :: p in OrderedPairs(refs, orgs) <==> p.0 in refs && p.1 in orgs && p.0 != p.1
  {
    if refs != [] {
      var init := refs[..|refs| - 1];
      OrderedPairsMembers(init, orgs);
      PairsFromMembers(refs[|refs| - 1], orgs);
      assert forall x :: x in refs <==> x in init || x == refs[|refs| - 1];
    }
  }

  lemma {:induction false} PairsFromCount(a: string, orgs: seq<string>)
    requires NoDup(orgs)
    ensures |PairsFrom(a, orgs)| == |orgs| - (if a in orgs then 1 else 0)
  {
    if orgs != [] {
      var init := orgs[..|orgs| - 1];
      assert NoDup(init);
      PairsFromCount(a, init);
      assert forall x :: x in orgs <==> x in init || x == orgs[|orgs| - 1];
    }
  }

  lemma MulSucc(a: nat, m: int)
    ensures (a + 1) * m == a * m + m
  {
  }

  /** Over n distinct orgs the comparison visits n·(n−1) ordered pairs. */
  lemma {:induction false} OrderedPairsCount(refs: seq<string>, orgs: seq<string>)
    requires NoDup(orgs)
    requires forall a :: a in refs ==> a in orgs
    ensures |OrderedPairs(refs, orgs)| == |refs| * (|orgs| - 1)
  {
    if refs != [] {
      var init := refs[..|refs| - 1];
      var a := refs[|refs| - 1];
      assert a in refs;
      OrderedPairsCount(init, orgs);
      PairsFromCount(a, orgs);
      MulSucc(|init|, |orgs| - 1);
    }
  }

  /** Rows of the inner loop for one reference org: every compared org other than itself. */
  function InnerRows(mappings: map<string, string>, mega: MegaFrame, ref: string, orgs: seq<string>): seq<DiffRow>
  {
    if orgs == [] then []
    else
      var comp := orgs[|orgs| - 1];
      InnerRows(mappings, mega, ref, orgs[..|orgs| - 1]) + (if ref != comp then PairRows(mappings, mega, ref, comp) else [])
  }

  /** One step of the inner loop: the rows appended for `orgs[j]` extend the rows for `orgs[..j]`. */
  lemma InnerRowsExtend(mappings: map<string, string>, mega: MegaFrame, ref: string, orgs: seq<string>, j: nat,
                        base: seq<DiffRow>, before: seq<DiffRow>, after: seq<DiffRow>)
    requires j < |orgs|
    requires before == base + InnerRows(mappings, mega, ref, orgs[..j])
    requires if ref != orgs[j] then after == before + PairRows(mappings, mega, ref, orgs[j]) else after == before
    ensures after == base + InnerRows(mappings, mega, ref, orgs[..j + 1])
  {
    assert orgs[..j + 1][..j] == orgs[..j];
    if ref != orgs[j] {
      AppendAssoc(base, InnerRows(mappings, mega, ref, orgs[..j]), PairRows(mappings, mega, ref, orgs[j]));
    } else {
      assert InnerRows(mappings, mega, ref, orgs[..j]) + [] == InnerRows(mappings, mega, ref, orgs[..j]);
    }
  }

  /** Rows of the nested loops: reference orgs from `refs`, compared orgs from `orgs`. */
  function OuterRows(mappings: map<string, string>, mega: MegaFrame, refs: seq<string>, orgs: seq<string>): seq<DiffRow>
  {
    if refs == [] then []
    else OuterRows(mappings, mega, refs[..|refs| - 1], orgs) + InnerRows(mappings, mega, refs[|refs| - 1], orgs)
  }

  /** One step of the outer loop: the rows of reference org `refs[i]` extend the rows for `refs[..i]`. */
  lemma OuterRowsExtend(mappings: map<string, string>, mega: MegaFrame, refs: seq<string>, orgs: seq<string>, i: nat,
                        base: seq<DiffRow>, before: seq<DiffRow>, after: seq<DiffRow>)
    requires i < |refs|
    requires before == base + OuterRows(mappings, mega, refs[..i], orgs)
    requires after == before + InnerRows(mappings, mega, refs[i], orgs)
    ensures after == base + OuterRows(mappings, mega, refs[..i + 1], orgs)
  {
    assert refs[..i + 1][..i] == refs[..i];
    AppendAssoc(base, OuterRows(mappings, mega, refs[..i], orgs), InnerRows(mappings, mega, refs[i], orgs));
  }

  /** The objects named by the combined frame's rows. */
  function ObjectsOf(mega: MegaFrame): set<string>
  {
    set m | m in mega.rows :: m.objectName
  }

  lemma {:induction false} MissingRowsShape(mappings: map<string, string>, ref: MegaRow, objects: set<string>,
                                            cols: seq<string>, org1: string, org2: string)
    requires ref.objectName in objects
    ensures forall row :: row in MissingRows(mappings, ref, cols, org1, org2) ==> RowOfPair(row, objects, cols, org1, org2)
  {
    var rows := MissingRows(mappings, ref, cols, org1, org2);
    MissingRowsAt(mappings, ref, cols, org1, org2);
    forall row | row in rows ensures RowOfPair(row, objects, cols, org1, org2) {
      var k :| 0 <= k < |rows| && rows[k] == row;
      assert cols[k] in cols && row.objectFieldName == ref.objectName + "." + cols[k];
    }
  }

  lemma {:induction false} FieldRowsShape(mappings: map<string, string>, ref: MegaRow, comp: MegaRow, objects: set<string>,
                                          cols: seq<string>, org1: string, org2: string)
    requires ref.objectName in objects
    ensures forall row :: row in FieldRows(mappings, ref, comp, cols, org1, org2) ==> RowOfPair(row, objects, cols, org1, org2)
  {
    FieldRowsSpec(mappings, ref, comp, cols, org1, org2);
    forall row | row in FieldRows(mappings, ref, comp, cols, org1, org2) ensures RowOfPair(row, objects, cols, org1, org2) {
      var c :| c in cols && row == DiffRowFor(mappings, ref.primaryKey, ref.objectName, c, org1, Get(ref.data, c), org2, Get(comp.data, c));
      assert row.objectFieldName == ref.objectName + "." + c;
    }
  }

  lemma {:induction false} DifferenceRowsShape(mappings: map<string, string>, mega: MegaFrame, refRows: seq<MegaRow>, compRows: seq<MegaRow>,
                                               keys: seq<CompositeKey>, org1: string, org2: string)
    requires forall m :: m in refRows ==> m in mega.rows
    ensures forall row :: row in DifferenceRows(mappings, refRows, compRows, keys, mega.columns, org1, org2) ==>
      RowOfPair(row, ObjectsOf(mega), mega.columns, org1, org2)
  {
    if keys != [] {
      DifferenceRowsShape(mappings, mega, refRows, compRows, keys[..|keys| - 1], org1, org2);
      var k := keys[|keys| - 1];
      FirstWithKeySpec(refRows, k);
      match FirstWithKey(refRows, k)
      case None =>
      case Some(ref) =>
        assert ref.objectName in ObjectsOf(mega);
        MissingRowsShape(mappings, ref, ObjectsOf(mega), mega.columns, org1, org2);
        match FirstWithPrimaryKey(compRows, ref.primaryKey, ref.objectName)
        case None =>
        case Some(comp) => FieldRowsShape(mappings, ref, comp, ObjectsOf(mega), mega.columns, org1, org2);
    }
  }

  lemma {:induction false} CommonRowsShape(mappings: map<string, string>, mega: MegaFrame, refRows: seq<MegaRow>, compRows: seq<MegaRow>,
                                           keys: seq<CompositeKey>, org1: string, org2: string)
    requires forall m :: m in refRows ==> m in mega.rows
    ensures forall row :: row in CommonRows(mappings, refRows, compRows, keys, mega.columns, org1, org2) ==>
      RowOfPair(row, ObjectsOf(mega), mega.columns, org1, org2)
  {
    if keys != [] {
      CommonRowsShape(mappings, mega, refRows, compRows, keys[..|keys| - 1], org1, org2);
      var k := keys[|keys| - 1];
      FirstWithKeySpec(refRows, k);
      match (FirstWithKey(refRows, k), FirstWithKey(compRows, k))
      case (Some(ref), Some(comp)) =>
        assert ref.objectName in ObjectsOf(mega);
        FieldRowsShape(mappings, ref, comp, ObjectsOf(mega), mega.columns, org1, org2);
      case _ =>
    }
  }

  lemma {:induction false} PairRowsShape(mappings: map<string, string>, mega: MegaFrame, ref: string, comp: string)
    ensures forall row :: row in PairRows(mappings, mega, ref, comp) ==> RowOfPair(row, ObjectsOf(mega), mega.columns, ref, comp)
  {
    var refRows := RowsOfOrg(mega.rows, ref);
    var compRows := RowsOfOrg(mega.rows, comp);
    RowsOfOrgMembers(mega.rows, ref);
    DifferenceRowsShape(mappings, mega, refRows, compRows, DifferenceKeys(refRows, compRows), ref, comp);
    CommonRowsShape(mappings, mega, refRows, compRows, CommonKeys(refRows, compRows), ref, comp);
  }

  lemma {:induction false} InnerRowsShape(mappings: map<string, string>, mega: MegaFrame, ref: string, orgs: seq<string>)
    ensures forall row :: row in InnerRows(mappings, mega, ref, orgs) ==>
      exists comp :: comp in orgs && comp != ref && RowOfPair(row, ObjectsOf(mega), mega.columns, ref, comp)
  {
    if orgs != [] {
      var init := orgs[..|orgs| - 1];
      var comp := orgs[|orgs| - 1];
      InnerRowsShape(mappings, mega, ref, init);
      if ref != comp { PairRowsShape(mappings, mega, ref, comp); }
      forall row | row in InnerRows(mappings, mega, ref, orgs)
        ensures exists c :: c in orgs && c != ref && RowOfPair(row, ObjectsOf(mega), mega.columns, ref, c)
      {
        if row in InnerRows(mappings, mega, ref, init) {
          var c :| c in init && c != ref && RowOfPair(row, ObjectsOf(mega), mega.columns, ref, c);
          assert c in orgs;
        } else {
          assert comp in orgs && RowOfPair(row, ObjectsOf(mega), mega.columns, ref, comp);
        }
      }
    }
  }

  /**
   * Every row of the whole comparison belongs to an ordered pair of distinct
   * orgs, is typed RECORD_MISSING exactly when one of its values is the MISSING
   * marker, and names `object.field` for an object and a column of the frame.
   */
  lemma {:induction false} OuterRowsShape(mappings: map<string, string>, mega: MegaFrame, refs: seq<string>, orgs: seq<string>)
    ensures forall row :: row in OuterRows(mappings, mega, refs, orgs) ==>
      exists ref, comp :: ref in refs && comp in orgs && ref != comp && RowOfPair(row, ObjectsOf(mega), mega.columns, ref, comp)
  {
    if refs != [] {
      var init := refs[..|refs| - 1];
      var ref := refs[|refs| - 1];
      OuterRowsShape(mappings, mega, init, orgs);
      InnerRowsShape(mappings, mega, ref, orgs);
      forall row | row in OuterRows(mappings, mega, refs, orgs)
        ensures exists a, b :: a in refs && b in orgs && a != b && RowOfPair(row, ObjectsOf(mega), mega.columns, a, b)
      {
        if row in OuterRows(mappings, mega, init, orgs) {
          var a, b :| a in init && b in orgs && a != b && RowOfPair(row, ObjectsOf(mega), mega.columns, a, b);
          assert a in refs;
        } else {
          var b :| b in orgs && b != ref && RowOfPair(row, ObjectsOf(mega), mega.columns, ref, b);
          assert ref in refs;
        }
      }
    }
  }

  /** Since the frame's columns exclude every excluded field, no row names one. */
  lemma NoRowNamesExcludedField(commonObjects: seq<string>, mappings: map<string, string>, orgs: seq<string>,
                                loaded: map<(string, string), Frame>, excl: set<string>, blacklist: set<string>,
                                row: DiffRow, p: (string, string))
    requires CreateMegaFrame(commonObjects, mappings, orgs, loaded, excl, blacklist).Ok?
    requires var m := CreateMegaFrame(commonObjects, mappings, orgs, loaded, excl, blacklist).value;
      RowOfPair(row, ObjectsOf(m), m.columns, p.0, p.1)
    ensures exists o, c :: row.objectFieldName == o + "." + c && c !in excl && c !in MetadataColumns
  {
    MegaFrameClean(commonObjects, mappings, orgs, loaded, excl, blacklist);
  }

  // ---------------------------------------------------------------------
  // The comparator object

  class SetComparator {
    var excludeFields: set<string>
    var blacklistedFks: set<string>
    var foreignKeyMappings: map<string, string>
    var discoveredOrgs: seq<string>
    var commonObjects: seq<string>
    var finalDifferences: seq<DiffRow>

    constructor (extra: seq<string>)
      ensures excludeFields == Exclusions(extra)
      ensures blacklistedFks == {} && foreignKeyMappings == map[]
      ensures discoveredOrgs == [] && commonObjects == [] && finalDifferences == []
    {
      excludeFields := Exclusions(extra);
      blacklistedFks := {};
      foreignKeyMappings := map[];
      discoveredOrgs := [];
      commonObjects := [];
      finalDifferences := [];
    }

    /**
     * Discovery: merges the key mappings read from the config file, replaces the
     * blacklist when a blacklist file was read, and, when there is at least one org
     * folder, sets the sorted org names and the sorted common objects.
     */
    method Discover(listing: seq<DirEntry>, configMappings: map<string, string>, blacklist: Option<set<string>>)
      returns (totalOrgs: nat, totalCommonObjects: nat)
      modifies this
      ensures foreignKeyMappings == old(foreignKeyMappings) + configMappings
      ensures blacklistedFks == (if blacklist.Some? then blacklist.value else old(blacklistedFks))
      ensures var folders := OrgFolders(listing);
        if folders == [] then discoveredOrgs == old(discoveredOrgs) && commonObjects == old(commonObjects)
        else discoveredOrgs == Sort(FolderNames(folders)) && commonObjects == CommonObjectsOf(folders)
      ensures excludeFields == old(excludeFields) && finalDifferences == old(finalDifferences)
      ensures totalOrgs == |discoveredOrgs| && totalCommonObjects == |commonObjects|
    {
      foreignKeyMappings := foreignKeyMappings + configMappings;
      if blacklist.Some? {
        blacklistedFks := blacklist.value;
      }
      var folders := OrgFolders(listing);
      if folders != [] {
        commonObjects := CommonObjectsOf(folders);
        discoveredOrgs := Sort(FolderNames(folders));
      }
      totalOrgs := |discoveredOrgs|;
      totalCommonObjects := |commonObjects|;
    }

    /** Appends one difference row. */
    method RecordFieldDifference(pk: Value, objectName: string, field: string, org1: string, val1: Value, org2: string, val2: Value)
      modifies this`finalDifferences
      ensures finalDifferences == old(finalDifferences) + [DiffRowFor(foreignKeyMappings, pk, objectName, field, org1, val1, org2, val2)]
    {
      var row := DiffRow(ForeignKeyField(foreignKeyMappings, objectName), pk, objectName + "." + field, org1, val1, org2, val2);
      finalDifferences := finalDifferences + [row];
    }

    /** The reference record has no counterpart: one MISSING row per column. */
    method RecordMissingDifference(ref: MegaRow, cols: seq<string>, org1: string, org2: string)
      modifies this`finalDifferences
      ensures finalDifferences == old(finalDifferences) + MissingRows(foreignKeyMappings, ref, cols, org1, org2)
    {
      var i := 0;
      while i < |cols|
        invariant 0 <= i <= |cols|
        invariant finalDifferences == old(finalDifferences) + MissingRows(foreignKeyMappings, ref, cols[..i], org1, org2)
      {
        assert cols[..i + 1][..i] == cols[..i];
        RecordFieldDifference(ref.primaryKey, ref.objectName, cols[i], org1, Get(ref.data, cols[i]), org2, MissingMarker);
        i := i + 1;
      }
      assert cols[..i] == cols;
    }

    /** One row per column on which the two records differ. */
    method FindAndRecordFieldDifferences(ref: MegaRow, comp: MegaRow, cols: seq<string>, org1: string, org2: string)
      modifies this`finalDifferences
      ensures finalDifferences == old(finalDifferences) + FieldRows(foreignKeyMappings, ref, comp, cols, org1, org2)
    {
      var i := 0;
      while i < |cols|
        invariant 0 <= i <= |cols|
        invariant finalDifferences == old(finalDifferences) + FieldRows(foreignKeyMappings, ref, comp, cols[..i], org1, org2)
      {
        assert cols[..i + 1][..i] == cols[..i];
        var refVal, compVal := Get(ref.data, cols[i]), Get(comp.data, cols[i]);
        if !BothNull(refVal, compVal) && refVal != compVal {
          RecordFieldDifference(ref.primaryKey, ref.objectName, cols[i], org1, refVal, org2, compVal);
        }
        i := i + 1;
      }
      assert cols[..i] == cols;
    }

    method IsIdentical(r1: MegaRow, r2: MegaRow, cols: seq<string>) returns (same: bool)
      ensures same <==> RecordsIdentical(r1, r2, cols)
    {
      var i := 0;
      while i < |cols|
        invariant 0 <= i <= |cols|
        invariant forall k :: 0 <= k < i ==> SameCell(Get(r1.data, cols[k]), Get(r2.data, cols[k]))
      {
        if !BothNull(Get(r1.data, cols[i]), Get(r2.data, cols[i])) && Get(r1.data, cols[i]) != Get(r2.data, cols[i]) {
          return false;
        }
        i := i + 1;
      }
      return true;
    }

    /** The loop body of `process_differences` for one key. */
    method ProcessDifferenceKey(k: CompositeKey, refRows: seq<MegaRow>, compRows: seq<MegaRow>,
                                cols: seq<string>, org1: string, org2: string)
      modifies this`finalDifferences
      ensures finalDifferences == old(finalDifferences) + DifferenceRowsFor(foreignKeyMappings, refRows, compRows, k, cols, org1, org2)
    {
      var matchingRef := FirstWithKey(refRows, k);
      if matchingRef.Some? {
        var ref := matchingRef.value;
        var matchingComp := FirstWithPrimaryKey(compRows, ref.primaryKey, ref.objectName);
        if matchingComp.None? {
          RecordMissingDifference(ref, cols, org1, org2);
        } else {
          FindAndRecordFieldDifferences(ref, matchingComp.value, cols, org1, org2);
        }
      } else {
        assert old(finalDifferences) + [] == old(finalDifferences);
      }
    }

    method ProcessDifferences(keys: seq<CompositeKey>, refRows: seq<MegaRow>, compRows: seq<MegaRow>,
                              cols: seq<string>, org1: string, org2: string)
      modifies this`finalDifferences
      ensures finalDifferences == old(finalDifferences) + DifferenceRows(foreignKeyMappings, refRows, compRows, keys, cols, org1, org2)
    {
      var i := 0;
      while i < |keys|
        invariant 0 <= i <= |keys|
        invariant finalDifferences == old(finalDifferences) + DifferenceRows(foreignKeyMappings, refRows, compRows, keys[..i], cols, org1, org2)
      {
        ghost var before := finalDifferences;
        ProcessDifferenceKey(keys[i], refRows, compRows, cols, org1, org2);
        DifferenceRowsExtend(foreignKeyMappings, refRows, compRows, keys, i, cols, org1, org2, old(finalDifferences), before, finalDifferences);
        i := i + 1;
      }
      assert keys[..i] == keys;
    }

    /** The loop body of `check_value_differences` for one key. */
    method CheckValueKey(k: CompositeKey, refRows: seq<MegaRow>, compRows: seq<MegaRow>,
                         cols: seq<string>, org1: string, org2: string)
      modifies this`finalDifferences
      ensures finalDifferences == old(finalDifferences) + CommonRowsFor(foreignKeyMappings, refRows, compRows, k, cols, org1, org2)
    {
      var refMatch, compMatch := FirstWithKey(refRows, k), FirstWithKey(compRows, k);
      if refMatch.Some? && compMatch.Some? {
        var same := IsIdentical(refMatch.value, compMatch.value, cols);
        if !same {
          FindAndRecordFieldDifferences(refMatch.value, compMatch.value, cols, org1, org2);
        } else {
          assert old(finalDifferences) + [] == old(finalDifferences);
        }
      } else {
        assert old(finalDifferences) + [] == old(finalDifferences);
      }
    }

    method CheckValueDifferences(keys: seq<CompositeKey>, refRows: seq<MegaRow>, compRows: seq<MegaRow>,
                                 cols: seq<string>, org1: string, org2: string)
      modifies this`finalDifferences
      ensures finalDifferences == old(finalDifferences) + CommonRows(foreignKeyMappings, refRows, compRows, keys, cols, org1, org2)
    {
      var i := 0;
      while i < |keys|
        invariant 0 <= i <= |keys|
        invariant finalDifferences == old(finalDifferences) + CommonRows(foreignKeyMappings, refRows, compRows, keys[..i], cols, org1, org2)
      {
        ghost var before := finalDifferences;
        CheckValueKey(keys[i], refRows, compRows, cols, org1, org2);
        CommonRowsExtend(foreignKeyMappings, refRows, compRows, keys, i, cols, org1, org2, old(finalDifferences), before, finalDifferences);
        i := i + 1;
      }
      assert keys[..i] == keys;
    }

    /** One ordered pair: the rows for `ref - comp`, then those for the common keys. */
    method ComparePair(mega: MegaFrame, refOrg: string, compOrg: string)
      modifies this`finalDifferences
      ensures finalDifferences == old(finalDifferences) + PairRows(foreignKeyMappings, mega, refOrg, compOrg)
    {
      var refRows := RowsOfOrg(mega.rows, refOrg);
      var compRows := RowsOfOrg(mega.rows, compOrg);
      ProcessDifferences(DifferenceKeys(refRows, compRows), refRows, compRows, mega.columns, refOrg, compOrg);
      CheckValueDifferences(CommonKeys(refRows, compRows), refRows, compRows, mega.columns, refOrg, compOrg);
    }

    /** The inner loop: the reference org against every other org of the list. */
    method CompareWithOthers(mega: MegaFrame, refOrg: string, orgList: seq<string>) returns (visited: nat)
      modifies this`finalDifferences
      ensures finalDifferences == old(finalDifferences) + InnerRows(foreignKeyMappings, mega, refOrg, orgList)
      ensures visited == |PairsFrom(refOrg, orgList)|
    {
      visited := 0;
      var j := 0;
      while j < |orgList|
        invariant 0 <= j <= |orgList|
        invariant finalDifferences == old(finalDifferences) + InnerRows(foreignKeyMappings, mega, refOrg, orgList[..j])
        invariant visited == |PairsFrom(refOrg, orgList[..j])|
      {
        PairsFromStep(refOrg, orgList, j);
        ghost var before := finalDifferences;
        if refOrg != orgList[j] {
          visited := visited + 1;
          ComparePair(mega, refOrg, orgList[j]);
        }
        InnerRowsExtend(foreignKeyMappings, mega, refOrg, orgList, j, old(finalDifferences), before, finalDifferences);
        j := j + 1;
      }
      assert orgList[..j] == orgList;
    }

    /**
     * Phase 2: for every ordered pair of distinct orgs, records the rows for
     * `ref - comp` and then for the common keys; returns how many pairs were visited.
     */
    method RunSetComparisons(mega: MegaFrame, orgList: seq<string>) returns (comparisonCount: nat)
      modifies this`finalDifferences
      ensures finalDifferences == old(finalDifferences) + OuterRows(foreignKeyMappings, mega, orgList, orgList)
      ensures comparisonCount == |OrderedPairs(orgList, orgList)|
    {
      comparisonCount := 0;
      var i := 0;
      while i < |orgList|
        invariant 0 <= i <= |orgList|
        invariant finalDifferences == old(finalDifferences) + OuterRows(foreignKeyMappings, mega, orgList[..i], orgList)
        invariant comparisonCount == |OrderedPairs(orgList[..i], orgList)|
      {
        assert orgList[..i + 1][..i] == orgList[..i];
        ghost var before := finalDifferences;
        var visited := CompareWithOthers(mega, orgList[i], orgList);
        OuterRowsExtend(foreignKeyMappings, mega, orgList, orgList, i, old(finalDifferences), before, finalDifferences);
        comparisonCount := comparisonCount + visited;
        i := i + 1;
      }
      assert orgList[..i] == orgList;
    }
  }
}
