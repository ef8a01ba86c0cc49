/**
 * The file-based comparison engine of the data-comparison app.
 *
 * Records are stored with an `_isActive` flag (from the object's active
 * condition) and a copy of their foreign-key value. The engine indexes the
 * active records of every org by foreign key. It then reports each key that
 * some configured org lacks. For every field it also compares the orgs that
 * hold the key, flagging the orgs whose value is held by fewer orgs than the
 * most common value.
 */
module FileEngine {
  import opened Common

  // ---------------------------------------------------------------------
  // Active conditions

  /** `String(v || '')`: the text of a truthy value, else the empty string. */
  function OrEmpty(v: Value): string
  {
    if Truthy(v) then JsString(v) else ""
  }

  /** `String(v || '').toLowerCase() === 'true'`. */
  predicate IsTrueFlag(v: Value)
  {
    Lower(OrEmpty(v)) == "true"
  }

  /**
   * Whether a record counts as active under the object's `ActiveCondition`.
   * Only two condition shapes are understood, and `IsActive__c` is checked
   * before `Active__c`. Any other condition, or none, makes every record active.
   */
  function CheckActiveConditions(record: Record, activeCondition: Option<string>): (active: bool)
    ensures activeCondition == None || activeCondition == Some("") ==> active
  {
    match activeCondition
    case None => true
    case Some(c) =>
      if c == "" then true
      else if Contains(c, "IsActive__c = true") then IsTrueFlag(Get(record, "IsActive__c"))
      else if Contains(c, "Active__c = true") then IsTrueFlag(Get(record, "Active__c"))
      else true
  }

  /** A part of a substring is a substring. */
  lemma ContainsSuffix(s: string, p: string, q: string)
    requires Contains(s, p + q)
    ensures Contains(s, q)
  {
    var i := ContainsWitness(s, p + q);
    assert s[i + |p|..i + |p| + |q|] == (p + q)[|p|..];
    assert (p + q)[|p|..] == q;
    ContainsAt(s, q, i + |p|);
  }

  /** A flag reads as true exactly for the boolean true or a string spelling "true" in any ASCII case. */
  lemma IsTrueFlagSpec(v: Value)
    ensures IsTrueFlag(v) <==> v == Bool(true) || (v.Str? && Lower(v.s) == "true")
  {
    match v
    case Null =>
    case Bool(b) =>
      if b {
        assert Lower("true") == "true";
      }
    case Str(s) =>
    case Num(n) =>
      if n != 0 {
        var t := IntToString(n);
        assert t[0] == '-' || IsDigit(t[0]);
        assert Lower(t)[0] == t[0];
      }
  }

  /**
   * A record is inactive only under a condition naming `Active__c = true`
   * (which `IsActive__c = true` also contains) and only when the flag the
   * condition tests does not read as true.
   */
  lemma InactiveSpec(record: Record, activeCondition: Option<string>)
    ensures !CheckActiveConditions(record, activeCondition) ==>
              activeCondition.Some? && Contains(activeCondition.value, "Active__c = true")
              && ((Contains(activeCondition.value, "IsActive__c = true") && !IsTrueFlag(Get(record, "IsActive__c")))
                  || (!Contains(activeCondition.value, "IsActive__c = true") && !IsTrueFlag(Get(record, "Active__c"))))
  {
    if activeCondition.Some? && Contains(activeCondition.value, "IsActive__c = true") {
      assert "IsActive__c = true" == "Is" + "Active__c = true";
      ContainsSuffix(activeCondition.value, "Is", "Active__c = true");
    }
  }

  // ---------------------------------------------------------------------
  // Stored records

  /** One org's records as handed to the engine. */
  datatype OrgData = OrgData(org: string, records: seq<Record>)

  /** `{...record, _isActive: ..., _foreignKeyValue: record[foreignKey]}`. */
  function StoreRecord(record: Record, activeCondition: Option<string>, foreignKey: string): Record
  {
    record["_isActive" := Bool(CheckActiveConditions(record, activeCondition))]["_foreignKeyValue" := Get(record, foreignKey)]
  }

  /** `storeOrgData`: every record of every org stamped, orgs and record order kept. */
  function StoreOrgData(orgData: seq<OrgData>, activeCondition: Option<string>, foreignKey: string): (stored: seq<OrgData>)
    ensures |stored| == |orgData|
    ensures forall i :: 0 <= i < |orgData| ==> stored[i].org == orgData[i].org && |stored[i].records| == |orgData[i].records|
  {
    seq(|orgData|, i requires 0 <= i < |orgData| =>
      OrgData(orgData[i].org, seq(|orgData[i].records|, j requires 0 <= j < |orgData[i].records| =>
        StoreRecord(orgData[i].records[j], activeCondition, foreignKey))))
  }

  /** `record._isActive && record._foreignKeyValue`: the records the index takes. */
  predicate Indexed(r: Record)
  {
    Truthy(Get(r, "_isActive")) && Truthy(Get(r, "_foreignKeyValue"))
  }

  /** The index key of a record: its foreign-key value coerced to an object key. */
  function KeyOf(r: Record): string
  {
    JsString(Get(r, "_foreignKeyValue"))
  }

  /**
   * A stored record is indexed exactly when it is active and its foreign-key
   * value is truthy, under the text of that value. Every field other than the
   * two stamps is kept.
   */
  lemma StoreRecordSpec(record: Record, activeCondition: Option<string>, foreignKey: string)
    ensures Indexed(StoreRecord(record, activeCondition, foreignKey)) <==>
              CheckActiveConditions(record, activeCondition) && Truthy(Get(record, foreignKey))
    ensures KeyOf(StoreRecord(record, activeCondition, foreignKey)) == JsString(Get(record, foreignKey))
    ensures forall f :: f != "_isActive" && f != "_foreignKeyValue" ==> Get(StoreRecord(record, activeCondition, foreignKey), f) == Get(record, f)
  {
  }

  // ---------------------------------------------------------------------
  // The foreign-key index

  /** One key's records: org usernames in insertion order, and each org's record. */
  datatype OrgRecords = OrgRecords(orgs: seq<string>, byOrg: map<string, Record>)

  /** Keys in insertion order, and each key's records. */
  datatype FkIndex = FkIndex(keys: seq<string>, entries: map<string, OrgRecords>)

  /** A record together with the org it was loaded from. */
  datatype Entry = Entry(org: string, record: Record)

  const EmptyIndex: FkIndex := FkIndex([], map[])

  /** `orgRecords[org] = record`: a later record of the same org replaces the earlier one. */
  function Put(d: OrgRecords, org: string, r: Record): OrgRecords
  {
    OrgRecords(if org in d.byOrg then d.orgs else d.orgs + [org], d.byOrg[org := r])
  }

  /** One step of the index loop. */
  function AddRecord(ix: FkIndex, e: Entry): FkIndex
  {
    if !Indexed(e.record) then ix
    else
      var k := KeyOf(e.record);
      if k in ix.entries then FkIndex(ix.keys, ix.entries[k := Put(ix.entries[k], e.org, e.record)])
      else FkIndex(ix.keys + [k], ix.entries[k := Put(OrgRecords([], map[]), e.org, e.record)])
  }

  function AddAll(ix: FkIndex, es: seq<Entry>): FkIndex
  {
    if es == [] then ix else AddRecord(AddAll(ix, es[..|es| - 1]), es[|es| - 1])
  }

  /** One org's records as entries. */
  function EntriesOf(d: OrgData): (es: seq<Entry>)
    ensures |es| == |d.records|
    ensures forall j :: 0 <= j < |es| ==> es[j] == Entry(d.org, d.records[j])
  {
    seq(|d.records|, j requires 0 <= j < |d.records| => Entry(d.org, d.records[j]))
  }

  /** All records, org by org, in the order `Object.entries` visits them. */
  function Flatten(orgData: seq<OrgData>): seq<Entry>
  {
    if orgData == [] then [] else Flatten(orgData[..|orgData| - 1]) + EntriesOf(orgData[|orgData| - 1])
  }

  function IndexOf(orgData: seq<OrgData>): FkIndex
  {
    AddAll(EmptyIndex, Flatten(orgData))
  }

  /** Every key of the index holds at least one org, each org once. */
  predicate Present(d: OrgRecords)
  {
    forall o :: o in d.orgs ==> o in d.byOrg
  }

  ghost predicate WellFormedEntry(d: OrgRecords)
  {
    d.orgs != [] && NoDup(d.orgs) && (forall o :: o in d.byOrg <==> o in d.orgs)
  }

  ghost predicate WellFormed(ix: FkIndex)
  {
    NoDup(ix.keys) && (forall k :: k in ix.entries <==> k in ix.keys)
    && forall k :: k in ix.entries ==> WellFormedEntry(ix.entries[k])
  }

  /** Every listed key has its records, and each of their orgs has a record. */
  ghost predicate Covered(ix: FkIndex)
  {
    forall k :: k in ix.keys ==> k in ix.entries && Present(ix.entries[k])
  }

  lemma WellFormedCovered(ix: FkIndex)
    requires WellFormed(ix)
    ensures Covered(ix)
  {
    forall k | k in ix.keys
      ensures k in ix.entries && Present(ix.entries[k])
    {
      assert WellFormedEntry(ix.entries[k]);
    }
  }

  /** A record that the index files under key k. */
  ghost predicate Qualifies(e: Entry, k: string)
  {
    Indexed(e.record) && KeyOf(e.record) == k
  }

  /** Entry i is org o's last record filed under key k. */
  ghost predicate LastFor(es: seq<Entry>, o: string, k: string, i: int)
  {
    0 <= i < |es| && es[i].org == o && Qualifies(es[i], k)
    && forall j :: i < j < |es| ==> !(es[j].org == o && Qualifies(es[j], k))
  }

  lemma AddAllSnoc(ix: FkIndex, es: seq<Entry>, e: Entry)
    ensures AddAll(ix, es + [e]) == AddRecord(AddAll(ix, es), e)
  {
    assert (es + [e])[..|es + [e]| - 1] == es;
  }

  lemma {:induction false} AddAllConcat(ix: FkIndex, a: seq<Entry>, b: seq<Entry>)
    ensures AddAll(ix, a + b) == AddAll(AddAll(ix, a), b)
    decreases |b|
  {
    if b == [] {
      assert a + b == a;
    } else {
      assert (a + b)[..|a + b| - 1] == a + b[..|b| - 1];
      AddAllConcat(ix, a, b[..|b| - 1]);
    }
  }

  lemma AddRecordWellFormed(ix: FkIndex, e: Entry)
    requires WellFormed(ix)
    ensures WellFormed(AddRecord(ix, e))
  {
    if Indexed(e.record) {
      var k := KeyOf(e.record);
      var ix' := AddRecord(ix, e);
      if k in ix.entries {
        assert WellFormedEntry(ix.entries[k]);
        assert WellFormedEntry(ix'.entries[k]);
      } else {
        assert WellFormedEntry(ix'.entries[k]);
        assert forall k' :: k' in ix'.entries <==> k' in ix'.keys;
      }
    }
  }

  lemma {:induction false} IndexWellFormed(es: seq<Entry>)
    ensures WellFormed(AddAll(EmptyIndex, es))
  {
    if es != [] {
      IndexWellFormed(es[..|es| - 1]);
      AddRecordWellFormed(AddAll(EmptyIndex, es[..|es| - 1]), es[|es| - 1]);
    }
  }

  /** What one step of the index loop does to key k and org o. */
  lemma AddRecordSpec(ix: FkIndex, e: Entry, k: string, o: string)
    ensures k in AddRecord(ix, e).entries <==> k in ix.entries || Qualifies(e, k)
    ensures k in AddRecord(ix, e).entries ==>
              (o in AddRecord(ix, e).entries[k].byOrg <==> (k in ix.entries && o in ix.entries[k].byOrg) || (e.org == o && Qualifies(e, k)))
    ensures k in AddRecord(ix, e).entries && o in AddRecord(ix, e).entries[k].byOrg ==>
              AddRecord(ix, e).entries[k].byOrg[o] == if e.org == o && Qualifies(e, k) then e.record else ix.entries[k].byOrg[o]
  {
  }

  /**
   * The index holds exactly the keys of active records with a truthy key; a
   * key lists exactly the orgs with such a record, once each; and the record
   * kept for an org is its last one under that key.
   */
  lemma {:induction false} IndexSpec(es: seq<Entry>, k: string, o: string)
    ensures WellFormed(AddAll(EmptyIndex, es))
    ensures k in AddAll(EmptyIndex, es).entries <==> exists i :: 0 <= i < |es| && Qualifies(es[i], k)
    ensures k in AddAll(EmptyIndex, es).entries ==>
              (o in AddAll(EmptyIndex, es).entries[k].byOrg <==> exists i :: 0 <= i < |es| && es[i].org == o && Qualifies(es[i], k))
    ensures k in AddAll(EmptyIndex, es).entries && o in AddAll(EmptyIndex, es).entries[k].byOrg ==>
              exists i :: LastFor(es, o, k, i) && es[i].record == AddAll(EmptyIndex, es).entries[k].byOrg[o]
  {
    IndexWellFormed(es);
    if es != [] {
      var init := es[..|es| - 1];
      var e := es[|es| - 1];
      IndexSpec(init, k, o);
      var ix := AddAll(EmptyIndex, init);
      var ix' := AddAll(EmptyIndex, es);
      assert ix' == AddRecord(ix, e);
      AddRecordSpec(ix, e, k, o);
      assert forall i :: 0 <= i < |init| ==> init[i] == es[i];
      if k in ix'.entries && o in ix'.entries[k].byOrg {
        if e.org == o && Qualifies(e, k) {
          assert LastFor(es, o, k, |es| - 1);
        } else {
          var i :| LastFor(init, o, k, i) && init[i].record == ix.entries[k].byOrg[o];
          assert LastFor(es, o, k, i);
        }
      }
    }
  }

  /** The inner loop of the index: one org's records, added in order. */
  method IndexOrg(ix0: FkIndex, d: OrgData) returns (ix: FkIndex)
    ensures ix == AddAll(ix0, EntriesOf(d))
  {
    var keys := ix0.keys;
    var entries := ix0.entries;
    for j := 0 to |d.records|
      invariant FkIndex(keys, entries) == AddAll(ix0, EntriesOf(d)[..j])
    {
      var record := d.records[j];
      ghost var prev := FkIndex(keys, entries);
      if Truthy(Get(record, "_isActive")) && Truthy(Get(record, "_foreignKeyValue")) {
        var k := KeyOf(record);
        if k !in entries {
          entries := entries[k := OrgRecords([], map[])];
          keys := keys + [k];
        }
        var rs := entries[k];
        entries := entries[k := OrgRecords(if d.org in rs.byOrg then rs.orgs else rs.orgs + [d.org], rs.byOrg[d.org := record])];
      }
      assert FkIndex(keys, entries) == AddRecord(prev, Entry(d.org, record));
      assert EntriesOf(d)[..j + 1] == EntriesOf(d)[..j] + [Entry(d.org, record)];
      AddAllSnoc(ix0, EntriesOf(d)[..j], Entry(d.org, record));
    }
    assert EntriesOf(d)[..|d.records|] == EntriesOf(d);
    ix := FkIndex(keys, entries);
  }

  /** `compareObjectRecords`, the loops building `foreignKeyIndex`. */
  method BuildForeignKeyIndex(orgData: seq<OrgData>) returns (ix: FkIndex)
    ensures ix == IndexOf(orgData)
  {
    ix := EmptyIndex;
    for i := 0 to |orgData|
      invariant ix == IndexOf(orgData[..i])
    {
      ix := IndexOrg(ix, orgData[i]);
      assert orgData[..i + 1][..i] == orgData[..i];
      AddAllConcat(EmptyIndex, Flatten(orgData[..i]), EntriesOf(orgData[i]));
    }
    assert orgData[..|orgData|] == orgData;
  }

  // ---------------------------------------------------------------------
  // Missing records

  /** `Object.keys(this.orgs)`: the configured usernames, once each, in first-seen order. */
  function ConfiguredOrgs(usernames: seq<string>): seq<string>
  {
    Dedup(usernames)
  }

  /** `allOrgNames.filter(org => !presentOrgs.includes(org))`. */
  function MissingOrgs(allOrgNames: seq<string>, present: seq<string>): seq<string>
  {
    if allOrgNames == [] then []
    else
      var rest := MissingOrgs(allOrgNames[..|allOrgNames| - 1], present);
      var o := allOrgNames[|allOrgNames| - 1];
      if o in present then rest else rest + [o]
  }

  /** The missing orgs are exactly the configured orgs not present, each once when the configured orgs are distinct. */
  lemma {:induction false} MissingOrgsSpec(allOrgNames: seq<string>, present: seq<string>)
    ensures forall o :: o in MissingOrgs(allOrgNames, present) <==> o in allOrgNames && o !in present
    ensures NoDup(allOrgNames) ==> NoDup(MissingOrgs(allOrgNames, present))
  {
    if allOrgNames != [] {
      var init := allOrgNames[..|allOrgNames| - 1];
      MissingOrgsSpec(init, present);
      assert forall o :: o in allOrgNames <==> o in init || o == allOrgNames[|allOrgNames| - 1];
    }
  }

  /** One `missing_records` entry (its `record_id` is the key itself). */
  datatype MissingRecord = MissingRecord(foreignKeyValue: string, missingOrgs: seq<string>, present: OrgRecords)
  {
    /** `org_values`: each missing org paired with the marker text. */
    function OrgValues(): seq<(string, string)>
    {
      seq(|missingOrgs|, i requires 0 <= i < |missingOrgs| => (missingOrgs[i], "MISSING"))
    }
  }

  /** The missing entry of the key at each position of the index, if some configured org lacks it. */
  function MissingFor(ix: FkIndex, allOrgNames: seq<string>): nat -> seq<MissingRecord>
  {
    (t: nat) =>
      if t < |ix.keys| && ix.keys[t] in ix.entries && |MissingOrgs(allOrgNames, ix.entries[ix.keys[t]].orgs)| > 0
      then [MissingRecord(ix.keys[t], MissingOrgs(allOrgNames, ix.entries[ix.keys[t]].orgs), ix.entries[ix.keys[t]])]
      else []
  }

  function MissingUpTo(ix: FkIndex, allOrgNames: seq<string>, n: nat): seq<MissingRecord>
  {
    ConcatUpTo(MissingFor(ix, allOrgNames), n)
  }

  /** One reported entry: an indexed key, its records, and the configured orgs without it (at least one). */
  lemma MissingEntry(ix: FkIndex, allOrgNames: seq<string>, m: MissingRecord)
    requires WellFormed(ix) && m in MissingUpTo(ix, allOrgNames, |ix.keys|)
    ensures m.foreignKeyValue in ix.entries && m.present == ix.entries[m.foreignKeyValue]
    ensures forall o :: o in m.missingOrgs <==> o in allOrgNames && o !in ix.entries[m.foreignKeyValue].byOrg
    ensures m.missingOrgs != []
  {
    ConcatUpToMembers(MissingFor(ix, allOrgNames), |ix.keys|, m);
    var t :| 0 <= t < |ix.keys| && m in MissingFor(ix, allOrgNames)(t);
    MissingOrgsSpec(allOrgNames, ix.entries[ix.keys[t]].orgs);
  }

  /**
   * A key is reported missing exactly when it is in the index and some
   * configured org lacks it; the entry then lists exactly those orgs.
   */
  lemma MissingSpec(ix: FkIndex, allOrgNames: seq<string>, k: string)
    requires WellFormed(ix)
    ensures (exists m :: m in MissingUpTo(ix, allOrgNames, |ix.keys|) && m.foreignKeyValue == k)
              <==> k in ix.entries && exists o :: o in allOrgNames && o !in ix.entries[k].byOrg
    ensures forall m :: m in MissingUpTo(ix, allOrgNames, |ix.keys|) ==>
              m.foreignKeyValue in ix.entries && m.present == ix.entries[m.foreignKeyValue]
              && forall o :: o in m.missingOrgs <==> o in allOrgNames && o !in ix.entries[m.foreignKeyValue].byOrg
  {
    var ms := MissingUpTo(ix, allOrgNames, |ix.keys|);
    forall m | m in ms
      ensures m.foreignKeyValue in ix.entries && m.present == ix.entries[m.foreignKeyValue]
      ensures forall o :: o in m.missingOrgs <==> o in allOrgNames && o !in ix.entries[m.foreignKeyValue].byOrg
      ensures m.missingOrgs != []
    {
      MissingEntry(ix, allOrgNames, m);
    }
    if exists m :: m in ms && m.foreignKeyValue == k {
      var m :| m in ms && m.foreignKeyValue == k;
      assert m.missingOrgs[0] in m.missingOrgs;
    }
    if k in ix.entries && exists o :: o in allOrgNames && o !in ix.entries[k].byOrg {
      var o :| o in allOrgNames && o !in ix.entries[k].byOrg;
      var t :| 0 <= t < |ix.keys| && ix.keys[t] == k;
      MissingOrgsSpec(allOrgNames, ix.entries[k].orgs);
      assert o in MissingOrgs(allOrgNames, ix.entries[k].orgs);
      ConcatUpToMembers(MissingFor(ix, allOrgNames), |ix.keys|, MissingFor(ix, allOrgNames)(t)[0]);
    }
  }

  /**
   * In terms of the loaded records: org o is listed as missing key k exactly
   * when o is configured, some org has an indexed record under k, and o has none.
   */
  lemma MissingRecordsSpec(orgData: seq<OrgData>, allOrgNames: seq<string>, k: string, o: string)
    ensures var ix := IndexOf(orgData);
            var es := Flatten(orgData);
            WellFormed(ix)
            && ((exists m :: m in MissingUpTo(ix, allOrgNames, |ix.keys|) && m.foreignKeyValue == k && o in m.missingOrgs)
                <==> o in allOrgNames && (exists i :: 0 <= i < |es| && Qualifies(es[i], k))
                     && !exists i :: 0 <= i < |es| && es[i].org == o && Qualifies(es[i], k))
  {
    var es := Flatten(orgData);
    var ix := AddAll(EmptyIndex, es);
    assert ix == IndexOf(orgData);
    IndexSpec(es, k, o);
    MissingSpec(ix, allOrgNames, k);
    var ms := MissingUpTo(ix, allOrgNames, |ix.keys|);
    var listed := exists m :: m in ms && m.foreignKeyValue == k && o in m.missingOrgs;
    if listed {
      var m :| m in ms && m.foreignKeyValue == k && o in m.missingOrgs;
      assert o in allOrgNames && k in ix.entries && o !in ix.entries[k].byOrg;
    }
    if o in allOrgNames && k in ix.entries && o !in ix.entries[k].byOrg {
      var m :| m in ms && m.foreignKeyValue == k;
      assert o in m.missingOrgs;
    }
    assert listed <==> o in allOrgNames && k in ix.entries && o !in ix.entries[k].byOrg;
  }

  // ---------------------------------------------------------------------
  // Value groups and the minority orgs

  /** `valueGroups`: distinct values in first-seen order, and the orgs holding each. */
  datatype ValueGroups = ValueGroups(order: seq<string>, members: map<string, seq<string>>)

  function Members(g: ValueGroups, v: string): seq<string>
  {
    if v in g.members then g.members[v] else []
  }

  function Size(g: ValueGroups, v: string): nat
  {
    |Members(g, v)|
  }

  function GroupStep(g: ValueGroups, org: string, v: string): ValueGroups
  {
    if v in g.members then ValueGroups(g.order, g.members[v := g.members[v] + [org]])
    else ValueGroups(g.order + [v], g.members[v := [org]])
  }

  /** The groups after the first n orgs. */
  function GroupsUpTo(orgs: seq<string>, vals: seq<string>, n: nat): ValueGroups
    requires n <= |orgs| && n <= |vals|
  {
    if n == 0 then ValueGroups([], map[]) else GroupStep(GroupsUpTo(orgs, vals, n - 1), orgs[n - 1], vals[n - 1])
  }

  /**
   * The groups list each value once in first-seen order; a group holds exactly
   * the orgs with that value, and its size is the number of such orgs.
   */
  /** What one step of the grouping does to each group. */
  lemma GroupStepSpec(g: ValueGroups, org: string, v: string)
    ensures GroupStep(g, org, v).order == if v in g.members then g.order else g.order + [v]
    ensures forall w :: w in GroupStep(g, org, v).members <==> w in g.members || w == v
    ensures forall w :: Members(GroupStep(g, org, v), w) == if w == v then Members(g, w) + [org] else Members(g, w)
  {
  }

  /** The groups list each value once, in first-seen order. */
  lemma {:induction false} GroupsOrder(orgs: seq<string>, vals: seq<string>, n: nat)
    requires n <= |orgs| && n <= |vals|
    ensures GroupsUpTo(orgs, vals, n).order == Dedup(vals[..n])
    ensures forall v :: v in GroupsUpTo(orgs, vals, n).members <==> v in vals[..n]
  {
    if n > 0 {
      GroupsOrder(orgs, vals, n - 1);
      assert vals[..n][..n - 1] == vals[..n - 1];
      assert vals[..n] == vals[..n - 1] + [vals[n - 1]];
      GroupStepSpec(GroupsUpTo(orgs, vals, n - 1), orgs[n - 1], vals[n - 1]);
    }
  }

  /** A group holds exactly the orgs with its value, and its size is their number. */
  lemma {:induction false} GroupsContents(orgs: seq<string>, vals: seq<string>, n: nat)
    requires n <= |orgs| && n <= |vals|
    ensures forall v :: Size(GroupsUpTo(orgs, vals, n), v) == Count(v, vals[..n])
    ensures forall v, o :: o in Members(GroupsUpTo(orgs, vals, n), v) <==> exists i :: 0 <= i < n && orgs[i] == o && vals[i] == v
  {
    if n > 0 {
      GroupsContents(orgs, vals, n - 1);
      assert vals[..n][..n - 1] == vals[..n - 1];
      GroupStepSpec(GroupsUpTo(orgs, vals, n - 1), orgs[n - 1], vals[n - 1]);
    }
  }

  lemma GroupsSpec(orgs: seq<string>, vals: seq<string>, n: nat)
    requires n <= |orgs| && n <= |vals|
    ensures GroupsUpTo(orgs, vals, n).order == Dedup(vals[..n])
    ensures forall v :: v in GroupsUpTo(orgs, vals, n).members <==> v in vals[..n]
    ensures forall v :: Size(GroupsUpTo(orgs, vals, n), v) == Count(v, vals[..n])
    ensures forall v, o :: o in Members(GroupsUpTo(orgs, vals, n), v) <==> exists i :: 0 <= i < n && orgs[i] == o && vals[i] == v
  {
    GroupsOrder(orgs, vals, n);
    GroupsContents(orgs, vals, n);
  }

  /** `Math.max` over the sizes of the first n groups (0 when there are none). */
  function LargestUpTo(g: ValueGroups, n: nat): nat
    requires n <= |g.order|
  {
    if n == 0 then 0
    else
      var m := LargestUpTo(g, n - 1);
      var s := Size(g, g.order[n - 1]);
      if s > m then s else m
  }

  lemma {:induction false} LargestSpec(g: ValueGroups, n: nat)
    requires n <= |g.order|
    ensures forall j :: 0 <= j < n ==> Size(g, g.order[j]) <= LargestUpTo(g, n)
    ensures n > 0 ==> exists j :: 0 <= j < n && Size(g, g.order[j]) == LargestUpTo(g, n)
  {
    if n > 0 {
      LargestSpec(g, n - 1);
      if Size(g, g.order[n - 1]) > LargestUpTo(g, n - 1) || n == 1 {
        assert Size(g, g.order[n - 1]) == LargestUpTo(g, n);
      } else {
        var j :| 0 <= j < n - 1 && Size(g, g.order[j]) == LargestUpTo(g, n - 1);
      }
    }
  }

  /** `differentOrgs`: the orgs of every group smaller than `max`, group by group. */
  function MinorityUpTo(g: ValueGroups, max: nat, n: nat): seq<string>
    requires n <= |g.order|
  {
    if n == 0 then []
    else
      var v := g.order[n - 1];
      MinorityUpTo(g, max, n - 1) + (if Size(g, v) < max then Members(g, v) else [])
  }

  lemma {:induction false} MinorityMembers(g: ValueGroups, max: nat, n: nat, o: string)
    requires n <= |g.order|
    ensures o in MinorityUpTo(g, max, n) <==> exists j :: 0 <= j < n && Size(g, g.order[j]) < max && o in Members(g, g.order[j])
  {
    if n > 0 {
      MinorityMembers(g, max, n - 1, o);
    }
  }

  /** The orgs flagged as different for one field, given each org's value. */
  function Minority(orgs: seq<string>, vals: seq<string>): seq<string>
    requires |orgs| == |vals|
  {
    var g := GroupsUpTo(orgs, vals, |vals|);
    MinorityUpTo(g, LargestUpTo(g, |g.order|), |g.order|)
  }

  /** Over the whole list, the groups list exactly its values, each group as large as its value's count. */
  lemma GroupsCounted(orgs: seq<string>, vals: seq<string>)
    requires |orgs| == |vals|
    ensures forall v :: v in GroupsUpTo(orgs, vals, |vals|).order <==> v in vals
    ensures forall v :: Size(GroupsUpTo(orgs, vals, |vals|), v) == Count(v, vals)
  {
    GroupsSpec(orgs, vals, |vals|);
    assert vals[..|vals|] == vals;
  }

  /** The largest group is as large as the most frequent value's count. */
  lemma LargestIsMaxCount(orgs: seq<string>, vals: seq<string>)
    requires |orgs| == |vals|
    ensures forall j :: 0 <= j < |vals| ==> Count(vals[j], vals) <= LargestUpTo(GroupsUpTo(orgs, vals, |vals|), |GroupsUpTo(orgs, vals, |vals|).order|)
    ensures vals != [] ==> exists i :: 0 <= i < |vals| && Count(vals[i], vals) == LargestUpTo(GroupsUpTo(orgs, vals, |vals|), |GroupsUpTo(orgs, vals, |vals|).order|)
  {
    var g := GroupsUpTo(orgs, vals, |vals|);
    GroupsCounted(orgs, vals);
    LargestSpec(g, |g.order|);
    forall j | 0 <= j < |vals|
      ensures Count(vals[j], vals) <= LargestUpTo(g, |g.order|)
    {
      assert vals[j] in g.order;
      var jj :| 0 <= jj < |g.order| && g.order[jj] == vals[j];
    }
    if vals != [] {
      assert vals[0] in g.order;
      var jj :| 0 <= jj < |g.order| && Size(g, g.order[jj]) == LargestUpTo(g, |g.order|);
      assert g.order[jj] in vals;
      var i :| 0 <= i < |vals| && vals[i] == g.order[jj];
    }
  }

  /** The flagged-org characterisation, stated over any groups with the facts the grouping establishes. */
  lemma FlaggedIff(orgs: seq<string>, vals: seq<string>, g: ValueGroups, max: nat, o: string, flagged: bool)
    requires |orgs| == |vals|
    requires forall v :: v in g.order <==> v in vals
    requires forall v :: Size(g, v) == Count(v, vals)
    requires forall v, o :: o in Members(g, v) <==> exists i :: 0 <= i < |vals| && orgs[i] == o && vals[i] == v
    requires forall j :: 0 <= j < |vals| ==> Count(vals[j], vals) <= max
    requires vals != [] ==> exists i :: 0 <= i < |vals| && Count(vals[i], vals) == max
    requires flagged <==> exists j :: 0 <= j < |g.order| && Size(g, g.order[j]) < max && o in Members(g, g.order[j])
    ensures flagged <==> exists i, j :: 0 <= i < |vals| && 0 <= j < |vals| && orgs[i] == o && Count(vals[i], vals) < Count(vals[j], vals)
  {
    if flagged {
      var jj :| 0 <= jj < |g.order| && Size(g, g.order[jj]) < max && o in Members(g, g.order[jj]);
      FlaggedHasLarger(orgs, vals, g, max, o, jj);
    }
    if exists i, j :: 0 <= i < |vals| && 0 <= j < |vals| && orgs[i] == o && Count(vals[i], vals) < Count(vals[j], vals) {
      var i, j :| 0 <= i < |vals| && 0 <= j < |vals| && orgs[i] == o && Count(vals[i], vals) < Count(vals[j], vals);
      LargerIsFlagged(orgs, vals, g, max, i, j);
    }
  }

  lemma FlaggedHasLarger(orgs: seq<string>, vals: seq<string>, g: ValueGroups, max: nat, o: string, jj: nat)
    requires |orgs| == |vals|
    requires forall v :: Size(g, v) == Count(v, vals)
    requires forall v, o :: o in Members(g, v) ==> exists i :: 0 <= i < |vals| && orgs[i] == o && vals[i] == v
    requires vals != [] ==> exists i :: 0 <= i < |vals| && Count(vals[i], vals) == max
    requires jj < |g.order| && Size(g, g.order[jj]) < max && o in Members(g, g.order[jj])
    ensures exists i, j :: 0 <= i < |vals| && 0 <= j < |vals| && orgs[i] == o && Count(vals[i], vals) < Count(vals[j], vals)
  {
    var v := g.order[jj];
    var i :| 0 <= i < |vals| && orgs[i] == o && vals[i] == v;
    var j :| 0 <= j < |vals| && Count(vals[j], vals) == max;
    CountLess(vals, i, j, v, max);
  }

  lemma LargerIsFlagged(orgs: seq<string>, vals: seq<string>, g: ValueGroups, max: nat, i: nat, j: nat)
    requires |orgs| == |vals|
    requires forall v :: v in vals ==> v in g.order
    requires forall v :: Size(g, v) == Count(v, vals)
    requires forall v, o :: (exists i :: 0 <= i < |vals| && orgs[i] == o && vals[i] == v) ==> o in Members(g, v)
    requires forall j :: 0 <= j < |vals| ==> Count(vals[j], vals) <= max
    requires i < |vals| && j < |vals| && Count(vals[i], vals) < Count(vals[j], vals)
    ensures exists jj :: 0 <= jj < |g.order| && Size(g, g.order[jj]) < max && orgs[i] in Members(g, g.order[jj])
  {
    var v := vals[i];
    var jj := IndexIn(g.order, v);
    assert orgs[i] in Members(g, v);
  }

  lemma CountLess(vals: seq<string>, i: nat, j: nat, v: string, max: nat)
    requires i < |vals| && j < |vals| && vals[i] == v && Count(v, vals) < max && Count(vals[j], vals) == max
    ensures Count(vals[i], vals) < Count(vals[j], vals)
  {
  }

  /** A position of a value in a list that holds it. */
  lemma IndexIn(s: seq<string>, v: string) returns (k: nat)
    requires v in s
    ensures k < |s| && s[k] == v
  {
    k :| 0 <= k < |s| && s[k] == v;
  }

  /**
   * An org is flagged exactly when some other value is held by more orgs
   * than the org's own value.
   */
  lemma MinoritySpec(orgs: seq<string>, vals: seq<string>, o: string)
    requires |orgs| == |vals|
    ensures o in Minority(orgs, vals) <==>
              exists i, j :: 0 <= i < |vals| && 0 <= j < |vals| && orgs[i] == o && Count(vals[i], vals) < Count(vals[j], vals)
  {
    var g := GroupsUpTo(orgs, vals, |vals|);
    var max := LargestUpTo(g, |g.order|);
    GroupsSpec(orgs, vals, |vals|);
    LargestIsMaxCount(orgs, vals);
    MinorityMembers(g, max, |g.order|, o);
    assert vals[..|vals|] == vals;
    FlaggedIff(orgs, vals, g, max, o, o in Minority(orgs, vals));
  }

  /** With distinct orgs, at least one org (one holding the most common value) is never flagged. */
  lemma MinorityNotEveryone(orgs: seq<string>, vals: seq<string>)
    requires |orgs| == |vals| && NoDup(orgs) && vals != []
    ensures exists i :: 0 <= i < |orgs| && orgs[i] !in Minority(orgs, vals)
  {
    LargestIsMaxCount(orgs, vals);
    var g := GroupsUpTo(orgs, vals, |vals|);
    var max := LargestUpTo(g, |g.order|);
    var i :| 0 <= i < |vals| && Count(vals[i], vals) == max;
    forall a, b | 0 <= a < |vals| && 0 <= b < |vals| && orgs[a] == orgs[i]
      ensures Count(vals[a], vals) >= Count(vals[b], vals)
    {
      assert a == i;
      assert Count(vals[b], vals) <= max;
    }
    MinoritySpec(orgs, vals, orgs[i]);
    assert orgs[i] !in Minority(orgs, vals);
  }

  lemma {:induction false} CountNoDup(s: seq<string>, x: string)
    requires NoDup(s) && x in s
    ensures Count(x, s) == 1
  {
    var init := s[..|s| - 1];
    assert NoDup(init);
    if s[|s| - 1] != x {
      assert x in init;
      CountNoDup(init, x);
    } else {
      assert x !in init;
    }
  }

  /**
   * When every org holds a different value nobody is flagged: two orgs that
   * disagree yield a field difference whose list of differing orgs is empty.
   */
  lemma DistinctValuesFlagNobody(orgs: seq<string>, vals: seq<string>)
    requires |orgs| == |vals| && NoDup(vals)
    ensures Minority(orgs, vals) == []
  {
    if Minority(orgs, vals) != [] {
      var o := Minority(orgs, vals)[0];
      MinoritySpec(orgs, vals, o);
      var i, j :| 0 <= i < |vals| && 0 <= j < |vals| && orgs[i] == o && Count(vals[i], vals) < Count(vals[j], vals);
      CountNoDup(vals, vals[i]);
      CountNoDup(vals, vals[j]);
    }
  }

  method CollectFieldValues(d: OrgRecords, fieldName: string) returns (vals: seq<string>)
    requires Present(d)
    ensures vals == FieldValues(d, fieldName)
  {
    vals := [];
    for i := 0 to |d.orgs|
      invariant vals == FieldValues(d, fieldName)[..i]
    {
      vals := vals + [OrEmpty(Get(d.byOrg[d.orgs[i]], fieldName))];
    }
    assert FieldValues(d, fieldName)[..|d.orgs|] == FieldValues(d, fieldName);
  }

  method GroupByValue(orgs: seq<string>, vals: seq<string>) returns (g: ValueGroups)
    requires |orgs| == |vals|
    ensures g == GroupsUpTo(orgs, vals, |vals|)
  {
    var order: seq<string> := [];
    var members: map<string, seq<string>> := map[];
    for i := 0 to |vals|
      invariant ValueGroups(order, members) == GroupsUpTo(orgs, vals, i)
    {
      var v := vals[i];
      if v !in members {
        order := order + [v];
        members := members[v := [orgs[i]]];
      } else {
        members := members[v := members[v] + [orgs[i]]];
      }
    }
    g := ValueGroups(order, members);
  }

  method MinorityOrgs(g: ValueGroups, max: nat) returns (different: seq<string>)
    ensures different == MinorityUpTo(g, max, |g.order|)
  {
    different := [];
    for j := 0 to |g.order|
      invariant different == MinorityUpTo(g, max, j)
    {
      var v := g.order[j];
      if Size(g, v) < max {
        different := different + Members(g, v);
      }
    }
  }

  // ---------------------------------------------------------------------
  // Field differences

  /** Fields never compared (they still appear in the copied record data). */
  const SystemFields: set<string> := {"CreatedDate", "LastModifiedDate", "CreatedBy.Name", "LastModifiedById", "CreatedById"}

  /** The record kept for an org (none for an org without one). */
  function RecordOf(d: OrgRecords, org: string): Record
  {
    if org in d.byOrg then d.byOrg[org] else map[]
  }

  /** `fieldValues`: each present org's value of the field as text, in org order. */
  function FieldValues(d: OrgRecords, fieldName: string): (vals: seq<string>)
    ensures |vals| == |d.orgs|
  {
    seq(|d.orgs|, i requires 0 <= i < |d.orgs| => OrEmpty(Get(RecordOf(d, d.orgs[i]), fieldName)))
  }

  /** Two present orgs hold different values of the field. */
  predicate ValuesDiffer(d: OrgRecords, fieldName: string)
  {
    exists i, j | 0 <= i < |d.orgs| && 0 <= j < |d.orgs| :: FieldValues(d, fieldName)[i] != FieldValues(d, fieldName)[j]
  }

  /**
   * One `field_differences` entry, kept as the key, the field and the key's
   * records. The entry's `record_id`, `org_values` and `differences` are
   * determined by these and are given by the member functions.
   */
  datatype FieldDifference = FieldDifference(foreignKeyValue: string, fieldName: string, present: OrgRecords)
  {
    /** `Object.values(orgRecords)[0].Id`: the Id of the first org's record. */
    function RecordId(): Value
    {
      if present.orgs == [] then Null else Get(RecordOf(present, present.orgs[0]), "Id")
    }

    /** `org_values`: each present org's value, in org order. */
    function OrgValues(): seq<string>
    {
      FieldValues(present, fieldName)
    }

    /** `differences`: the orgs whose value is not among the most common. */
    function DifferentOrgs(): seq<string>
    {
      Minority(present.orgs, OrgValues())
    }
  }

  /** The entry one field produces for key k: present unless it is a system field or all values agree. */
  function DifferenceFor(k: string, d: OrgRecords, fieldName: string): Option<FieldDifference>
  {
    if fieldName !in SystemFields && ValuesDiffer(d, fieldName) then Some(FieldDifference(k, fieldName, d)) else None
  }

  /** The per-field check of key k, as a function of the field name. */
  function FieldCheck(k: string, d: OrgRecords): string -> Option<FieldDifference>
  {
    fieldName => DifferenceFor(k, d, fieldName)
  }

  /** The entries the configured fields produce for key k, in field order. */
  function FieldDiffs(k: string, d: OrgRecords, fields: seq<string>): seq<FieldDifference>
  {
    MapSomes(FieldCheck(k, d), fields)
  }

  lemma FieldDiffsSnoc(k: string, d: OrgRecords, fields: seq<string>, fieldName: string)
    ensures FieldDiffs(k, d, fields + [fieldName])
            == FieldDiffs(k, d, fields) + match DifferenceFor(k, d, fieldName) { case Some(x) => [x] case None => [] }
  {
    MapSomesSnoc(FieldCheck(k, d), fields, fieldName);
  }

  /** The field differences of the key at each position, when more than one org holds it. */
  function KeyDiffs(ix: FkIndex, fields: seq<string>): nat -> seq<FieldDifference>
  {
    (t: nat) =>
      if t < |ix.keys| && ix.keys[t] in ix.entries && |ix.entries[ix.keys[t]].orgs| > 1
      then FieldDiffs(ix.keys[t], ix.entries[ix.keys[t]], fields)
      else []
  }

  function DiffsUpTo(ix: FkIndex, fields: seq<string>, n: nat): seq<FieldDifference>
  {
    ConcatUpTo(KeyDiffs(ix, fields), n)
  }

  /** One reported difference: a key shared by several orgs, and a compared field whose values differ. */
  lemma DiffEntry(ix: FkIndex, fields: seq<string>, x: FieldDifference)
    requires WellFormed(ix) && x in DiffsUpTo(ix, fields, |ix.keys|)
    ensures x.foreignKeyValue in ix.entries && x.present == ix.entries[x.foreignKeyValue] && |x.present.orgs| > 1
    ensures x.fieldName in fields && x.fieldName !in SystemFields && ValuesDiffer(x.present, x.fieldName)
  {
    ConcatUpToMembers(KeyDiffs(ix, fields), |ix.keys|, x);
    var t :| 0 <= t < |ix.keys| && x in KeyDiffs(ix, fields)(t);
    var d := ix.entries[ix.keys[t]];
    MapSomesMembers(FieldCheck(ix.keys[t], d), fields, x);
    var u :| 0 <= u < |fields| && FieldCheck(ix.keys[t], d)(fields[u]) == Some(x);
  }

  /**
   * A (key, field) pair is reported exactly when at least two orgs hold the
   * key, the field is configured and not a system field, and the orgs' values
   * for it are not all equal; every entry carries its key's records.
   */
  lemma FieldDifferencesSpec(ix: FkIndex, fields: seq<string>, k: string, fieldName: string)
    requires WellFormed(ix)
    ensures (exists x :: x in DiffsUpTo(ix, fields, |ix.keys|) && x.foreignKeyValue == k && x.fieldName == fieldName)
              <==> k in ix.entries && |ix.entries[k].orgs| > 1 && fieldName in fields && fieldName !in SystemFields
                   && ValuesDiffer(ix.entries[k], fieldName)
    ensures forall x :: x in DiffsUpTo(ix, fields, |ix.keys|) ==>
              x.foreignKeyValue in ix.entries && x.present == ix.entries[x.foreignKeyValue] && |x.present.orgs| > 1
  {
    var xs := DiffsUpTo(ix, fields, |ix.keys|);
    forall x | x in xs
      ensures x.foreignKeyValue in ix.entries && x.present == ix.entries[x.foreignKeyValue] && |x.present.orgs| > 1
      ensures x.fieldName in fields && x.fieldName !in SystemFields && ValuesDiffer(x.present, x.fieldName)
    {
      DiffEntry(ix, fields, x);
    }
    if k in ix.entries && |ix.entries[k].orgs| > 1 && fieldName in fields && fieldName !in SystemFields
       && ValuesDiffer(ix.entries[k], fieldName) {
      var d := ix.entries[k];
      var t :| 0 <= t < |ix.keys| && ix.keys[t] == k;
      var u :| 0 <= u < |fields| && fields[u] == fieldName;
      var x := FieldDifference(k, fieldName, d);
      assert FieldCheck(k, d)(fields[u]) == Some(x);
      MapSomesMembers(FieldCheck(k, d), fields, x);
      assert x in KeyDiffs(ix, fields)(t);
      ConcatUpToMembers(KeyDiffs(ix, fields), |ix.keys|, x);
    }
  }

  // ---------------------------------------------------------------------
  // The comparison results

  /** The `results` object: the two lists and the summary counters. */
  class ComparisonResults {
    const objectName: string
    var missingRecords: seq<MissingRecord>
    var fieldDifferences: seq<FieldDifference>
    var totalRecords: nat
    var missingCount: nat
    var differenceCount: nat

    /** The summary counters count the lists. */
    ghost predicate Valid()
      reads this
    {
      missingCount == |missingRecords| && differenceCount == |fieldDifferences|
    }

    constructor(objectName: string, totalRecords: nat)
      ensures this.objectName == objectName && this.totalRecords == totalRecords
      ensures missingRecords == [] && fieldDifferences == [] && Valid()
    {
      this.objectName := objectName;
      this.totalRecords := totalRecords;
      missingRecords := [];
      fieldDifferences := [];
      missingCount := 0;
      differenceCount := 0;
    }
  }

  /**
   * The body of the field loop of `compareFieldsForRecord`, for one field: the
   * entry to push, if any, and the differing orgs it lists.
   */
  method CompareField(k: string, d: OrgRecords, fieldName: string) returns (diff: Option<FieldDifference>, differentOrgs: seq<string>)
    requires Present(d)
    ensures diff == DifferenceFor(k, d, fieldName)
    ensures diff.Some? ==> differentOrgs == diff.value.DifferentOrgs()
  {
    if fieldName in SystemFields {
      return None, [];
    }
    var vals := CollectFieldValues(d, fieldName);
    DedupMany(vals);
    if |Dedup(vals)| > 1 {
      var groups := GroupByValue(d.orgs, vals);
      var maxGroupSize := LargestUpTo(groups, |groups.order|);
      differentOrgs := MinorityOrgs(groups, maxGroupSize);
      diff := Some(FieldDifference(k, fieldName, d));
    } else {
      diff := None;
      differentOrgs := [];
    }
  }

  /** `compareFieldsForRecord`: appends the field differences of one key. */
  method CompareFieldsForRecord(k: string, d: OrgRecords, fields: seq<string>, results: ComparisonResults)
    requires Present(d) && d.orgs != [] && results.Valid()
    modifies results
    ensures results.fieldDifferences == old(results.fieldDifferences) + FieldDiffs(k, d, fields)
    ensures results.missingRecords == old(results.missingRecords) && results.totalRecords == old(results.totalRecords)
    ensures results.Valid()
  {
    for t := 0 to |fields|
      invariant results.fieldDifferences == old(results.fieldDifferences) + FieldDiffs(k, d, fields[..t])
      invariant results.missingRecords == old(results.missingRecords) && results.totalRecords == old(results.totalRecords)
      invariant results.Valid()
    {
      var diff, _ := CompareField(k, d, fields[t]);
      FieldDiffsSnoc(k, d, fields[..t], fields[t]);
      assert fields[..t + 1] == fields[..t] + [fields[t]];
      if diff.Some? {
        results.fieldDifferences := results.fieldDifferences + [diff.value];
        results.differenceCount := results.differenceCount + 1;
      }
    }
    assert fields[..|fields|] == fields;
  }

  /** The body of the key loop of `compareObjectRecords`, for the key at position n. */
  method ProcessKey(ix: FkIndex, n: nat, allOrgNames: seq<string>, fields: seq<string>, results: ComparisonResults)
    requires Covered(ix) && n < |ix.keys| && results.Valid()
    modifies results
    ensures results.missingRecords == old(results.missingRecords) + MissingFor(ix, allOrgNames)(n)
    ensures results.fieldDifferences == old(results.fieldDifferences) + KeyDiffs(ix, fields)(n)
    ensures results.totalRecords == old(results.totalRecords) && results.Valid()
  {
    var k := ix.keys[n];
    var orgRecords := ix.entries[k];
    var missingOrgs := MissingOrgs(allOrgNames, orgRecords.orgs);
    if |missingOrgs| > 0 {
      results.missingRecords := results.missingRecords + [MissingRecord(k, missingOrgs, orgRecords)];
      results.missingCount := results.missingCount + 1;
    }
    if |orgRecords.orgs| > 1 {
      CompareFieldsForRecord(k, orgRecords, fields, results);
    } else {
      assert KeyDiffs(ix, fields)(n) == [];
    }
  }

  /** The key loop of `compareObjectRecords`, over a built index. */
  method CompareIndexed(objectName: string, ix: FkIndex, allOrgNames: seq<string>, fields: seq<string>)
    returns (results: ComparisonResults)
    requires Covered(ix)
    ensures fresh(results) && results.Valid() && results.objectName == objectName
    ensures results.totalRecords == |ix.keys|
    ensures results.missingRecords == MissingUpTo(ix, allOrgNames, |ix.keys|)
    ensures results.fieldDifferences == DiffsUpTo(ix, fields, |ix.keys|)
  {
    results := new ComparisonResults(objectName, |ix.keys|);
    for n := 0 to |ix.keys|
      invariant results.Valid() && results.objectName == objectName && results.totalRecords == |ix.keys|
      invariant results.missingRecords == MissingUpTo(ix, allOrgNames, n)
      invariant results.fieldDifferences == DiffsUpTo(ix, fields, n)
    {
      ProcessKey(ix, n, allOrgNames, fields, results);
    }
  }

  /**
   * `compareObjectRecords` on the stored records: builds the index, then
   * records each key's missing orgs and, where two or more orgs hold the key,
   * its field differences.
   */
  method CompareObjectRecords(objectName: string, orgData: seq<OrgData>, allOrgNames: seq<string>, fields: seq<string>)
    returns (results: ComparisonResults)
    ensures fresh(results) && results.Valid() && results.objectName == objectName
    ensures WellFormed(IndexOf(orgData))
    ensures results.totalRecords == |IndexOf(orgData).keys|
    ensures results.missingRecords == MissingUpTo(IndexOf(orgData), allOrgNames, |IndexOf(orgData).keys|)
    ensures results.fieldDifferences == DiffsUpTo(IndexOf(orgData), fields, |IndexOf(orgData).keys|)
  {
    var ix := BuildForeignKeyIndex(orgData);
    IndexWellFormed(Flatten(orgData));
    WellFormedCovered(ix);
    results := CompareIndexed(objectName, ix, allOrgNames, fields);
  }
}
