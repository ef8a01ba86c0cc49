/**
 * The object-configuration state of the data-comparison config generator:
 * for the selected object, the list of selected `Fields` and the chosen
 * `foreignKey`, kept in `config.volatile[selectedObject]`, and the
 * operations of the field panel that edit them.
 */
module ConfigGenerator {
  import opened Common

  /** The part of an object's volatile config these operations read and write. */
  datatype ObjectConfig = ObjectConfig(fields: seq<string>, foreignKey: Option<string>)

  /** The config `getOrCreateVolatileConfig` creates for an object that has none. */
  const Fresh := ObjectConfig([], None)

  /** A field of the selected object as described by the org, with the objects it references. */
  datatype FieldInfo = FieldInfo(name: string, referenceTo: seq<string>)

  /** The reference being browsed: the parent object and the reference field on it. */
  datatype ReferenceContext = ReferenceContext(parentObject: string, parentField: string)

  /** One entry of `getLookupFields`. */
  datatype LookupField = LookupField(
    fullName: string,
    parentField: string,
    selectedField: string,
    referenceTo: string,
    displayName: string,
    fieldType: string)

  // ---------------------------------------------------------------------
  // List operations on Fields

  /** `fields.indexOf(f)`: the first position holding `f`. */
  function IndexOf(fields: seq<string>, f: string): (r: Option<nat>)
    ensures r.None? <==> f !in fields
    ensures r.Some? ==> r.value < |fields| && fields[r.value] == f && f !in fields[..r.value]
  {
    if fields == [] then None
    else if fields[0] == f then Some(0)
    else
      var r := IndexOf(fields[1..], f);
      if r.None? then None
      else
        assert fields[..r.value + 1] == [fields[0]] + fields[1..][..r.value];
        Some(r.value + 1)
  }

  /** `fields.filter(x => x !== f)`. */
  function Without(fields: seq<string>, f: string): seq<string>
  {
    if fields == [] then []
    else Without(fields[..|fields| - 1], f) + (if fields[|fields| - 1] == f then [] else [fields[|fields| - 1]])
  }

  /** `fields.filter(x => !x.startsWith(prefix))`. */
  function DropPrefixed(fields: seq<string>, prefix: string): seq<string>
  {
    if fields == [] then []
    else DropPrefixed(fields[..|fields| - 1], prefix)
         + (if StartsWith(fields[|fields| - 1], prefix) then [] else [fields[|fields| - 1]])
  }

  /** A field list without repeats, whose foreign key, when set, is one of its fields. */
  predicate Consistent(c: ObjectConfig)
  {
    NoDup(c.fields) && (c.foreignKey.Some? ==> c.foreignKey.value in c.fields)
  }

  /** The configuration check: some field, a non-empty foreign key, and the key among the fields. */
  predicate Complete(c: ObjectConfig)
  {
    |c.fields| > 0 && c.foreignKey.Some? && c.foreignKey.value != "" && c.foreignKey.value in c.fields
  }

  /** The lookup field name for a reference: `parentField.selectedField`. */
  function LookupName(parentField: string, selectedField: string): string
  {
    parentField + "." + selectedField
  }

  /** The entry of `getLookupFields` for one field containing a dot. */
  function LookupOf(field: string, objectFields: seq<FieldInfo>): LookupField
  {
    var parts := Split(field, '.');
    var parentField := parts[0];
    var selectedField := if |parts| > 1 then parts[1] else "";
    var info := FindField(objectFields, parentField);
    var referenceTo :=
      if info.Some? && |info.value.referenceTo| > 0 && info.value.referenceTo[0] != "" then info.value.referenceTo[0]
      else "Unknown";
    LookupField(field, parentField, selectedField, referenceTo, parentField + " \U{2192} " + selectedField, "Lookup")
  }

  /** `objectFields.find(f => f.name === name)`. */
  function FindField(objectFields: seq<FieldInfo>, name: string): (r: Option<FieldInfo>)
    ensures r.Some? ==> r.value in objectFields && r.value.name == name
    ensures r.None? ==> forall i :: 0 <= i < |objectFields| ==> objectFields[i].name != name
  {
    if objectFields == [] then None
    else if objectFields[0].name == name then Some(objectFields[0])
    else FindField(objectFields[1..], name)
  }

  /** `objectFields.map(f => f.name)`. */
  function FieldNames(objectFields: seq<FieldInfo>): (r: seq<string>)
    ensures |r| == |objectFields| && forall i :: 0 <= i < |r| ==> r[i] == objectFields[i].name
  {
    seq(|objectFields|, i requires 0 <= i < |objectFields| => objectFields[i].name)
  }

  /** getLookupFields: one entry per selected field containing a dot, in order. */
  function Lookups(fields: seq<string>, objectFields: seq<FieldInfo>): seq<LookupField>
  {
    if fields == [] then []
    else Lookups(fields[..|fields| - 1], objectFields)
         + (if '.' in fields[|fields| - 1] then [LookupOf(fields[|fields| - 1], objectFields)] else [])
  }

  // ---------------------------------------------------------------------
  // The generator's state

  class ConfigGenerator {
    var selectedObject: Option<string>
    var objectFields: seq<FieldInfo>
    var currentReferenceContext: Option<ReferenceContext>
    var volatile: map<string, ObjectConfig>

    constructor ()
      ensures selectedObject.None? && objectFields == [] && currentReferenceContext.None? && volatile == map[]
    {
      selectedObject := None;
      objectFields := [];
      currentReferenceContext := None;
      volatile := map[];
    }

    /** The key `config.volatile[this.selectedObject]` uses: no selection is the key `"null"`. */
    function Key(): string
      reads this
    {
      if selectedObject.Some? then selectedObject.value else "null"
    }

    /** The `if (!this.selectedObject) return;` guard: a non-empty selected object. */
    predicate HasSelection()
      reads this
    {
      selectedObject.Some? && selectedObject.value != ""
    }

    /** getVolatileConfig: the stored config of the selected object, or a fresh one. */
    function Current(): ObjectConfig
      reads this
    {
      if Key() in volatile then volatile[Key()] else Fresh
    }

    /** toggleFieldSelection: select a field once, or deselect its first occurrence and drop it as key. */
    method ToggleFieldSelection(fieldName: string, selected: bool)
      modifies this
      ensures !old(HasSelection()) ==> volatile == old(volatile)
      ensures old(HasSelection()) ==> volatile == old(volatile)[Key() := Toggled(old(Current()), fieldName, selected)]
      ensures selectedObject == old(selectedObject) && objectFields == old(objectFields)
      ensures currentReferenceContext == old(currentReferenceContext)
    {
      if !HasSelection() {
        return;
      }
      var config := Current();
      var fieldIndex := IndexOf(config.fields, fieldName);
      if selected && fieldIndex.None? {
        config := config.(fields := config.fields + [fieldName]);
      } else if !selected && fieldIndex.Some? {
        var i := fieldIndex.value;
        config := config.(fields := config.fields[..i] + config.fields[i + 1..]);
        if config.foreignKey == Some(fieldName) {
          config := config.(foreignKey := None);
        }
      }
      volatile := volatile[Key() := config];
    }

    /**
     * toggleForeignKey: while a reference is browsed, add `parentField.fieldName`
     * to the parent object's fields; otherwise clear the key if it is this
     * field, or make this field the key and make sure it is selected.
     */
    method ToggleForeignKey(fieldName: string)
      modifies this
      ensures !old(HasSelection()) ==> volatile == old(volatile)
      ensures old(HasSelection()) && old(currentReferenceContext).Some? ==>
        var ctx := old(currentReferenceContext).value;
        volatile == old(volatile)[ctx.parentObject := WithLookup(old(volatile), ctx, fieldName)]
      ensures old(HasSelection()) && old(currentReferenceContext).None? ==>
        volatile == old(volatile)[Key() := KeyToggled(old(Current()), fieldName)]
      ensures selectedObject == old(selectedObject) && objectFields == old(objectFields)
      ensures currentReferenceContext == old(currentReferenceContext)
    {
      if !HasSelection() {
        return;
      }
      if currentReferenceContext.Some? {
        SelectReferenceField(fieldName);
        return;
      }
      var config := Current();
      if config.foreignKey == Some(fieldName) {
        config := config.(foreignKey := None);
      } else {
        config := config.(foreignKey := Some(fieldName));
        if fieldName !in config.fields {
          config := config.(fields := config.fields + [fieldName]);
        }
      }
      volatile := volatile[Key() := config];
    }

    /** selectReferenceField: add the lookup field to the parent object's config, once; nothing without a browsed reference. */
    method SelectReferenceField(fieldName: string)
      modifies this
      ensures old(currentReferenceContext).None? ==> volatile == old(volatile)
      ensures old(currentReferenceContext).Some? ==>
        volatile == old(volatile)[old(currentReferenceContext).value.parentObject
                                  := WithLookup(old(volatile), old(currentReferenceContext).value, fieldName)]
      ensures selectedObject == old(selectedObject) && objectFields == old(objectFields)
      ensures currentReferenceContext == old(currentReferenceContext)
    {
      if currentReferenceContext.None? {
        return;
      }
      var ctx := currentReferenceContext.value;
      var parent := if ctx.parentObject in volatile then volatile[ctx.parentObject] else Fresh;
      var lookupFieldName := LookupName(ctx.parentField, fieldName);
      if lookupFieldName !in parent.fields {
        parent := parent.(fields := parent.fields + [lookupFieldName]);
      }
      volatile := volatile[ctx.parentObject := parent];
    }

    /** selectAllFields: every described field of the selected object, in order; the key is kept. */
    method SelectAllFields()
      modifies this
      ensures !old(HasSelection()) || old(objectFields) == [] ==> volatile == old(volatile)
      ensures old(HasSelection()) && old(objectFields) != [] ==>
        volatile == old(volatile)[Key() := old(Current()).(fields := FieldNames(objectFields))]
      ensures selectedObject == old(selectedObject) && objectFields == old(objectFields)
      ensures currentReferenceContext == old(currentReferenceContext)
    {
      if !HasSelection() || |objectFields| == 0 {
        return;
      }
      var config := Current();
      config := config.(fields := FieldNames(objectFields));
      volatile := volatile[Key() := config];
    }

    /** clearAllFields: no fields and no key for the selected object. */
    method ClearAllFields()
      modifies this
      ensures !old(HasSelection()) ==> volatile == old(volatile)
      ensures old(HasSelection()) ==> volatile == old(volatile)[Key() := Fresh]
      ensures selectedObject == old(selectedObject) && objectFields == old(objectFields)
      ensures currentReferenceContext == old(currentReferenceContext)
    {
      if !HasSelection() {
        return;
      }
      var config := Current();
      config := config.(fields := [], foreignKey := None);
      volatile := volatile[Key() := config];
    }

    /** confirmReferenceFieldSelection: replace every `parentField.*` field by the one chosen. */
    method ConfirmReferenceFieldSelection(parentObject: string, parentField: string, selectedField: string)
      modifies this
      ensures volatile == old(volatile)[Key() := Confirmed(old(Current()), parentField, selectedField)]
      ensures selectedObject == old(selectedObject) && objectFields == old(objectFields)
      ensures currentReferenceContext == old(currentReferenceContext)
    {
      var lookupFieldName := LookupName(parentField, selectedField);
      var config := Current();
      var kept := KeepUnprefixed(config.fields, parentField + ".");
      config := config.(fields := kept + [lookupFieldName]);
      volatile := volatile[Key() := config];
    }

    /** removeLookupField: drop every occurrence of the field, and the key if it was that field. */
    method RemoveLookupField(lookupFieldName: string)
      modifies this
      ensures volatile == old(volatile)[Key() := Removed(old(Current()), lookupFieldName)]
      ensures selectedObject == old(selectedObject) && objectFields == old(objectFields)
      ensures currentReferenceContext == old(currentReferenceContext)
    {
      var config := Current();
      var kept := KeepOthers(config.fields, lookupFieldName);
      config := config.(fields := kept);
      if config.foreignKey == Some(lookupFieldName) {
        config := config.(foreignKey := None);
      }
      volatile := volatile[Key() := config];
    }

    /** getLookupFields: the selected object's fields that name a lookup, described. */
    function GetLookupFields(): (r: seq<LookupField>)
      reads this
      ensures r == Lookups(Current().fields, objectFields)
      ensures forall e :: e in r ==> e.fullName in Current().fields && '.' in e.fullName
    {
      LookupsSound(Current().fields, objectFields);
      Lookups(Current().fields, objectFields)
    }

    /** isConfigurationValid: only the selected object's config is checked. */
    function IsConfigurationValid(): (r: bool)
      reads this
      ensures r <==> HasSelection() && Key() in volatile && Complete(volatile[Key()])
    {
      if !HasSelection() || Key() !in volatile then false
      else
        var config := volatile[Key()];
        var hasFields := |config.fields| > 0;
        var hasForeignKey := config.foreignKey.Some? && config.foreignKey.value != "";
        hasFields && hasForeignKey && config.foreignKey.value in config.fields
    }
  }

  /** `fields.filter(x => !x.startsWith(prefix))`, field by field. */
  method KeepUnprefixed(fields: seq<string>, prefix: string) returns (r: seq<string>)
    ensures r == DropPrefixed(fields, prefix)
  {
    r := [];
    for i := 0 to |fields|
      invariant r == DropPrefixed(fields[..i], prefix)
    {
      assert fields[..i + 1][..i] == fields[..i];
      if !StartsWith(fields[i], prefix) {
        r := r + [fields[i]];
      }
    }
    assert fields[..|fields|] == fields;
  }

  /** `fields.filter(x => x !== f)`, field by field. */
  method KeepOthers(fields: seq<string>, f: string) returns (r: seq<string>)
    ensures r == Without(fields, f)
  {
    r := [];
    for i := 0 to |fields|
      invariant r == Without(fields[..i], f)
    {
      assert fields[..i + 1][..i] == fields[..i];
      if fields[i] != f {
        r := r + [fields[i]];
      }
    }
    assert fields[..|fields|] == fields;
  }

  // ---------------------------------------------------------------------
  // The new config of each operation

  function Toggled(c: ObjectConfig, f: string, selected: bool): ObjectConfig
  {
    var i := IndexOf(c.fields, f);
    if selected && i.None? then c.(fields := c.fields + [f])
    else if !selected && i.Some? then
      ObjectConfig(c.fields[..i.value] + c.fields[i.value + 1..], if c.foreignKey == Some(f) then None else c.foreignKey)
    else c
  }

  function KeyToggled(c: ObjectConfig, f: string): ObjectConfig
  {
    if c.foreignKey == Some(f) then c.(foreignKey := None)
    else ObjectConfig(if f in c.fields then c.fields else c.fields + [f], Some(f))
  }

  function WithLookup(volatile: map<string, ObjectConfig>, ctx: ReferenceContext, f: string): ObjectConfig
  {
    var parent := if ctx.parentObject in volatile then volatile[ctx.parentObject] else Fresh;
    var name := LookupName(ctx.parentField, f);
    if name in parent.fields then parent else parent.(fields := parent.fields + [name])
  }

  function Confirmed(c: ObjectConfig, parentField: string, selectedField: string): ObjectConfig
  {
    c.(fields := DropPrefixed(c.fields, parentField + ".") + [LookupName(parentField, selectedField)])
  }

  function Removed(c: ObjectConfig, f: string): ObjectConfig
  {
    ObjectConfig(Without(c.fields, f), if c.foreignKey == Some(f) then None else c.foreignKey)
  }

  // ---------------------------------------------------------------------
  // Properties

  /** Appending a field not yet present keeps a list without repeats. */
  lemma NoDupSnoc(s: seq<string>, x: string)
    requires NoDup(s) && x !in s
    ensures NoDup(s + [x])
  {
    var r := s + [x];
    forall a, b | 0 <= a < b < |r| ensures r[a] != r[b] {
      if b == |s| { assert r[a] in s; }
    }
  }

  lemma {:induction false} WithoutSpec(fields: seq<string>, f: string, x: string)
    ensures x in Without(fields, f) <==> x in fields && x != f
    ensures NoDup(fields) ==> NoDup(Without(fields, f))
  {
    if fields != [] {
      var init := fields[..|fields| - 1];
      WithoutSpec(init, f, x);
      assert forall y :: y in fields <==> y in init || y == fields[|fields| - 1];
      if NoDup(fields) {
        assert NoDup(init);
        forall y | y in Without(init, f) ensures y in init { WithoutSpec(init, f, y); }
        if fields[|fields| - 1] != f {
          assert fields[|fields| - 1] !in init;
          NoDupSnoc(Without(init, f), fields[|fields| - 1]);
        } else {
          assert Without(fields, f) == Without(init, f) + [];
        }
      }
    }
  }

  lemma {:induction false} DropPrefixedSpec(fields: seq<string>, prefix: string, x: string)
    ensures x in DropPrefixed(fields, prefix) <==> x in fields && !StartsWith(x, prefix)
    ensures NoDup(fields) ==> NoDup(DropPrefixed(fields, prefix))
  {
    if fields != [] {
      var init := fields[..|fields| - 1];
      DropPrefixedSpec(init, prefix, x);
      assert forall y :: y in fields <==> y in init || y == fields[|fields| - 1];
      if NoDup(fields) {
        assert NoDup(init);
        forall y | y in DropPrefixed(init, prefix) ensures y in init { DropPrefixedSpec(init, prefix, y); }
        if !StartsWith(fields[|fields| - 1], prefix) {
          assert fields[|fields| - 1] !in init;
          NoDupSnoc(DropPrefixed(init, prefix), fields[|fields| - 1]);
        } else {
          assert DropPrefixed(fields, prefix) == DropPrefixed(init, prefix) + [];
        }
      }
    }
  }

  /** Removing the one occurrence of a field from a list without repeats removes the field. */
  lemma RemoveAtSpec(fields: seq<string>, i: nat, x: string)
    requires NoDup(fields) && i < |fields|
    ensures var r := fields[..i] + fields[i + 1..];
            NoDup(r) && (x in r <==> x in fields && x != fields[i])
  {
    var r := fields[..i] + fields[i + 1..];
    forall a, b | 0 <= a < b < |r| ensures r[a] != r[b] {
      var a' := if a < i then a else a + 1;
      var b' := if b < i then b else b + 1;
      assert r[a] == fields[a'] && r[b] == fields[b'];
    }
    if x in r {
      var k :| 0 <= k < |r| && r[k] == x;
      assert r[k] == fields[if k < i then k else k + 1];
    }
    if x in fields && x != fields[i] {
      var k :| 0 <= k < |fields| && fields[k] == x;
      if k < i { assert r[k] == x; } else { assert r[k - 1] == x; }
    }
  }

  /**
   * Selecting adds the field only when it is absent; deselecting a field of
   * a list without repeats removes it and clears it as the key.  Either way
   * a consistent config stays consistent.
   */
  lemma ToggledSpec(c: ObjectConfig, f: string, selected: bool)
    requires Consistent(c)
    ensures Consistent(Toggled(c, f, selected))
    ensures selected ==> Toggled(c, f, selected).fields == (if f in c.fields then c.fields else c.fields + [f])
    ensures !selected ==> f !in Toggled(c, f, selected).fields
    ensures !selected ==> forall x :: x != f ==> (x in Toggled(c, f, selected).fields <==> x in c.fields)
    ensures !selected ==> Toggled(c, f, selected).foreignKey == (if c.foreignKey == Some(f) then None else c.foreignKey)
  {
    var i := IndexOf(c.fields, f);
    if !selected && i.Some? {
      forall x ensures x in c.fields[..i.value] + c.fields[i.value + 1..] <==> x in c.fields && x != f {
        RemoveAtSpec(c.fields, i.value, x);
      }
      RemoveAtSpec(c.fields, i.value, f);
    }
  }

  /** Choosing a key selects it and makes a config with a non-empty key complete; choosing it again clears it. */
  lemma KeyToggledSpec(c: ObjectConfig, f: string)
    requires Consistent(c)
    ensures Consistent(KeyToggled(c, f))
    ensures c.foreignKey == Some(f) ==> KeyToggled(c, f) == c.(foreignKey := None)
    ensures c.foreignKey != Some(f) ==> KeyToggled(c, f).foreignKey == Some(f) && f in KeyToggled(c, f).fields
    ensures c.foreignKey != Some(f) && f != "" ==> Complete(KeyToggled(c, f))
  {
    if c.foreignKey != Some(f) && f !in c.fields {
      NoDupSnoc(c.fields, f);
    }
  }

  /** Clearing leaves nothing to compare: the config is consistent and not complete. */
  lemma ClearedSpec()
    ensures Consistent(Fresh) && !Complete(Fresh)
  {
  }

  /**
   * After confirming a reference, exactly one field starts with
   * `parentField.`, and it is the chosen lookup, placed last; every other
   * field is kept.
   */
  lemma ConfirmedSpec(c: ObjectConfig, parentField: string, selectedField: string)
    ensures var r := Confirmed(c, parentField, selectedField).fields;
            && r[|r| - 1] == LookupName(parentField, selectedField)
            && StartsWith(r[|r| - 1], parentField + ".")
            && (forall k :: 0 <= k < |r| - 1 ==> !StartsWith(r[k], parentField + "."))
            && (forall x :: !StartsWith(x, parentField + ".") ==> (x in r <==> x in c.fields))
  {
    var p := parentField + ".";
    var kept := DropPrefixed(c.fields, p);
    var r := kept + [LookupName(parentField, selectedField)];
    assert LookupName(parentField, selectedField)[..|p|] == p;
    forall k | 0 <= k < |r| - 1 ensures !StartsWith(r[k], p) {
      assert r[k] == kept[k];
      DropPrefixedSpec(c.fields, p, kept[k]);
    }
    forall x | !StartsWith(x, p) ensures x in r <==> x in c.fields {
      DropPrefixedSpec(c.fields, p, x);
    }
  }

  /**
   * Confirming keeps a consistent config consistent unless its key was one
   * of the replaced `parentField.` fields: the source does not clear the
   * key in that case.
   */
  lemma ConfirmedConsistent(c: ObjectConfig, parentField: string, selectedField: string)
    requires Consistent(c)
    requires c.foreignKey.Some? ==> !StartsWith(c.foreignKey.value, parentField + ".")
    ensures Consistent(Confirmed(c, parentField, selectedField))
  {
    var p := parentField + ".";
    var kept := DropPrefixed(c.fields, p);
    var name := LookupName(parentField, selectedField);
    DropPrefixedSpec(c.fields, p, name);
    assert name[..|p|] == p;
    NoDupSnoc(kept, name);
    if c.foreignKey.Some? {
      DropPrefixedSpec(c.fields, p, c.foreignKey.value);
    }
  }

  /** The key of a confirmed config can be left outside its fields when it was a replaced lookup. */
  lemma ConfirmedCanOrphanKey()
    ensures var c := ObjectConfig(["Account__r.Name"], Some("Account__r.Name"));
            Consistent(c) && !Consistent(Confirmed(c, "Account__r", "Id"))
  {
    var c := ObjectConfig(["Account__r.Name"], Some("Account__r.Name"));
    var r := Confirmed(c, "Account__r", "Id");
    assert StartsWith("Account__r.Name", "Account__r" + ".");
    DropPrefixedSpec(c.fields, "Account__r" + ".", "Account__r.Name");
    assert "Account__r.Name" != LookupName("Account__r", "Id");
  }

  /** Removing a lookup drops it everywhere and keeps a consistent config consistent. */
  lemma RemovedSpec(c: ObjectConfig, f: string)
    requires Consistent(c)
    ensures Consistent(Removed(c, f)) && f !in Removed(c, f).fields
    ensures forall x :: x != f ==> (x in Removed(c, f).fields <==> x in c.fields)
  {
    WithoutSpec(c.fields, f, f);
    forall x ensures x in Without(c.fields, f) <==> x in c.fields && x != f {
      WithoutSpec(c.fields, f, x);
    }
  }

  /** Each lookup entry describes a selected field that contains a dot, and every such field has one. */
  lemma {:induction false} LookupsSound(fields: seq<string>, objectFields: seq<FieldInfo>)
    ensures forall e :: e in Lookups(fields, objectFields) ==> e.fullName in fields && '.' in e.fullName
    ensures |Lookups(fields, objectFields)| <= |fields|
  {
    if fields != [] {
      LookupsSound(fields[..|fields| - 1], objectFields);
      assert forall y :: y in fields[..|fields| - 1] ==> y in fields;
    }
  }

  lemma {:induction false} LookupsComplete(fields: seq<string>, objectFields: seq<FieldInfo>, x: string)
    requires x in fields && '.' in x
    ensures LookupOf(x, objectFields) in Lookups(fields, objectFields)
  {
    var init := fields[..|fields| - 1];
    if fields[|fields| - 1] != x {
      assert x in init;
      LookupsComplete(init, objectFields, x);
    }
  }

  /** Splitting at the first separator: a head without separators, then the split of the rest. */
  lemma {:induction false} SplitAfter(a: string, sep: char, b: string)
    requires sep !in a
    ensures Split(a + [sep] + b, sep) == [a] + Split(b, sep)
    decreases |a|
  {
    if a == [] {
      assert a + [sep] + b == [sep] + b;
      assert ([sep] + b)[1..] == b;
    } else {
      var s := a + [sep] + b;
      assert s[1..] == a[1..] + [sep] + b;
      SplitAfter(a[1..], sep, b);
      assert [a[0]] + a[1..] == a;
    }
  }

  lemma {:induction false} SplitNone(b: string, sep: char)
    requires sep !in b
    ensures Split(b, sep) == [b]
    decreases |b|
  {
    if b != [] {
      SplitNone(b[1..], sep);
      assert [b[0]] + b[1..] == b;
    }
  }

  /** A confirmed lookup is described with its own parent and selected field. */
  lemma LookupOfConfirmed(parentField: string, selectedField: string, objectFields: seq<FieldInfo>)
    requires '.' !in parentField && '.' !in selectedField
    ensures var e := LookupOf(LookupName(parentField, selectedField), objectFields);
            e.parentField == parentField && e.selectedField == selectedField
            && e.fullName == LookupName(parentField, selectedField) && e.fieldType == "Lookup"
  {
    assert LookupName(parentField, selectedField) == parentField + ['.'] + selectedField;
    SplitAfter(parentField, '.', selectedField);
    SplitNone(selectedField, '.');
  }

  /** A lookup whose parent field is not described, or references nothing, references "Unknown". */
  lemma LookupUnknownTarget(field: string, objectFields: seq<FieldInfo>)
    requires var p := Split(field, '.')[0];
             forall i :: 0 <= i < |objectFields| && objectFields[i].name == p ==> objectFields[i].referenceTo == []
    ensures LookupOf(field, objectFields).referenceTo == "Unknown"
  {
  }
}
