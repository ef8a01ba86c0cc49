/**
 * The permission-type definitions of the permissions analyser: which
 * options (sections of a profile, permission set, permission set group or
 * muting permission set) each type supports, and which other metadata
 * types an option needs in the retrieve manifest.
 *
 * The operations are stated for any definitions table; `Table` is the one
 * the analyser ships with.
 */
module MetadataDefinitions {
  import opened Common

  /** The `requires…` flags an option can carry. */
  datatype Requirement =
    | Objects | Fields | ApexClasses | Pages | Applications | CustomPermissions | Flows | Tabs
    | RecordTypes | Layouts | PermissionSets | MutingPermissionSets | ExternalDataSources
    | CustomSettings | CustomMetadataTypes

  /** The order in which the flags are examined. */
  const FlagOrder: seq<Requirement> :=
    [Objects, Fields, ApexClasses, Pages, Applications, CustomPermissions, Flows, Tabs,
     RecordTypes, Layouts, PermissionSets, MutingPermissionSets, ExternalDataSources,
     CustomSettings, CustomMetadataTypes]

  /** The metadata type a flag adds. */
  function TypeFor(r: Requirement): string
  {
    match r
    case Objects => "CustomObject"
    case Fields => "CustomField"
    case ApexClasses => "ApexClass"
    case Pages => "ApexPage"
    case Applications => "CustomApplication"
    case CustomPermissions => "CustomPermission"
    case Flows => "Flow"
    case Tabs => "CustomTab"
    case RecordTypes => "RecordType"
    case Layouts => "Layout"
    case PermissionSets => "PermissionSet"
    case MutingPermissionSets => "MutingPermissionSet"
    case ExternalDataSources => "ExternalDataSource"
    case CustomSettings => "CustomSetting"
    case CustomMetadataTypes => "CustomMetadata"
  }

  /** One supported option, with the flags it sets. */
  datatype OptionDef = OptionDef(name: string, needs: set<Requirement>)

  /** One permission type and its supported options, in declaration order. */
  datatype Definition = Definition(permissionType: string, options: seq<OptionDef>)

  /** The definitions table of the analyser. */
  const Table: seq<Definition> := [
    Definition("Profile", [
      OptionDef("applicationVisibilities", {Applications}),
      OptionDef("classAccesses", {ApexClasses}),
      OptionDef("customPermissions", {CustomPermissions}),
      OptionDef("externalDataSourceAccesses", {ExternalDataSources}),
      OptionDef("fieldPermissions", {Objects, Fields}),
      OptionDef("flowAccesses", {Flows}),
      OptionDef("layoutAssignments", {Layouts, RecordTypes}),
      OptionDef("loginHours", {}),
      OptionDef("loginIpRanges", {}),
      OptionDef("objectPermissions", {Objects}),
      OptionDef("pageAccesses", {Pages}),
      OptionDef("recordTypeVisibilities", {RecordTypes}),
      OptionDef("tabVisibilities", {Tabs}),
      OptionDef("userPermissions", {}),
      OptionDef("custom", {}),
      OptionDef("userLicense", {}),
      OptionDef("description", {})]),
    Definition("PermissionSet", [
      OptionDef("applicationVisibilities", {Applications}),
      OptionDef("classAccesses", {ApexClasses}),
      OptionDef("customMetadataTypeAccesses", {CustomMetadataTypes}),
      OptionDef("customPermissions", {CustomPermissions}),
      OptionDef("customSettingAccesses", {CustomSettings}),
      OptionDef("externalDataSourceAccesses", {ExternalDataSources}),
      OptionDef("fieldPermissions", {Objects, Fields}),
      OptionDef("flowAccesses", {Flows}),
      OptionDef("objectPermissions", {Objects}),
      OptionDef("pageAccesses", {Pages}),
      OptionDef("recordTypeVisibilities", {RecordTypes}),
      OptionDef("tabSettings", {Tabs}),
      OptionDef("userPermissions", {}),
      OptionDef("description", {}),
      OptionDef("hasActivationRequired", {}),
      OptionDef("label", {}),
      OptionDef("license", {})]),
    Definition("PermissionSetGroup", [
      OptionDef("description", {}),
      OptionDef("hasActivationRequired", {}),
      OptionDef("label", {}),
      OptionDef("mutingPermissionSets", {MutingPermissionSets}),
      OptionDef("permissionSets", {PermissionSets}),
      OptionDef("status", {})]),
    Definition("MutingPermissionSet", [
      OptionDef("classAccesses", {ApexClasses}),
      OptionDef("customPermissions", {CustomPermissions}),
      OptionDef("externalDataSourceAccesses", {ExternalDataSources}),
      OptionDef("fieldPermissions", {Objects, Fields}),
      OptionDef("flowAccesses", {Flows}),
      OptionDef("objectPermissions", {Objects}),
      OptionDef("pageAccesses", {Pages}),
      OptionDef("userPermissions", {}),
      OptionDef("description", {}),
      OptionDef("label", {})])
  ]

  /** `METADATA_DEFINITIONS[t]`: the definition with that key, if any. */
  function FindDefinition(defs: seq<Definition>, t: string): (r: Option<Definition>)
    ensures r.Some? ==> r.value in defs && r.value.permissionType == t
    ensures r.None? ==> forall i :: 0 <= i < |defs| ==> defs[i].permissionType != t
  {
    if defs == [] then None
    else if defs[0].permissionType == t then Some(defs[0])
    else FindDefinition(defs[1..], t)
  }

  /** `definition.supportedPermissions[name]`: the option with that key, if any. */
  function FindOption(options: seq<OptionDef>, name: string): (r: Option<OptionDef>)
    ensures r.Some? ==> r.value in options && r.value.name == name
    ensures r.None? ==> forall i :: 0 <= i < |options| ==> options[i].name != name
  {
    if options == [] then None
    else if options[0].name == name then Some(options[0])
    else FindOption(options[1..], name)
  }

  // ---------------------------------------------------------------------
  // isOptionAvailable

  /** isOptionAvailable: the type has a definition and that definition lists the option. */
  function IsOptionAvailable(defs: seq<Definition>, t: string, name: string): bool
  {
    var d := FindDefinition(defs, t);
    d.Some? && FindOption(d.value.options, name).Some?
  }

  /** Object keys are unique: no permission type is defined twice. */
  predicate Keyed(defs: seq<Definition>)
  {
    forall i, j :: 0 <= i < j < |defs| ==> defs[i].permissionType != defs[j].permissionType
  }

  /** With unique type keys, an option is available iff the type's definition lists it. */
  lemma OptionAvailableIff(defs: seq<Definition>, t: string, name: string)
    requires Keyed(defs)
    ensures IsOptionAvailable(defs, t, name)
        <==> exists i, j :: 0 <= i < |defs| && defs[i].permissionType == t
                            && 0 <= j < |defs[i].options| && defs[i].options[j].name == name
  {
    var d := FindDefinition(defs, t);
    if d.Some? {
      var i :| 0 <= i < |defs| && defs[i] == d.value;
      forall i' | 0 <= i' < |defs| && defs[i'].permissionType == t ensures i' == i { }
      if FindOption(d.value.options, name).Some? {
        var o := FindOption(d.value.options, name).value;
        var j :| 0 <= j < |d.value.options| && d.value.options[j] == o;
        assert defs[i].options[j].name == name;
      }
    }
  }

  /** The shipped table defines each of its four types once. */
  lemma TableKeyed()
    ensures Keyed(Table)
  {
  }

  // ---------------------------------------------------------------------
  // getAllPermissionOptions

  function NamesOf(options: seq<OptionDef>): seq<string>
  {
    if options == [] then [] else NamesOf(options[..|options| - 1]) + [options[|options| - 1].name]
  }

  /** Every option name of every definition, in table order (with repeats). */
  function AllNames(defs: seq<Definition>): seq<string>
  {
    if defs == [] then [] else AllNames(defs[..|defs| - 1]) + NamesOf(defs[|defs| - 1].options)
  }

  /** getAllPermissionOptions: every option name once, sorted by code point. */
  method GetAllPermissionOptions(defs: seq<Definition>) returns (r: seq<string>)
    ensures r == SortedSet(AllNames(defs))
  {
    var allOptions: seq<string> := [];
    for i := 0 to |defs|
      invariant allOptions == AddAll([], AllNames(defs[..i]))
    {
      assert defs[..i + 1][..i] == defs[..i];
      var options := defs[i].options;
      ghost var before := AllNames(defs[..i]);
      assert before + NamesOf(options[..0]) == before;
      for j := 0 to |options|
        invariant allOptions == AddAll([], before + NamesOf(options[..j]))
      {
        assert options[..j + 1][..j] == options[..j];
        assert before + NamesOf(options[..j + 1]) == (before + NamesOf(options[..j])) + [options[j].name];
        if options[j].name !in allOptions {
          allOptions := allOptions + [options[j].name];
        }
      }
      assert options[..|options|] == options;
    }
    assert defs[..|defs|] == defs;
    AddAllIsDedup(AllNames(defs));
    r := Sort(allOptions);
  }

  /** Adding to an empty Set keeps first occurrences in order. */
  lemma {:induction false} AddAllIsDedup(xs: seq<string>)
    ensures AddAll([], xs) == Dedup(xs)
  {
    if xs != [] {
      AddAllIsDedup(xs[..|xs| - 1]);
    }
  }

  lemma {:induction false} NamesOfSpec(options: seq<OptionDef>, x: string)
    ensures x in NamesOf(options) <==> exists j :: 0 <= j < |options| && options[j].name == x
  {
    if options != [] {
      var init := options[..|options| - 1];
      NamesOfSpec(init, x);
      if exists j :: 0 <= j < |init| && init[j].name == x {
        var j :| 0 <= j < |init| && init[j].name == x;
        assert options[j] == init[j];
      }
      if exists j :: 0 <= j < |options| - 1 && options[j].name == x {
        var j :| 0 <= j < |options| - 1 && options[j].name == x;
        assert init[j] == options[j];
      }
    }
  }

  lemma {:induction false} AllNamesSpec(defs: seq<Definition>, x: string)
    ensures x in AllNames(defs)
        <==> exists i, j :: 0 <= i < |defs| && 0 <= j < |defs[i].options| && defs[i].options[j].name == x
  {
    if defs != [] {
      var init := defs[..|defs| - 1];
      var last := defs[|defs| - 1];
      AllNamesSpec(init, x);
      NamesOfSpec(last.options, x);
      var n := |defs| - 1;
      if x in AllNames(init) {
        var i, j :| 0 <= i < |init| && 0 <= j < |init[i].options| && init[i].options[j].name == x;
        assert defs[i] == init[i];
        assert 0 <= i < |defs| && 0 <= j < |defs[i].options| && defs[i].options[j].name == x;
      } else if x in NamesOf(last.options) {
        var j :| 0 <= j < |last.options| && last.options[j].name == x;
        assert 0 <= n < |defs| && 0 <= j < |defs[n].options| && defs[n].options[j].name == x;
      }
      if exists i, j :: 0 <= i < |defs| && 0 <= j < |defs[i].options| && defs[i].options[j].name == x {
        var i, j :| 0 <= i < |defs| && 0 <= j < |defs[i].options| && defs[i].options[j].name == x;
        if i < n {
          assert init[i] == defs[i];
          assert 0 <= i < |init| && 0 <= j < |init[i].options| && init[i].options[j].name == x;
        }
      }
    }
  }

  /** The option list is sorted, has no repeats, and holds exactly the options some type supports. */
  lemma AllPermissionOptionsSpec(defs: seq<Definition>, x: string)
    ensures Sorted(SortedSet(AllNames(defs))) && NoDup(SortedSet(AllNames(defs)))
    ensures x in SortedSet(AllNames(defs))
        <==> exists i, j :: 0 <= i < |defs| && 0 <= j < |defs[i].options| && defs[i].options[j].name == x
  {
    AllNamesSpec(defs, x);
  }

  // ---------------------------------------------------------------------
  // getRequiredMetadataTypes

  /** The types an option's flags add, in flag order. */
  function FlagTypes(needs: set<Requirement>, flags: seq<Requirement>): seq<string>
  {
    if flags == [] then []
    else FlagTypes(needs, flags[..|flags| - 1]) + (if flags[|flags| - 1] in needs then [TypeFor(flags[|flags| - 1])] else [])
  }

  /**
   * The types added for the option entries of one permission type: an
   * entry that is not enabled, or names an option the definition lacks,
   * adds nothing.
   */
  function EntryTypes(d: Definition, entries: seq<(string, bool)>): seq<string>
  {
    if entries == [] then []
    else
      var e := entries[|entries| - 1];
      var o := FindOption(d.options, e.0);
      EntryTypes(d, entries[..|entries| - 1]) + (if e.1 && o.Some? then FlagTypes(o.value.needs, FlagOrder) else [])
  }

  /** The option entries selected for a permission type (none when absent). */
  function EntriesFor(selected: map<string, seq<(string, bool)>>, t: string): seq<(string, bool)>
  {
    if t in selected then selected[t] else []
  }

  /** What one permission type adds: itself, then the types its enabled options need. */
  function TypeAdds(defs: seq<Definition>, selected: map<string, seq<(string, bool)>>, t: string): seq<string>
  {
    var d := FindDefinition(defs, t);
    [t] + (if d.None? then [] else EntryTypes(d.value, EntriesFor(selected, t)))
  }

  function AllAdds(defs: seq<Definition>, types: seq<string>, selected: map<string, seq<(string, bool)>>): seq<string>
  {
    if types == [] then [] else AllAdds(defs, types[..|types| - 1], selected) + TypeAdds(defs, selected, types[|types| - 1])
  }

  /** Add one option's types to the Set, flag by flag. */
  method AddFlagTypes(acc0: seq<string>, needs: set<Requirement>) returns (acc: seq<string>)
    ensures acc == AddAll(acc0, FlagTypes(needs, FlagOrder))
  {
    acc := acc0;
    for f := 0 to |FlagOrder|
      invariant acc == AddAll(acc0, FlagTypes(needs, FlagOrder[..f]))
    {
      assert FlagOrder[..f + 1][..f] == FlagOrder[..f];
      var flag := FlagOrder[f];
      if flag in needs {
        assert FlagTypes(needs, FlagOrder[..f + 1]) == FlagTypes(needs, FlagOrder[..f]) + [TypeFor(flag)];
        if TypeFor(flag) !in acc {
          acc := acc + [TypeFor(flag)];
        }
      } else {
        assert FlagTypes(needs, FlagOrder[..f + 1]) == FlagTypes(needs, FlagOrder[..f]) + [];
        assert FlagTypes(needs, FlagOrder[..f + 1]) == FlagTypes(needs, FlagOrder[..f]);
      }
    }
    assert FlagOrder[..|FlagOrder|] == FlagOrder;
  }

  /** `AddAll` over a concatenation is `AddAll` of the parts in turn. */
  lemma {:induction false} AddAllAppend(ms: seq<string>, a: seq<string>, b: seq<string>)
    ensures AddAll(ms, a + b) == AddAll(AddAll(ms, a), b)
    decreases |b|
  {
    if b == [] {
      assert a + b == a;
    } else {
      var init := b[..|b| - 1];
      assert (a + b)[..|a + b| - 1] == a + init;
      AddAllAppend(ms, a, init);
    }
  }

  /** The option entries of one permission type, entry by entry. */
  method AddEntryTypes(acc0: seq<string>, d: Definition, entries: seq<(string, bool)>) returns (acc: seq<string>)
    ensures acc == AddAll(acc0, EntryTypes(d, entries))
  {
    acc := acc0;
    for e := 0 to |entries|
      invariant acc == AddAll(acc0, EntryTypes(d, entries[..e]))
    {
      assert entries[..e + 1][..e] == entries[..e];
      var entry := entries[e];
      var option := FindOption(d.options, entry.0);
      if entry.1 && option.Some? {
        AddAllAppend(acc0, EntryTypes(d, entries[..e]), FlagTypes(option.value.needs, FlagOrder));
        acc := AddFlagTypes(acc, option.value.needs);
      } else {
        assert EntryTypes(d, entries[..e + 1]) == EntryTypes(d, entries[..e]) + [];
        assert EntryTypes(d, entries[..e + 1]) == EntryTypes(d, entries[..e]);
      }
    }
    assert entries[..|entries|] == entries;
  }

  /** getRequiredMetadataTypes: each selected type, then what its enabled options need, once each. */
  method GetRequiredMetadataTypes(defs: seq<Definition>, types: seq<string>, selected: map<string, seq<(string, bool)>>)
    returns (r: seq<string>)
    ensures r == AddAll([], AllAdds(defs, types, selected))
  {
    r := [];
    for i := 0 to |types|
      invariant r == AddAll([], AllAdds(defs, types[..i], selected))
    {
      assert types[..i + 1][..i] == types[..i];
      var t := types[i];
      ghost var before := AllAdds(defs, types[..i], selected);
      AddAllAppend([], before, TypeAdds(defs, selected, t));
      AddAllAppend([], before, [t]);
      if t !in r {
        r := r + [t];
      }
      var d := FindDefinition(defs, t);
      if d.Some? {
        AddAllAppend(AddAll([], before), [t], EntryTypes(d.value, EntriesFor(selected, t)));
        r := AddEntryTypes(r, d.value, EntriesFor(selected, t));
      } else {
        assert TypeAdds(defs, selected, t) == [t] + [];
        assert TypeAdds(defs, selected, t) == [t];
      }
    }
    assert types[..|types|] == types;
  }

  // ---------------------------------------------------------------------
  // Properties of the required types

  /** Each flag adds its own type: no two flags add the same type. */
  lemma TypeForInjective(a: Requirement, b: Requirement)
    requires TypeFor(a) == TypeFor(b)
    ensures a == b
  {
    assert |TypeFor(a)| == |TypeFor(b)| && TypeFor(a)[0] == TypeFor(b)[0];
  }

  lemma {:induction false} FlagTypesSpec(needs: set<Requirement>, flags: seq<Requirement>, x: string)
    ensures x in FlagTypes(needs, flags) <==> exists f :: f in flags && f in needs && TypeFor(f) == x
  {
    if flags != [] {
      FlagTypesSpec(needs, flags[..|flags| - 1], x);
      assert forall f :: f in flags <==> f in flags[..|flags| - 1] || f == flags[|flags| - 1];
    }
  }

  /** Every flag is examined. */
  lemma FlagOrderComplete(f: Requirement)
    ensures f in FlagOrder
  {
  }

  /** An option's types are exactly the types of the flags it sets. */
  lemma OptionTypes(needs: set<Requirement>, x: string)
    ensures x in FlagTypes(needs, FlagOrder) <==> exists f :: f in needs && TypeFor(f) == x
  {
    FlagTypesSpec(needs, FlagOrder, x);
    if exists f :: f in needs && TypeFor(f) == x {
      var f :| f in needs && TypeFor(f) == x;
      FlagOrderComplete(f);
    }
  }

  /** A type is added by an entry list iff some enabled entry names a defined option that needs it. */
  lemma {:induction false} EntryTypesSpec(d: Definition, entries: seq<(string, bool)>, x: string)
    ensures x in EntryTypes(d, entries)
        <==> exists e, f :: e in entries && e.1 && FindOption(d.options, e.0).Some?
                            && f in FindOption(d.options, e.0).value.needs && TypeFor(f) == x
  {
    if entries != [] {
      var init := entries[..|entries| - 1];
      var last := entries[|entries| - 1];
      EntryTypesSpec(d, init, x);
      var o := FindOption(d.options, last.0);
      if last.1 && o.Some? {
        OptionTypes(o.value.needs, x);
      }
      assert forall e :: e in entries <==> e in init || e == last;
    }
  }

  /** Every selected permission type is itself required. */
  lemma {:induction false} SelectedTypesRequired(defs: seq<Definition>, types: seq<string>,
                                                 selected: map<string, seq<(string, bool)>>, t: string)
    requires t in types
    ensures t in AddAll([], AllAdds(defs, types, selected))
  {
    var init := types[..|types| - 1];
    AddAllSpec([], AllAdds(defs, types, selected));
    if t in init {
      SelectedTypesRequired(defs, init, selected, t);
      AddAllSpec([], AllAdds(defs, init, selected));
    } else {
      assert t == types[|types| - 1];
      assert t in TypeAdds(defs, selected, t);
    }
  }

  /**
   * A type is required iff it is a selected permission type, or a flag of
   * an enabled option that the selected type's definition supports adds
   * it; disabled entries and unknown options add nothing.
   */
  lemma {:induction false} RequiredTypesSpec(defs: seq<Definition>, types: seq<string>,
                                             selected: map<string, seq<(string, bool)>>, x: string)
    ensures x in AddAll([], AllAdds(defs, types, selected))
        <==> x in types
             || exists t, e, f :: t in types && FindDefinition(defs, t).Some?
                                  && e in EntriesFor(selected, t) && e.1
                                  && FindOption(FindDefinition(defs, t).value.options, e.0).Some?
                                  && f in FindOption(FindDefinition(defs, t).value.options, e.0).value.needs
                                  && TypeFor(f) == x
  {
    AddAllSpec([], AllAdds(defs, types, selected));
    AllAddsSpec(defs, types, selected, x);
  }

  lemma {:induction false} AllAddsSpec(defs: seq<Definition>, types: seq<string>,
                                       selected: map<string, seq<(string, bool)>>, x: string)
    ensures x in AllAdds(defs, types, selected)
        <==> x in types
             || exists t, e, f :: t in types && FindDefinition(defs, t).Some?
                                  && e in EntriesFor(selected, t) && e.1
                                  && FindOption(FindDefinition(defs, t).value.options, e.0).Some?
                                  && f in FindOption(FindDefinition(defs, t).value.options, e.0).value.needs
                                  && TypeFor(f) == x
  {
    if types != [] {
      var init := types[..|types| - 1];
      var t := types[|types| - 1];
      AllAddsSpec(defs, init, selected, x);
      var d := FindDefinition(defs, t);
      if d.Some? {
        EntryTypesSpec(d.value, EntriesFor(selected, t), x);
      }
      assert forall y :: y in types <==> y in init || y == t;
    }
  }
}
