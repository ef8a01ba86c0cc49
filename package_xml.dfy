/**
 * The package.xml manifest the permissions analyser asks the Metadata API
 * to retrieve (`generatePackageXml`).
 *
 * The source collects `metadataByType`: an object whose keys are metadata
 * type names (in the order they were first created) and whose values are
 * JavaScript Sets of member names (in the order they were first added).
 * Items come first from the selected permission entries, then from each
 * selected permission-option entry (objects, Apex classes, Visualforce
 * pages, record types, custom permissions, tabs and applications).  The
 * manifest then lists one `<types>` block per type whose Set is non-empty,
 * followed by API version 60.0.
 */
module PackageXml {
  import opened Common

  // ---------------------------------------------------------------------
  // Inputs

  /** The option flags of one `selectedPermissionOptions` entry; an absent flag is false. */
  datatype PermissionOptions = PermissionOptions(
    objectPermissions: bool,
    fieldPermissions: bool,
    apexClasses: bool,
    visualforcePages: bool,
    recordTypeVisibilities: bool,
    customPermissions: bool,
    tabSettings: bool,
    applicationVisibilities: bool)

  /**
   * The user's selections.  An absent `permissions` or
   * `selectedPermissionOptions` object reads as no entries, and an absent
   * `specificObjects`, `specificApexClasses` or `specificPages` list as the
   * empty list (the source adds nothing in either case).  The four lists
   * whose mere presence makes the source create their type are `Option`s.
   */
  datatype PackageConfig = PackageConfig(
    permissions: seq<(string, seq<string>)>,
    selectedPermissionOptions: seq<(string, PermissionOptions)>,
    objectSelection: string,
    specificObjects: seq<string>,
    apexClassSelection: string,
    specificApexClasses: seq<string>,
    pageSelection: string,
    specificPages: seq<string>,
    recordTypes: Option<seq<string>>,
    customPermissions: Option<seq<string>>,
    tabs: Option<seq<string>>,
    applications: Option<seq<string>>)

  /** The discovered common objects: `all` of them, and possibly the narrower `common` list. */
  datatype CommonObjects = CommonObjects(all: seq<string>, common: Option<seq<string>>)

  const CustomObject := "CustomObject"
  const ApexClass := "ApexClass"
  const ApexPage := "ApexPage"
  const RecordType := "RecordType"
  const CustomPermission := "CustomPermission"
  const CustomTab := "CustomTab"
  const CustomApplication := "CustomApplication"

  // ---------------------------------------------------------------------
  // The type-to-members map

  /** `metadataByType`: type names in creation order, and each type's Set in insertion order. */
  datatype TypeSets = TypeSets(order: seq<string>, sets: map<string, seq<string>>)

  /** The shape an object of Sets always has: each key once, each Set without repeats. */
  ghost predicate Valid(g: TypeSets)
  {
    && NoDup(g.order)
    && (forall t :: t in g.sets <==> t in g.order)
    && (forall t :: t in g.sets ==> NoDup(g.sets[t]))
  }

  const Empty := TypeSets([], map[])

  /** The members held for type `t` (none when the type was never created). */
  function Members(g: TypeSets, t: string): seq<string>
  {
    if t in g.sets then g.sets[t] else []
  }

  /** One step of the source: create the type's Set if missing, then add `items` to it. */
  datatype Contribution = Contribution(typeName: string, items: seq<string>)

  function Put(g: TypeSets, c: Contribution): TypeSets
  {
    TypeSets(if c.typeName in g.sets then g.order else g.order + [c.typeName],
             g.sets[c.typeName := AddAll(Members(g, c.typeName), c.items)])
  }

  function PutAll(g: TypeSets, cs: seq<Contribution>): TypeSets
  {
    if cs == [] then g else Put(PutAll(g, cs[..|cs| - 1]), cs[|cs| - 1])
  }

  // ---------------------------------------------------------------------
  // What each selection contributes

  /** A permission entry contributes its items when it has at least one. */
  function PermissionContributions(entries: seq<(string, seq<string>)>): seq<Contribution>
  {
    if entries == [] then []
    else
      var last := entries[|entries| - 1];
      PermissionContributions(entries[..|entries| - 1])
        + (if |last.1| > 0 then [Contribution(last.0, last.1)] else [])
  }

  /**
   * The objects added for object or field permissions: ALL takes the
   * discovered objects, or the wildcard when none were discovered; COMMON
   * takes the `common` list, else `all`, else nothing; any other selection
   * takes the specific objects.
   */
  function ObjectChoice(cfg: PackageConfig, commonObjects: Option<CommonObjects>): seq<string>
  {
    if cfg.objectSelection == "ALL" then
      if commonObjects.Some? && |commonObjects.value.all| > 0 then commonObjects.value.all else ["*"]
    else if cfg.objectSelection == "COMMON" then
      if commonObjects.None? then []
      else if commonObjects.value.common.Some? then commonObjects.value.common.value
      else commonObjects.value.all
    else cfg.specificObjects
  }

  /** The classes or pages added: ALL is the wildcard, COMMON the discovered list, else the specific list. */
  function ListChoice(selection: string, common: Option<seq<string>>, specific: seq<string>): seq<string>
  {
    if selection == "ALL" then ["*"]
    else if selection == "COMMON" then
      if common.Some? && |common.value| > 0 then common.value else []
    else specific
  }

  /** A type created only when its option is on and its list is present. */
  function Listed(on: bool, typeName: string, list: Option<seq<string>>): seq<Contribution>
  {
    if on && list.Some? then [Contribution(typeName, list.value)] else []
  }

  /** What one option entry contributes, in the order the source handles the flags. */
  function OptionContributions(cfg: PackageConfig, commonObjects: Option<CommonObjects>,
                               commonApexClasses: Option<seq<string>>, commonPages: Option<seq<string>>,
                               o: PermissionOptions): seq<Contribution>
  {
    (if o.objectPermissions || o.fieldPermissions
     then [Contribution(CustomObject, ObjectChoice(cfg, commonObjects))] else [])
    + (if o.apexClasses
       then [Contribution(ApexClass, ListChoice(cfg.apexClassSelection, commonApexClasses, cfg.specificApexClasses))]
       else [])
    + (if o.visualforcePages
       then [Contribution(ApexPage, ListChoice(cfg.pageSelection, commonPages, cfg.specificPages))]
       else [])
    + Listed(o.recordTypeVisibilities, RecordType, cfg.recordTypes)
    + Listed(o.customPermissions, CustomPermission, cfg.customPermissions)
    + Listed(o.tabSettings, CustomTab, cfg.tabs)
    + Listed(o.applicationVisibilities, CustomApplication, cfg.applications)
  }

  /** The contributions of every option entry, entry by entry, for a given per-entry rule. */
  function ConcatOptions(f: PermissionOptions -> seq<Contribution>, opts: seq<(string, PermissionOptions)>): seq<Contribution>
  {
    if opts == [] then [] else ConcatOptions(f, opts[..|opts| - 1]) + f(opts[|opts| - 1].1)
  }

  /** The per-entry rule of the source, for fixed selections and discovered lists. */
  function OptionRule(cfg: PackageConfig, commonObjects: Option<CommonObjects>,
                      commonApexClasses: Option<seq<string>>, commonPages: Option<seq<string>>)
    : PermissionOptions -> seq<Contribution>
  {
    o => OptionContributions(cfg, commonObjects, commonApexClasses, commonPages, o)
  }

  /** Every contribution, permission entries first. */
  function AllContributions(cfg: PackageConfig, commonObjects: Option<CommonObjects>,
                            commonApexClasses: Option<seq<string>>, commonPages: Option<seq<string>>): seq<Contribution>
  {
    PermissionContributions(cfg.permissions)
      + ConcatOptions(OptionRule(cfg, commonObjects, commonApexClasses, commonPages), cfg.selectedPermissionOptions)
  }

  /** The finished `metadataByType`. */
  function Collected(cfg: PackageConfig, commonObjects: Option<CommonObjects>,
                     commonApexClasses: Option<seq<string>>, commonPages: Option<seq<string>>): TypeSets
  {
    PutAll(Empty, AllContributions(cfg, commonObjects, commonApexClasses, commonPages))
  }

  // ---------------------------------------------------------------------
  // The manifest text

  const Header := "<?xml version=\"1.0\" encoding=\"UTF-8\"?>\n<Package xmlns=\"http://soap.sforce.com/2006/04/metadata\">"
  const Footer := "\n    <version>60.0</version>\n</Package>"
  const TypesOpen := "\n    <types>"

  function MemberLine(m: string): string
  {
    "\n        <members>" + m + "</members>"
  }

  function NameLine(t: string): string
  {
    "\n        <name>" + t + "</name>\n    </types>"
  }

  function MemberLines(ms: seq<string>): string
  {
    if ms == [] then [] else MemberLines(ms[..|ms| - 1]) + MemberLine(ms[|ms| - 1])
  }

  /** A type's block: its members and then its name; nothing for an empty Set. */
  function Block(t: string, ms: seq<string>): string
  {
    if ms == [] then [] else TypesOpen + MemberLines(ms) + NameLine(t)
  }

  /** The blocks of the types `ts`, as the source walks `metadataByType`. */
  function TypeBlocks(ts: seq<string>, g: TypeSets): string
  {
    if ts == [] then [] else TypeBlocks(ts[..|ts| - 1], g) + Block(ts[|ts| - 1], Members(g, ts[|ts| - 1]))
  }

  /** The whole manifest for the given selections. */
  function PackageXmlOf(cfg: PackageConfig, commonObjects: Option<CommonObjects>,
                        commonApexClasses: Option<seq<string>>, commonPages: Option<seq<string>>): string
  {
    var g := Collected(cfg, commonObjects, commonApexClasses, commonPages);
    Header + TypeBlocks(g.order, g) + Footer
  }

  // ---------------------------------------------------------------------
  // The generator

  /** Create type `t` if missing and add `xs` to its Set. */
  method PutItems(g: TypeSets, t: string, xs: seq<string>) returns (r: TypeSets)
    ensures r == Put(g, Contribution(t, xs))
  {
    var members := if t in g.sets then g.sets[t] else [];
    var order := if t in g.sets then g.order else g.order + [t];
    for i := 0 to |xs|
      invariant members == AddAll(Members(g, t), xs[..i])
    {
      assert xs[..i + 1][..i] == xs[..i];
      if xs[i] !in members {
        members := members + [xs[i]];
      }
    }
    assert xs[..|xs|] == xs;
    r := TypeSets(order, g.sets[t := members]);
  }

  lemma PutAllSnoc(g: TypeSets, cs: seq<Contribution>, c: Contribution)
    ensures PutAll(g, cs + [c]) == Put(PutAll(g, cs), c)
  {
    assert (cs + [c])[..|cs|] == cs;
  }

  /** Each contribution in turn: create its type if missing and add its items. */
  method PutEach(g: TypeSets, cs: seq<Contribution>) returns (r: TypeSets)
    ensures r == PutAll(g, cs)
  {
    r := g;
    for i := 0 to |cs|
      invariant r == PutAll(g, cs[..i])
    {
      r := PutItems(r, cs[i].typeName, cs[i].items);
      PutAllSnoc(g, cs[..i], cs[i]);
      assert cs[..i + 1] == cs[..i] + [cs[i]];
    }
    assert cs[..|cs|] == cs;
  }

  /** `PutAll` over a concatenation is `PutAll` of the parts in turn. */
  lemma {:induction false} PutAllAppend(g: TypeSets, a: seq<Contribution>, b: seq<Contribution>)
    ensures PutAll(g, a + b) == PutAll(PutAll(g, a), b)
    decreases |b|
  {
    if b == [] {
      assert a + b == a;
    } else {
      var init := b[..|b| - 1];
      assert a + b == (a + init) + [b[|b| - 1]];
      PutAllSnoc(g, a + init, b[|b| - 1]);
      PutAllAppend(g, a, init);
      PutAllSnoc(PutAll(g, a), init, b[|b| - 1]);
      assert init + [b[|b| - 1]] == b;
    }
  }

  /** The selected permission items, each entry with items under its own type. */
  method AddPermissionItems(entries: seq<(string, seq<string>)>) returns (g: TypeSets)
    ensures g == PutAll(Empty, PermissionContributions(entries))
  {
    g := Empty;
    for i := 0 to |entries|
      invariant g == PutAll(Empty, PermissionContributions(entries[..i]))
    {
      var entry := entries[i];
      assert entries[..i + 1][..i] == entries[..i];
      var before := PermissionContributions(entries[..i]);
      if |entry.1| > 0 {
        var c := Contribution(entry.0, entry.1);
        assert PermissionContributions(entries[..i + 1]) == before + [c];
        PutAllSnoc(Empty, before, c);
        g := PutItems(g, entry.0, entry.1);
      } else {
        assert PermissionContributions(entries[..i + 1]) == before + [];
        assert PermissionContributions(entries[..i + 1]) == before;
      }
    }
    assert entries[..|entries|] == entries;
  }

  /** The dependent types of every option entry, entry by entry. */
  method AddOptionItems(g0: TypeSets, f: PermissionOptions -> seq<Contribution>, opts: seq<(string, PermissionOptions)>)
    returns (g: TypeSets)
    ensures g == PutAll(g0, ConcatOptions(f, opts))
  {
    g := g0;
    for j := 0 to |opts|
      invariant g == PutAll(g0, ConcatOptions(f, opts[..j]))
    {
      var step := f(opts[j].1);
      assert opts[..j + 1][..j] == opts[..j];
      PutAllAppend(g0, ConcatOptions(f, opts[..j]), step);
      g := PutEach(g, step);
    }
    assert opts[..|opts|] == opts;
  }

  /** `metadataByType` after the permission entries and the option entries. */
  method CollectTypes(cfg: PackageConfig, commonObjects: Option<CommonObjects>,
                      commonApexClasses: Option<seq<string>>, commonPages: Option<seq<string>>)
    returns (g: TypeSets)
    ensures g == Collected(cfg, commonObjects, commonApexClasses, commonPages)
  {
    var g0 := AddPermissionItems(cfg.permissions);
    var rule := OptionRule(cfg, commonObjects, commonApexClasses, commonPages);
    g := AddOptionItems(g0, rule, cfg.selectedPermissionOptions);
    PutAllAppend(Empty, PermissionContributions(cfg.permissions), ConcatOptions(rule, cfg.selectedPermissionOptions));
  }

  /** The block of one type, appended member by member. */
  method AppendBlock(xml: string, t: string, ms: seq<string>) returns (r: string)
    ensures r == xml + Block(t, ms)
  {
    r := xml;
    if |ms| > 0 {
      r := r + TypesOpen;
      ghost var start := r;
      for m := 0 to |ms|
        invariant r == start + MemberLines(ms[..m])
      {
        assert ms[..m + 1][..m] == ms[..m];
        assert MemberLines(ms[..m + 1]) == MemberLines(ms[..m]) + MemberLine(ms[m]);
        AppendAssoc(start, MemberLines(ms[..m]), MemberLine(ms[m]));
        r := r + MemberLine(ms[m]);
      }
      assert ms[..|ms|] == ms;
      AppendAssoc(xml, TypesOpen, MemberLines(ms));
      AppendAssoc(xml, TypesOpen + MemberLines(ms), NameLine(t));
      r := r + NameLine(t);
    } else {
      assert Block(t, ms) == [];
      assert r == xml + [];
    }
  }

  /** The blocks of every type of `g`, in creation order, appended to `xml`. */
  method AppendBlocks(xml: string, g: TypeSets) returns (r: string)
    ensures r == xml + TypeBlocks(g.order, g)
  {
    r := xml;
    for k := 0 to |g.order|
      invariant r == xml + TypeBlocks(g.order[..k], g)
    {
      assert g.order[..k + 1][..k] == g.order[..k];
      var t := g.order[k];
      assert TypeBlocks(g.order[..k + 1], g) == TypeBlocks(g.order[..k], g) + Block(t, Members(g, t));
      AppendAssoc(xml, TypeBlocks(g.order[..k], g), Block(t, Members(g, t)));
      r := AppendBlock(r, t, Members(g, t));
    }
    assert g.order[..|g.order|] == g.order;
  }

  /** generatePackageXml: the manifest for the user's selections. */
  method GeneratePackageXml(cfg: PackageConfig, commonObjects: Option<CommonObjects>,
                            commonApexClasses: Option<seq<string>>, commonPages: Option<seq<string>>)
    returns (xml: string)
    ensures xml == PackageXmlOf(cfg, commonObjects, commonApexClasses, commonPages)
  {
    var g := CollectTypes(cfg, commonObjects, commonApexClasses, commonPages);
    xml := AppendBlocks(Header, g);
    xml := xml + Footer;
  }

  // ---------------------------------------------------------------------
  // Properties

  /** Each step keeps the shape of `metadataByType`. */
  lemma PutValid(g: TypeSets, c: Contribution)
    requires Valid(g)
    ensures Valid(Put(g, c))
  {
    AddAllSpec(Members(g, c.typeName), c.items);
  }

  lemma {:induction false} PutAllValid(g: TypeSets, cs: seq<Contribution>)
    requires Valid(g)
    ensures Valid(PutAll(g, cs))
  {
    if cs != [] {
      PutAllValid(g, cs[..|cs| - 1]);
      PutValid(PutAll(g, cs[..|cs| - 1]), cs[|cs| - 1]);
    }
  }

  /** A type's members after some steps: what it held, plus the items of every step for that type. */
  lemma {:induction false} PutAllMembers(g: TypeSets, cs: seq<Contribution>, t: string, x: string)
    ensures x in Members(PutAll(g, cs), t)
        <==> x in Members(g, t) || exists i :: 0 <= i < |cs| && cs[i].typeName == t && x in cs[i].items
  {
    if cs != [] {
      var init := cs[..|cs| - 1];
      var c := cs[|cs| - 1];
      PutAllMembers(g, init, t, x);
      AddAllSpec(Members(PutAll(g, init), c.typeName), c.items);
      if exists i :: 0 <= i < |cs| && cs[i].typeName == t && x in cs[i].items {
        var i :| 0 <= i < |cs| && cs[i].typeName == t && x in cs[i].items;
        if i < |init| { assert init[i] == cs[i]; }
      }
      if exists i :: 0 <= i < |init| && init[i].typeName == t && x in init[i].items {
        var i :| 0 <= i < |init| && init[i].typeName == t && x in init[i].items;
        assert cs[i] == init[i];
      }
    }
  }

  /** A type exists after some steps iff it existed or some step names it. */
  lemma {:induction false} PutAllTypes(g: TypeSets, cs: seq<Contribution>, t: string)
    ensures t in PutAll(g, cs).sets <==> t in g.sets || exists i :: 0 <= i < |cs| && cs[i].typeName == t
  {
    if cs != [] {
      var init := cs[..|cs| - 1];
      PutAllTypes(g, init, t);
      if exists i :: 0 <= i < |cs| && cs[i].typeName == t {
        var i :| 0 <= i < |cs| && cs[i].typeName == t;
        if i < |init| { assert init[i] == cs[i]; }
      }
      if exists i :: 0 <= i < |init| && init[i].typeName == t {
        var i :| 0 <= i < |init| && init[i].typeName == t;
        assert cs[i] == init[i];
      }
    }
  }

  /** Every type is created once and no Set lists a member twice. */
  lemma CollectedValid(cfg: PackageConfig, commonObjects: Option<CommonObjects>,
                       commonApexClasses: Option<seq<string>>, commonPages: Option<seq<string>>)
    ensures Valid(Collected(cfg, commonObjects, commonApexClasses, commonPages))
  {
    PutAllValid(Empty, AllContributions(cfg, commonObjects, commonApexClasses, commonPages));
  }

  /** A member is listed under a type iff some selection contributed it to that type. */
  lemma CollectedMembers(cfg: PackageConfig, commonObjects: Option<CommonObjects>,
                         commonApexClasses: Option<seq<string>>, commonPages: Option<seq<string>>,
                         t: string, x: string)
    ensures var cs := AllContributions(cfg, commonObjects, commonApexClasses, commonPages);
            x in Members(Collected(cfg, commonObjects, commonApexClasses, commonPages), t)
            <==> exists i :: 0 <= i < |cs| && cs[i].typeName == t && x in cs[i].items
  {
    PutAllMembers(Empty, AllContributions(cfg, commonObjects, commonApexClasses, commonPages), t, x);
  }

  /** A type is created iff some selection names it. */
  lemma CollectedTypes(cfg: PackageConfig, commonObjects: Option<CommonObjects>,
                       commonApexClasses: Option<seq<string>>, commonPages: Option<seq<string>>, t: string)
    ensures var cs := AllContributions(cfg, commonObjects, commonApexClasses, commonPages);
            t in Collected(cfg, commonObjects, commonApexClasses, commonPages).sets
            <==> exists i :: 0 <= i < |cs| && cs[i].typeName == t
  {
    PutAllTypes(Empty, AllContributions(cfg, commonObjects, commonApexClasses, commonPages), t);
  }

  /** The permission entry at `i`, when it has items, contributes them under its own type. */
  lemma {:induction false} PermissionContributed(entries: seq<(string, seq<string>)>, i: nat)
    requires i < |entries| && |entries[i].1| > 0
    ensures Contribution(entries[i].0, entries[i].1) in PermissionContributions(entries)
  {
    var init := entries[..|entries| - 1];
    if i < |init| {
      PermissionContributed(init, i);
      assert init[i] == entries[i];
    }
  }

  /** Every item of a selected permission entry is listed under that entry's type. */
  lemma SelectedItemsListed(cfg: PackageConfig, commonObjects: Option<CommonObjects>,
                            commonApexClasses: Option<seq<string>>, commonPages: Option<seq<string>>,
                            i: nat, x: string)
    requires i < |cfg.permissions| && x in cfg.permissions[i].1
    ensures x in Members(Collected(cfg, commonObjects, commonApexClasses, commonPages), cfg.permissions[i].0)
  {
    var cs := AllContributions(cfg, commonObjects, commonApexClasses, commonPages);
    PermissionContributed(cfg.permissions, i);
    var c := Contribution(cfg.permissions[i].0, cfg.permissions[i].1);
    var k :| 0 <= k < |PermissionContributions(cfg.permissions)| && PermissionContributions(cfg.permissions)[k] == c;
    assert cs[k] == c;
    CollectedMembers(cfg, commonObjects, commonApexClasses, commonPages, c.typeName, x);
  }

  /** Whatever the rule yields for the option entry at `j` is among the contributions. */
  lemma {:induction false} OptionContributed(f: PermissionOptions -> seq<Contribution>,
                                             opts: seq<(string, PermissionOptions)>, j: nat, c: Contribution)
    requires j < |opts| && c in f(opts[j].1)
    ensures c in ConcatOptions(f, opts)
  {
    var init := opts[..|opts| - 1];
    if j < |init| {
      OptionContributed(f, init, j, c);
      assert init[j] == opts[j];
    }
  }

  /**
   * With object or field permissions selected and selection ALL, the objects
   * are the discovered ones, or the wildcard `*` when none were discovered.
   */
  lemma ObjectsForAll(cfg: PackageConfig, commonObjects: Option<CommonObjects>,
                      commonApexClasses: Option<seq<string>>, commonPages: Option<seq<string>>, j: nat)
    requires j < |cfg.selectedPermissionOptions|
    requires cfg.selectedPermissionOptions[j].1.objectPermissions || cfg.selectedPermissionOptions[j].1.fieldPermissions
    requires cfg.objectSelection == "ALL"
    ensures var ms := Members(Collected(cfg, commonObjects, commonApexClasses, commonPages), CustomObject);
            if commonObjects.Some? && |commonObjects.value.all| > 0
            then forall x :: x in commonObjects.value.all ==> x in ms
            else "*" in ms
  {
    var opts := cfg.selectedPermissionOptions;
    var c := Contribution(CustomObject, ObjectChoice(cfg, commonObjects));
    var rule := OptionRule(cfg, commonObjects, commonApexClasses, commonPages);
    assert c == rule(opts[j].1)[0];
    OptionContributed(rule, opts, j, c);
    var cs := AllContributions(cfg, commonObjects, commonApexClasses, commonPages);
    var ps := PermissionContributions(cfg.permissions);
    var os := ConcatOptions(rule, opts);
    var k :| 0 <= k < |os| && os[k] == c;
    assert cs[|ps| + k] == c;
    ContributionCollected(cfg, commonObjects, commonApexClasses, commonPages, |ps| + k);
  }

  /** Every item a contribution brings is a member of its type in the collected sets. */
  lemma ContributionCollected(cfg: PackageConfig, commonObjects: Option<CommonObjects>,
                              commonApexClasses: Option<seq<string>>, commonPages: Option<seq<string>>, i: nat)
    requires i < |AllContributions(cfg, commonObjects, commonApexClasses, commonPages)|
    ensures var c := AllContributions(cfg, commonObjects, commonApexClasses, commonPages)[i];
            forall x :: x in c.items ==> x in Members(Collected(cfg, commonObjects, commonApexClasses, commonPages), c.typeName)
  {
    var c := AllContributions(cfg, commonObjects, commonApexClasses, commonPages)[i];
    forall x | x in c.items
      ensures x in Members(Collected(cfg, commonObjects, commonApexClasses, commonPages), c.typeName)
    {
      CollectedMembers(cfg, commonObjects, commonApexClasses, commonPages, c.typeName, x);
    }
  }

  // ---------------------------------------------------------------------
  // One block per non-empty type

  /** The types that get a block: those whose Set is non-empty, in creation order. */
  function Emitted(ts: seq<string>, g: TypeSets): (r: seq<string>)
  {
    if ts == [] then []
    else Emitted(ts[..|ts| - 1], g) + (if Members(g, ts[|ts| - 1]) != [] then [ts[|ts| - 1]] else [])
  }

  /** The blocks of `ts`, one per type, with no filtering. */
  function Blocks(ts: seq<string>, g: TypeSets): string
  {
    if ts == [] then [] else Blocks(ts[..|ts| - 1], g) + Block(ts[|ts| - 1], Members(g, ts[|ts| - 1]))
  }

  /** The manifest's blocks are exactly one block for each emitted type. */
  lemma {:induction false} TypeBlocksEmitted(ts: seq<string>, g: TypeSets)
    ensures TypeBlocks(ts, g) == Blocks(Emitted(ts, g), g)
  {
    if ts != [] {
      var init := ts[..|ts| - 1];
      var t := ts[|ts| - 1];
      TypeBlocksEmitted(init, g);
      if Members(g, t) != [] {
        var e := Emitted(init, g);
        assert (e + [t])[..|e|] == e;
      } else {
        assert Emitted(ts, g) == Emitted(init, g) + [];
        assert Emitted(ts, g) == Emitted(init, g);
        assert Block(t, Members(g, t)) == [];
        assert TypeBlocks(ts, g) == TypeBlocks(init, g) + [];
      }
    }
  }

  /** A type is emitted iff it is among `ts` and its Set is non-empty; none is emitted twice. */
  lemma {:induction false} EmittedSpec(ts: seq<string>, g: TypeSets)
    ensures forall t :: t in Emitted(ts, g) <==> t in ts && Members(g, t) != []
    ensures NoDup(ts) ==> NoDup(Emitted(ts, g))
  {
    if ts != [] {
      var init := ts[..|ts| - 1];
      EmittedSpec(init, g);
      assert forall t :: t in ts <==> t in init || t == ts[|ts| - 1];
    }
  }

  /**
   * The manifest: the header, then exactly one block for each type with a
   * non-empty Set (each type once), then the API version 60.0 footer.
   */
  lemma PackageXmlShape(cfg: PackageConfig, commonObjects: Option<CommonObjects>,
                        commonApexClasses: Option<seq<string>>, commonPages: Option<seq<string>>)
    ensures var g := Collected(cfg, commonObjects, commonApexClasses, commonPages);
            && PackageXmlOf(cfg, commonObjects, commonApexClasses, commonPages)
               == Header + Blocks(Emitted(g.order, g), g) + Footer
            && NoDup(Emitted(g.order, g))
            && (forall t :: t in Emitted(g.order, g) <==> t in g.sets && g.sets[t] != [])
  {
    var g := Collected(cfg, commonObjects, commonApexClasses, commonPages);
    CollectedValid(cfg, commonObjects, commonApexClasses, commonPages);
    TypeBlocksEmitted(g.order, g);
    EmittedSpec(g.order, g);
  }
}
