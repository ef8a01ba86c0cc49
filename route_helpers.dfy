/**
 * Two helpers of the data-comparison HTTP routes: the objects common to
 * every org (`findCommonObjects`) and the minimal comparison-config check
 * (`validateConfig`).
 */
module RouteHelpers {
  import opened Common

  /** An object description as an org lists it: its API name and its other details. */
  datatype OrgObject = OrgObject(name: string, details: Record)

  /** One org's alias and its object list. */
  datatype OrgObjects = OrgObjects(orgAlias: string, objects: seq<OrgObject>)

  function NamesOf(objects: seq<OrgObject>): set<string>
  {
    set o | o in objects :: o.name
  }

  /** The names in `names` that also name an object of `objects`. */
  function Intersect(names: set<string>, objects: seq<OrgObject>): set<string>
  {
    set n | n in names && n in NamesOf(objects)
  }

  /** The names surviving the intersection with orgs 1 .. n-1, starting from org 0's names. */
  function CommonNames(orgObjects: seq<OrgObjects>, n: nat): set<string>
    requires 1 <= n <= |orgObjects|
  {
    if n == 1 then NamesOf(orgObjects[0].objects)
    else Intersect(CommonNames(orgObjects, n - 1), orgObjects[n - 1].objects)
  }

  /** The objects whose name is in `names`, in their original order. */
  function WithNames(objects: seq<OrgObject>, names: set<string>): seq<OrgObject>
  {
    if objects == [] then []
    else WithNames(objects[..|objects| - 1], names)
         + (if objects[|objects| - 1].name in names then [objects[|objects| - 1]] else [])
  }

  /** findCommonObjects, as the source computes it. */
  function CommonObjects(orgObjects: seq<OrgObjects>): seq<OrgObject>
  {
    if orgObjects == [] then []
    else WithNames(orgObjects[0].objects, CommonNames(orgObjects, |orgObjects|))
  }

  /** findCommonObjects: intersect the name sets org by org, then keep the first org's matching objects. */
  method FindCommonObjects(orgObjects: seq<OrgObjects>) returns (result: seq<OrgObject>)
    ensures result == CommonObjects(orgObjects)
  {
    if |orgObjects| == 0 {
      return [];
    }
    var commonNames := NamesOf(orgObjects[0].objects);
    for i := 1 to |orgObjects|
      invariant commonNames == CommonNames(orgObjects, i)
    {
      var orgObjNames := NamesOf(orgObjects[i].objects);
      commonNames := set n | n in commonNames && n in orgObjNames;
    }
    var objects := orgObjects[0].objects;
    result := [];
    for j := 0 to |objects|
      invariant result == WithNames(objects[..j], commonNames)
    {
      assert objects[..j + 1][..j] == objects[..j];
      if objects[j].name in commonNames {
        result := result + [objects[j]];
      }
    }
    assert objects[..|objects|] == objects;
  }

  // ---------------------------------------------------------------------
  // Properties

  /** A name survives the intersections iff every one of the first `n` orgs lists it. */
  lemma {:induction false} CommonNamesSpec(orgObjects: seq<OrgObjects>, n: nat, x: string)
    requires 1 <= n <= |orgObjects|
    ensures x in CommonNames(orgObjects, n) <==> forall i :: 0 <= i < n ==> x in NamesOf(orgObjects[i].objects)
  {
    if n > 1 {
      CommonNamesSpec(orgObjects, n - 1, x);
    }
  }

  /** Filtering by name keeps exactly the objects with a listed name. */
  lemma {:induction false} WithNamesSpec(objects: seq<OrgObject>, names: set<string>, o: OrgObject)
    ensures o in WithNames(objects, names) <==> o in objects && o.name in names
  {
    if objects != [] {
      WithNamesSpec(objects[..|objects| - 1], names, o);
      assert forall p :: p in objects <==> p in objects[..|objects| - 1] || p == objects[|objects| - 1];
    }
  }

  /** Filtering never adds objects, and keeps the whole list when every name is listed. */
  lemma {:induction false} WithNamesOrdered(objects: seq<OrgObject>, names: set<string>)
    ensures |WithNames(objects, names)| <= |objects|
    ensures (forall p :: p in objects ==> p.name in names) ==> WithNames(objects, names) == objects
  {
    if objects != [] {
      var init := objects[..|objects| - 1];
      var last := objects[|objects| - 1];
      assert objects == init + [last];
      WithNamesOrdered(init, names);
      if forall p :: p in objects ==> p.name in names {
        forall p | p in init ensures p.name in names {
          assert p in objects;
        }
        assert last.name in names;
      }
    }
  }

  /**
   * The common objects are the first org's objects whose name every org
   * lists; there are none without orgs, and with a single org they are all
   * of its objects, in order.
   */
  lemma CommonObjectsSpec(orgObjects: seq<OrgObjects>, o: OrgObject)
    ensures orgObjects == [] ==> CommonObjects(orgObjects) == []
    ensures orgObjects != [] ==>
      (o in CommonObjects(orgObjects)
       <==> o in orgObjects[0].objects && forall i :: 0 <= i < |orgObjects| ==> o.name in NamesOf(orgObjects[i].objects))
    ensures |orgObjects| == 1 ==> CommonObjects(orgObjects) == orgObjects[0].objects
  {
    if orgObjects != [] {
      var names := CommonNames(orgObjects, |orgObjects|);
      WithNamesSpec(orgObjects[0].objects, names, o);
      CommonNamesSpec(orgObjects, |orgObjects|, o.name);
      if |orgObjects| == 1 {
        WithNamesOrdered(orgObjects[0].objects, names);
      }
    }
  }

  // ---------------------------------------------------------------------
  // validateConfig

  /** The parts of a comparison config the check reads: the org list and the keys of `objects`. */
  datatype ComparisonConfig = ComparisonConfig(orgs: Option<seq<string>>, objects: Option<seq<string>>)

  datatype ConfigError = ConfigMissing | TooFewOrgs | NoObjects

  datatype Validity = Valid | Invalid(error: ConfigError)

  function ErrorText(e: ConfigError): string
  {
    match e
    case ConfigMissing => "Configuration is required"
    case TooFewOrgs => "At least 2 organizations required"
    case NoObjects => "At least one object must be configured"
  }

  /** validateConfig: a config, then at least two orgs, then at least one object. */
  function ValidateConfig(config: Option<ComparisonConfig>): (r: Validity)
    ensures r.Valid? <==> config.Some? && config.value.orgs.Some? && |config.value.orgs.value| >= 2
                           && config.value.objects.Some? && |config.value.objects.value| > 0
    ensures config.None? ==> r == Invalid(ConfigMissing)
    ensures config.Some? && (config.value.orgs.None? || |config.value.orgs.value| < 2) ==> r == Invalid(TooFewOrgs)
    ensures (config.Some? && config.value.orgs.Some? && |config.value.orgs.value| >= 2
             && (config.value.objects.None? || |config.value.objects.value| == 0)) ==> r == Invalid(NoObjects)
  {
    if config.None? then Invalid(ConfigMissing)
    else if config.value.orgs.None? || |config.value.orgs.value| < 2 then Invalid(TooFewOrgs)
    else if config.value.objects.None? || |config.value.objects.value| == 0 then Invalid(NoObjects)
    else Valid
  }
}
