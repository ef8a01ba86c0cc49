// The save-time validation handler of the data-comparison app: six checks run
// one after the other on an object's configuration, and the results folded
// into one verdict.

module SaveValidations {
  import opened Common

  // ---------------------------------------------------------------------
  // Inputs

  /** The metadata entry of one field; only its `type` is read. */
  datatype FieldInfo = FieldInfo(fieldType: Option<string>)

  /**
   * The object configuration. `NoConfig` is a missing (falsy) configuration;
   * `fields == None` is a missing `fields` list and `foreignKey == None` an
   * undefined key.
   */
  datatype ObjectConfig =
    | NoConfig
    | Config(fields: Option<seq<Value>>, foreignKey: Option<Value>)

  /** The options of a run; `None` stands for an option that is not given. */
  datatype Options = Options(minFields: Option<int>, maxFields: Option<int>,
                             fieldMetadata: Option<map<string, FieldInfo>>)

  // ---------------------------------------------------------------------
  // Messages

  /** The six checks, in the order they run. */
  datatype Check = BasicConfiguration | FieldSelection | ForeignKey | FieldTypes | ObjectAccess | FieldAccess
  {
    /** The function name under which the check's result is stored. */
    function Name(): string
    {
      match this
      case BasicConfiguration => "validateBasicConfiguration"
      case FieldSelection => "validateFieldSelection"
      case ForeignKey => "validateForeignKey"
      case FieldTypes => "validateFieldTypes"
      case ObjectAccess => "validateObjectAccess"
      case FieldAccess => "validateFieldAccess"
    }

    /** The label of the message a check reports when it throws. */
    function Label(): string
    {
      match this
      case BasicConfiguration => "Basic validation"
      case FieldSelection => "Field validation"
      case ForeignKey => "Foreign key validation"
      case FieldTypes => "Field types validation"
      case ObjectAccess => "Object access validation"
      case FieldAccess => "Field access validation"
    }
  }

  const Checks: seq<Check> := [BasicConfiguration, FieldSelection, ForeignKey, FieldTypes, ObjectAccess, FieldAccess]

  datatype Problem =
    | ConfigMissing
    | ObjectNameInvalid
    | FieldsMissing
    | ForeignKeyMissing
    | OrgsMissing
    | TooFewFields(min: int)
    | TooManyFields(max: int)
    | DuplicateFields
    | InvalidFieldNames(names: seq<Value>)
    | KeyNotSelected
    | KeyFormat
    | KeyNotStandard
    | NoMetadata
    | NotInMetadata(names: seq<Value>)
    | KeyTypeUnsuitable(fieldType: Option<string>)
    | ObjectNameConvention
    | ObjectTypeUnknown
    | FieldNameFormat(name: Value)
    | NoSystemFields
    | Threw(check: Check)
  {
    /** The message text; `typeError` is the engine's text for the TypeError a check throws. */
    function Text(typeError: string): string
    {
      match this
      case ConfigMissing => "Configuration object is missing"
      case ObjectNameInvalid => "Object name is invalid or empty"
      case FieldsMissing => "Fields array is missing or empty"
      case ForeignKeyMissing => "Foreign key is missing or invalid"
      case OrgsMissing => "Organizations list is missing or empty"
      case TooFewFields(min) => "At least " + IntToString(min) + " field(s) must be selected"
      case TooManyFields(max) => "More than " + IntToString(max) + " fields selected, may impact performance"
      case DuplicateFields => "Duplicate fields found in selection"
      case InvalidFieldNames(names) => "Invalid field names: " + Join(JoinTexts(names), ", ")
      case KeyNotSelected => "Foreign key must be included in selected fields"
      case KeyFormat => "Foreign key has invalid format"
      case KeyNotStandard => "Foreign key may not be a standard identifier field"
      case NoMetadata => "Field metadata not available, skipping type validation"
      case NotInMetadata(names) => "Fields not found in metadata: " + Join(JoinTexts(names), ", ")
      case KeyTypeUnsuitable(t) => "Foreign key type '" + (if t.Some? then t.value else "undefined") + "' may not be suitable for comparison"
      case ObjectNameConvention => "Object name does not follow Salesforce naming convention"
      case ObjectTypeUnknown => "Object name pattern suggests it may not be a valid Salesforce object"
      case FieldNameFormat(name) => "Invalid field name format: " + JsString(name)
      case NoSystemFields => "No standard system fields included (Id, Name, etc.)"
      case Threw(check) => check.Label() + " error: " + typeError
    }
  }

  /** `Array.prototype.join` writes `null` as an empty string. */
  function JoinTexts(vs: seq<Value>): (r: seq<string>)
    ensures |r| == |vs|
    ensures forall k :: 0 <= k < |vs| ==> r[k] == if vs[k].Null? then "" else JsString(vs[k])
  {
    if vs == [] then [] else JoinTexts(vs[..|vs| - 1]) + [if vs[|vs| - 1].Null? then "" else JsString(vs[|vs| - 1])]
  }

  /** What one check returns. */
  datatype CheckResult = CheckResult(isValid: bool, errors: seq<Problem>, warnings: seq<Problem>)

  // ---------------------------------------------------------------------
  // Name patterns

  /** The strings `/^[a-zA-Z][a-zA-Z0-9_]*$/` accepts. */
  predicate IsIdentifier(s: string)
  {
    |s| > 0 && IsAsciiLetter(s[0]) && forall k :: 0 <= k < |s| ==> IsWordChar(s[k])
  }

  /**
   * The strings `/^[a-zA-Z][a-zA-Z0-9_]*__?[c]?$/` accepts. Since `_` is a
   * word character, the optional second underscore adds nothing: the pattern
   * accepts an identifier that ends in `_` or in `_c`.
   */
  predicate ObjectPatternAsWritten(s: string)
  {
    IsIdentifier(s) && |s| >= 2 && (s[|s| - 1] == '_' || (|s| >= 3 && s[|s| - 2..] == "_c"))
  }

  /** The object-name pattern the check evidently means: an identifier, custom suffix optional. */
  predicate ObjectPattern(s: string)
  {
    IsIdentifier(s)
  }

  /** `RegExp.prototype.test` converts its argument to a string; an undefined key reads "undefined". */
  function KeyText(key: Option<Value>): string
  {
    if key.Some? then JsString(key.value) else "undefined"
  }

  /** A field entry the selection check rejects: not a string, empty, or not an identifier. */
  predicate BadFieldName(v: Value)
  {
    !(v.Str? && IsIdentifier(v.s))
  }

  /** The key names one of `Id`, `Name`, `ExternalId__c`, compared lower-cased. */
  predicate IsStandardId(key: string)
  {
    Contains(Lower(key), "id") || Contains(Lower(key), "name") || Contains(Lower(key), "externalid__c")
  }

  const SystemFields: seq<Value> := [Str("Id"), Str("Name"), Str("CreatedDate"), Str("LastModifiedDate")]

  // ---------------------------------------------------------------------
  // The six checks

  /** Check 1: the configuration, object name, fields, key and orgs are all present. */
  function Basic(objectName: string, config: ObjectConfig, orgs: seq<string>): (r: CheckResult)
    ensures r.isValid <==> r.errors == []
    ensures r.warnings == []
  {
    if config.NoConfig? then CheckResult(false, [ConfigMissing], [])
    else
      var errors :=
        (if |objectName| > 0 then [] else [ObjectNameInvalid])
        + (if config.fields.Some? && |config.fields.value| > 0 then [] else [FieldsMissing])
        + (if config.foreignKey.Some? && config.foreignKey.value.Str? && |config.foreignKey.value.s| > 0 then [] else [ForeignKeyMissing])
        + (if |orgs| > 0 then [] else [OrgsMissing]);
      CheckResult(errors == [], errors, [])
  }

  /** `options.minFields || 1`. */
  function MinFields(options: Options): (m: int)
    ensures options.minFields.Some? && options.minFields.value != 0 ==> m == options.minFields.value
    ensures options.minFields.None? || options.minFields.value == 0 ==> m == 1
  {
    if options.minFields.Some? && options.minFields.value != 0 then options.minFields.value else 1
  }

  /** Check 2: enough fields, no repeats, every name an identifier; too many fields only warns. */
  function Selection(config: ObjectConfig, options: Options): (r: CheckResult)
    ensures r.isValid <==> r.errors == []
    ensures Threw(FieldSelection) in r.errors <==> config.NoConfig? || config.fields.None?
    ensures |r.warnings| <= 1
  {
    if config.NoConfig? || config.fields.None? then CheckResult(false, [Threw(FieldSelection)], [])
    else
      var fields := config.fields.value;
      var min := MinFields(options);
      var bad := Filter(BadFieldName, fields);
      var errors :=
        (if |fields| >= min then [] else [TooFewFields(min)])
        + (if NoDup(fields) then [] else [DuplicateFields])
        + (if bad == [] then [] else [InvalidFieldNames(bad)]);
      var warnings :=
        if options.maxFields.Some? && options.maxFields.value != 0 && |fields| > options.maxFields.value
        then [TooManyFields(options.maxFields.value)] else [];
      CheckResult(errors == [], errors, warnings)
  }

  /**
   * Check 3: the key is among the fields and is an identifier. Lower-casing a
   * key that is not a string throws after those two checks.
   */
  function KeyCheck(config: ObjectConfig): (r: CheckResult)
    ensures r.isValid <==> r.errors == []
    ensures Threw(ForeignKey) in r.errors <==>
      config.NoConfig? || config.fields.None? || config.foreignKey.None? || !config.foreignKey.value.Str?
    ensures |r.warnings| <= 1
  {
    if config.NoConfig? || config.fields.None? then CheckResult(false, [Threw(ForeignKey)], [])
    else
      var key := config.foreignKey;
      var errors :=
        (if key.Some? && key.value in config.fields.value then [] else [KeyNotSelected])
        + (if IsIdentifier(KeyText(key)) then [] else [KeyFormat]);
      if key.Some? && key.value.Str? then
        CheckResult(errors == [], errors, if IsStandardId(key.value.s) then [] else [KeyNotStandard])
      else
        CheckResult(false, errors + [Threw(ForeignKey)], [])
  }

  /** The key types the type check accepts, as written: `'externalId'` is compared with a lower-cased type. */
  predicate KeyTypeSuitableAsWritten(t: string)
  {
    Lower(t) in ["id", "string", "reference", "externalId"]
  }

  /** The key types the type check means to accept, compared without regard to case. */
  predicate KeyTypeSuitable(t: string)
  {
    Lower(t) in ["id", "string", "reference", "externalid"]
  }

  predicate NotInMetadataOf(metadata: map<string, FieldInfo>, v: Value)
  {
    JsString(v) !in metadata
  }

  /** The warning about the key's declared type, when the metadata has the key, with the type list as written or corrected. */
  function KeyTypeWarnings(metadata: map<string, FieldInfo>, key: Option<Value>, asWritten: bool): seq<Problem>
  {
    if KeyText(key) !in metadata then []
    else
      var t := metadata[KeyText(key)].fieldType;
      var suitable := t.Some? && if asWritten then KeyTypeSuitableAsWritten(t.value) else KeyTypeSuitable(t.value);
      if suitable then [] else [KeyTypeUnsuitable(t)]
  }

  /** Check 4: fields missing from the metadata and an unsuitable key type only warn; the check never fails. */
  function Types(config: ObjectConfig, options: Options, asWritten: bool): (r: CheckResult)
    ensures r.isValid && r.errors == []
    ensures NoMetadata in r.warnings <==> options.fieldMetadata.None?
  {
    if options.fieldMetadata.None? then CheckResult(true, [], [NoMetadata])
    else if config.NoConfig? || config.fields.None? then CheckResult(true, [], [Threw(FieldTypes)])
    else
      var metadata := options.fieldMetadata.value;
      var missing := Filter(v => NotInMetadataOf(metadata, v), config.fields.value);
      CheckResult(true, [],
        (if missing == [] then [] else [NotInMetadata(missing)]) + KeyTypeWarnings(metadata, config.foreignKey, asWritten))
  }

  /** Check 5: the object name follows the naming pattern; a `__` name without the `__c` suffix warns. */
  function Access(objectName: string, asWritten: bool): (r: CheckResult)
    ensures r.isValid <==> r.errors == []
    ensures ObjectTypeUnknown in r.warnings <==> Contains(objectName, "__") && !EndsWith(objectName, "__c")
  {
    var matches := if asWritten then ObjectPatternAsWritten(objectName) else ObjectPattern(objectName);
    var errors := if matches then [] else [ObjectNameConvention];
    var warnings := if !Contains(objectName, "__") || EndsWith(objectName, "__c") then [] else [ObjectTypeUnknown];
    CheckResult(errors == [], errors, warnings)
  }

  function FieldFormatError(v: Value): Option<Problem>
  {
    if IsIdentifier(JsString(v)) then None else Some(FieldNameFormat(v))
  }

  /** Check 6: one error per field whose text is not an identifier; no system field only warns. */
  function Fields(config: ObjectConfig): (r: CheckResult)
    ensures r.isValid <==> r.errors == []
    ensures Threw(FieldAccess) in r.errors <==> config.NoConfig? || config.fields.None?
    ensures |r.warnings| <= 1
  {
    if config.NoConfig? || config.fields.None? then CheckResult(false, [Threw(FieldAccess)], [])
    else
      var fields := config.fields.value;
      var errors := MapSomes(FieldFormatError, fields);
      MapSomesMembers(FieldFormatError, fields, Threw(FieldAccess));
      var warnings := if exists k :: 0 <= k < |fields| && fields[k] in SystemFields then [] else [NoSystemFields];
      CheckResult(errors == [], errors, warnings)
  }

  /** One check, run on the inputs. */
  function Run(check: Check, objectName: string, config: ObjectConfig, orgs: seq<string>, options: Options, asWritten: bool): CheckResult
  {
    match check
    case BasicConfiguration => Basic(objectName, config, orgs)
    case FieldSelection => Selection(config, options)
    case ForeignKey => KeyCheck(config)
    case FieldTypes => Types(config, options, asWritten)
    case ObjectAccess => Access(objectName, asWritten)
    case FieldAccess => Fields(config)
  }

  // ---------------------------------------------------------------------
  // The whole run

  /** The stored results, keyed by check name in the order the checks ran. */
  function Results(objectName: string, config: ObjectConfig, orgs: seq<string>, options: Options, asWritten: bool): (r: seq<(string, CheckResult)>)
    ensures |r| == |Checks|
    ensures forall k :: 0 <= k < |Checks| ==> r[k] == (Checks[k].Name(), Run(Checks[k], objectName, config, orgs, options, asWritten))
  {
    seq(|Checks|, k requires 0 <= k < |Checks| => (Checks[k].Name(), Run(Checks[k], objectName, config, orgs, options, asWritten)))
  }

  /** The errors of the failed checks, in order; a passing check's errors are not copied. */
  function ErrorsOf(results: seq<(string, CheckResult)>): seq<Problem>
  {
    if results == [] then []
    else
      var last := results[|results| - 1].1;
      ErrorsOf(results[..|results| - 1]) + if last.isValid then [] else last.errors
  }

  /** The warnings of the failed checks, in order; a passing check's warnings are not copied. */
  function WarningsOf(results: seq<(string, CheckResult)>): seq<Problem>
  {
    if results == [] then []
    else
      var last := results[|results| - 1].1;
      WarningsOf(results[..|results| - 1]) + if last.isValid then [] else last.warnings
  }

  predicate AllValid(results: seq<(string, CheckResult)>)
  {
    forall k :: 0 <= k < |results| ==> results[k].1.isValid
  }

  /** The outcome of a run; the timestamp is left out. */
  datatype Validation = Validation(objectName: string, isValid: bool, validations: seq<(string, CheckResult)>,
                                   errors: seq<Problem>, warnings: seq<Problem>)

  function Outcome(objectName: string, config: ObjectConfig, orgs: seq<string>, options: Options, asWritten: bool): Validation
  {
    var results := Results(objectName, config, orgs, options, asWritten);
    Validation(objectName, AllValid(results) && ErrorsOf(results) == [], results, ErrorsOf(results), WarningsOf(results))
  }

  /**
   * `validateObjectConfiguration`: runs the six checks in order, stores each
   * result under its name, copies the errors and warnings of each failed
   * check, and is valid when every check passed and no error was copied.
   */
  method ValidateObjectConfiguration(objectName: string, config: ObjectConfig, orgs: seq<string>, options: Options)
    returns (r: Validation)
    ensures r == Outcome(objectName, config, orgs, options, false)
  {
    ghost var results := Results(objectName, config, orgs, options, false);
    r := Validation(objectName, false, [], [], []);
    for i := 0 to |Checks|
      invariant r == Validation(objectName, false, results[..i], ErrorsOf(results[..i]), WarningsOf(results[..i]))
    {
      var check := Checks[i];
      var result := Run(check, objectName, config, orgs, options, false);
      ResultsStep(results, i);
      assert results[i] == (check.Name(), result);
      r := Record(r, check.Name(), result);
    }
    assert results[..|Checks|] == results;
    r := r.(isValid := AllValid(r.validations) && |r.errors| == 0);
  }

  /** Stores one check's result, copying its errors and warnings when it failed. */
  method Record(before: Validation, name: string, result: CheckResult) returns (r: Validation)
    ensures r == before.(validations := before.validations + [(name, result)],
                         errors := before.errors + if result.isValid then [] else result.errors,
                         warnings := before.warnings + if result.isValid then [] else result.warnings)
  {
    r := before.(validations := before.validations + [(name, result)]);
    if !result.isValid {
      r := r.(errors := r.errors + result.errors, warnings := r.warnings + result.warnings);
    }
  }

  lemma ResultsStep(results: seq<(string, CheckResult)>, i: nat)
    requires i < |results|
    ensures results[..i + 1][..i] == results[..i]
    ensures ErrorsOf(results[..i + 1]) == ErrorsOf(results[..i]) + if results[i].1.isValid then [] else results[i].1.errors
    ensures WarningsOf(results[..i + 1]) == WarningsOf(results[..i]) + if results[i].1.isValid then [] else results[i].1.warnings
  {
    assert results[..i + 1][..i] == results[..i];
  }

  // ---------------------------------------------------------------------
  // Properties of the run

  /** An error of the run comes from a failed check, and every error of a failed check is reported. */
  lemma {:induction false} ErrorsOfMembers(results: seq<(string, CheckResult)>, e: Problem)
    ensures e in ErrorsOf(results) <==> exists k :: 0 <= k < |results| && !results[k].1.isValid && e in results[k].1.errors
  {
    if results != [] {
      var init := results[..|results| - 1];
      ErrorsOfMembers(init, e);
      assert forall k :: 0 <= k < |init| ==> init[k] == results[k];
    }
  }

  /** When every failed check reports an error, no error is copied exactly when every check passed. */
  lemma {:induction false} ErrorsOfEmpty(results: seq<(string, CheckResult)>)
    requires forall k :: 0 <= k < |results| ==> results[k].1.isValid || results[k].1.errors != []
    ensures ErrorsOf(results) == [] <==> AllValid(results)
  {
    if results != [] {
      var init := results[..|results| - 1];
      assert forall k :: 0 <= k < |init| ==> init[k] == results[k];
      ErrorsOfEmpty(init);
    }
  }

  /** A check fails only with at least one error. */
  lemma FailureHasErrors(check: Check, objectName: string, config: ObjectConfig, orgs: seq<string>, options: Options, asWritten: bool)
    ensures var r := Run(check, objectName, config, orgs, options, asWritten);
      r.isValid || r.errors != []
  {
  }

  /**
   * The run is valid exactly when every check passed, and exactly when it
   * reports no error; its errors are those of the failed checks.
   */
  lemma OutcomeSpec(objectName: string, config: ObjectConfig, orgs: seq<string>, options: Options, asWritten: bool, e: Problem)
    ensures var v := Outcome(objectName, config, orgs, options, asWritten);
      && (v.isValid <==> forall c :: c in Checks ==> Run(c, objectName, config, orgs, options, asWritten).isValid)
      && (v.isValid <==> v.errors == [])
      && (e in v.errors <==> exists c :: c in Checks && !Run(c, objectName, config, orgs, options, asWritten).isValid
                                                   && e in Run(c, objectName, config, orgs, options, asWritten).errors)
  {
    var results := Results(objectName, config, orgs, options, asWritten);
    forall k | 0 <= k < |results|
      ensures results[k].1.isValid || results[k].1.errors != []
    {
      FailureHasErrors(Checks[k], objectName, config, orgs, options, asWritten);
    }
    ErrorsOfEmpty(results);
    ErrorsOfMembers(results, e);
    assert forall c :: c in Checks <==> exists k :: 0 <= k < |Checks| && Checks[k] == c;
  }

  /** The type check always passes, so its warnings never reach the run's warnings. */
  lemma TypesNeverFail(objectName: string, config: ObjectConfig, orgs: seq<string>, options: Options, asWritten: bool)
    ensures Types(config, options, asWritten).isValid && Types(config, options, asWritten).errors == []
    ensures Outcome(objectName, config, orgs, options, asWritten).validations[3] == ("validateFieldTypes", Types(config, options, asWritten))
  {
  }

  /** The basic check passes exactly when configuration, name, fields, key and orgs are all present. */
  lemma BasicSpec(objectName: string, config: ObjectConfig, orgs: seq<string>)
    ensures Basic(objectName, config, orgs).isValid <==>
      && config.Config?
      && |objectName| > 0
      && config.fields.Some? && |config.fields.value| > 0
      && config.foreignKey.Some? && config.foreignKey.value.Str? && |config.foreignKey.value.s| > 0
      && |orgs| > 0
  {
  }

  /** Each error of the selection check appears exactly when its condition holds. */
  lemma SelectionSpec(fields: seq<Value>, key: Option<Value>, options: Options, v: Value)
    ensures var r := Selection(Config(Some(fields), key), options);
      && (TooFewFields(MinFields(options)) in r.errors <==> |fields| < MinFields(options))
      && (DuplicateFields in r.errors <==> !NoDup(fields))
      && (r.isValid <==> |fields| >= MinFields(options) && NoDup(fields) && forall k :: 0 <= k < |fields| ==> !BadFieldName(fields[k]))
      && (BadFieldName(v) && v in fields ==> exists names :: InvalidFieldNames(names) in r.errors && v in names)
  {
    var bad := Filter(BadFieldName, fields);
    if forall k :: 0 <= k < |fields| ==> !BadFieldName(fields[k]) {
      NoBadFields(fields);
    } else {
      var k :| 0 <= k < |fields| && BadFieldName(fields[k]);
      assert fields[k] in bad;
    }
    if BadFieldName(v) && v in fields {
      assert v in bad;
    }
  }

  lemma {:induction false} NoBadFields(fields: seq<Value>)
    requires forall k :: 0 <= k < |fields| ==> !BadFieldName(fields[k])
    ensures Filter(BadFieldName, fields) == []
  {
    if fields != [] {
      NoBadFields(fields[..|fields| - 1]);
    }
  }

  /** The key check fails when the key is not among the fields, and otherwise passes for an identifier string. */
  lemma KeyCheckSpec(fields: seq<Value>, key: Option<Value>)
    ensures key.None? || key.value !in fields ==> !KeyCheck(Config(Some(fields), key)).isValid
    ensures key.Some? && key.value.Str? && key.value in fields && IsIdentifier(key.value.s) ==> KeyCheck(Config(Some(fields), key)).isValid
  {
  }

  /** The field-access check reports exactly the fields whose text is not an identifier. */
  lemma FieldsSpec(fields: seq<Value>, key: Option<Value>, v: Value)
    ensures FieldNameFormat(v) in Fields(Config(Some(fields), key)).errors <==> v in fields && !IsIdentifier(JsString(v))
  {
    MapSomesMembers(FieldFormatError, fields, FieldNameFormat(v));
    if v in fields && !IsIdentifier(JsString(v)) {
      var k :| 0 <= k < |fields| && fields[k] == v;
      assert FieldFormatError(fields[k]) == Some(FieldNameFormat(v));
    }
  }

  // ---------------------------------------------------------------------
  // The object-name pattern

  /** As written, the pattern rejects every name without an underscore, so every standard object fails the run. */
  lemma StandardObjectsRejectedAsWritten(objectName: string, config: ObjectConfig, orgs: seq<string>, options: Options)
    requires forall k :: 0 <= k < |objectName| ==> objectName[k] != '_'
    ensures !ObjectPatternAsWritten(objectName)
    ensures !Outcome(objectName, config, orgs, options, true).isValid
  {
    NoUnderscoreRejected(objectName);
    var results := Results(objectName, config, orgs, options, true);
    assert !results[4].1.isValid;
  }

  lemma NoUnderscoreRejected(s: string)
    requires forall k :: 0 <= k < |s| ==> s[k] != '_'
    ensures !ObjectPatternAsWritten(s)
  {
    if |s| >= 3 {
      var tail := s[|s| - 2..];
      assert tail[0] == s[|s| - 2] != '_';
      assert tail != "_c";
    }
  }

  /** The same concrete failure: `Account` does not match the pattern as written. */
  lemma AccountRejectedAsWritten()
    ensures !ObjectPatternAsWritten("Account")
    ensures Access("Account", true).errors == [ObjectNameConvention]
  {
    StandardObjectsRejectedAsWritten("Account", NoConfig, [], Options(None, None, None));
  }

  /** The intended pattern accepts standard names and `__c` custom names alike, and everything the written one does. */
  lemma ObjectPatternSpec(objectName: string)
    ensures ObjectPatternAsWritten(objectName) ==> ObjectPattern(objectName)
    ensures Access(objectName, false).isValid <==> IsIdentifier(objectName)
    ensures ObjectPattern("Account") && ObjectPattern("SBQQ__Quote__c")
  {
    assert IsAsciiLetter("Account"[0]);
    assert IsAsciiLetter("SBQQ__Quote__c"[0]);
  }

  /**
   * With the intended pattern, a well-formed configuration of a standard
   * object passes: fields present, distinct and identifiers, the key an
   * identifier among them, and at least one org.
   */
  lemma WellFormedPasses(objectName: string, fields: seq<Value>, key: string, orgs: seq<string>, options: Options)
    requires IsIdentifier(objectName) && |orgs| > 0
    requires |fields| >= MinFields(options) && |fields| > 0 && NoDup(fields)
    requires forall k :: 0 <= k < |fields| ==> fields[k].Str? && IsIdentifier(fields[k].s)
    requires Str(key) in fields && IsIdentifier(key)
    ensures Outcome(objectName, Config(Some(fields), Some(Str(key))), orgs, options, false).isValid
  {
    var config := Config(Some(fields), Some(Str(key)));
    assert Selection(config, options).isValid by {
      SelectionSpec(fields, Some(Str(key)), options, Str(key));
    }
    assert KeyCheck(config).isValid by {
      KeyCheckSpec(fields, Some(Str(key)));
    }
    assert Fields(config).isValid by {
      if Fields(config).errors != [] {
        var v := Fields(config).errors[0];
        MapSomesMembers(FieldFormatError, fields, v);
      }
    }
    assert Access(objectName, false).isValid by {
      ObjectPatternSpec(objectName);
    }
    var results := Results(objectName, config, orgs, options, false);
    assert AllValid(results);
    OutcomeSpec(objectName, config, orgs, options, false, ObjectNameConvention);
  }

  // ---------------------------------------------------------------------
  // The key type list

  /** As written, a key of type `externalId` is never accepted: its lower-cased type is compared with `externalId`. */
  lemma ExternalIdRejectedAsWritten()
    ensures !KeyTypeSuitableAsWritten("externalId")
  {
    var lowered := Lower("externalId");
    assert lowered[8] == 'i';
    assert lowered != "externalId";
  }

  /**
   * So a key declared as `externalId` draws the unsuitable-type warning in the
   * stored result of the type check as written, and not once corrected.
   */
  lemma ExternalIdKeyWarned(config: ObjectConfig, options: Options)
    requires options.fieldMetadata.Some? && config.Config? && config.fields.Some?
    requires KeyText(config.foreignKey) in options.fieldMetadata.value
    requires options.fieldMetadata.value[KeyText(config.foreignKey)].fieldType == Some("externalId")
    ensures KeyTypeUnsuitable(Some("externalId")) in Types(config, options, true).warnings
    ensures KeyTypeUnsuitable(Some("externalId")) !in Types(config, options, false).warnings
  {
    ExternalIdRejectedAsWritten();
    LowerExternalId();
  }

  /** A lower-cased string holds no upper-case letter. */
  lemma LowerHasNoUpper(t: string, k: nat)
    requires k < |t|
    ensures !('A' <= Lower(t)[k] <= 'Z')
  {
  }

  /** The intended list accepts the four types in any letter case. */
  lemma KeyTypeSuitableSpec(t: string)
    ensures KeyTypeSuitable("externalId") && KeyTypeSuitable("ID") && KeyTypeSuitable("Reference")
    ensures KeyTypeSuitableAsWritten(t) ==> KeyTypeSuitable(t)
  {
    LowerExternalId();
    var id := Lower("ID");
    assert id[0] == 'i' && id[1] == 'd';
    assert id == "id";
    var reference := Lower("Reference");
    assert reference[0] == 'r';
    assert reference == "reference";
    if Lower(t) == "externalId" {
      LowerHasNoUpper(t, 8);
    }
  }

  lemma LowerExternalId()
    ensures Lower("externalId") == "externalid"
  {
    var lowered := Lower("externalId");
    assert lowered[8] == 'i';
    assert lowered == "externalid";
  }
}
