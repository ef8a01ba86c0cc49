/**
 * The browser-side checker of a data-comparison configuration
 * (`ConfigValidator`): each object entry is checked on its own (key, field
 * lists, date filters, active condition), then the entries are checked
 * together (repeated object-and-key pairs, whether any object selects
 * fields); a null entry makes that second pass throw. The development
 * `MockValidator` runs the same checks and then declares the configuration
 * valid.
 *
 * Date parsing (`new Date(v)`) is a parameter: it maps a value to its time
 * in milliseconds, or to None where JavaScript produces an invalid date.
 */
module ConfigValidation {
  import opened Common

  /** A property of an object entry: absent, a scalar, an array of scalars, or a nested object. */
  datatype Prop = Absent | Scalar(v: Value) | Arr(items: seq<Value>) | Nested

  /** JavaScript truthiness of a property (arrays and objects are truthy even when empty). */
  predicate Present(p: Prop)
  {
    match p
    case Absent => false
    case Scalar(v) => Truthy(v)
    case Arr(_) => true
    case Nested => true
  }

  /** `${p}`: how a property is written into a string. */
  function PropString(p: Prop): string
  {
    match p
    case Absent => "undefined"
    case Scalar(v) => JsString(v)
    case Arr(items) => JoinValues(items)
    case Nested => "[object Object]"
  }

  /** `Array.prototype.join` with its default comma; null elements print as nothing. */
  function JoinValues(items: seq<Value>): string
  {
    if items == [] then ""
    else
      var last := items[|items| - 1];
      var text := if last == Null then "" else JsString(last);
      if |items| == 1 then text else JoinValues(items[..|items| - 1]) + "," + text
  }

  /** One entry of the configuration: either not an object at all, or an object with the properties checked. */
  datatype ObjectConfig =
    | NotObject(v: Value)
    | Object(foreignKey: Prop, fields: Prop, active: Prop, activeCondition: Prop,
             lastModifiedBetween: Prop, createdBetween: Prop)

  /** The configuration: not an object, or its object entries in insertion order. */
  datatype Config = NotAnObject | Entries(objects: seq<(string, ObjectConfig)>)

  /** The two date filters an object may carry. */
  datatype DateFilter = LastModifiedBetween | CreatedBetween
  {
    function Name(): string
    {
      match this
      case LastModifiedBetween => "LastModifiedBetween"
      case CreatedBetween => "CreatedBetween"
    }
  }

  /** The problems the validator reports; `Text` is the message pushed. */
  datatype Problem =
    | ConfigNotObject
    | EntryNotObject
    | KeyRequired
    | FieldsNotArray
    | ActiveNotArray
    | ConditionNotString
    | DateNotArray(filter: DateFilter)
    | DateCount(filter: DateFilter)
    | StartInvalid(filter: DateFilter)
    | EndInvalid(filter: DateFilter)
    | StartAfterEnd(filter: DateFilter)
    | DuplicateKey(key: string)
    | NoFieldsSelected
    | NoObjectSelectsFields
  {
    function Text(): string
    {
      match this
      case ConfigNotObject => "Config must be a valid object"
      case EntryNotObject => "Object configuration must be a valid object"
      case KeyRequired => "Foreign key is required"
      case FieldsNotArray => "Fields must be an array"
      case ActiveNotArray => "Active fields must be an array"
      case ConditionNotString => "Active condition must be a string"
      case DateNotArray(f) => f.Name() + " must be an array"
      case DateCount(f) => f.Name() + " must contain exactly 2 dates"
      case StartInvalid(f) => f.Name() + " start date is invalid"
      case EndInvalid(f) => f.Name() + " end date is invalid"
      case StartAfterEnd(f) => f.Name() + " start date must be before end date"
      case DuplicateKey(k) => "Duplicate foreign key found: " + k
      case NoFieldsSelected => "No fields selected for comparison"
      case NoObjectSelectsFields => "No objects have fields selected for comparison"
    }
  }

  /** A reported message: a problem, possibly under the name of the object it was found in. */
  datatype Message = Plain(problem: Problem) | In(obj: string, inner: Message)
  {
    /** The pushed text: `${objectName}: ${err}` for a message under an object name. */
    function Text(): string
    {
      match this
      case Plain(p) => p.Text()
      case In(o, m) => o + ": " + m.Text()
    }
  }

  /** `{isValid, errors, warnings}`. */
  datatype Outcome = Outcome(isValid: bool, errors: seq<Message>, warnings: seq<Message>)

  /** `new Date(v).getTime()`, None for an invalid date. */
  type DateParser = Value -> Option<int>

  // ---------------------------------------------------------------------
  // Date filters

  predicate IsValidDate(parse: DateParser, v: Value)
  {
    Truthy(v) && parse(v).Some?
  }

  /** `new Date(a) > new Date(b)`: false when either date is invalid. */
  predicate Later(parse: DateParser, a: Value, b: Value)
  {
    parse(a).Some? && parse(b).Some? && parse(a).value > parse(b).value
  }

  /** The errors of `validateDateFilter` for a filter that is present. */
  function DateFilterErrors(parse: DateParser, f: DateFilter, p: Prop): seq<Message>
  {
    if !p.Arr? then [Plain(DateNotArray(f))]
    else if |p.items| != 2 then [Plain(DateCount(f))]
    else
      var start := p.items[0];
      var end := p.items[1];
      (if Truthy(start) && !IsValidDate(parse, start) then [Plain(StartInvalid(f))] else [])
      + (if Truthy(end) && !IsValidDate(parse, end) then [Plain(EndInvalid(f))] else [])
      + (if Truthy(start) && Truthy(end) && Later(parse, start, end) then [Plain(StartAfterEnd(f))] else [])
  }

  /**
   * A date filter passes exactly when it is an array of two entries, each
   * either empty or a valid date, and the start is not after the end.
   */
  lemma DateFilterSpec(parse: DateParser, f: DateFilter, p: Prop)
    ensures DateFilterErrors(parse, f, p) == [] <==>
      && p.Arr? && |p.items| == 2
      && (Truthy(p.items[0]) ==> parse(p.items[0]).Some?)
      && (Truthy(p.items[1]) ==> parse(p.items[1]).Some?)
      && (Truthy(p.items[0]) && Truthy(p.items[1]) ==> parse(p.items[0]).value <= parse(p.items[1]).value)
  {
  }

  /** `validateDateFilter`: returns at the first structural problem, otherwise collects the date problems. */
  method ValidateDateFilter(parse: DateParser, f: DateFilter, p: Prop) returns (isValid: bool, errors: seq<Message>)
    ensures errors == DateFilterErrors(parse, f, p)
    ensures isValid <==> errors == []
  {
    isValid := true;
    errors := [];
    if !p.Arr? {
      isValid := false;
      errors := errors + [Plain(DateNotArray(f))];
      return;
    }
    if |p.items| != 2 {
      isValid := false;
      errors := errors + [Plain(DateCount(f))];
      return;
    }
    var start, end := p.items[0], p.items[1];
    if Truthy(start) && !IsValidDate(parse, start) {
      isValid := false;
      errors := errors + [Plain(StartInvalid(f))];
    }
    if Truthy(end) && !IsValidDate(parse, end) {
      isValid := false;
      errors := errors + [Plain(EndInvalid(f))];
    }
    if Truthy(start) && Truthy(end) && Later(parse, start, end) {
      isValid := false;
      errors := errors + [Plain(StartAfterEnd(f))];
    }
  }

  // ---------------------------------------------------------------------
  // One object

  predicate BadFields(cfg: ObjectConfig)
  {
    cfg.Object? && Present(cfg.fields) && !cfg.fields.Arr?
  }

  predicate BadActive(cfg: ObjectConfig)
  {
    cfg.Object? && Present(cfg.active) && !cfg.active.Arr?
  }

  predicate BadCondition(cfg: ObjectConfig)
  {
    cfg.Object? && Present(cfg.activeCondition) && !(cfg.activeCondition.Scalar? && cfg.activeCondition.v.Str?)
  }

  /** The errors of one date filter, when it is given. */
  function DateErrors(parse: DateParser, f: DateFilter, p: Prop): seq<Message>
  {
    if Present(p) then DateFilterErrors(parse, f, p) else []
  }

  /** The date-filter errors of an object entry. */
  function ObjectDateErrors(parse: DateParser, cfg: ObjectConfig): seq<Message>
  {
    if cfg.NotObject? then []
    else DateErrors(parse, LastModifiedBetween, cfg.lastModifiedBetween) + DateErrors(parse, CreatedBetween, cfg.createdBetween)
  }

  /**
   * Every error `validateObject` reports, in its order: key, field list,
   * active list, the two date filters, active condition.
   */
  function ObjectErrors(parse: DateParser, cfg: ObjectConfig): seq<Message>
  {
    if cfg.NotObject? then [Plain(EntryNotObject)]
    else HeadErrors(cfg) + ObjectDateErrors(parse, cfg) + (if BadCondition(cfg) then [Plain(ConditionNotString)] else [])
  }

  /** The key, field-list and active-list errors of an object entry. */
  function HeadErrors(cfg: ObjectConfig): seq<Message>
    requires cfg.Object?
  {
    (if !Present(cfg.foreignKey) then [Plain(KeyRequired)] else [])
    + (if BadFields(cfg) then [Plain(FieldsNotArray)] else [])
    + (if BadActive(cfg) then [Plain(ActiveNotArray)] else [])
  }

  /** The checks that clear `isValid` in `validateObject` as written: entry, key, field list, active list, active condition. */
  predicate StructurallyValid(cfg: ObjectConfig)
  {
    cfg.Object? && Present(cfg.foreignKey) && !BadFields(cfg) && !BadActive(cfg) && !BadCondition(cfg)
  }

  function ObjectWarnings(cfg: ObjectConfig): seq<Message>
  {
    if cfg.Object? && cfg.fields == Arr([]) then [Plain(NoFieldsSelected)] else []
  }

  /**
   * The outcome of checking one object. As written (`datesInvalidate` false)
   * only the structural checks clear `isValid`; with `datesInvalidate` true a
   * date-filter error makes the object invalid as well.
   */
  function ObjectOutcome(parse: DateParser, cfg: ObjectConfig, datesInvalidate: bool): Outcome
  {
    Outcome(StructurallyValid(cfg) && (datesInvalidate ==> ObjectDateErrors(parse, cfg) == []),
            ObjectErrors(parse, cfg), ObjectWarnings(cfg))
  }

  /**
   * An object's errors are empty exactly when it is structurally valid and its
   * date filters pass; as written it is valid exactly when it is structurally
   * valid, whatever its date filters say, while corrected it is valid exactly
   * when it has no error.
   */
  lemma ObjectOutcomeSpec(parse: DateParser, cfg: ObjectConfig)
    ensures ObjectErrors(parse, cfg) == [] <==> StructurallyValid(cfg) && ObjectDateErrors(parse, cfg) == []
    ensures ObjectOutcome(parse, cfg, false).isValid <==> StructurallyValid(cfg)
    ensures ObjectOutcome(parse, cfg, true).isValid <==> ObjectErrors(parse, cfg) == []
  {
  }

  /**
   * `validateObject`, with the date check corrected: a date-filter error
   * clears `isValid` as every other error does (as written it does not; see
   * `DateErrorsDropped`).
   */
  method ValidateObject(parse: DateParser, cfg: ObjectConfig) returns (r: Outcome)
    ensures r == ObjectOutcome(parse, cfg, true)
  {
    if cfg.NotObject? {
      r := Outcome(true, [], []);
      r := r.(isValid := false, errors := r.errors + [Plain(EntryNotObject)]);
      return;
    }
    r := CheckKeyAndLists(cfg);
    r := AddDateErrors(parse, cfg, r);
    if Present(cfg.activeCondition) && !(cfg.activeCondition.Scalar? && cfg.activeCondition.v.Str?) {
      r := r.(isValid := false, errors := r.errors + [Plain(ConditionNotString)]);
    }
  }

  /** The key, field-list and active-list checks of `validateObject` on an object entry. */
  method CheckKeyAndLists(cfg: ObjectConfig) returns (r: Outcome)
    requires cfg.Object?
    ensures r == Outcome(Present(cfg.foreignKey) && !BadFields(cfg) && !BadActive(cfg), HeadErrors(cfg), ObjectWarnings(cfg))
  {
    r := Outcome(true, [], []);
    if !Present(cfg.foreignKey) {
      r := r.(isValid := false, errors := r.errors + [Plain(KeyRequired)]);
    }
    if Present(cfg.fields) && !cfg.fields.Arr? {
      r := r.(isValid := false, errors := r.errors + [Plain(FieldsNotArray)]);
    } else if Present(cfg.fields) && |cfg.fields.items| == 0 {
      r := r.(warnings := r.warnings + [Plain(NoFieldsSelected)]);
    }
    if Present(cfg.active) && !cfg.active.Arr? {
      r := r.(isValid := false, errors := r.errors + [Plain(ActiveNotArray)]);
    }
  }

  /** The two date-filter checks of `validateObject`: their errors are appended and clear `isValid`. */
  method AddDateErrors(parse: DateParser, cfg: ObjectConfig, before: Outcome) returns (r: Outcome)
    requires cfg.Object?
    ensures r == before.(isValid := before.isValid && ObjectDateErrors(parse, cfg) == [],
                         errors := before.errors + ObjectDateErrors(parse, cfg))
  {
    r := AddDateFilterErrors(parse, LastModifiedBetween, cfg.lastModifiedBetween, before);
    r := AddDateFilterErrors(parse, CreatedBetween, cfg.createdBetween, r);
    ghost var a, b := DateErrors(parse, LastModifiedBetween, cfg.lastModifiedBetween), DateErrors(parse, CreatedBetween, cfg.createdBetween);
    assert before.errors + a + b == before.errors + (a + b);
  }

  /** One date-filter check of `validateObject`: when the filter is given and fails, its errors are appended and the object is invalid. */
  method AddDateFilterErrors(parse: DateParser, f: DateFilter, p: Prop, before: Outcome) returns (r: Outcome)
    ensures r == before.(isValid := before.isValid && DateErrors(parse, f, p) == [],
                         errors := before.errors + DateErrors(parse, f, p))
  {
    r := before;
    if Present(p) {
      var dateValid, dateErrors := ValidateDateFilter(parse, f, p);
      if !dateValid {
        r := r.(isValid := false, errors := r.errors + dateErrors);
      }
    }
  }

  // ---------------------------------------------------------------------
  // The whole configuration

  /** `${objectName}: ${message}` for each message. */
  function Prefixed(name: string, messages: seq<Message>): (r: seq<Message>)
    ensures |r| == |messages|
    ensures forall k :: 0 <= k < |messages| ==> r[k] == In(name, messages[k])
  {
    if messages == [] then []
    else Prefixed(name, messages[..|messages| - 1]) + [In(name, messages[|messages| - 1])]
  }

  /** The outcome of every entry, with its name. */
  function Outcomes(parse: DateParser, objects: seq<(string, ObjectConfig)>, datesInvalidate: bool): (r: seq<(string, Outcome)>)
    ensures |r| == |objects|
    ensures forall t :: 0 <= t < |objects| ==> r[t] == (objects[t].0, ObjectOutcome(parse, objects[t].1, datesInvalidate))
  {
    if objects == [] then []
    else
      var n := |objects| - 1;
      Outcomes(parse, objects[..n], datesInvalidate) + [(objects[n].0, ObjectOutcome(parse, objects[n].1, datesInvalidate))]
  }

  /** The per-object part of `validateConfig`: validity, prefixed errors of invalid objects, prefixed warnings. */
  function Aggregate(outcomes: seq<(string, Outcome)>): Outcome
  {
    if outcomes == [] then Outcome(true, [], [])
    else
      var r := Aggregate(outcomes[..|outcomes| - 1]);
      var (name, o) := outcomes[|outcomes| - 1];
      Outcome(r.isValid && o.isValid,
              r.errors + (if o.isValid then [] else Prefixed(name, o.errors)),
              r.warnings + Prefixed(name, o.warnings))
  }

  lemma AggregateSnoc(outcomes: seq<(string, Outcome)>, name: string, o: Outcome)
    ensures Aggregate(outcomes + [(name, o)]) ==
      Outcome(Aggregate(outcomes).isValid && o.isValid,
              Aggregate(outcomes).errors + (if o.isValid then [] else Prefixed(name, o.errors)),
              Aggregate(outcomes).warnings + Prefixed(name, o.warnings))
  {
    assert (outcomes + [(name, o)])[..|outcomes|] == outcomes;
  }

  lemma {:induction false} AggregateValid(outcomes: seq<(string, Outcome)>)
    ensures Aggregate(outcomes).isValid <==> forall t :: 0 <= t < |outcomes| ==> outcomes[t].1.isValid
  {
    if outcomes != [] {
      var init := outcomes[..|outcomes| - 1];
      AggregateValid(init);
      assert forall t :: 0 <= t < |init| ==> init[t] == outcomes[t];
    }
  }

  /** Every error of an invalid outcome shows up in the aggregate under its name. */
  lemma {:induction false} AggregateReports(outcomes: seq<(string, Outcome)>, t: nat, k: nat)
    requires t < |outcomes| && !outcomes[t].1.isValid && k < |outcomes[t].1.errors|
    ensures In(outcomes[t].0, outcomes[t].1.errors[k]) in Aggregate(outcomes).errors
  {
    var n := |outcomes| - 1;
    var init := outcomes[..n];
    if t < n {
      assert init[t] == outcomes[t];
      AggregateReports(init, t, k);
    } else {
      var p := Prefixed(outcomes[n].0, outcomes[n].1.errors);
      assert p[k] in p;
    }
  }

  /** Every error in the aggregate is one of an invalid outcome, under its name. */
  lemma {:induction false} AggregateErrorsFrom(outcomes: seq<(string, Outcome)>, e: Message) returns (t: nat)
    requires e in Aggregate(outcomes).errors
    ensures t < |outcomes| && !outcomes[t].1.isValid && e.In? && e.obj == outcomes[t].0 && e.inner in outcomes[t].1.errors
  {
    var n := |outcomes| - 1;
    var init := outcomes[..n];
    if e in Aggregate(init).errors {
      t := AggregateErrorsFrom(init, e);
      assert init[t] == outcomes[t];
    } else {
      t := n;
      var p := Prefixed(outcomes[n].0, outcomes[n].1.errors);
      var k :| 0 <= k < |p| && p[k] == e;
    }
  }

  /** The `objectName.foreignKey` pair an entry contributes to the duplicate check. */
  function KeyOf(entry: (string, ObjectConfig)): Option<string>
  {
    if entry.1.Object? && Present(entry.1.foreignKey) then Some(entry.0 + "." + PropString(entry.1.foreignKey)) else None
  }

  /** The pair of every entry, position for position. */
  function KeysOf(objects: seq<(string, ObjectConfig)>): (ks: seq<Option<string>>)
    ensures |ks| == |objects|
    ensures forall t :: 0 <= t < |objects| ==> ks[t] == KeyOf(objects[t])
  {
    if objects == [] then [] else KeysOf(objects[..|objects| - 1]) + [KeyOf(objects[|objects| - 1])]
  }

  function Id(k: Option<string>): Option<string> { k }

  /** One error for each pair an earlier entry already contributed. */
  function Duplicates(ks: seq<Option<string>>): seq<Message>
  {
    if ks == [] then []
    else
      var init := ks[..|ks| - 1];
      var key := ks[|ks| - 1];
      Duplicates(init) + if key.Some? && key.value in MapSomes(Id, init) then [Plain(DuplicateKey(key.value))] else []
  }

  function DuplicateKeyErrors(objects: seq<(string, ObjectConfig)>): seq<Message>
  {
    Duplicates(KeysOf(objects))
  }

  /** `obj.Fields && obj.Fields.length > 0` (a non-empty string has a length too). */
  predicate SelectsFields(cfg: ObjectConfig)
  {
    cfg.Object? &&
    match cfg.fields
    case Arr(items) => |items| > 0
    case Scalar(v) => v.Str? && |v.s| > 0
    case _ => false
  }

  function CrossWarnings(objects: seq<(string, ObjectConfig)>): seq<Message>
  {
    if forall t :: 0 <= t < |objects| ==> !SelectsFields(objects[t].1) then [Plain(NoObjectSelectsFields)] else []
  }

  /** What `validateConfig` does: return an outcome, or throw a TypeError. */
  datatype Run = Returned(outcome: Outcome) | Threw

  /** Some entry is JSON null: reading `objectConfig.foreignKey` on it in the cross-object pass throws. */
  predicate NullEntry(objects: seq<(string, ObjectConfig)>)
  {
    exists t :: 0 <= t < |objects| && IsNull(objects[t])
  }

  predicate IsNull(entry: (string, ObjectConfig))
  {
    entry.1 == NotObject(Null)
  }

  lemma NullEntryAt(objects: seq<(string, ObjectConfig)>, i: nat)
    requires i < |objects| && IsNull(objects[i])
    ensures NullEntry(objects)
  {
  }

  lemma NoNullEntry(objects: seq<(string, ObjectConfig)>)
    requires forall t :: 0 <= t < |objects| ==> !IsNull(objects[t])
    ensures !NullEntry(objects)
  {
  }

  /** The outcome of `validateConfig`, with the object checks as written or corrected, when nothing throws. */
  function ConfigOutcome(parse: DateParser, c: Config, datesInvalidate: bool): Outcome
  {
    match c
    case NotAnObject => Outcome(false, [Plain(ConfigNotObject)], [])
    case Entries(objects) =>
      var a := Aggregate(Outcomes(parse, objects, datesInvalidate));
      var dups := DuplicateKeyErrors(objects);
      Outcome(a.isValid && dups == [], a.errors + dups, a.warnings + CrossWarnings(objects))
  }

  /** The whole of `validateConfig`: it throws on a null entry, and otherwise returns the outcome. */
  function ConfigRun(parse: DateParser, c: Config, datesInvalidate: bool): Run
  {
    if c.Entries? && NullEntry(c.objects) then Threw else Returned(ConfigOutcome(parse, c, datesInvalidate))
  }

  /**
   * The configuration is valid exactly when it is an object, every entry is
   * valid and no object-and-key pair repeats; a valid configuration reports
   * no error. A run that throws is one whose configuration would have been
   * invalid anyway, so the run returns a valid outcome under the same
   * condition.
   */
  lemma ConfigValid(parse: DateParser, c: Config, datesInvalidate: bool)
    ensures ConfigOutcome(parse, c, datesInvalidate).isValid <==>
      c.Entries? && DuplicateKeyErrors(c.objects) == [] &&
      forall t :: 0 <= t < |c.objects| ==> ObjectOutcome(parse, c.objects[t].1, datesInvalidate).isValid
    ensures ConfigOutcome(parse, c, datesInvalidate).isValid ==> ConfigOutcome(parse, c, datesInvalidate).errors == []
    ensures ConfigRun(parse, c, datesInvalidate).Threw? ==> !ConfigOutcome(parse, c, datesInvalidate).isValid
    ensures (ConfigRun(parse, c, datesInvalidate).Returned? && ConfigRun(parse, c, datesInvalidate).outcome.isValid) <==>
      ConfigOutcome(parse, c, datesInvalidate).isValid
  {
    if c.Entries? && NullEntry(c.objects) {
      var t :| 0 <= t < |c.objects| && c.objects[t].1 == NotObject(Null);
      assert !ObjectOutcome(parse, c.objects[t].1, datesInvalidate).isValid;
    }
    if c.Entries? {
      var outs := Outcomes(parse, c.objects, datesInvalidate);
      AggregateValid(outs);
      if ConfigOutcome(parse, c, datesInvalidate).isValid && Aggregate(outs).errors != [] {
        var t := AggregateErrorsFrom(outs, Aggregate(outs).errors[0]);
      }
    }
  }

  /** A configuration with a null entry throws, wherever the entry stands, whatever the other entries hold. */
  lemma NullEntryThrows(parse: DateParser, objects: seq<(string, ObjectConfig)>, t: nat, datesInvalidate: bool)
    requires t < |objects| && objects[t].1 == NotObject(Null)
    ensures ConfigRun(parse, Entries(objects), datesInvalidate) == Threw
  {
  }

  /**
   * With date errors counted (the corrected behaviour), every error of every
   * entry is reported under its name, and every reported per-object error is
   * one of that entry's own.
   */
  lemma CorrectedReportsEveryError(parse: DateParser, objects: seq<(string, ObjectConfig)>, t: nat, k: nat)
    requires t < |objects| && k < |ObjectErrors(parse, objects[t].1)|
    ensures In(objects[t].0, ObjectErrors(parse, objects[t].1)[k]) in ConfigOutcome(parse, Entries(objects), true).errors
  {
    var outs := Outcomes(parse, objects, true);
    assert outs[t] == (objects[t].0, ObjectOutcome(parse, objects[t].1, true));
    AggregateReports(outs, t, k);
  }

  /**
   * As written, an object whose only problem is its date filter (here a
   * `LastModifiedBetween` with one date) leaves the configuration valid with
   * no error at all, although the date check reported one; corrected, the
   * configuration is invalid.
   */
  lemma DateErrorsDropped(parse: DateParser)
    ensures var cfg := Object(Scalar(Str("Id")), Absent, Absent, Absent, Arr([Str("2024-01-01")]), Absent);
      && ObjectErrors(parse, cfg) == [Plain(DateCount(LastModifiedBetween))]
      && ConfigOutcome(parse, Entries([("Quote", cfg)]), false).isValid
      && ConfigOutcome(parse, Entries([("Quote", cfg)]), false).errors == []
      && !ConfigOutcome(parse, Entries([("Quote", cfg)]), true).isValid
  {
    var cfg := Object(Scalar(Str("Id")), Absent, Absent, Absent, Arr([Str("2024-01-01")]), Absent);
    assert ObjectDateErrors(parse, cfg) == [Plain(DateCount(LastModifiedBetween))];
    assert StructurallyValid(cfg);
    SingleEntry(parse, "Quote", cfg, false);
    SingleEntry(parse, "Quote", cfg, true);
  }

  /** A configuration with one entry has that entry's validity, and its errors under its name when it is invalid. */
  lemma SingleEntry(parse: DateParser, name: string, cfg: ObjectConfig, datesInvalidate: bool)
    ensures var o := ObjectOutcome(parse, cfg, datesInvalidate);
      && ConfigOutcome(parse, Entries([(name, cfg)]), datesInvalidate).isValid == o.isValid
      && ConfigOutcome(parse, Entries([(name, cfg)]), datesInvalidate).errors == if o.isValid then [] else Prefixed(name, o.errors)
  {
    var objects := [(name, cfg)];
    var outs := Outcomes(parse, objects, datesInvalidate);
    assert outs == [outs[0]];
    SingleAggregate(outs);
    SingleKey(KeysOf(objects));
  }

  lemma SingleAggregate(outcomes: seq<(string, Outcome)>)
    requires |outcomes| == 1
    ensures var (name, o) := outcomes[0];
      Aggregate(outcomes) == Outcome(o.isValid, if o.isValid then [] else Prefixed(name, o.errors), Prefixed(name, o.warnings))
  {
    assert outcomes[..0] == [];
  }

  /** One entry alone never clashes. */
  lemma SingleKey(ks: seq<Option<string>>)
    requires |ks| == 1
    ensures Duplicates(ks) == []
  {
    assert ks[..0] == [];
    assert MapSomes(Id, ks[..0]) == [];
  }

  // ---------------------------------------------------------------------
  // The duplicate-key check

  /** Two different object names without dots never give the same `name.key` pair. */
  lemma DistinctPairs(a: string, b: string, ka: string, kb: string)
    requires a != b && '.' !in a && '.' !in b
    ensures a + "." + ka != b + "." + kb
  {
    var x := a + "." + ka;
    var y := b + "." + kb;
    if |a| < |b| {
      assert x[|a|] == '.' && y[|a|] == b[|a|];
    } else if |b| < |a| {
      assert y[|b|] == '.' && x[|b|] == a[|b|];
    } else {
      var i :| 0 <= i < |a| && a[i] != b[i];
      assert x[i] == a[i] && y[i] == b[i];
    }
  }

  /**
   * Object names are distinct keys of one object, so the duplicate check can
   * only fire when an object name contains a dot.
   */
  lemma {:induction false} NoDuplicatesWithoutDots(objects: seq<(string, ObjectConfig)>)
    requires forall i, j :: 0 <= i < j < |objects| ==> objects[i].0 != objects[j].0
    requires forall i :: 0 <= i < |objects| ==> '.' !in objects[i].0
    ensures DuplicateKeyErrors(objects) == []
  {
    if objects != [] {
      var n := |objects| - 1;
      var init := objects[..n];
      var ks := KeysOf(objects);
      assert ks[..n] == KeysOf(init);
      NoDuplicatesWithoutDots(init);
      var key := ks[n];
      if key.Some? && key.value in MapSomes(Id, ks[..n]) {
        MapSomesMembers(Id, ks[..n], key.value);
        var t :| 0 <= t < n && ks[..n][t] == Some(key.value);
        assert KeyOf(objects[t]) == Some(key.value);
        DistinctPairs(objects[t].0, objects[n].0, PropString(objects[t].1.foreignKey), PropString(objects[n].1.foreignKey));
      }
    }
  }

  /** With a dot in a name the check does fire: `A.B` keyed by `C` and `A` keyed by `B.C` clash. */
  lemma DottedNamesClash()
    ensures DuplicateKeyErrors([("A.B", Object(Scalar(Str("C")), Absent, Absent, Absent, Absent, Absent)),
                                ("A", Object(Scalar(Str("B.C")), Absent, Absent, Absent, Absent, Absent))])
            == [Plain(DuplicateKey("A.B.C"))]
  {
    var first := ("A.B", Object(Scalar(Str("C")), Absent, Absent, Absent, Absent, Absent));
    var second := ("A", Object(Scalar(Str("B.C")), Absent, Absent, Absent, Absent, Absent));
    assert "A.B" + "." + "C" == "A.B.C" == "A" + "." + "B.C";
    assert KeyOf(first) == Some("A.B.C") == KeyOf(second);
    var ks := KeysOf([first, second]);
    assert ks == [Some("A.B.C"), Some("A.B.C")];
    RepeatedKey("A.B.C");
  }

  /** The same pair twice gives exactly one error. */
  lemma RepeatedKey(k: string)
    ensures Duplicates([Some(k), Some(k)]) == [Plain(DuplicateKey(k))]
  {
    var ks := [Some(k), Some(k)];
    assert ks[..0] == [];
    DuplicatesStep(ks, 0);
    MapSomesStep(Id, ks, 0, Some(k));
    DuplicatesStep(ks, 1);
    assert ks[..2] == ks;
  }

  // ---------------------------------------------------------------------
  // The methods

  lemma OutcomesStep(parse: DateParser, objects: seq<(string, ObjectConfig)>, i: nat)
    requires i < |objects|
    ensures Outcomes(parse, objects[..i + 1], true) == Outcomes(parse, objects[..i], true) + [(objects[i].0, ObjectOutcome(parse, objects[i].1, true))]
  {
    assert objects[..i + 1][..i] == objects[..i];
  }

  /** `validateConfig`, over the corrected object check. */
  method ValidateConfig(parse: DateParser, c: Config) returns (r: Run)
    ensures r == ConfigRun(parse, c, true)
  {
    if c.NotAnObject? {
      return Returned(Outcome(false, [Plain(ConfigNotObject)], []));
    }
    var objects := c.objects;
    var result := ValidateObjects(parse, objects);
    r := ValidateCrossObject(objects, result);
  }

  /** The `forEach` of `validateConfig` over the entries. */
  method ValidateObjects(parse: DateParser, objects: seq<(string, ObjectConfig)>) returns (r: Outcome)
    ensures r == Aggregate(Outcomes(parse, objects, true))
  {
    r := Outcome(true, [], []);
    var i := 0;
    while i < |objects|
      invariant 0 <= i <= |objects|
      invariant r == Aggregate(Outcomes(parse, objects[..i], true))
    {
      var name := objects[i].0;
      var objectValidation := ValidateObject(parse, objects[i].1);
      OutcomesStep(parse, objects, i);
      AggregateSnoc(Outcomes(parse, objects[..i], true), name, objectValidation);
      r := AddObjectOutcome(r, name, objectValidation);
      i := i + 1;
    }
    assert objects[..|objects|] == objects;
  }

  /** The body of that `forEach` for one entry. */
  method AddObjectOutcome(before: Outcome, name: string, o: Outcome) returns (r: Outcome)
    ensures r == Outcome(before.isValid && o.isValid,
                         before.errors + (if o.isValid then [] else Prefixed(name, o.errors)),
                         before.warnings + Prefixed(name, o.warnings))
  {
    r := before;
    if !o.isValid {
      r := r.(isValid := false, errors := r.errors + Prefixed(name, o.errors));
    }
    r := r.(warnings := r.warnings + Prefixed(name, o.warnings));
  }

  /**
   * `validateCrossObject`: the duplicate-pair pass, which throws on a null
   * entry, then the warning when no object selects fields.
   */
  method ValidateCrossObject(objects: seq<(string, ObjectConfig)>, before: Outcome) returns (r: Run)
    ensures NullEntry(objects) ==> r == Threw
    ensures !NullEntry(objects) ==>
      r == Returned(Outcome(before.isValid && DuplicateKeyErrors(objects) == [],
                            before.errors + DuplicateKeyErrors(objects),
                            before.warnings + CrossWarnings(objects)))
  {
    r := CheckDuplicateKeys(objects, before);
    if r.Threw? {
      return;
    }
    var withFields := CountSelecting(objects);
    if withFields == 0 {
      r := Returned(r.outcome.(warnings := r.outcome.warnings + [Plain(NoObjectSelectsFields)]));
    }
  }

  /** The duplicate-pair pass, reporting on the outcome so far; a null entry throws. */
  method CheckDuplicateKeys(objects: seq<(string, ObjectConfig)>, before: Outcome) returns (r: Run)
    ensures NullEntry(objects) ==> r == Threw
    ensures !NullEntry(objects) ==>
      r == Returned(before.(isValid := before.isValid && DuplicateKeyErrors(objects) == [],
                            errors := before.errors + DuplicateKeyErrors(objects)))
  {
    var threw, found := FindDuplicates(objects, KeysOf(objects));
    if threw {
      return Threw;
    }
    r := Returned(before.(isValid := before.isValid && found == [], errors := before.errors + found));
  }

  /**
   * The loop of that pass over the entries and their object-and-key pairs,
   * keeping the pairs seen so far in `foreignKeys`; it stops, throwing, at
   * the first null entry.
   */
  method FindDuplicates(objects: seq<(string, ObjectConfig)>, ks: seq<Option<string>>) returns (threw: bool, found: seq<Message>)
    requires |ks| == |objects|
    ensures threw <==> NullEntry(objects)
    ensures !threw ==> found == Duplicates(ks)
  {
    var foreignKeys: seq<string> := [];
    found := [];
    var i := 0;
    while i < |ks|
      invariant 0 <= i <= |ks|
      invariant forall t :: 0 <= t < i ==> !IsNull(objects[t])
      invariant forall k :: k in foreignKeys <==> k in MapSomes(Id, ks[..i])
      invariant found == Duplicates(ks[..i])
    {
      if IsNull(objects[i]) {
        NullEntryAt(objects, i);
        return true, found;
      }
      foreignKeys, found := AddKey(ks, i, foreignKeys, found);
      i := i + 1;
    }
    assert ks[..|ks|] == ks;
    NoNullEntry(objects);
    threw := false;
  }

  /** One entry's key in that loop: reported when already seen, remembered otherwise. */
  method AddKey(ks: seq<Option<string>>, i: nat, foreignKeys0: seq<string>, found0: seq<Message>)
    returns (foreignKeys: seq<string>, found: seq<Message>)
    requires i < |ks|
    requires forall k :: k in foreignKeys0 <==> k in MapSomes(Id, ks[..i])
    requires found0 == Duplicates(ks[..i])
    ensures forall k :: k in foreignKeys <==> k in MapSomes(Id, ks[..i + 1])
    ensures found == Duplicates(ks[..i + 1])
  {
    foreignKeys, found := foreignKeys0, found0;
    var key := ks[i];
    DuplicatesStep(ks, i);
    MapSomesStep(Id, ks, i, key);
    if key.Some? {
      if key.value in foreignKeys {
        found := found + [Plain(DuplicateKey(key.value))];
      } else {
        foreignKeys := foreignKeys + [key.value];
      }
    }
  }

  lemma DuplicatesStep(ks: seq<Option<string>>, i: nat)
    requires i < |ks|
    ensures Duplicates(ks[..i + 1]) == Duplicates(ks[..i])
        + if ks[i].Some? && ks[i].value in MapSomes(Id, ks[..i]) then [Plain(DuplicateKey(ks[i].value))] else []
  {
    assert ks[..i + 1][..i] == ks[..i];
  }

  /** `Object.values(config).filter(obj => obj.Fields && obj.Fields.length > 0).length`. */
  method CountSelecting(objects: seq<(string, ObjectConfig)>) returns (n: nat)
    ensures n == 0 <==> forall t :: 0 <= t < |objects| ==> !SelectsFields(objects[t].1)
  {
    n := 0;
    var i := 0;
    while i < |objects|
      invariant 0 <= i <= |objects|
      invariant n == 0 <==> forall t :: 0 <= t < i ==> !SelectsFields(objects[t].1)
    {
      if SelectsFields(objects[i].1) {
        n := n + 1;
      }
      i := i + 1;
    }
  }

  /**
   * `MockValidator.validateConfig`: the real checks run, then the result is
   * declared valid with no errors; when the real checks throw, so does the mock.
   */
  method MockValidateConfig(parse: DateParser, c: Config) returns (r: Run)
    ensures r.Threw? <==> c.Entries? && NullEntry(c.objects)
    ensures r.Returned? ==> r.outcome.isValid && r.outcome.errors == []
    ensures r.Returned? ==> r.outcome.warnings == ConfigOutcome(parse, c, true).warnings
  {
    r := ValidateConfig(parse, c);
    if r.Returned? {
      r := Returned(r.outcome.(isValid := true, errors := []));
    }
  }
}
