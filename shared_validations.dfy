// The shared validation library: a result object that collects errors and
// warnings, and the validators for orgs, object field paths and comparison
// configurations that fill it.

module SharedValidations {
  import opened Common

  // ---------------------------------------------------------------------
  // Issues

  /** The message of an issue. */
  datatype Message =
    | OrgRequired
    | UsernameRequired
    | OrgIdRequired
    | UrlRequired
    | UrlFormat
    | OrgIdFormat
    | FieldNotString
    | FieldFormat
    | DepthExceeded
    | ConfigNotObject
    | OrgsRequired
    | TooFewOrgs
    | ObjectsRequired
    | NoObjects
    | DateFiltersNotObject
    | DateFormat(key: string)
    | InOrg(index: nat, inner: Message)
  {
    function Text(): string
    {
      match this
      case OrgRequired => "Org object is required"
      case UsernameRequired => "Username is required"
      case OrgIdRequired => "Org ID is required"
      case UrlRequired => "Instance URL is required"
      case UrlFormat => "Invalid instance URL format"
      case OrgIdFormat => "Invalid Org ID format"
      case FieldNotString => "Object field must be a string"
      case FieldFormat => "Invalid object field format"
      case DepthExceeded => "Maximum lookup depth exceeded (1 level)"
      case ConfigNotObject => "Config must be an object"
      case OrgsRequired => "Orgs array is required"
      case TooFewOrgs => "At least 2 orgs required for comparison"
      case ObjectsRequired => "Objects array is required"
      case NoObjects => "At least 1 object required"
      case DateFiltersNotObject => "Date filters must be an object"
      case DateFormat(key) => "Invalid date format for " + key
      case InOrg(index, inner) => "Org " + NatToString(index + 1) + ": " + inner.Text()
    }
  }

  /** The field an issue names; `NoField` is a null field. */
  datatype FieldRef = NoField | Named(name: string) | InOrgs(index: nat, inner: FieldRef)
  {
    function Text(): Option<string>
    {
      match this
      case NoField => None
      case Named(name) => Some(name)
      case InOrgs(index, inner) =>
        Some("orgs[" + NatToString(index) + "]." + (if inner.Text().Some? then inner.Text().value else "null"))
    }
  }

  datatype Code = RequiredField | InvalidFormat | MaxDepthExceeded | MinCount | InvalidType | InvalidDate
  {
    function Text(): string
    {
      match this
      case RequiredField => "REQUIRED_FIELD"
      case InvalidFormat => "INVALID_FORMAT"
      case MaxDepthExceeded => "MAX_DEPTH_EXCEEDED"
      case MinCount => "MIN_COUNT"
      case InvalidType => "INVALID_TYPE"
      case InvalidDate => "INVALID_DATE"
    }
  }

  /** An error or a warning, as pushed by `addError` / `addWarning`. */
  datatype Kind = Error | Warning

  datatype Issue = Issue(message: Message, field: FieldRef, code: Option<Code>, kind: Kind)

  // ---------------------------------------------------------------------
  // ValidationResult

  /** Collects issues; it is valid until the first error is added. */
  class ValidationResult {
    var isValid: bool
    var errors: seq<Issue>
    var warnings: seq<Issue>

    /** The result holds no error exactly while it is valid. */
    ghost predicate Valid()
      reads this
    {
      isValid <==> errors == []
    }

    constructor()
      ensures Valid()
      ensures isValid && errors == [] && warnings == []
    {
      isValid := true;
      errors := [];
      warnings := [];
    }

    /** `addError`: records an error and marks the result invalid. */
    method AddError(message: Message, field: FieldRef, code: Option<Code>)
      modifies this
      ensures Valid() && !isValid
      ensures errors == old(errors) + [Issue(message, field, code, Error)]
      ensures warnings == old(warnings)
    {
      isValid := false;
      errors := errors + [Issue(message, field, code, Error)];
    }

    /** `addWarning`: records a warning and leaves validity as it was. */
    method AddWarning(message: Message, field: FieldRef, code: Option<Code>)
      requires Valid()
      modifies this
      ensures Valid() && isValid == old(isValid)
      ensures warnings == old(warnings) + [Issue(message, field, code, Warning)]
      ensures errors == old(errors)
    {
      warnings := warnings + [Issue(message, field, code, Warning)];
    }

    function HasErrors(): (b: bool)
      reads this
      requires Valid()
      ensures b <==> !isValid
    {
      |errors| > 0
    }

    function HasWarnings(): (b: bool)
      reads this
      ensures b <==> warnings != []
    {
      |warnings| > 0
    }

    /** `getAllIssues`: the errors, then the warnings. */
    function AllIssues(): (r: seq<Issue>)
      reads this
      ensures |r| == |errors| + |warnings|
      ensures r[..|errors|] == errors && r[|errors|..] == warnings
    {
      errors + warnings
    }
  }

  // ---------------------------------------------------------------------
  // Orgs

  /**
   * An org entry. `NoOrg` is a missing (falsy) entry; an empty string stands
   * for a missing or falsy property.
   */
  datatype Org = NoOrg | Org(username: string, orgId: string, instanceUrl: string)

  predicate IsAlnum(c: char) { IsAsciiLetter(c) || IsDigit(c) }

  /** `/^[a-zA-Z0-9]{15,18}$/`. */
  predicate IsOrgId(s: string)
  {
    15 <= |s| <= 18 && forall k :: 0 <= k < |s| ==> IsAlnum(s[k])
  }

  function RequiredError(message: Message, field: string): Issue
  {
    Issue(message, Named(field), Some(RequiredField), Error)
  }

  function FormatError(message: Message, field: string): Issue
  {
    Issue(message, Named(field), Some(InvalidFormat), Error)
  }

  /** The errors `validateOrg` reports; `urlParses` stands for `new URL` accepting its argument. */
  function OrgErrors(org: Org, urlParses: string -> bool): seq<Issue>
  {
    if org.NoOrg? then [Issue(OrgRequired, NoField, None, Error)]
    else
      (if org.username != "" then [] else [RequiredError(UsernameRequired, "username")])
      + (if org.orgId != "" then [] else [RequiredError(OrgIdRequired, "orgId")])
      + (if org.instanceUrl != "" then [] else [RequiredError(UrlRequired, "instanceUrl")])
      + (if org.instanceUrl == "" || urlParses(org.instanceUrl) then [] else [FormatError(UrlFormat, "instanceUrl")])
      + (if org.orgId == "" || IsOrgId(org.orgId) then [] else [FormatError(OrgIdFormat, "orgId")])
  }

  /** An org passes exactly when it has a username, a well-formed org id and a parseable instance URL. */
  lemma OrgErrorsSpec(org: Org, urlParses: string -> bool)
    ensures OrgErrors(org, urlParses) == [] <==>
      org.Org? && org.username != "" && IsOrgId(org.orgId) && org.instanceUrl != "" && urlParses(org.instanceUrl)
    ensures forall k :: 0 <= k < |OrgErrors(org, urlParses)| ==> OrgErrors(org, urlParses)[k].kind == Error
  {
  }

  /** `validateOrg`. */
  method ValidateOrg(org: Org, urlParses: string -> bool) returns (result: ValidationResult)
    ensures fresh(result) && result.Valid()
    ensures result.errors == OrgErrors(org, urlParses) && result.warnings == []
  {
    result := new ValidationResult();
    if org.NoOrg? {
      result.AddError(OrgRequired, NoField, None);
      return;
    }
    if org.username == "" {
      result.AddError(UsernameRequired, Named("username"), Some(RequiredField));
    }
    if org.orgId == "" {
      result.AddError(OrgIdRequired, Named("orgId"), Some(RequiredField));
    }
    if org.instanceUrl == "" {
      result.AddError(UrlRequired, Named("instanceUrl"), Some(RequiredField));
    }
    if org.instanceUrl != "" && !urlParses(org.instanceUrl) {
      result.AddError(UrlFormat, Named("instanceUrl"), Some(InvalidFormat));
    }
    if org.orgId != "" && !IsOrgId(org.orgId) {
      result.AddError(OrgIdFormat, Named("orgId"), Some(InvalidFormat));
    }
  }

  // ---------------------------------------------------------------------
  // Object field paths

  /** One segment of a field path: `[a-zA-Z_][a-zA-Z0-9_]*`. */
  predicate IsSegment(s: string)
  {
    |s| > 0 && (IsAsciiLetter(s[0]) || s[0] == '_') && forall k :: 0 <= k < |s| ==> IsWordChar(s[k])
  }

  /**
   * `/^[a-zA-Z_][a-zA-Z0-9_]*(\.[a-zA-Z_][a-zA-Z0-9_]*)*$/`: segments
   * separated by single dots. A segment holds no dot, so this is every piece
   * of the split on `.` being a segment.
   */
  predicate IsFieldPath(s: string)
  {
    var parts := Split(s, '.');
    forall k :: 0 <= k < |parts| ==> IsSegment(parts[k])
  }

  /** A field path given as a value; anything but a non-empty string is rejected first. */
  function ObjectFieldErrors(objectField: Value): seq<Issue>
  {
    if !(objectField.Str? && objectField.s != "") then [Issue(FieldNotString, NoField, None, Error)]
    else
      var s := objectField.s;
      (if IsFieldPath(s) then [] else [Issue(FieldFormat, Named("objectField"), Some(InvalidFormat), Error)])
      + (if |Split(s, '.')| > 3 then [Issue(DepthExceeded, Named("objectField"), Some(MaxDepthExceeded), Error)] else [])
  }

  /** `validateObjectField`. */
  method ValidateObjectField(objectField: Value) returns (result: ValidationResult)
    ensures fresh(result) && result.Valid()
    ensures result.errors == ObjectFieldErrors(objectField) && result.warnings == []
  {
    result := new ValidationResult();
    if !(objectField.Str? && objectField.s != "") {
      result.AddError(FieldNotString, NoField, None);
      return;
    }
    var s := objectField.s;
    if !IsFieldPath(s) {
      result.AddError(FieldFormat, Named("objectField"), Some(InvalidFormat));
    }
    var parts := Split(s, '.');
    if |parts| > 3 {
      result.AddError(DepthExceeded, Named("objectField"), Some(MaxDepthExceeded));
    }
  }

  lemma {:induction false} CountCons(x: char, c: char, s: string)
    ensures Count(x, [c] + s) == (if c == x then 1 else 0) + Count(x, s)
    decreases |s|
  {
    if s != [] {
      var t := [c] + s;
      assert t[..|t| - 1] == [c] + s[..|s| - 1];
      CountCons(x, c, s[..|s| - 1]);
    }
  }

  /** A string splits into one more piece than it holds separators. */
  lemma {:induction false} SplitCount(s: string, sep: char)
    ensures |Split(s, sep)| == Count(sep, s) + 1
    decreases |s|
  {
    if s != [] {
      SplitCount(s[1..], sep);
      CountCons(sep, s[0], s[1..]);
      assert [s[0]] + s[1..] == s;
    }
  }

  /**
   * The depth error is reported exactly for a string with more than two
   * dots, that is more than one lookup hop past the object; the path is
   * accepted when it is well-formed and at most that deep.
   */
  lemma ObjectFieldSpec(s: string)
    requires s != ""
    ensures Issue(DepthExceeded, Named("objectField"), Some(MaxDepthExceeded), Error) in ObjectFieldErrors(Str(s)) <==> Count('.', s) > 2
    ensures ObjectFieldErrors(Str(s)) == [] <==> IsFieldPath(s) && Count('.', s) <= 2
  {
    SplitCount(s, '.');
  }

  // ---------------------------------------------------------------------
  // Configurations

  /** A property holding a list: missing or not an array, or the array's elements. */
  datatype ListProp<T> = NotList | List(items: seq<T>)

  /** `dateFilters`: falsy, a truthy non-object, or an object's entries. */
  datatype DateFilters = NoDateFilters | NotAnObject | Entries(entries: seq<(string, Value)>)

  datatype Config = NotObject | Config(orgs: ListProp<Org>, objects: ListProp<Value>, dateFilters: DateFilters)

  /** The errors of one org, numbered and re-pointed at its place in `orgs`. */
  function InOrgIssues(index: nat, issues: seq<Issue>): (r: seq<Issue>)
    ensures |r| == |issues|
    ensures forall k :: 0 <= k < |issues| ==>
      r[k] == Issue(InOrg(index, issues[k].message), InOrgs(index, issues[k].field), issues[k].code, Error)
  {
    if issues == [] then []
    else
      var e := issues[|issues| - 1];
      InOrgIssues(index, issues[..|issues| - 1]) + [Issue(InOrg(index, e.message), InOrgs(index, e.field), e.code, Error)]
  }

  /** The errors of each org, position for position. */
  function OrgErrorLists(orgs: seq<Org>, urlParses: string -> bool): (r: seq<seq<Issue>>)
    ensures |r| == |orgs|
    ensures forall j :: 0 <= j < |orgs| ==> r[j] == OrgErrors(orgs[j], urlParses)
  {
    if orgs == [] then [] else OrgErrorLists(orgs[..|orgs| - 1], urlParses) + [OrgErrors(orgs[|orgs| - 1], urlParses)]
  }

  /** Lists of errors, each numbered by its position. */
  function Numbered(lists: seq<seq<Issue>>): seq<Issue>
  {
    if lists == [] then []
    else
      var n := |lists| - 1;
      Numbered(lists[..n]) + InOrgIssues(n, lists[n])
  }

  /** The errors of every org in the list, org by org. */
  function OrgListErrors(orgs: seq<Org>, urlParses: string -> bool): seq<Issue>
  {
    Numbered(OrgErrorLists(orgs, urlParses))
  }

  function OrgsErrors(orgs: ListProp<Org>, urlParses: string -> bool): seq<Issue>
  {
    match orgs
    case NotList => [RequiredError(OrgsRequired, "orgs")]
    case List(items) =>
      if |items| < 2 then [Issue(TooFewOrgs, Named("orgs"), Some(MinCount), Error)]
      else OrgListErrors(items, urlParses)
  }

  function ObjectsErrors(objects: ListProp<Value>): seq<Issue>
  {
    match objects
    case NotList => [RequiredError(ObjectsRequired, "objects")]
    case List(items) => if |items| == 0 then [Issue(NoObjects, Named("objects"), Some(MinCount), Error)] else []
  }

  function DateEntryError(dateParses: Value -> bool, entry: (string, Value)): Option<Issue>
  {
    if Truthy(entry.1) && !dateParses(entry.1)
    then Some(Issue(DateFormat(entry.0), Named("dateFilters." + entry.0), Some(InvalidDate), Error))
    else None
  }

  /** `validateDateFilters`; `dateParses` stands for `new Date` giving a valid date. */
  function DateFilterErrors(filters: DateFilters, dateParses: Value -> bool): seq<Issue>
  {
    match filters
    case NoDateFilters => []
    case NotAnObject => [Issue(DateFiltersNotObject, Named("dateFilters"), Some(InvalidType), Error)]
    case Entries(entries) => DateEntriesErrors(entries, dateParses)
  }

  /** One error per entry whose value is truthy and not a date, in entry order. */
  function DateEntriesErrors(entries: seq<(string, Value)>, dateParses: Value -> bool): seq<Issue>
  {
    if entries == [] then []
    else
      var n := |entries| - 1;
      var e := DateEntryError(dateParses, entries[n]);
      DateEntriesErrors(entries[..n], dateParses) + if e.Some? then [e.value] else []
  }

  /** The date-filter errors name exactly the entries with a truthy value that is not a date. */
  lemma DateEntriesErrorsSpec(entries: seq<(string, Value)>, dateParses: Value -> bool, key: string)
    ensures DateFormat(key) in Messages(DateEntriesErrors(entries, dateParses)) <==>
      exists k :: 0 <= k < |entries| && entries[k].0 == key && Truthy(entries[k].1) && !dateParses(entries[k].1)
  {
    var issues := DateEntriesErrors(entries, dateParses);
    if DateFormat(key) in Messages(issues) {
      var i :| 0 <= i < |issues| && Messages(issues)[i] == DateFormat(key);
      var k := DateErrorFrom(entries, dateParses, i);
    }
    if exists k :: 0 <= k < |entries| && entries[k].0 == key && Truthy(entries[k].1) && !dateParses(entries[k].1) {
      var k :| 0 <= k < |entries| && entries[k].0 == key && Truthy(entries[k].1) && !dateParses(entries[k].1);
      var i := DateErrorFor(entries, dateParses, k);
      assert Messages(issues)[i] == DateFormat(key);
    }
  }

  /** Each date error is the error of an entry with a truthy value that is not a date. */
  lemma {:induction false} DateErrorFrom(entries: seq<(string, Value)>, dateParses: Value -> bool, i: nat) returns (k: nat)
    requires i < |DateEntriesErrors(entries, dateParses)|
    ensures k < |entries| && Truthy(entries[k].1) && !dateParses(entries[k].1)
    ensures DateEntriesErrors(entries, dateParses)[i] == DateEntryError(dateParses, entries[k]).value
  {
    var n := |entries| - 1;
    var init := entries[..n];
    var pre := DateEntriesErrors(init, dateParses);
    if i < |pre| {
      k := DateErrorFrom(init, dateParses, i);
      assert init[k] == entries[k];
    } else {
      k := n;
    }
  }

  /** Every entry with a truthy value that is not a date gets its date error. */
  lemma {:induction false} DateErrorFor(entries: seq<(string, Value)>, dateParses: Value -> bool, k: nat) returns (i: nat)
    requires k < |entries| && Truthy(entries[k].1) && !dateParses(entries[k].1)
    ensures i < |DateEntriesErrors(entries, dateParses)|
    ensures DateEntriesErrors(entries, dateParses)[i] == DateEntryError(dateParses, entries[k]).value
  {
    var n := |entries| - 1;
    var init := entries[..n];
    var pre := DateEntriesErrors(init, dateParses);
    if k < n {
      assert init[k] == entries[k];
      i := DateErrorFor(init, dateParses, k);
    } else {
      i := |pre|;
    }
  }

  /** The errors `validateConfig` reports: the orgs, then the objects, then the date filters. */
  function ConfigErrors(config: Config, urlParses: string -> bool, dateParses: Value -> bool): seq<Issue>
  {
    match config
    case NotObject => [Issue(ConfigNotObject, NoField, None, Error)]
    case Config(orgs, objects, filters) =>
      OrgsErrors(orgs, urlParses) + ObjectsErrors(objects) + DateFilterErrors(filters, dateParses)
  }

  /** An error of the numbered lists names a list and is one of that list's own errors. */
  lemma {:induction false} NumberedMembers(lists: seq<seq<Issue>>, i: nat, m: Message)
    ensures InOrg(i, m) in Messages(Numbered(lists)) <==> i < |lists| && m in Messages(lists[i])
  {
    if lists != [] {
      var n := |lists| - 1;
      NumberedMembers(lists[..n], i, m);
      MessagesAppend(Numbered(lists[..n]), InOrgIssues(n, lists[n]));
      InOrgMessages(n, lists[n], i, m);
    }
  }

  /** The numbered lists hold no error exactly when every list is empty. */
  lemma {:induction false} NumberedEmpty(lists: seq<seq<Issue>>)
    ensures Numbered(lists) == [] <==> forall j :: 0 <= j < |lists| ==> lists[j] == []
  {
    if lists != [] {
      var n := |lists| - 1;
      NumberedEmpty(lists[..n]);
      assert forall j :: 0 <= j < n ==> lists[..n][j] == lists[j];
    }
  }

  /** The messages of a list of issues. */
  function Messages(issues: seq<Issue>): (r: seq<Message>)
    ensures |r| == |issues|
    ensures forall k :: 0 <= k < |issues| ==> r[k] == issues[k].message
  {
    if issues == [] then [] else Messages(issues[..|issues| - 1]) + [issues[|issues| - 1].message]
  }

  lemma MessagesAppend(a: seq<Issue>, b: seq<Issue>)
    ensures Messages(a + b) == Messages(a) + Messages(b)
  {
  }

  lemma InOrgMessages(index: nat, issues: seq<Issue>, i: nat, m: Message)
    ensures InOrg(i, m) in Messages(InOrgIssues(index, issues)) <==> i == index && m in Messages(issues)
  {
    var r := InOrgIssues(index, issues);
    if InOrg(i, m) in Messages(r) {
      var k :| 0 <= k < |r| && Messages(r)[k] == InOrg(i, m);
      assert r[k].message == InOrg(index, issues[k].message);
    }
    if i == index && m in Messages(issues) {
      var k :| 0 <= k < |issues| && Messages(issues)[k] == m;
      assert Messages(r)[k] == InOrg(i, m);
    }
  }

  /** An org's error is reported under its number, and only its errors are. */
  lemma OrgListErrorsSpec(orgs: seq<Org>, urlParses: string -> bool, i: nat, m: Message)
    requires i < |orgs|
    ensures InOrg(i, m) in Messages(OrgListErrors(orgs, urlParses)) <==> m in Messages(OrgErrors(orgs[i], urlParses))
  {
    NumberedMembers(OrgErrorLists(orgs, urlParses), i, m);
  }

  /**
   * A configuration passes only as an object with at least two orgs, every
   * one of them passing, and at least one object.
   */
  lemma ConfigErrorsSpec(config: Config, urlParses: string -> bool, dateParses: Value -> bool)
    ensures ConfigErrors(config, urlParses, dateParses) == [] ==>
      && config.Config?
      && config.orgs.List? && |config.orgs.items| >= 2
      && (forall j :: 0 <= j < |config.orgs.items| ==> OrgErrors(config.orgs.items[j], urlParses) == [])
      && config.objects.List? && |config.objects.items| >= 1
    ensures config.Config? && config.orgs.List? && |config.orgs.items| < 2 ==>
      Issue(TooFewOrgs, Named("orgs"), Some(MinCount), Error) in ConfigErrors(config, urlParses, dateParses)
  {
    if config.Config? {
      var o := OrgsErrors(config.orgs, urlParses);
      var b := ObjectsErrors(config.objects);
      var d := DateFilterErrors(config.dateFilters, dateParses);
      assert ConfigErrors(config, urlParses, dateParses) == o + b + d;
      if o + b + d == [] {
        assert o == [] && b == [];
      }
      if config.orgs.List? && |config.orgs.items| >= 2 {
        var lists := OrgErrorLists(config.orgs.items, urlParses);
        NumberedEmpty(lists);
        assert o == Numbered(lists);
      }
      if config.orgs.List? && |config.orgs.items| < 2 {
        assert (o + b + d)[0] == o[0];
      }
    }
  }

  // ---------------------------------------------------------------------
  // The validator

  /** `validateConfig`: the orgs, then the objects, then the date filters. */
  method ValidateConfig(config: Config, urlParses: string -> bool, dateParses: Value -> bool) returns (result: ValidationResult)
    ensures fresh(result) && result.Valid()
    ensures result.errors == ConfigErrors(config, urlParses, dateParses) && result.warnings == []
  {
    result := new ValidationResult();
    if config.NotObject? {
      result.AddError(ConfigNotObject, NoField, None);
      return;
    }
    match config.orgs {
      case NotList =>
        result.AddError(OrgsRequired, Named("orgs"), Some(RequiredField));
      case List(orgs) =>
        if |orgs| < 2 {
          result.AddError(TooFewOrgs, Named("orgs"), Some(MinCount));
        } else {
          AddOrgErrors(result, orgs, urlParses);
        }
    }
    assert result.errors == OrgsErrors(config.orgs, urlParses);
    match config.objects {
      case NotList =>
        result.AddError(ObjectsRequired, Named("objects"), Some(RequiredField));
      case List(objects) =>
        if |objects| == 0 {
          result.AddError(NoObjects, Named("objects"), Some(MinCount));
        }
    }
    assert result.errors == OrgsErrors(config.orgs, urlParses) + ObjectsErrors(config.objects);
    match config.dateFilters {
      case NoDateFilters =>
      case NotAnObject =>
        result.AddError(DateFiltersNotObject, Named("dateFilters"), Some(InvalidType));
      case Entries(entries) =>
        AddDateErrors(result, entries, dateParses);
    }
    assert result.errors == OrgsErrors(config.orgs, urlParses) + ObjectsErrors(config.objects) + DateFilterErrors(config.dateFilters, dateParses);
  }

  /** The `forEach` over the orgs: each org's errors, numbered. */
  method AddOrgErrors(result: ValidationResult, orgs: seq<Org>, urlParses: string -> bool)
    requires result.Valid()
    modifies result
    ensures result.Valid() && result.warnings == old(result.warnings)
    ensures result.errors == old(result.errors) + OrgListErrors(orgs, urlParses)
  {
    ghost var lists := OrgErrorLists(orgs, urlParses);
    var index := 0;
    while index < |orgs|
      invariant 0 <= index <= |orgs|
      invariant result.Valid() && result.warnings == old(result.warnings)
      invariant result.errors == old(result.errors) + Numbered(lists[..index])
    {
      NumberedStep(lists, index);
      AppendAssoc(old(result.errors), Numbered(lists[..index]), InOrgIssues(index, lists[index]));
      AddOneOrg(result, orgs, index, urlParses);
      index := index + 1;
    }
    assert lists[..|orgs|] == lists;
  }

  /** The body of that `forEach` for the org at `index`. */
  method AddOneOrg(result: ValidationResult, orgs: seq<Org>, index: nat, urlParses: string -> bool)
    requires result.Valid() && index < |orgs|
    modifies result
    ensures result.Valid() && result.warnings == old(result.warnings)
    ensures result.errors == old(result.errors) + InOrgIssues(index, OrgErrorLists(orgs, urlParses)[index])
  {
    var orgResult := ValidateOrg(orgs[index], urlParses);
    if orgResult.HasErrors() {
      CopyOrgErrors(result, index, orgResult.errors);
    }
  }

  lemma NumberedStep(lists: seq<seq<Issue>>, index: nat)
    requires index < |lists|
    ensures Numbered(lists[..index + 1]) == Numbered(lists[..index]) + InOrgIssues(index, lists[index])
    ensures lists[index] == [] ==> InOrgIssues(index, lists[index]) == []
  {
    assert lists[..index + 1][..index] == lists[..index];
  }

  /** The inner `forEach`: one numbered error per error of the org. */
  method CopyOrgErrors(result: ValidationResult, index: nat, errors: seq<Issue>)
    requires result.Valid()
    modifies result
    ensures result.Valid() && result.warnings == old(result.warnings)
    ensures result.errors == old(result.errors) + InOrgIssues(index, errors)
  {
    for j := 0 to |errors|
      invariant result.Valid() && result.warnings == old(result.warnings)
      invariant result.errors == old(result.errors) + InOrgIssues(index, errors[..j])
    {
      var error := errors[j];
      result.AddError(InOrg(index, error.message), InOrgs(index, error.field), error.code);
      assert errors[..j + 1][..j] == errors[..j];
    }
    assert errors[..|errors|] == errors;
  }

  /** The `forEach` over the date-filter entries. */
  method AddDateErrors(result: ValidationResult, entries: seq<(string, Value)>, dateParses: Value -> bool)
    requires result.Valid()
    modifies result
    ensures result.Valid() && result.warnings == old(result.warnings)
    ensures result.errors == old(result.errors) + DateEntriesErrors(entries, dateParses)
  {
    for i := 0 to |entries|
      invariant result.Valid() && result.warnings == old(result.warnings)
      invariant result.errors == old(result.errors) + DateEntriesErrors(entries[..i], dateParses)
    {
      var (key, value) := entries[i];
      assert entries[..i + 1][..i] == entries[..i];
      if Truthy(value) && !dateParses(value) {
        result.AddError(DateFormat(key), Named("dateFilters." + key), Some(InvalidDate));
      }
    }
    assert entries[..|entries|] == entries;
  }
}
