/**
 * The SOQL side of the data-comparison fetcher: building the query that
 * reads one object from one org (the selected fields with relationship paths
 * rewritten, the foreign key, the org's filters, ordering and a row limit),
 * and validating an object configuration and a whole configuration before
 * any query is built.
 *
 * JavaScript values are narrowed to what the code distinguishes: a string
 * that is absent, null or empty is "", a field list that is missing or not
 * an array is None, an absent `orgFilters` or `objects` object is the empty
 * entry list, and object entries keep their insertion order.
 */
module SoqlBuilder {
  import opened Common

  /** `customFilters` of an org: absent, an array, or (wrongly) a bare string. */
  datatype Custom = Absent | List(items: seq<string>) | Text(s: string)

  /** The filters one org applies to one object (`orgFilters[org]`). */
  datatype Filters = Filters(
    activeCondition: string,
    dateFilterType: string,
    dateFrom: string,
    dateTo: string,
    customFilter: string,
    customFilters: Custom,
    limit: Option<int>)

  /** No filters at all (`|| {}` when the org has no entry). */
  const NoFilters := Filters("", "", "", "", "", Absent, None)

  /** One object's configuration. */
  datatype ObjectConfig = ObjectConfig(
    fields: Option<seq<string>>,
    foreignKey: string,
    orgFilters: seq<(string, Filters)>)

  /** The whole configuration. */
  datatype Config = Config(orgs: Option<seq<string>>, objects: seq<(string, ObjectConfig)>)

  // ---------------------------------------------------------------------
  // SELECT list

  /** A `__c.` relationship path is read through `__r.` unless it already uses `__r.`. */
  function RelationshipField(field: string): (r: string)
    ensures !Contains(field, "__c.") || Contains(field, "__r.") ==> r == field
  {
    if Contains(field, "__c.") && !Contains(field, "__r.") then ReplaceAll(field, "__c.", "__r.") else field
  }

  /** The rewritten field list, position for position. */
  function SelectFields(fields: seq<string>): (r: seq<string>)
    ensures |r| == |fields|
    ensures forall k :: 0 <= k < |fields| ==> r[k] == RelationshipField(fields[k])
  {
    if fields == [] then [] else SelectFields(fields[..|fields| - 1]) + [RelationshipField(fields[|fields| - 1])]
  }

  /** True when the foreign key is put in front of the selected fields. */
  predicate PrependsKey(fields: seq<string>, foreignKey: string)
  {
    foreignKey != "" && foreignKey !in fields
  }

  /**
   * The selected columns: the foreign key first when the caller did not select
   * it, then every field in the caller's order. A key that is not a `__c.` path
   * is always selected.
   */
  function SelectItems(fields: seq<string>, foreignKey: string): (r: seq<string>)
    ensures |r| == |fields| + if PrependsKey(fields, foreignKey) then 1 else 0
    ensures var off := if PrependsKey(fields, foreignKey) then 1 else 0;
      forall k :: 0 <= k < |fields| ==> r[off + k] == RelationshipField(fields[k])
    ensures PrependsKey(fields, foreignKey) ==> r[0] == foreignKey
    ensures foreignKey != "" && (!Contains(foreignKey, "__c.") || Contains(foreignKey, "__r.")) ==> foreignKey in r
  {
    var sel := SelectFields(fields);
    if PrependsKey(fields, foreignKey) then [foreignKey] + sel
    else
      assert foreignKey != "" ==> exists k :: 0 <= k < |fields| && fields[k] == foreignKey && sel[k] == RelationshipField(foreignKey);
      sel
  }

  // ---------------------------------------------------------------------
  // WHERE clauses

  /** The upper date bound: `dateTo`, or today's date when it is not given. */
  function DateTo(f: Filters, today: string): string
  {
    if f.dateTo != "" then f.dateTo else today
  }

  /** A date range applies only when both the field and the lower bound are given. */
  predicate HasDateRange(f: Filters)
  {
    f.dateFilterType != "" && f.dateFrom != ""
  }

  function DateClauses(f: Filters, today: string): (r: seq<string>)
    ensures HasDateRange(f) ==> r == [f.dateFilterType + " >= " + f.dateFrom, f.dateFilterType + " <= " + DateTo(f, today)]
    ensures !HasDateRange(f) ==> r == []
  {
    if HasDateRange(f) then [f.dateFilterType + " >= " + f.dateFrom, f.dateFilterType + " <= " + DateTo(f, today)] else []
  }

  /** The custom filters as a list: the singular one wins over the plural one, a bare string stands alone. */
  function CustomList(f: Filters): seq<string>
  {
    if f.customFilter != "" then [f.customFilter]
    else match f.customFilters
      case Absent => []
      case List(items) => items
      case Text(s) => [s]
  }

  /** A custom filter becomes a parenthesised clause unless it is blank. */
  function CustomClause(filter: string): Option<string>
  {
    if IsBlank(filter) then None else Some("(" + filter + ")")
  }

  function CustomClauses(f: Filters): seq<string>
  {
    MapSomes(CustomClause, CustomList(f))
  }

  function WhereClauses(f: Filters, today: string): seq<string>
  {
    (if f.activeCondition != "" then ["(" + f.activeCondition + ")"] else [])
    + DateClauses(f, today)
    + CustomClauses(f)
  }

  /**
   * The WHERE conditions: the active condition first, then the date range,
   * then the custom clauses; and the custom clauses are exactly the non-blank
   * custom filters, each wrapped in parentheses.
   */
  lemma WhereClausesSpec(f: Filters, today: string)
    ensures var w := WhereClauses(f, today);
      var a := if f.activeCondition != "" then 1 else 0;
      var d := if HasDateRange(f) then 2 else 0;
      && |w| == a + d + |CustomClauses(f)|
      && (f.activeCondition != "" ==> w[0] == "(" + f.activeCondition + ")")
      && (HasDateRange(f) ==> w[a] == f.dateFilterType + " >= " + f.dateFrom
                              && w[a + 1] == f.dateFilterType + " <= " + DateTo(f, today))
      && w[a + d..] == CustomClauses(f)
  {
  }

  /** Every non-blank custom filter gives a clause, and every custom clause comes from one. */
  lemma CustomClausesSpec(f: Filters, c: string)
    ensures c in CustomClauses(f) <==> exists t :: 0 <= t < |CustomList(f)| && !IsBlank(CustomList(f)[t]) && c == "(" + CustomList(f)[t] + ")"
  {
    MapSomesMembers(CustomClause, CustomList(f), c);
  }

  /** A filter list whose entries are all blank adds no condition. */
  lemma {:induction false} BlankFiltersIgnored(xs: seq<string>)
    requires forall k :: 0 <= k < |xs| ==> IsBlank(xs[k])
    ensures MapSomes(CustomClause, xs) == []
  {
    if xs != [] {
      BlankFiltersIgnored(xs[..|xs| - 1]);
    }
  }

  // ---------------------------------------------------------------------
  // The query

  /** `orgSpecificFilters.limit || 50000`. */
  function Limit(f: Filters): (n: int)
    ensures f.limit.None? || f.limit == Some(0) ==> n == 50000
    ensures f.limit.Some? && f.limit.value != 0 ==> n == f.limit.value
  {
    if f.limit.Some? && f.limit.value != 0 then f.limit.value else 50000
  }

  function WherePart(clauses: seq<string>): string
  {
    if |clauses| > 0 then " WHERE " + Join(clauses, " AND ") else ""
  }

  function OrderPart(foreignKey: string): string
  {
    if foreignKey != "" then " ORDER BY " + foreignKey else ""
  }

  /** `SELECT <columns> FROM <object>` with its WHERE conditions. */
  function QueryHead(select: seq<string>, objectName: string, clauses: seq<string>): string
  {
    "SELECT " + Join(select, ", ") + " FROM " + objectName + WherePart(clauses)
  }

  function LimitPart(limit: int): string
  {
    " LIMIT " + IntToString(limit)
  }

  /** The query text from its parts. */
  function QueryText(select: seq<string>, objectName: string, clauses: seq<string>, foreignKey: string, limit: int): string
  {
    QueryHead(select, objectName, clauses) + OrderPart(foreignKey) + LimitPart(limit)
  }

  /** The query for one object and one org's filters; an empty or missing field list is an error. */
  function Query(objectName: string, cfg: ObjectConfig, f: Filters, today: string): (r: Result<string>)
    ensures r.Err? <==> cfg.fields.None? || cfg.fields.value == []
  {
    if cfg.fields.None? || cfg.fields.value == [] then Err("No fields specified for object " + objectName)
    else Ok(QueryText(SelectItems(cfg.fields.value, cfg.foreignKey), objectName, WhereClauses(f, today), cfg.foreignKey, Limit(f)))
  }

  /** The pieces of a three-part concatenation can be cut back out of it. */
  lemma SplitConcat(a: string, b: string, c: string)
    ensures StartsWith(a + b + c, a)
    ensures EndsWith(a + b + c, c)
    ensures (a + b + c)[..|a + b + c| - |c|] == a + b
    ensures EndsWith(a + b, b)
  {
    assert (a + b + c)[..|a|] == a;
    assert (a + b + c)[|a + b + c| - |c|..] == c;
    assert (a + b)[|a + b| - |b|..] == b;
  }

  lemma StartsWithExtend(a: string, b: string, p: string)
    requires StartsWith(a, p)
    ensures StartsWith(a + b, p)
  {
    assert (a + b)[..|p|] == a[..|p|];
  }

  /** The query text starts with SELECT and ends with its LIMIT clause, right after ORDER BY the key when there is one. */
  lemma QueryTextShape(select: seq<string>, objectName: string, clauses: seq<string>, foreignKey: string, limit: int)
    ensures var q := QueryText(select, objectName, clauses, foreignKey, limit);
      && StartsWith(q, "SELECT ")
      && EndsWith(q, LimitPart(limit))
      && (foreignKey != "" ==> EndsWith(q[..|q| - |LimitPart(limit)|], " ORDER BY " + foreignKey))
  {
    var head := QueryHead(select, objectName, clauses);
    SplitConcat(head, OrderPart(foreignKey), LimitPart(limit));
    var s1 := "SELECT " + Join(select, ", ");
    SplitConcat("SELECT ", Join(select, ", "), "");
    assert s1 + "" == s1;
    StartsWithExtend(s1, " FROM ", "SELECT ");
    StartsWithExtend(s1 + " FROM ", objectName, "SELECT ");
    StartsWithExtend(s1 + " FROM " + objectName, WherePart(clauses), "SELECT ");
    StartsWithExtend(head, OrderPart(foreignKey), "SELECT ");
    StartsWithExtend(head + OrderPart(foreignKey), LimitPart(limit), "SELECT ");
  }

  /** The digits at the end of the LIMIT clause read back as the limit when it is not negative. */
  lemma LimitReadsBack(limit: int)
    requires limit >= 0
    ensures var p := LimitPart(limit);
      |p| > 7 && (forall k :: 7 <= k < |p| ==> IsDigit(p[k])) && ParseDigits(p[7..]) == limit
  {
    assert LimitPart(limit)[7..] == NatToString(limit);
    ParseNatToString(limit);
  }

  /** `buildSOQLQuery`: the SELECT list, then the WHERE conditions, ORDER BY and LIMIT appended in turn. */
  method BuildQuery(objectName: string, cfg: ObjectConfig, f: Filters, today: string) returns (r: Result<string>)
    ensures r == Query(objectName, cfg, f, today)
  {
    if cfg.fields.None? || cfg.fields.value == [] {
      return Err("No fields specified for object " + objectName);
    }
    var fields := cfg.fields.value;
    var foreignKey := cfg.foreignKey;
    var selectClause := Join(SelectFields(fields), ", ");
    if foreignKey != "" && foreignKey !in fields {
      JoinCons(foreignKey, SelectFields(fields), ", ");
      selectClause := foreignKey + ", " + selectClause;
    }
    assert selectClause == Join(SelectItems(fields, foreignKey), ", ");
    var query := "SELECT " + selectClause + " FROM " + objectName;
    var whereClauses := CollectWhereClauses(f, today);
    if |whereClauses| > 0 {
      query := query + (" WHERE " + Join(whereClauses, " AND "));
    }
    assert query == QueryHead(SelectItems(fields, foreignKey), objectName, whereClauses);
    if foreignKey != "" {
      query := query + (" ORDER BY " + foreignKey);
    }
    assert query == QueryHead(SelectItems(fields, foreignKey), objectName, whereClauses) + OrderPart(foreignKey);
    var limit := if f.limit.Some? && f.limit.value != 0 then f.limit.value else 50000;
    query := query + (" LIMIT " + IntToString(limit));
    r := Ok(query);
  }

  /** The `whereClauses` array, pushed condition by condition. */
  method CollectWhereClauses(f: Filters, today: string) returns (clauses: seq<string>)
    ensures clauses == WhereClauses(f, today)
  {
    clauses := [];
    if f.activeCondition != "" {
      clauses := clauses + ["(" + f.activeCondition + ")"];
    }
    if f.dateFilterType != "" && f.dateFrom != "" {
      var dateTo := if f.dateTo != "" then f.dateTo else today;
      clauses := clauses + [f.dateFilterType + " >= " + f.dateFrom];
      clauses := clauses + [f.dateFilterType + " <= " + dateTo];
    }
    assert clauses == (if f.activeCondition != "" then ["(" + f.activeCondition + ")"] else []) + DateClauses(f, today);
    clauses := PushCustomClauses(clauses, f);
  }

  /** The custom-filter part of `buildSOQLQuery`: an array is walked, a bare string is pushed on its own. */
  method PushCustomClauses(before: seq<string>, f: Filters) returns (clauses: seq<string>)
    ensures clauses == before + CustomClauses(f)
  {
    var custom := if f.customFilter != "" then List([f.customFilter])
                  else if f.customFilters == Absent || f.customFilters == Text("") then List([])
                  else f.customFilters;
    CustomOfFilters(f, custom);
    clauses := before;
    match custom {
      case List(xs) =>
        clauses := AddCustomClauses(clauses, xs);
      case Text(s) =>
        if !IsBlank(s) {
          clauses := clauses + ["(" + s + ")"];
        }
      case Absent =>
    }
  }

  /** The custom filters value after `customFilter ? [customFilter] : (customFilters || [])` gives the custom clauses. */
  lemma CustomOfFilters(f: Filters, custom: Custom)
    requires custom == if f.customFilter != "" then List([f.customFilter])
                       else if f.customFilters == Absent || f.customFilters == Text("") then List([])
                       else f.customFilters
    ensures custom.List? ==> CustomClauses(f) == MapSomes(CustomClause, custom.items)
    ensures custom.Text? ==> CustomClauses(f) == if IsBlank(custom.s) then [] else ["(" + custom.s + ")"]
    ensures !custom.Absent?
  {
    if custom.Text? {
      assert CustomList(f) == [custom.s];
      assert [custom.s][..0] == [];
      assert MapSomes(CustomClause, [custom.s]) == MapSomes(CustomClause, []) + (if IsBlank(custom.s) then [] else ["(" + custom.s + ")"]);
    } else if f.customFilter == "" && f.customFilters == Text("") {
      assert CustomList(f) == [""];
      assert [""][..0] == [];
      assert IsBlank("");
      assert MapSomes(CustomClause, [""]) == MapSomes(CustomClause, []) + [];
    }
  }

  /** The `forEach` over an array of custom filters: each non-blank one is pushed in parentheses. */
  method AddCustomClauses(before: seq<string>, xs: seq<string>) returns (clauses: seq<string>)
    ensures clauses == before + MapSomes(CustomClause, xs)
  {
    clauses := before;
    var i := 0;
    while i < |xs|
      invariant 0 <= i <= |xs|
      invariant clauses == before + MapSomes(CustomClause, xs[..i])
    {
      MapSomesStep(CustomClause, xs, i, CustomClause(xs[i]));
      if !IsBlank(xs[i]) {
        clauses := clauses + ["(" + xs[i] + ")"];
      }
      i := i + 1;
    }
    assert xs[..|xs|] == xs;
  }

  // ---------------------------------------------------------------------
  // Validation

  /** The problems the validators report; `Message` is the text pushed onto `errors`. */
  datatype ConfigError =
    | FieldsNotArray(obj: string)
    | NoFields(obj: string)
    | NoForeignKey(obj: string)
    | DateFromMissing(obj: string, org: string)
    | CustomFiltersNotArray(obj: string, org: string)
    | NoOrgs
    | NoObjects
  {
    function Message(): string
    {
      match this
      case FieldsNotArray(o) => "Object " + o + ": fields must be an array"
      case NoFields(o) => "Object " + o + ": at least one field must be specified"
      case NoForeignKey(o) => "Object " + o + ": foreignKey must be specified"
      case DateFromMissing(o, g) => "Object " + o + ", Org " + g + ": dateFrom required when dateFilterType is specified"
      case CustomFiltersNotArray(o, g) => "Object " + o + ", Org " + g + ": customFilters must be an array"
      case NoOrgs => "Configuration must include at least one organization"
      case NoObjects => "Configuration must include at least one object"
    }
  }

  /** The two checks on one org's filters. */
  function FilterErrors(obj: string, org: string, f: Filters): seq<ConfigError>
  {
    (if f.dateFilterType != "" && f.dateFrom == "" then [DateFromMissing(obj, org)] else [])
    + (if f.customFilters.Text? && f.customFilters.s != "" then [CustomFiltersNotArray(obj, org)] else [])
  }

  /** The filter errors of every org entry, in entry order. */
  function OrgFilterErrors(obj: string, entries: seq<(string, Filters)>): seq<ConfigError>
  {
    if entries == [] then []
    else
      var last := entries[|entries| - 1];
      OrgFilterErrors(obj, entries[..|entries| - 1]) + FilterErrors(obj, last.0, last.1)
  }

  /** Every error an org entry produces is reported for the object. */
  lemma {:induction false} OrgFilterErrorsHas(obj: string, entries: seq<(string, Filters)>, t: nat, e: ConfigError)
    requires t < |entries| && e in FilterErrors(obj, entries[t].0, entries[t].1)
    ensures e in OrgFilterErrors(obj, entries)
  {
    var n := |entries| - 1;
    if t < n {
      var init := entries[..n];
      assert init[t] == entries[t];
      OrgFilterErrorsHas(obj, init, t, e);
    }
  }

  /** Every org-filter error reported for the object comes from one org entry. */
  lemma {:induction false} OrgFilterErrorsFrom(obj: string, entries: seq<(string, Filters)>, e: ConfigError) returns (t: nat)
    requires e in OrgFilterErrors(obj, entries)
    ensures t < |entries| && e in FilterErrors(obj, entries[t].0, entries[t].1)
  {
    var n := |entries| - 1;
    var init := entries[..n];
    if e in OrgFilterErrors(obj, init) {
      t := OrgFilterErrorsFrom(obj, init, e);
      assert init[t] == entries[t];
    } else {
      t := n;
    }
  }

  /** The errors one org entry can produce, both ways. */
  lemma FilterErrorsSpec(obj: string, org: string, f: Filters, e: ConfigError)
    ensures e in FilterErrors(obj, org, f) <==>
      || (e == DateFromMissing(obj, org) && f.dateFilterType != "" && f.dateFrom == "")
      || (e == CustomFiltersNotArray(obj, org) && f.customFilters.Text? && f.customFilters.s != "")
  {
  }

  /** The errors `validateObjectConfig` reports for one object, in the order it reports them. */
  function ObjectErrors(obj: string, cfg: ObjectConfig): seq<ConfigError>
  {
    (if cfg.fields.None? then [FieldsNotArray(obj)] else [])
    + (if cfg.fields == Some([]) then [NoFields(obj)] else [])
    + (if cfg.foreignKey == "" then [NoForeignKey(obj)] else [])
    + OrgFilterErrors(obj, cfg.orgFilters)
  }

  /**
   * An object is flagged for a missing or non-array field list, for an empty
   * one, and for a missing foreign key, each exactly when it holds.
   */
  lemma ObjectErrorsSpec(obj: string, cfg: ObjectConfig)
    ensures var e := ObjectErrors(obj, cfg);
      && (FieldsNotArray(obj) in e <==> cfg.fields.None?)
      && (NoFields(obj) in e <==> cfg.fields == Some([]))
      && (NoForeignKey(obj) in e <==> cfg.foreignKey == "")
  {
    OrgFilterErrorsKinds(obj, cfg.orgFilters);
  }

  /** An object passes exactly when its field list is a non-empty array, it has a key, and no org's filters are flagged. */
  lemma ObjectPasses(obj: string, cfg: ObjectConfig)
    ensures var e := ObjectErrors(obj, cfg);
      (e == [] <==>
            && cfg.fields.Some? && cfg.fields.value != [] && cfg.foreignKey != ""
            && (forall t :: 0 <= t < |cfg.orgFilters| ==> FilterErrors(obj, cfg.orgFilters[t].0, cfg.orgFilters[t].1) == []))
  {
    OrgFilterErrorsEmpty(obj, cfg.orgFilters);
  }

  lemma {:induction false} OrgFilterErrorsKinds(obj: string, entries: seq<(string, Filters)>)
    ensures forall e :: e in OrgFilterErrors(obj, entries) ==> e.DateFromMissing? || e.CustomFiltersNotArray?
  {
    if entries != [] {
      OrgFilterErrorsKinds(obj, entries[..|entries| - 1]);
    }
  }

  lemma {:induction false} OrgFilterErrorsEmpty(obj: string, entries: seq<(string, Filters)>)
    ensures OrgFilterErrors(obj, entries) == [] <==>
      forall t :: 0 <= t < |entries| ==> FilterErrors(obj, entries[t].0, entries[t].1) == []
  {
    if entries != [] {
      var init := entries[..|entries| - 1];
      OrgFilterErrorsEmpty(obj, init);
      assert forall t :: 0 <= t < |init| ==> init[t] == entries[t];
    }
  }

  lemma OrgFilterErrorsStep(obj: string, entries: seq<(string, Filters)>, i: nat)
    requires i < |entries|
    ensures OrgFilterErrors(obj, entries[..i + 1]) == OrgFilterErrors(obj, entries[..i]) + FilterErrors(obj, entries[i].0, entries[i].1)
  {
    assert entries[..i + 1][..i] == entries[..i];
  }

  /** The two checks `validateObjectConfig` makes on one org's filters. */
  method CheckOrgFilters(before: seq<ConfigError>, obj: string, org: string, f: Filters) returns (errors: seq<ConfigError>)
    ensures errors == before + FilterErrors(obj, org, f)
  {
    errors := before;
    if f.dateFilterType != "" && f.dateFrom == "" {
      errors := errors + [DateFromMissing(obj, org)];
    }
    if f.customFilters.Text? && f.customFilters.s != "" {
      errors := errors + [CustomFiltersNotArray(obj, org)];
    }
  }

  /** `validateObjectConfig`: the field and key checks, then a pass over the org filters. */
  method ValidateObjectConfig(obj: string, cfg: ObjectConfig) returns (errors: seq<ConfigError>)
    ensures errors == ObjectErrors(obj, cfg)
  {
    errors := [];
    if cfg.fields.None? {
      errors := errors + [FieldsNotArray(obj)];
    }
    if cfg.fields.Some? && cfg.fields.value == [] {
      errors := errors + [NoFields(obj)];
    }
    if cfg.foreignKey == "" {
      errors := errors + [NoForeignKey(obj)];
    }
    assert errors + OrgFilterErrors(obj, cfg.orgFilters) == ObjectErrors(obj, cfg);
    errors := CheckAllOrgFilters(errors, obj, cfg.orgFilters);
  }

  method CheckAllOrgFilters(before: seq<ConfigError>, obj: string, entries: seq<(string, Filters)>) returns (errors: seq<ConfigError>)
    ensures errors == before + OrgFilterErrors(obj, entries)
  {
    errors := before;
    var i := 0;
    while i < |entries|
      invariant 0 <= i <= |entries|
      invariant errors == before + OrgFilterErrors(obj, entries[..i])
    {
      OrgFilterErrorsStep(obj, entries, i);
      errors := CheckOrgFilters(errors, obj, entries[i].0, entries[i].1);
      i := i + 1;
    }
    assert entries[..|entries|] == entries;
  }

  /** The per-object errors of every object entry, in entry order. */
  function ObjectsErrors(objects: seq<(string, ObjectConfig)>): seq<ConfigError>
  {
    if objects == [] then []
    else
      var last := objects[|objects| - 1];
      ObjectsErrors(objects[..|objects| - 1]) + ObjectErrors(last.0, last.1)
  }

  lemma {:induction false} ObjectsErrorsEmpty(objects: seq<(string, ObjectConfig)>)
    ensures ObjectsErrors(objects) == [] <==> forall t :: 0 <= t < |objects| ==> ObjectErrors(objects[t].0, objects[t].1) == []
  {
    if objects != [] {
      var init := objects[..|objects| - 1];
      ObjectsErrorsEmpty(init);
      assert forall t :: 0 <= t < |init| ==> init[t] == objects[t];
    }
  }

  lemma ObjectsErrorsStep(objects: seq<(string, ObjectConfig)>, i: nat)
    requires i < |objects|
    ensures ObjectsErrors(objects[..i + 1]) == ObjectsErrors(objects[..i]) + ObjectErrors(objects[i].0, objects[i].1)
  {
    assert objects[..i + 1][..i] == objects[..i];
  }

  function ConfigErrors(c: Config): seq<ConfigError>
  {
    (if c.orgs.None? || c.orgs.value == [] then [NoOrgs] else [])
    + (if c.objects == [] then [NoObjects] else [])
    + ObjectsErrors(c.objects)
  }

  /** A configuration passes exactly when it names an org, has an object, and every object passes. */
  lemma ConfigErrorsSpec(c: Config)
    ensures ConfigErrors(c) == [] <==>
      && c.orgs.Some? && c.orgs.value != [] && c.objects != []
      && forall t :: 0 <= t < |c.objects| ==> ObjectErrors(c.objects[t].0, c.objects[t].1) == []
  {
    ObjectsErrorsEmpty(c.objects);
  }

  /** `validateConfiguration`: the org and object checks, then every object's own errors appended. */
  method ValidateConfiguration(c: Config) returns (errors: seq<ConfigError>)
    ensures errors == ConfigErrors(c)
  {
    errors := [];
    if c.orgs.None? || c.orgs.value == [] {
      errors := errors + [NoOrgs];
    }
    if c.objects == [] {
      errors := errors + [NoObjects];
    }
    errors := CollectObjectErrors(errors, c.objects);
  }

  /** The pass of `validateConfiguration` over the object entries. */
  method CollectObjectErrors(before: seq<ConfigError>, objects: seq<(string, ObjectConfig)>) returns (errors: seq<ConfigError>)
    ensures errors == before + ObjectsErrors(objects)
  {
    errors := before;
    var i := 0;
    while i < |objects|
      invariant 0 <= i <= |objects|
      invariant errors == before + ObjectsErrors(objects[..i])
    {
      var objectErrors := ValidateObjectConfig(objects[i].0, objects[i].1);
      ObjectsErrorsStep(objects, i);
      errors := errors + objectErrors;
      i := i + 1;
    }
    assert objects[..|objects|] == objects;
  }

  // ---------------------------------------------------------------------
  // What validation guarantees for query building

  /** The filters the fetcher uses for an org: its entry, or no filters. */
  function FiltersFor(entries: seq<(string, Filters)>, org: string): (f: Filters)
    ensures f == NoFilters || exists t :: 0 <= t < |entries| && entries[t] == (org, f)
  {
    if entries == [] then NoFilters
    else if entries[0].0 == org then entries[0].1
    else
      var f := FiltersFor(entries[1..], org);
      assert f != NoFilters ==> exists t :: 0 <= t < |entries| - 1 && entries[1..][t] == (org, f);
      f
  }

  /**
   * For an object that passes validation, the query for every org builds,
   * orders by the foreign key, and filters on the date field exactly when the
   * org asks for a date filter.
   */
  lemma ValidatedObjectBuilds(obj: string, cfg: ObjectConfig, org: string, today: string)
    requires ObjectErrors(obj, cfg) == []
    ensures var f := FiltersFor(cfg.orgFilters, org);
      && Query(obj, cfg, f, today).Ok?
      && OrderPart(cfg.foreignKey) == " ORDER BY " + cfg.foreignKey
      && (HasDateRange(f) <==> f.dateFilterType != "")
  {
    ObjectPasses(obj, cfg);
    var f := FiltersFor(cfg.orgFilters, org);
    if f != NoFilters {
      var t :| 0 <= t < |cfg.orgFilters| && cfg.orgFilters[t] == (org, f);
      assert FilterErrors(obj, org, f) == [];
    }
  }
}
