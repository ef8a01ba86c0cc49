/**
 * The duplicate resolver: applies the user's resolutions, each keyed
 * `org:object:key`. A `skip` resolution blacklists `object:key` for the
 * comparison; a `choose` resolution rewrites the org's JSONL file for the
 * object, keeping one of the records that carry the key and deleting the
 * others, after taking a backup that is restored if the rewrite fails.
 */
module DuplicateResolution {
  import opened Common

  // ---------------------------------------------------------------------
  // Lines and keys

  /** What the JSON parser makes of a (stripped) line. */
  datatype Parsed =
    | Invalid             // not JSON, including an empty line: kept as it is
    | NotObject           // JSON but not an object: looking up a key field fails
    | Object(record: Record)

  /** A stripped line of a JSONL file with its parsed meaning. */
  datatype RawLine = RawLine(text: string, parsed: Parsed)

  /** The value of the first listed field the record has, if any. */
  function FirstPresent(r: Record, fields: seq<string>): Option<Value>
  {
    if fields == [] then None
    else if fields[0] in r then Some(r[fields[0]])
    else FirstPresent(r, fields[1..])
  }

  /** None exactly when the record has none of the fields; else the value of the first one it has. */
  lemma {:induction false} FirstPresentSpec(r: Record, fields: seq<string>)
    ensures FirstPresent(r, fields).None? <==> forall i :: 0 <= i < |fields| ==> fields[i] !in r
    ensures FirstPresent(r, fields).Some? ==>
      exists i :: 0 <= i < |fields| && fields[i] in r && FirstPresent(r, fields).value == r[fields[i]]
        && forall j :: 0 <= j < i ==> fields[j] !in r
  {
    if fields != [] && fields[0] !in r {
      FirstPresentSpec(r, fields[1..]);
      assert forall i :: 1 <= i < |fields| ==> fields[i] == fields[1..][i - 1];
      if FirstPresent(r, fields).Some? {
        var rest := fields[1..];
        var i :| 0 <= i < |rest| && rest[i] in r && FirstPresent(r, rest).value == r[rest[i]]
          && forall j :: 0 <= j < i ==> rest[j] !in r;
        assert fields[i + 1] in r && FirstPresent(r, fields).value == r[fields[i + 1]];
        assert forall j :: 0 <= j < i + 1 ==> fields[j] !in r;
      }
    }
  }

  /** The fields tried when the configured key field is absent, in order. */
  function FallbackFields(objectName: string): (fields: seq<string>)
    ensures |fields| >= 3 && fields[|fields| - 1] == "Id"
  {
    var specific :=
      if objectName == "SBQQ__PriceRule__c" then ["Price_Rule_Foreign_Key__c"]
      else if objectName == "SBQQ__PriceCondition__c" then ["Price_Condition_Foreign_Key__c"]
      else if objectName == "SBQQ__PriceAction__c" then ["Price_Action_Foreign_Key__c"]
      else [];
    specific + [objectName + "_Foreign_Key__c", "Foreign_Key__c", "Id"]
  }

  /** A record's key: the configured field if present, else the first fallback field present, else null. */
  function ForeignKeyValue(mappings: map<string, string>, objectName: string, r: Record): Value
  {
    if objectName in mappings && mappings[objectName] in r then r[mappings[objectName]]
    else
      var v := FirstPresent(r, FallbackFields(objectName));
      if v.Some? then v.value else Null
  }

  /**
   * The configured field wins whenever the record has it; otherwise a record
   * with an `Id` always yields some field's value, and a record with none of
   * the candidate fields yields null.
   */
  lemma ForeignKeyValueSpec(mappings: map<string, string>, objectName: string, r: Record)
    ensures objectName in mappings && mappings[objectName] in r ==>
      ForeignKeyValue(mappings, objectName, r) == r[mappings[objectName]]
    ensures !(objectName in mappings && mappings[objectName] in r) ==>
      var fields := FallbackFields(objectName);
      && ((forall i :: 0 <= i < |fields| ==> fields[i] !in r) ==> ForeignKeyValue(mappings, objectName, r) == Null)
      && ("Id" in r ==> exists i :: 0 <= i < |fields| && fields[i] in r && ForeignKeyValue(mappings, objectName, r) == r[fields[i]])
  {
    var fields := FallbackFields(objectName);
    FirstPresentSpec(r, fields);
    if !(objectName in mappings && mappings[objectName] in r) && "Id" in r {
      assert fields[|fields| - 1] in r;
    }
  }

  // ---------------------------------------------------------------------
  // The keep filter

  /** One `choose` resolution applied to one file. */
  datatype Target = Target(mappings: map<string, string>, objectName: string, fkValue: string, keepLine: Value)

  /** The line is a record whose key is exactly the resolved key string. */
  predicate Matching(t: Target, l: RawLine)
  {
    l.parsed.Object? && ForeignKeyValue(t.mappings, t.objectName, l.parsed.record) == Str(t.fkValue)
  }

  predicate AllDigits(s: string)
  {
    s != "" && forall k :: 0 <= k < |s| ==> IsDigit(s[k])
  }

  /** The chosen line as the filter compares it: a string of digits becomes a number. */
  function KeepInt(keepLine: Value): Value
  {
    if keepLine.Str? && AllDigits(keepLine.s) then Num(ParseDigits(keepLine.s)) else keepLine
  }

  /** The line number a chosen-line value equals (`True` and `False` equal 1 and 0). */
  function TargetLine(keepInt: Value): Option<int>
  {
    match keepInt
    case Num(n) => Some(n)
    case Bool(b) => Some(if b then 1 else 0)
    case _ => None
  }

  /** No particular line was chosen: the first match is kept. */
  predicate KeepFirst(t: Target)
  {
    KeepInt(t.keepLine) == Null || t.keepLine == Str("Unknown")
  }

  /** The log preview slices the record's advanced condition, which works only for a string or an absent field. */
  predicate PreviewOk(r: Record)
  {
    "SBQQ__AdvancedCondition__c" !in r || r["SBQQ__AdvancedCondition__c"].Str?
  }

  /** The kept lines, the line numbers of the matches seen, and the number deleted. */
  datatype FilterState = FilterState(records: seq<RawLine>, foundMatches: seq<nat>, removedCount: nat)

  /** One line of the filter; `preview` says whether the log preview of a matching record is evaluated. */
  function FilterStep(t: Target, st: FilterState, line: RawLine, lineNum: nat, preview: bool): Result<FilterState>
  {
    match line.parsed
    case Invalid => Ok(st.(records := st.records + [line]))
    case NotObject => Err("key lookup on a non-object line")
    case Object(r) =>
      if !Matching(t, line) then Ok(st.(records := st.records + [line]))
      else
        var found := st.foundMatches + [lineNum];
        if TargetLine(KeepInt(t.keepLine)) == Some(lineNum) then
          if preview && !PreviewOk(r) then Err("preview of the kept record")
          else Ok(FilterState(st.records + [line], found, st.removedCount))
        else if KeepFirst(t) && |found| == 1 then
          Ok(FilterState(st.records + [line], found, st.removedCount))
        else if preview && !PreviewOk(r) then Err("preview of a deleted record")
        else Ok(FilterState(st.records, found, st.removedCount + 1))
  }

  /** The filter over the first `n` lines, numbered from 1; the first error ends it. */
  function FilterUpTo(t: Target, lines: seq<RawLine>, n: nat, preview: bool): Result<FilterState>
    requires n <= |lines|
  {
    if n == 0 then Ok(FilterState([], [], 0))
    else
      var prev := FilterUpTo(t, lines, n - 1, preview);
      if prev.Err? then prev else FilterStep(t, prev.value, lines[n - 1], n, preview)
  }

  /** The filter as the resolver runs it, log previews included. */
  function KeepFilterAsWritten(t: Target, lines: seq<RawLine>): Result<FilterState>
  {
    FilterUpTo(t, lines, |lines|, true)
  }

  /** The filter as intended: the log preview never aborts it. */
  function KeepFilter(t: Target, lines: seq<RawLine>): Result<FilterState>
  {
    FilterUpTo(t, lines, |lines|, false)
  }

  // ---------------------------------------------------------------------
  // The reference: which line survives

  /** The line numbers of the matching lines among the first `n`. */
  function MatchLines(t: Target, lines: seq<RawLine>, n: nat): seq<nat>
    requires n <= |lines|
  {
    if n == 0 then []
    else MatchLines(t, lines, n - 1) + (if Matching(t, lines[n - 1]) then [n] else [])
  }

  /** The first matching line among the first `n`. */
  function FirstMatch(t: Target, lines: seq<RawLine>, n: nat): (r: Option<nat>)
    requires n <= |lines|
    ensures r.Some? ==> r.value < n && Matching(t, lines[r.value])
  {
    if n == 0 then None
    else
      var before := FirstMatch(t, lines, n - 1);
      if before.Some? then before else if Matching(t, lines[n - 1]) then Some(n - 1) else None
  }

  /** The index of the matching line to keep: the chosen one, or the first when none was chosen. */
  function Chosen(t: Target, lines: seq<RawLine>): (r: Option<nat>)
    ensures r.Some? ==> r.value < |lines| && Matching(t, lines[r.value])
  {
    if KeepFirst(t) then FirstMatch(t, lines, |lines|)
    else
      var target := TargetLine(KeepInt(t.keepLine));
      if target.Some? && 1 <= target.value <= |lines| && Matching(t, lines[target.value - 1])
      then Some(target.value - 1)
      else None
  }

  /** The first `n` lines without the matching ones, except the one at index `chosen`. */
  function KeepOnly(t: Target, lines: seq<RawLine>, chosen: Option<nat>, n: nat): seq<RawLine>
    requires n <= |lines|
  {
    if n == 0 then []
    else
      KeepOnly(t, lines, chosen, n - 1)
      + (if !Matching(t, lines[n - 1]) || chosen == Some(n - 1) then [lines[n - 1]] else [])
  }

  lemma {:induction false} MatchLinesGrow(t: Target, lines: seq<RawLine>, i: nat, n: nat)
    requires i < n <= |lines|
    requires Matching(t, lines[i])
    ensures |MatchLines(t, lines, n)| > |MatchLines(t, lines, i)|
  {
    if n - 1 > i {
      MatchLinesGrow(t, lines, i, n - 1);
    }
  }

  /** The first match is a match with no match before it; with no first match there is no match. */
  lemma {:induction false} FirstMatchSpec(t: Target, lines: seq<RawLine>, n: nat)
    requires n <= |lines|
    ensures FirstMatch(t, lines, n).Some? ==>
      var j := FirstMatch(t, lines, n).value;
      j < n && Matching(t, lines[j]) && |MatchLines(t, lines, j)| == 0
    ensures FirstMatch(t, lines, n).None? ==> |MatchLines(t, lines, n)| == 0
  {
    if n > 0 {
      FirstMatchSpec(t, lines, n - 1);
    }
  }

  /** The kept line, if any, is a matching line: the chosen one, or the first match when none was chosen. */
  lemma ChosenSpec(t: Target, lines: seq<RawLine>)
    ensures Chosen(t, lines).Some? ==>
      var i := Chosen(t, lines).value;
      && i < |lines| && Matching(t, lines[i])
      && (KeepFirst(t) ==> |MatchLines(t, lines, i)| == 0)
      && (!KeepFirst(t) ==> TargetLine(KeepInt(t.keepLine)) == Some(i + 1))
    ensures Chosen(t, lines).None? && KeepFirst(t) ==> |MatchLines(t, lines, |lines|)| == 0
    ensures Chosen(t, lines).None? && !KeepFirst(t) ==>
      forall i :: 0 <= i < |lines| && Matching(t, lines[i]) ==> TargetLine(KeepInt(t.keepLine)) != Some(i + 1)
  {
    FirstMatchSpec(t, lines, |lines|);
  }

  /** With a chosen line, a matching line is kept exactly when it is the chosen line. */
  lemma ChosenTarget(t: Target, lines: seq<RawLine>, i: nat)
    requires !KeepFirst(t) && i < |lines| && Matching(t, lines[i])
    ensures Chosen(t, lines) == Some(i) <==> TargetLine(KeepInt(t.keepLine)) == Some(i + 1)
  {
  }

  /** A matching line at index `i` is the first match exactly when no match comes before it. */
  lemma FirstMatchIsFirst(t: Target, lines: seq<RawLine>, i: nat)
    requires i < |lines| && Matching(t, lines[i])
    ensures FirstMatch(t, lines, |lines|) == Some(i) <==> |MatchLines(t, lines, i)| == 0
  {
    FirstMatchSpec(t, lines, |lines|);
    var f := FirstMatch(t, lines, |lines|);
    if |MatchLines(t, lines, i)| == 0 {
      assert f.Some? by { MatchLinesGrow(t, lines, i, |lines|); }
      var j := f.value;
      if j < i {
        MatchLinesGrow(t, lines, j, i);
      } else if j > i {
        MatchLinesGrow(t, lines, i, j);
      }
    }
  }

  /** What the filter has done after `n` lines, by the reference. */
  ghost predicate FilterInv(t: Target, lines: seq<RawLine>, n: nat, st: FilterState)
    requires n <= |lines|
  {
    var chosen := Chosen(t, lines);
    && st.records == KeepOnly(t, lines, chosen, n)
    && st.foundMatches == MatchLines(t, lines, n)
    && st.removedCount + (if chosen.Some? && chosen.value < n then 1 else 0) == |st.foundMatches|
  }

  /** "Unknown" is not a string of digits, so it names no line. */
  lemma UnknownNamesNoLine()
    ensures TargetLine(KeepInt(Str("Unknown"))) == None
  {
    assert !IsDigit("Unknown"[0]);
  }

  lemma FilterStepInv(t: Target, lines: seq<RawLine>, n: nat, st: FilterState, preview: bool)
    requires 0 < n <= |lines|
    requires FilterInv(t, lines, n - 1, st)
    requires FilterStep(t, st, lines[n - 1], n, preview).Ok?
    ensures FilterInv(t, lines, n, FilterStep(t, st, lines[n - 1], n, preview).value)
  {
    if Matching(t, lines[n - 1]) {
      if KeepFirst(t) {
        UnknownNamesNoLine();
        FirstMatchIsFirst(t, lines, n - 1);
      } else {
        ChosenTarget(t, lines, n - 1);
      }
    }
  }

  lemma {:induction false} FilterErrStays(t: Target, lines: seq<RawLine>, i: nat, n: nat, preview: bool)
    requires i <= n <= |lines|
    requires FilterUpTo(t, lines, i, preview).Err?
    ensures FilterUpTo(t, lines, n, preview) == FilterUpTo(t, lines, i, preview)
  {
    if n > i {
      FilterErrStays(t, lines, i, n - 1, preview);
    }
  }

  /**
   * After `n` lines the filter (with or without previews) has kept exactly the
   * reference lines, seen exactly the matching line numbers, and deleted every
   * match seen except the kept one; without previews it fails exactly at a
   * line that is not an object.
   */
  lemma {:induction false} FilterUpToSpec(t: Target, lines: seq<RawLine>, n: nat, preview: bool)
    requires n <= |lines|
    ensures !preview ==>
      (FilterUpTo(t, lines, n, preview).Err? <==> exists i :: 0 <= i < n && lines[i].parsed.NotObject?)
    ensures FilterUpTo(t, lines, n, preview).Ok? ==> FilterInv(t, lines, n, FilterUpTo(t, lines, n, preview).value)
  {
    if n > 0 {
      FilterUpToSpec(t, lines, n - 1, preview);
      var prev := FilterUpTo(t, lines, n - 1, preview);
      if prev.Ok? && FilterStep(t, prev.value, lines[n - 1], n, preview).Ok? {
        FilterStepInv(t, lines, n, prev.value, preview);
      }
    }
  }

  /**
   * The intended filter fails exactly when some line is JSON but not an object;
   * otherwise it keeps every other line in order and, of the matching lines,
   * only the one `Chosen` names, deleting the rest.
   */
  lemma KeepFilterSpec(t: Target, lines: seq<RawLine>)
    ensures KeepFilter(t, lines).Err? <==> exists i :: 0 <= i < |lines| && lines[i].parsed.NotObject?
    ensures KeepFilter(t, lines).Ok? ==>
      var st := KeepFilter(t, lines).value;
      && st.records == KeepOnly(t, lines, Chosen(t, lines), |lines|)
      && st.foundMatches == MatchLines(t, lines, |lines|)
      && st.removedCount + (if Chosen(t, lines).Some? then 1 else 0) == |st.foundMatches|
  {
    FilterUpToSpec(t, lines, |lines|, false);
    ChosenSpec(t, lines);
    if KeepFilter(t, lines).Ok? {
      assert FilterInv(t, lines, |lines|, KeepFilter(t, lines).value);
    }
  }

  /** Whenever the filter as written succeeds, it agrees with the intended one. */
  lemma {:induction false} AsWrittenAgrees(t: Target, lines: seq<RawLine>, n: nat)
    requires n <= |lines|
    ensures FilterUpTo(t, lines, n, true).Ok? ==> FilterUpTo(t, lines, n, false) == FilterUpTo(t, lines, n, true)
  {
    if n > 0 {
      AsWrittenAgrees(t, lines, n - 1);
    }
  }

  /** The preview crash: keeping line 1 of two records with key "5" fails when its advanced condition is null. */
  lemma PreviewCrash()
    ensures var t := Target(map["X" := "Id"], "X", "5", Num(1));
      var lines := [RawLine("a", Object(map["Id" := Str("5"), "SBQQ__AdvancedCondition__c" := Null])),
                    RawLine("b", Object(map["Id" := Str("5")]))];
      && KeepFilterAsWritten(t, lines).Err?
      && KeepFilter(t, lines) == Ok(FilterState([lines[0]], [1, 2], 1))
  {
    var t := Target(map["X" := "Id"], "X", "5", Num(1));
    var l0 := RawLine("a", Object(map["Id" := Str("5"), "SBQQ__AdvancedCondition__c" := Null]));
    var l1 := RawLine("b", Object(map["Id" := Str("5")]));
    var lines := [l0, l1];
    assert Matching(t, l0) && Matching(t, l1);
    assert !KeepFirst(t);
    assert FilterUpTo(t, lines, 1, true).Err?;
    var st0 := FilterState([], [], 0);
    assert FilterUpTo(t, lines, 0, false) == Ok(st0);
    assert TargetLine(KeepInt(t.keepLine)) == Some(1);
    assert st0.records + [l0] == [l0] && st0.foundMatches + [1] == [1];
    assert FilterStep(t, st0, l0, 1, false) == Ok(FilterState([l0], [1], 0));
    assert TargetLine(KeepInt(t.keepLine)) != Some(2);
    assert [1] + [2] == [1, 2];
    assert FilterUpTo(t, lines, 1, false) == Ok(FilterState([l0], [1], 0));
    assert FilterStep(t, FilterState([l0], [1], 0), l1, 2, false) == Ok(FilterState([l0], [1, 2], 1));
  }

  /** The lines of `s` that match (`want`) or do not match (`!want`) the resolved key, in order. */
  function Select(t: Target, s: seq<RawLine>, want: bool): seq<RawLine>
  {
    if s == [] then []
    else Select(t, s[..|s| - 1], want) + (if Matching(t, s[|s| - 1]) == want then [s[|s| - 1]] else [])
  }

  lemma {:induction false} SelectAppend(t: Target, a: seq<RawLine>, b: seq<RawLine>, want: bool)
    ensures Select(t, a + b, want) == Select(t, a, want) + Select(t, b, want)
  {
    if b == [] {
      assert a + b == a;
    } else {
      SelectAppend(t, a, b[..|b| - 1], want);
      assert (a + b)[..|a + b| - 1] == a + b[..|b| - 1];
    }
  }

  /** Of the lines that are not matches nothing is lost. */
  lemma {:induction false} KeepOnlyOthers(t: Target, lines: seq<RawLine>, chosen: Option<nat>, n: nat)
    requires n <= |lines|
    ensures Select(t, KeepOnly(t, lines, chosen, n), false) == Select(t, lines[..n], false)
  {
    if n > 0 {
      KeepOnlyOthers(t, lines, chosen, n - 1);
      var k := KeepOnly(t, lines, chosen, n - 1);
      var add := if !Matching(t, lines[n - 1]) || chosen == Some(n - 1) then [lines[n - 1]] else [];
      SelectAppend(t, k, add, false);
      assert lines[..n][..n - 1] == lines[..n - 1];
    }
  }

  /** Of the matches only the chosen one survives. */
  lemma {:induction false} KeepOnlyMatches(t: Target, lines: seq<RawLine>, chosen: Option<nat>, n: nat)
    requires n <= |lines|
    requires chosen.Some? ==> chosen.value < |lines| && Matching(t, lines[chosen.value])
    ensures Select(t, KeepOnly(t, lines, chosen, n), true)
         == (if chosen.Some? && chosen.value < n then [lines[chosen.value]] else [])
  {
    if n > 0 {
      KeepOnlyMatches(t, lines, chosen, n - 1);
      var k := KeepOnly(t, lines, chosen, n - 1);
      var add := if !Matching(t, lines[n - 1]) || chosen == Some(n - 1) then [lines[n - 1]] else [];
      SelectAppend(t, k, add, true);
    }
  }

  /**
   * The intended filter keeps every line that is not a match, in order, and of
   * the matches exactly the one `Chosen` names, or none when it names none.
   */
  lemma KeepFilterKeepsOne(t: Target, lines: seq<RawLine>)
    requires KeepFilter(t, lines).Ok?
    ensures Select(t, KeepFilter(t, lines).value.records, false) == Select(t, lines, false)
    ensures Select(t, KeepFilter(t, lines).value.records, true)
         == (if Chosen(t, lines).Some? then [lines[Chosen(t, lines).value]] else [])
  {
    KeepFilterSpec(t, lines);
    KeepOnlyOthers(t, lines, Chosen(t, lines), |lines|);
    KeepOnlyMatches(t, lines, Chosen(t, lines), |lines|);
    assert lines[..|lines|] == lines;
  }

  /** One line of the filter loop; `preview` says whether the log previews are evaluated. */
  method FilterLine(t: Target, records: seq<RawLine>, foundMatches: seq<nat>, removedCount: nat,
                    line: RawLine, lineNum: nat, preview: bool)
    returns (r: Result<FilterState>)
    ensures r == FilterStep(t, FilterState(records, foundMatches, removedCount), line, lineNum, preview)
  {
    match line.parsed {
      case Invalid =>
        return Ok(FilterState(records + [line], foundMatches, removedCount));
      case NotObject =>
        return Err("key lookup on a non-object line");
      case Object(record) =>
        var recordFk := ForeignKeyValue(t.mappings, t.objectName, record);
        if recordFk != Str(t.fkValue) {
          return Ok(FilterState(records + [line], foundMatches, removedCount));
        }
        var found := foundMatches + [lineNum];
        var keepLineInt := KeepInt(t.keepLine);
        if TargetLine(keepLineInt) == Some(lineNum) {
          if preview && !PreviewOk(record) {
            return Err("preview of the kept record");
          }
          return Ok(FilterState(records + [line], found, removedCount));
        } else if keepLineInt == Null || t.keepLine == Str("Unknown") {
          if |found| == 1 {
            return Ok(FilterState(records + [line], found, removedCount));
          }
        }
        if preview && !PreviewOk(record) {
          return Err("preview of a deleted record");
        }
        return Ok(FilterState(records, found, removedCount + 1));
    }
  }

  /**
   * The per-line loop of the filter; the first error ends it. With `preview`
   * it is the filter as written, without it the filter as intended.
   */
  method FilterLines(t: Target, lines: seq<RawLine>, preview: bool) returns (r: Result<FilterState>)
    ensures preview ==> r == KeepFilterAsWritten(t, lines)
    ensures !preview ==> r == KeepFilter(t, lines)
  {
    var records: seq<RawLine> := [];
    var foundMatches: seq<nat> := [];
    var removedCount := 0;
    var i := 0;
    while i < |lines|
      invariant 0 <= i <= |lines|
      invariant FilterUpTo(t, lines, i, preview) == Ok(FilterState(records, foundMatches, removedCount))
    {
      var step := FilterLine(t, records, foundMatches, removedCount, lines[i], i + 1, preview);
      if step.Err? {
        FilterErrStays(t, lines, i + 1, |lines|, preview);
        return step;
      }
      records, foundMatches, removedCount := step.value.records, step.value.foundMatches, step.value.removedCount;
      i := i + 1;
    }
    r := Ok(FilterState(records, foundMatches, removedCount));
  }

  // ---------------------------------------------------------------------
  // Resolutions

  /** A resolution's data: a JSON object, or something else. */
  datatype ResolutionData = NotADict | Entry(fields: Record)

  /** What became of one resolution. */
  datatype Outcome = Ignored | Blacklisted | Resolved | Failed

  type Path = (string, string)

  /** The files, their backups and the resolver's tallies. */
  datatype ResolverState = ResolverState(files: map<Path, seq<RawLine>>, backups: map<Path, seq<RawLine>>,
                                         blacklisted: set<string>, resolved: nat, skipped: nat)

  /** Keeping one record of a key in an org's file: the new files, the new backups, and whether it succeeded. */
  function RemoveDuplicates(mappings: map<string, string>, files: map<Path, seq<RawLine>>, backups: map<Path, seq<RawLine>>,
                            org: string, objectName: string, fkValue: string, keepLine: Value)
    : (map<Path, seq<RawLine>>, map<Path, seq<RawLine>>, bool)
  {
    var path := (org, objectName);
    if path !in files then (files, backups, true)
    else
      var saved := backups[path := files[path]];
      var r := KeepFilter(Target(mappings, objectName, fkValue, keepLine), files[path]);
      if r.Err? then (files[path := saved[path]], saved, false)
      else (files[path := r.value.records], saved, true)
  }

  /**
   * Only the targeted file changes; its backup holds its old content; a
   * failure leaves every file as it was, and a success writes the filtered lines.
   */
  lemma RemoveDuplicatesSpec(mappings: map<string, string>, files: map<Path, seq<RawLine>>, backups: map<Path, seq<RawLine>>,
                             org: string, objectName: string, fkValue: string, keepLine: Value)
    ensures var (files', backups', ok) := RemoveDuplicates(mappings, files, backups, org, objectName, fkValue, keepLine);
      var path := (org, objectName);
      && files'.Keys == files.Keys
      && (forall p :: p in files && p != path ==> files'[p] == files[p])
      && (path in files ==> backups' == backups[path := files[path]])
      && (path !in files ==> backups' == backups && files' == files && ok)
      && (!ok ==> files' == files)
      && (path in files ==> (ok <==> KeepFilter(Target(mappings, objectName, fkValue, keepLine), files[path]).Ok?))
      && (ok && path in files ==>
            var r := KeepFilter(Target(mappings, objectName, fkValue, keepLine), files[path]);
            r.Ok? && files'[path] == r.value.records)
  {
  }

  /** The `object:key` a resolution blacklists, if it is a well-formed `skip`. */
  function SkipKey(key: string, data: ResolutionData): Option<string>
  {
    var parts := Split(key, ':');
    if |parts| == 3 && data.Entry? && Get(data.fields, "action") == Str("skip") then Some(parts[1] + ":" + parts[2])
    else None
  }

  /** Applying one resolution. */
  function ApplyOne(mappings: map<string, string>, st: ResolverState, key: string, data: ResolutionData)
    : (ResolverState, Outcome)
  {
    var parts := Split(key, ':');
    if |parts| != 3 then (st, Ignored)
    else if data.NotADict? then (st, Failed)
    else
      var action := Get(data.fields, "action");
      var chosen := Get(data.fields, "chosen_line_number");
      if action == Str("skip") then
        (st.(blacklisted := st.blacklisted + {parts[1] + ":" + parts[2]}, skipped := st.skipped + 1), Blacklisted)
      else if action == Str("choose") && Truthy(chosen) then
        var (files, backups, ok) := RemoveDuplicates(mappings, st.files, st.backups, parts[0], parts[1], parts[2], chosen);
        if ok then (st.(files := files, backups := backups, resolved := st.resolved + 1), Resolved)
        else (st.(files := files, backups := backups), Failed)
      else (st, Ignored)
  }

  /** Applying the resolutions in order; a failure does not stop the rest. */
  function ApplyAll(mappings: map<string, string>, st: ResolverState, resolutions: seq<(string, ResolutionData)>)
    : ResolverState
  {
    if resolutions == [] then st
    else
      var (key, data) := resolutions[|resolutions| - 1];
      ApplyOne(mappings, ApplyAll(mappings, st, resolutions[..|resolutions| - 1]), key, data).0
  }

  /**
   * A key that does not split into three parts changes nothing; a skip only
   * adds its `object:key` and counts; a failure changes no file and no tally.
   */
  lemma ApplyOneSpec(mappings: map<string, string>, st: ResolverState, key: string, data: ResolutionData)
    ensures |Split(key, ':')| != 3 ==> ApplyOne(mappings, st, key, data) == (st, Ignored)
    ensures SkipKey(key, data).Some? ==>
      ApplyOne(mappings, st, key, data)
        == (st.(blacklisted := st.blacklisted + {SkipKey(key, data).value}, skipped := st.skipped + 1), Blacklisted)
    ensures SkipKey(key, data).None? ==> ApplyOne(mappings, st, key, data).0.blacklisted == st.blacklisted
    ensures var (st', outcome) := ApplyOne(mappings, st, key, data);
      outcome != Blacklisted ==> st'.skipped == st.skipped
    ensures var (st', outcome) := ApplyOne(mappings, st, key, data);
      outcome == Failed ==>
        && st'.files == st.files && st'.resolved == st.resolved
        && st'.skipped == st.skipped && st'.blacklisted == st.blacklisted
    ensures var (st', outcome) := ApplyOne(mappings, st, key, data);
      st'.resolved == st.resolved + (if outcome == Resolved then 1 else 0)
  {
    var parts := Split(key, ':');
    if |parts| == 3 && data.Entry? {
      var chosen := Get(data.fields, "chosen_line_number");
      RemoveDuplicatesSpec(mappings, st.files, st.backups, parts[0], parts[1], parts[2], chosen);
    }
  }

  /** The `object:key` entries of the well-formed skips among the resolutions. */
  function SkipKeys(resolutions: seq<(string, ResolutionData)>): set<string>
  {
    if resolutions == [] then {}
    else
      var (key, data) := resolutions[|resolutions| - 1];
      var s := SkipKey(key, data);
      SkipKeys(resolutions[..|resolutions| - 1]) + (if s.Some? then {s.value} else {})
  }

  /** The number of well-formed skips among the resolutions, repeats included. */
  function SkipCount(resolutions: seq<(string, ResolutionData)>): nat
  {
    if resolutions == [] then 0
    else
      var (key, data) := resolutions[|resolutions| - 1];
      SkipCount(resolutions[..|resolutions| - 1]) + (if SkipKey(key, data).Some? then 1 else 0)
  }

  /**
   * After a batch, every well-formed skip is blacklisted whatever failed before
   * or after it, and the skip tally grew by the number of skips.
   */
  lemma {:induction false} ApplyAllBlacklist(mappings: map<string, string>, st: ResolverState,
                                             resolutions: seq<(string, ResolutionData)>)
    ensures ApplyAll(mappings, st, resolutions).blacklisted == st.blacklisted + SkipKeys(resolutions)
    ensures ApplyAll(mappings, st, resolutions).skipped == st.skipped + SkipCount(resolutions)
  {
    if resolutions != [] {
      var init := resolutions[..|resolutions| - 1];
      var last := resolutions[|resolutions| - 1];
      ApplyAllBlacklist(mappings, st, init);
      ApplyOneSpec(mappings, ApplyAll(mappings, st, init), last.0, last.1);
    }
  }

  /** Repeated skips of one `object:key` share an entry, so there are no more entries than skips. */
  lemma {:induction false} SkipKeysBound(resolutions: seq<(string, ResolutionData)>)
    ensures |SkipKeys(resolutions)| <= SkipCount(resolutions)
  {
    if resolutions != [] {
      var init := resolutions[..|resolutions| - 1];
      var last := resolutions[|resolutions| - 1];
      SkipKeysBound(init);
      var s := SkipKey(last.0, last.1);
      if s.Some? && s.value in SkipKeys(init) {
        assert SkipKeys(init) + {s.value} == SkipKeys(init);
      }
    }
  }

  /** The blacklist only grows by what the skips add. */
  lemma BlacklistBound(mappings: map<string, string>, st: ResolverState, resolutions: seq<(string, ResolutionData)>)
    ensures |ApplyAll(mappings, st, resolutions).blacklisted| <= |st.blacklisted| + ApplyAll(mappings, st, resolutions).skipped - st.skipped
  {
    ApplyAllBlacklist(mappings, st, resolutions);
    SkipKeysBound(resolutions);
    var a := st.blacklisted;
    var b := SkipKeys(resolutions);
    assert |a + b| <= |a| + |b| by {
      assert |a + b| == |a| + |b - a|;
      assert b - a <= b;
    }
  }

  // ---------------------------------------------------------------------
  // The resolver

  class Resolver {
    var mappings: map<string, string>
    var files: map<Path, seq<RawLine>>
    var backups: map<Path, seq<RawLine>>
    var blacklistedFks: set<string>
    var resolvedCount: nat
    var skippedCount: nat

    function State(): ResolverState
      reads this
    {
      ResolverState(files, backups, blacklistedFks, resolvedCount, skippedCount)
    }

    /** A resolver over the loaded key-field mappings and the comparison directory's files. */
    constructor (mappings: map<string, string>, files: map<Path, seq<RawLine>>)
      ensures this.mappings == mappings && this.files == files
      ensures State() == ResolverState(files, map[], {}, 0, 0)
    {
      this.mappings := mappings;
      this.files := files;
      backups := map[];
      blacklistedFks := {};
      resolvedCount := 0;
      skippedCount := 0;
    }

    /** Backs the file up, filters it, and writes it back, or restores the backup on an error. */
    method RemoveDuplicateRecords(orgName: string, objectName: string, fkValue: string, keepLineNumber: Value)
      returns (ok: bool)
      modifies this
      ensures (files, backups, ok)
           == RemoveDuplicates(mappings, old(files), old(backups), orgName, objectName, fkValue, keepLineNumber)
      ensures mappings == old(mappings) && blacklistedFks == old(blacklistedFks)
      ensures resolvedCount == old(resolvedCount) && skippedCount == old(skippedCount)
    {
      var path := (orgName, objectName);
      if path !in files {
        return true;
      }
      backups := backups[path := files[path]];
      var r := FilterLines(Target(mappings, objectName, fkValue, keepLineNumber), files[path], false);
      if r.Err? {
        files := files[path := backups[path]];
        return false;
      }
      files := files[path := r.value.records];
      ok := true;
    }

    /** One resolution: parse the key, then blacklist, keep one record, or ignore it. */
    method ApplySingleResolution(resolutionKey: string, resolutionData: ResolutionData) returns (outcome: Outcome)
      modifies this
      ensures mappings == old(mappings)
      ensures (State(), outcome) == ApplyOne(mappings, old(State()), resolutionKey, resolutionData)
    {
      var parts := Split(resolutionKey, ':');
      if |parts| != 3 {
        return Ignored;
      }
      if resolutionData.NotADict? {
        return Failed;
      }
      var orgName, objectName, fkValue := parts[0], parts[1], parts[2];
      var action := Get(resolutionData.fields, "action");
      var chosenRecordLine := Get(resolutionData.fields, "chosen_line_number");
      if action == Str("skip") {
        blacklistedFks := blacklistedFks + {objectName + ":" + fkValue};
        skippedCount := skippedCount + 1;
        return Blacklisted;
      }
      if action == Str("choose") && Truthy(chosenRecordLine) {
        var ok := RemoveDuplicateRecords(orgName, objectName, fkValue, chosenRecordLine);
        if !ok {
          return Failed;
        }
        resolvedCount := resolvedCount + 1;
        return Resolved;
      }
      outcome := Ignored;
    }

    /** Every resolution in order; a failed one is logged and the rest still run. */
    method ApplyResolutions(resolutions: seq<(string, ResolutionData)>) returns (success: bool)
      modifies this
      ensures mappings == old(mappings)
      ensures State() == ApplyAll(mappings, old(State()), resolutions)
      ensures success
    {
      var i := 0;
      while i < |resolutions|
        invariant 0 <= i <= |resolutions|
        invariant mappings == old(mappings)
        invariant State() == ApplyAll(mappings, old(State()), resolutions[..i])
      {
        assert resolutions[..i + 1][..i] == resolutions[..i];
        var (resolutionKey, resolutionData) := resolutions[i];
        var _ := ApplySingleResolution(resolutionKey, resolutionData);
        i := i + 1;
      }
      assert resolutions[..i] == resolutions;
      success := true;
    }
  }
}
