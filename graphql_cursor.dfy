/**
 * The GraphQL runner's query text handling and pagination: quote escaping
 * for the `sf api request graphql --body "..."` command line, injection of
 * an `after:` cursor into the first `Name(first: N)` clause, and the loop
 * that follows `pageInfo.endCursor` until the last page, counting edges.
 */
module GraphqlCursor {
  import opened Common

  // ---------------------------------------------------------------------
  // Quote escaping

  /** Every `"` preceded by the escape character, as `s.replace(/"/g, esc + '"')` does. */
  function EscapeQuotes(s: string, esc: char): string
  {
    if s == [] then []
    else (if s[0] == '"' then [esc, '"'] else [s[0]]) + EscapeQuotes(s[1..], esc)
  }

  /** The reading a shell gives an escaped string: an escape character before `"` is dropped. */
  function UnescapeQuotes(s: string, esc: char): string
  {
    if s == [] then []
    else if |s| >= 2 && s[0] == esc && s[1] == '"' then ['"'] + UnescapeQuotes(s[2..], esc)
    else [s[0]] + UnescapeQuotes(s[1..], esc)
  }

  lemma {:induction false} EscapeHead(s: string, esc: char)
    requires esc != '"'
    ensures EscapeQuotes(s, esc) == [] || EscapeQuotes(s, esc)[0] != '"'
  {
  }

  /** Escaping loses nothing: the escaped text reads back as the original. */
  lemma {:induction false} UnescapeEscape(s: string, esc: char)
    requires esc != '"'
    ensures UnescapeQuotes(EscapeQuotes(s, esc), esc) == s
  {
    if s != [] {
      var rest := EscapeQuotes(s[1..], esc);
      UnescapeEscape(s[1..], esc);
      if s[0] == '"' {
        assert EscapeQuotes(s, esc) == [esc, '"'] + rest;
        assert EscapeQuotes(s, esc)[2..] == rest;
      } else {
        EscapeHead(s[1..], esc);
        assert EscapeQuotes(s, esc) == [s[0]] + rest;
        assert EscapeQuotes(s, esc)[1..] == rest;
      }
      assert s == [s[0]] + s[1..];
    }
  }

  /** No quote of the escaped text is bare: each follows the escape character. */
  lemma {:induction false} EscapedQuotesGuarded(s: string, esc: char)
    requires esc != '"'
    ensures forall i :: 0 <= i < |EscapeQuotes(s, esc)| && EscapeQuotes(s, esc)[i] == '"' ==>
      i > 0 && EscapeQuotes(s, esc)[i - 1] == esc
  {
    if s != [] {
      EscapedQuotesGuarded(s[1..], esc);
      var head := if s[0] == '"' then [esc, '"'] else [s[0]];
      var rest := EscapeQuotes(s[1..], esc);
      var r := EscapeQuotes(s, esc);
      assert r == head + rest;
      forall i | 0 <= i < |r| && r[i] == '"' ensures i > 0 && r[i - 1] == esc {
        if i >= |head| {
          assert r[i] == rest[i - |head|];
          if i - |head| > 0 { assert r[i - 1] == rest[i - |head| - 1]; }
        }
      }
    }
  }

  /** `escapeGraphQLForCLI` as written: a backtick before each quote on win32 (PowerShell), a backslash elsewhere. */
  function EscapeForCliAsWritten(query: string, platform: string): string
  {
    EscapeQuotes(query, if platform == "win32" then '`' else '\\')
  }

  /** Under the simple reading that only drops an escape before a quote, the escaped query reads back on every platform. */
  lemma EscapeForCliAsWrittenSpec(query: string, platform: string)
    ensures UnescapeQuotes(EscapeForCliAsWritten(query, platform), if platform == "win32" then '`' else '\\') == query
  {
    UnescapeEscape(query, if platform == "win32" then '`' else '\\');
  }

  function Prepend(c: char, r: Option<string>): Option<string>
  {
    if r.Some? then Some([c] + r.value) else None
  }

  /**
   * How a POSIX shell reads the inside of a double-quoted word: a backslash
   * before `\`, `"`, `$` or a backquote stands for that character, one before
   * a newline joins the lines, any other backslash is literal; a bare `"`
   * ends the word early and a bare `$` or backquote may expand, so those
   * give None.
   */
  function ShellRead(s: string): Option<string>
  {
    if s == [] then Some([])
    else if s[0] == '\\' && |s| >= 2 && (s[1] == '\\' || s[1] == '"' || s[1] == '$' || s[1] == '`') then
      Prepend(s[1], ShellRead(s[2..]))
    else if s[0] == '\\' && |s| >= 2 && s[1] == '\n' then ShellRead(s[2..])
    else if s[0] == '"' || s[0] == '$' || s[0] == '`' then None
    else Prepend(s[0], ShellRead(s[1..]))
  }

  /**
   * The shell does not read back what the as-written escaping produces for
   * a query holding a backslash before a quote, which is exactly what the
   * cursor injection writes for a cursor containing a quote: the escaped
   * quote's backslash pairs with the earlier one and the quote ends the word.
   */
  lemma ShellReadsAsWrittenWrongly()
    ensures AfterClause("\"") == ", after: \"\\\"\""
    ensures ShellRead(EscapeForCliAsWritten("\\\"", "linux")).None?
  {
    assert EscapeQuotes("\"", '\\') == "\\\"";
    assert EscapeForCliAsWritten("\\\"", "linux") == "\\\\\"";
  }

  /** Backslash-escaping every character the shell treats specially inside double quotes. */
  function EscapeForShell(s: string): string
  {
    if s == [] then []
    else
      (if s[0] == '\\' || s[0] == '"' || s[0] == '$' || s[0] == '`' then ['\\', s[0]] else [s[0]]) +
      EscapeForShell(s[1..])
  }

  /** The shell reads the corrected escaping back as the original text, whatever it holds. */
  lemma {:induction false} ShellReadsEscape(s: string)
    ensures ShellRead(EscapeForShell(s)) == Some(s)
  {
    if s != [] {
      var rest := EscapeForShell(s[1..]);
      ShellReadsEscape(s[1..]);
      if s[0] == '\\' || s[0] == '"' || s[0] == '$' || s[0] == '`' {
        assert EscapeForShell(s) == ['\\', s[0]] + rest;
        assert EscapeForShell(s)[2..] == rest;
      } else {
        assert EscapeForShell(s) == [s[0]] + rest;
        assert EscapeForShell(s)[1..] == rest;
      }
      assert s == [s[0]] + s[1..];
    }
  }

  /** The escaping the model uses: the PowerShell backtick escaping on win32, the shell escaping elsewhere. */
  function EscapeForCli(query: string, platform: string): string
  {
    if platform == "win32" then EscapeQuotes(query, '`') else EscapeForShell(query)
  }

  /** The command body reads back as the query: through the shell off Windows, through the backtick escapes on it. */
  lemma EscapeForCliSpec(query: string, platform: string)
    ensures platform != "win32" ==> ShellRead(EscapeForCli(query, platform)) == Some(query)
    ensures platform == "win32" ==> UnescapeQuotes(EscapeForCli(query, platform), '`') == query
  {
    if platform == "win32" { UnescapeEscape(query, '`'); } else { ShellReadsEscape(query); }
  }

  // ---------------------------------------------------------------------
  // The `X(first: N)` clause

  /** The regular-expression classes `\s`, `\w` and `\d`. */
  datatype CharClass = Space | Word | Digit

  predicate InClass(c: char, cls: CharClass)
  {
    match cls
    case Space => c == ' ' || c == '\t' || c == '\n' || c == '\r' || c as int == 11 || c as int == 12
    case Word => IsWordChar(c)
    case Digit => IsDigit(c)
  }

  /** The end of the longest run of class characters starting at i. */
  function Skip(q: string, i: nat, cls: CharClass): (j: nat)
    requires i <= |q|
    ensures i <= j <= |q|
    ensures forall k :: i <= k < j ==> InClass(q[k], cls)
    ensures j < |q| ==> !InClass(q[j], cls)
    decreases |q| - i
  {
    if i < |q| && InClass(q[i], cls) then Skip(q, i + 1, cls) else i
  }

  /**
   * The rest of the clause from just after the object name:
   * `\s*\(\s*first\s*:\s*\d+\s*\)`, giving the index of the closing
   * parenthesis. Each `\s*` and `\d+` can only take its longest run, since
   * the next character of the pattern is outside its class.
   */
  function ClauseTail(q: string, a: nat): (g: Option<nat>)
    requires a <= |q|
    ensures g.Some? ==> a < g.value < |q| && q[g.value] == ')'
  {
    var b := Skip(q, a, Space);
    if !(b < |q| && q[b] == '(') then None
    else
      var c := Skip(q, b + 1, Space);
      if !(c + 5 <= |q| && q[c..c + 5] == "first") then None
      else
        var d := Skip(q, c + 5, Space);
        if !(d < |q| && q[d] == ':') then None
        else
          var e := Skip(q, d + 1, Space);
          var f := Skip(q, e, Digit);
          if f == e then None
          else
            var g := Skip(q, f, Space);
            if g < |q| && q[g] == ')' then Some(g) else None
  }

  /** `/(\w+)\s*\(\s*first\s*:\s*\d+\s*\)/` at position p: the name is the whole word run from p. */
  function MatchAt(q: string, p: nat): Option<nat>
    requires p <= |q|
  {
    var a := Skip(q, p, Word);
    if a == p then None else ClauseTail(q, a)
  }

  /** The leftmost match at or after p. */
  function FirstMatch(q: string, p: nat): (s: Option<nat>)
    requires p <= |q|
    ensures s.Some? ==> p <= s.value <= |q| && MatchAt(q, s.value).Some?
    ensures s.Some? ==> forall t :: p <= t < s.value ==> MatchAt(q, t).None?
    ensures s.None? ==> forall t :: p <= t <= |q| ==> MatchAt(q, t).None?
    decreases |q| - p
  {
    if MatchAt(q, p).Some? then Some(p)
    else if p == |q| then None
    else FirstMatch(q, p + 1)
  }

  /** The second pattern, built from the captured name: the literal name, then the same tail. */
  function NamedAt(q: string, p: nat, name: string): Option<nat>
    requires p <= |q|
  {
    if p + |name| <= |q| && q[p..p + |name|] == name then ClauseTail(q, p + |name|) else None
  }

  function FirstNamed(q: string, p: nat, name: string): (s: Option<nat>)
    requires p <= |q|
    ensures s.Some? ==> p <= s.value <= |q| && NamedAt(q, s.value, name).Some?
    decreases |q| - p
  {
    if NamedAt(q, p, name).Some? then Some(p)
    else if p == |q| then None
    else FirstNamed(q, p + 1, name)
  }

  /** A match of the named pattern with a non-empty word name is a match of the general pattern. */
  lemma NamedIsMatch(q: string, p: nat, name: string)
    requires p <= |q| && name != [] && forall k :: 0 <= k < |name| ==> IsWordChar(name[k])
    requires NamedAt(q, p, name).Some?
    ensures MatchAt(q, p) == NamedAt(q, p, name)
  {
    var a := p + |name|;
    forall k | p <= k < a ensures InClass(q[k], Word) {
      assert q[k] == q[p..a][k - p];
    }
    var b := Skip(q, a, Space);
    assert q[b] == '(';
    assert a < |q| && !InClass(q[a], Word);
    SkipAll(q, p, a, Word);
  }

  /** A run of class characters ending at a non-class character is what Skip finds. */
  lemma {:induction false} SkipAll(q: string, i: nat, j: nat, cls: CharClass)
    requires i <= j < |q| && !InClass(q[j], cls)
    requires forall k :: i <= k < j ==> InClass(q[k], cls)
    ensures Skip(q, i, cls) == j
    decreases j - i
  {
    if i < j { SkipAll(q, i + 1, j, cls); }
  }

  /** The search for the captured name finds the very clause the first pattern matched. */
  lemma {:induction false} NamedFindsFirst(q: string, p: nat, s: nat, name: string)
    requires p <= s <= |q| && name != [] && forall k :: 0 <= k < |name| ==> IsWordChar(name[k])
    requires forall t :: p <= t < s ==> MatchAt(q, t).None?
    requires NamedAt(q, s, name).Some?
    ensures FirstNamed(q, p, name) == Some(s)
    decreases s - p
  {
    if p < s {
      if NamedAt(q, p, name).Some? {
        NamedIsMatch(q, p, name);
        assert false;
      }
      NamedFindsFirst(q, p + 1, s, name);
    }
  }

  // ---------------------------------------------------------------------
  // Cursor injection

  /** The text injected before the clause's closing parenthesis. */
  function AfterClause(cursor: string): string
  {
    ", after: \"" + EscapeQuotes(cursor, '\\') + "\""
  }

  /**
   * `injectAfterCursor`: no cursor (or an empty one) or no `X(first: N)`
   * clause leaves the query as it is; otherwise the first clause's name is
   * captured and the first occurrence of that name with the clause gets the
   * `after:` argument.
   */
  function InjectAfterCursor(query: string, cursor: Option<string>): string
  {
    if cursor.None? || cursor.value == "" then query
    else match FirstMatch(query, 0)
      case None => query
      case Some(s) =>
        var name := query[s..Skip(query, s, Word)];
        match FirstNamed(query, 0, name)
        case None => query
        case Some(p) =>
          var g := NamedAt(query, p, name).value;
          query[..g] + AfterClause(cursor.value) + query[g..]
  }

  /** The captured name is a run of word characters, and the named pattern matches where it was captured. */
  lemma CapturedName(q: string, s: nat)
    requires s <= |q| && MatchAt(q, s).Some?
    ensures var name := q[s..Skip(q, s, Word)];
      name != [] && (forall k :: 0 <= k < |name| ==> IsWordChar(name[k])) &&
      NamedAt(q, s, name) == MatchAt(q, s)
  {
    var a := Skip(q, s, Word);
    assert a != s && MatchAt(q, s) == ClauseTail(q, a);
    WordRun(q, s, a);
    NamedAtSlice(q, s, a);
  }

  lemma WordRun(q: string, s: nat, a: nat)
    requires s <= |q| && a == Skip(q, s, Word)
    ensures forall k :: 0 <= k < |q[s..a]| ==> IsWordChar(q[s..a][k])
  {
    forall k | 0 <= k < a - s ensures IsWordChar(q[s..a][k]) {
      assert q[s..a][k] == q[s + k];
      assert InClass(q[s + k], Word);
    }
  }

  lemma NamedAtSlice(q: string, s: nat, a: nat)
    requires s <= a <= |q|
    ensures NamedAt(q, s, q[s..a]) == ClauseTail(q, a)
  {
    assert s + |q[s..a]| == a;
  }

  /** The second search, for the captured name, finds the leftmost clause again, with the same extent. */
  lemma SecondSearch(query: string, s: nat)
    requires FirstMatch(query, 0) == Some(s)
    ensures FirstNamed(query, 0, query[s..Skip(query, s, Word)]) == Some(s)
    ensures NamedAt(query, s, query[s..Skip(query, s, Word)]) == MatchAt(query, s)
  {
    CapturedName(query, s);
    NamedFindsFirst(query, 0, s, query[s..Skip(query, s, Word)]);
  }

  /** No cursor, an empty cursor, or no clause: the query is sent as it is. */
  lemma InjectUnchanged(query: string, cursor: Option<string>)
    requires cursor.None? || cursor.value == "" || FirstMatch(query, 0).None?
    ensures InjectAfterCursor(query, cursor) == query
  {
  }

  /**
   * Otherwise the `after:` argument lands just before the closing
   * parenthesis of the leftmost clause, the rest of the query unchanged.
   */
  lemma InjectAt(query: string, cursor: string)
    requires cursor != "" && FirstMatch(query, 0).Some?
    ensures var g := MatchAt(query, FirstMatch(query, 0).value).value;
      query[g] == ')' &&
      InjectAfterCursor(query, Some(cursor)) == query[..g] + AfterClause(cursor) + query[g..]
  {
    SecondSearch(query, FirstMatch(query, 0).value);
  }

  /** The cursor text inside the injected argument reads back as the cursor. */
  lemma InjectedCursorReadsBack(cursor: string)
    ensures AfterClause(cursor)[10..|AfterClause(cursor)| - 1] == EscapeQuotes(cursor, '\\')
    ensures UnescapeQuotes(AfterClause(cursor)[10..|AfterClause(cursor)| - 1], '\\') == cursor
  {
    UnescapeEscape(cursor, '\\');
  }

  /** The command line up to the opening quote of the `--body` argument. */
  function CommandHead(username: string): string
  {
    "api request graphql --target-org " + username + " --body \""
  }

  /**
   * `executeQuery`: the command line sent for one page. Its `--body`
   * argument, between the quotes after the head, reads back as the query
   * with the cursor injected: through the shell off Windows, through the
   * backtick escapes on it.
   */
  function Command(query: string, username: string, cursor: Option<string>, platform: string): (c: string)
    ensures |c| > |CommandHead(username)| && c[..|CommandHead(username)|] == CommandHead(username) && c[|c| - 1] == '"'
    ensures platform != "win32" ==>
      ShellRead(c[|CommandHead(username)|..|c| - 1]) == Some(InjectAfterCursor(query, cursor))
    ensures platform == "win32" ==>
      UnescapeQuotes(c[|CommandHead(username)|..|c| - 1], '`') == InjectAfterCursor(query, cursor)
  {
    var body := EscapeForCli(InjectAfterCursor(query, cursor), platform);
    var c := CommandHead(username) + body + "\"";
    assert c[|CommandHead(username)|..|c| - 1] == body;
    EscapeForCliSpec(InjectAfterCursor(query, cursor), platform);
    c
  }

  // ---------------------------------------------------------------------
  // Pagination

  datatype PageInfo = PageInfo(hasNextPage: bool, endCursor: Option<string>)

  /** The object under the first key of `result.data`. */
  datatype Page = Page(edges: Option<seq<Record>>, pageInfo: Option<PageInfo>)

  /** One response: no `data`, or `data` whose first key holds a page (or nothing). */
  datatype Response = NoData | Data(first: Option<Page>)
  {
    /** The number of edges counted for this response. */
    function Edges(): nat
    {
      if Data? && first.Some? && first.value.edges.Some? then |first.value.edges.value| else 0
    }

    /** Whether the loop asks for another page after this response. */
    predicate HasNext()
    {
      Data? && first.Some? && first.value.edges.Some? && first.value.pageInfo.Some? &&
      first.value.pageInfo.value.hasNextPage
    }

    function EndCursor(): Option<string>
      requires HasNext()
    {
      first.value.pageInfo.value.endCursor
    }
  }

  /** The edges of the first n responses. */
  function TotalEdges(rs: seq<Response>, n: nat): nat
    requires n <= |rs|
  {
    if n == 0 then 0 else TotalEdges(rs, n - 1) + rs[n - 1].Edges()
  }

  /** The cursor sent with request i: none at first, then the previous page's end cursor. */
  function CursorFor(rs: seq<Response>, i: nat): Option<string>
    requires i <= |rs| && forall j :: 0 <= j < i ==> rs[j].HasNext()
  {
    if i == 0 then None else rs[i - 1].EndCursor()
  }

  /** The index of the last page: the first response that does not ask for another. */
  function LastPage(rs: seq<Response>): (n: nat)
    requires exists i :: 0 <= i < |rs| && !rs[i].HasNext()
    ensures n < |rs| && !rs[n].HasNext() && forall j :: 0 <= j < n ==> rs[j].HasNext()
  {
    if !rs[0].HasNext() then 0
    else
      assert exists i :: 0 <= i < |rs[1..]| && !rs[1..][i].HasNext() by {
        var i :| 0 <= i < |rs| && !rs[i].HasNext();
        assert i > 0 && rs[1..][i - 1] == rs[i];
      }
      1 + LastPage(rs[1..])
  }

  /**
   * `executeQueryWithPagination`, given the server's successive responses:
   * one request per response up to and including the last page, each after
   * the first carrying the previous page's end cursor, and the total is the
   * number of edges of the pages read. `cursors` lists the cursor passed to
   * `executeQuery` for each request; `Command` gives the command line.
   */
  method Paginate(rs: seq<Response>) returns (total: nat, cursors: seq<Option<string>>)
    requires exists i :: 0 <= i < |rs| && !rs[i].HasNext()
    ensures |cursors| == LastPage(rs) + 1
    ensures forall i :: 0 <= i < |cursors| ==> cursors[i] == CursorFor(rs, i)
    ensures total == TotalEdges(rs, LastPage(rs) + 1)
  {
    var last := LastPage(rs);
    var cursor: Option<string> := None;
    var hasNextPage := true;
    total := 0;
    cursors := [];
    var i := 0;
    while hasNextPage
      invariant i <= last + 1
      invariant hasNextPage <==> i <= last
      invariant hasNextPage ==> cursor == CursorFor(rs, i)
      invariant |cursors| == i
      invariant forall j :: 0 <= j < i ==> cursors[j] == CursorFor(rs, j)
      invariant total == TotalEdges(rs, i)
      decreases last + 1 - i
    {
      cursors := cursors + [cursor];
      var result := rs[i];
      total := total + result.Edges();
      if result.HasNext() {
        cursor := result.EndCursor();
      } else {
        hasNextPage := false;
      }
      i := i + 1;
    }
  }

  /** A page that asks for more with no end cursor sends the next request without a cursor: the first page again. */
  lemma MissingCursorRestarts(query: string, username: string, platform: string, rs: seq<Response>)
    requires |rs| >= 2 && rs[0].HasNext() && rs[0].EndCursor().None?
    ensures CursorFor(rs, 1) == CursorFor(rs, 0)
    ensures Command(query, username, CursorFor(rs, 1), platform) == Command(query, username, None, platform)
  {
  }
}
