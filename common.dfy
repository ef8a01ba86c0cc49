/**
 * Shared vocabulary for every other module: optional values and results,
 * the scalar values found in exported records, and the string utilities the
 * Python and JavaScript sources get from their standard libraries
 * (prefix tests, splitting and joining, replacement, decimal rendering,
 * code-point ordering and sorting).
 */
module Common {

  datatype Option<T> = None | Some(value: T)

  datatype Result<T> = Ok(value: T) | Err(msg: string)

  /** A scalar cell of an exported record (JSON line, CSV cell or parquet value). */
  datatype Value = Null | Str(s: string) | Num(n: int) | Bool(b: bool)

  /** A record: field name to value; an absent field reads as Null. */
  type Record = map<string, Value>

  function Get(r: Record, field: string): (v: Value)
    ensures field !in r ==> v == Null
    ensures field in r ==> v == r[field]
  {
    if field in r then r[field] else Null
  }

  /** JavaScript truthiness of a value. */
  predicate Truthy(v: Value)
  {
    match v
    case Null => false
    case Str(s) => s != ""
    case Num(n) => n != 0
    case Bool(b) => b
  }

  // ---------------------------------------------------------------------
  // Sequences

  lemma AppendAssoc<T>(a: seq<T>, b: seq<T>, c: seq<T>)
    ensures (a + b) + c == a + (b + c)
  {
  }

  predicate NoDup<T(==)>(s: seq<T>)
  {
    forall i, j :: 0 <= i < j < |s| ==> s[i] != s[j]
  }

  /** Distinct elements in order of first occurrence (insertion order of a Set). */
  function Dedup<T(==,!new)>(s: seq<T>): (r: seq<T>)
    ensures NoDup(r)
    ensures forall x :: x in r <==> x in s
    ensures |r| <= |s|
  {
    if s == [] then []
    else
      var d := Dedup(s[..|s| - 1]);
      if s[|s| - 1] in d then d else d + [s[|s| - 1]]
  }

  lemma {:induction false} DedupOfNoDup<T(!new)>(s: seq<T>)
    requires NoDup(s)
    ensures Dedup(s) == s
  {
    if s != [] {
      var init := s[..|s| - 1];
      assert NoDup(init);
      DedupOfNoDup(init);
      assert s[|s| - 1] !in init;
      assert init + [s[|s| - 1]] == s;
    }
  }


  /** A sequence with two different elements has at least two distinct ones, and conversely. */
  lemma DedupMany<T(!new)>(s: seq<T>)
    ensures |Dedup(s)| > 1 <==> exists i, j :: 0 <= i < |s| && 0 <= j < |s| && s[i] != s[j]
  {
    var d := Dedup(s);
    if |d| > 1 {
      assert d[0] in s && d[1] in s;
      var i :| 0 <= i < |s| && s[i] == d[0];
      var j :| 0 <= j < |s| && s[j] == d[1];
      assert s[i] != s[j];
    }
    if exists i, j :: 0 <= i < |s| && 0 <= j < |s| && s[i] != s[j] {
      var i, j :| 0 <= i < |s| && 0 <= j < |s| && s[i] != s[j];
      assert s[i] in d && s[j] in d;
    }
  }

  /** The present results of f over xs, in order. */
  function MapSomes<A, B>(f: A -> Option<B>, xs: seq<A>): seq<B>
  {
    if xs == [] then []
    else MapSomes(f, xs[..|xs| - 1]) + match f(xs[|xs| - 1]) { case Some(y) => [y] case None => [] }
  }

  lemma {:induction false} MapSomesMembers<A, B>(f: A -> Option<B>, xs: seq<A>, y: B)
    ensures y in MapSomes(f, xs) <==> exists t :: 0 <= t < |xs| && f(xs[t]) == Some(y)
  {
    if xs != [] {
      var init := xs[..|xs| - 1];
      MapSomesMembers(f, init, y);
      assert forall t :: 0 <= t < |init| ==> init[t] == xs[t];
    }
  }

  lemma MapSomesSnoc<A, B>(f: A -> Option<B>, xs: seq<A>, x: A)
    ensures MapSomes(f, xs + [x]) == MapSomes(f, xs) + match f(x) { case Some(y) => [y] case None => [] }
  {
    assert (xs + [x])[..|xs + [x]| - 1] == xs;
  }

  /** One step of a loop that collects the present results of f over xs. */
  lemma MapSomesStep<A, B>(f: A -> Option<B>, xs: seq<A>, i: nat, r: Option<B>)
    requires i < |xs| && r == f(xs[i])
    ensures MapSomes(f, xs[..i + 1]) == MapSomes(f, xs[..i]) + if r.Some? then [r.value] else []
  {
    assert xs[..i + 1] == xs[..i] + [xs[i]];
    MapSomesSnoc(f, xs[..i], xs[i]);
  }

  /** f(0) + f(1) + ... + f(n - 1). */
  function ConcatUpTo<T>(f: nat -> seq<T>, n: nat): seq<T>
  {
    if n == 0 then [] else ConcatUpTo(f, n - 1) + f(n - 1)
  }

  lemma {:induction false} ConcatUpToMembers<T>(f: nat -> seq<T>, n: nat, x: T)
    ensures x in ConcatUpTo(f, n) <==> exists t :: 0 <= t < n && x in f(t)
  {
    if n > 0 {
      ConcatUpToMembers(f, n - 1, x);
    }
  }

  /** The elements of s satisfying p, in order. */
  function Filter<T(!new)>(p: T -> bool, s: seq<T>): (r: seq<T>)
    ensures |r| <= |s|
    ensures forall x :: x in r <==> x in s && p(x)
  {
    if s == [] then []
    else
      var rest := Filter(p, s[..|s| - 1]);
      if p(s[|s| - 1]) then rest + [s[|s| - 1]] else rest
  }

  function Count<T(==)>(x: T, s: seq<T>): (n: nat)
    ensures n <= |s|
    ensures n == 0 <==> x !in s
  {
    if s == [] then 0 else Count(x, s[..|s| - 1]) + (if s[|s| - 1] == x then 1 else 0)
  }

  // ---------------------------------------------------------------------
  // Strings

  predicate StartsWith(s: string, prefix: string)
  {
    |prefix| <= |s| && s[..|prefix|] == prefix
  }

  predicate EndsWith(s: string, suffix: string)
  {
    |suffix| <= |s| && s[|s| - |suffix|..] == suffix
  }

  /** Substring test (`str.includes` / Python `in`). */
  predicate Contains(s: string, part: string)
    decreases |s|
  {
    StartsWith(s, part) || (|s| > 0 && Contains(s[1..], part))
  }

  lemma {:induction false} ContainsAt(s: string, part: string, i: nat)
    requires i + |part| <= |s| && s[i..i + |part|] == part
    ensures Contains(s, part)
    decreases i
  {
    if i > 0 {
      assert s[1..][i - 1..i - 1 + |part|] == s[i..i + |part|];
      ContainsAt(s[1..], part, i - 1);
    }
  }

  lemma {:induction false} ContainsWitness(s: string, part: string) returns (i: nat)
    requires Contains(s, part)
    ensures i + |part| <= |s| && s[i..i + |part|] == part
    decreases |s|
  {
    if StartsWith(s, part) {
      i := 0;
    } else {
      var j := ContainsWitness(s[1..], part);
      assert s[1..][j..j + |part|] == s[j + 1..j + 1 + |part|];
      i := j + 1;
    }
  }

  /** Joins parts with a separator string (`Array.prototype.join`, `str.join`). */
  function Join(parts: seq<string>, sep: string): string
  {
    if parts == [] then ""
    else if |parts| == 1 then parts[0]
    else Join(parts[..|parts| - 1], sep) + sep + parts[|parts| - 1]
  }

  /** Splits on every occurrence of one character (`str.split(':')`, `String.split('.')`). */
  function Split(s: string, sep: char): (parts: seq<string>)
    ensures |parts| >= 1
    ensures forall k :: 0 <= k < |parts| ==> sep !in parts[k]
    decreases |s|
  {
    if s == [] then [""]
    else
      var rest := Split(s[1..], sep);
      if s[0] == sep then [""] + rest
      else [[s[0]] + rest[0]] + rest[1..]
  }

  lemma {:induction false} JoinCons(p: string, rest: seq<string>, sep: string)
    requires |rest| >= 1
    ensures Join([p] + rest, sep) == p + sep + Join(rest, sep)
    decreases |rest|
  {
    if |rest| == 1 {
      assert [p] + rest == [p, rest[0]];
    } else {
      var all := [p] + rest;
      assert all[..|all| - 1] == [p] + rest[..|rest| - 1];
      JoinCons(p, rest[..|rest| - 1], sep);
    }
  }

  lemma {:induction false} JoinHeadExtend(c: char, rest: seq<string>, sep: string)
    requires |rest| >= 1
    ensures Join([[c] + rest[0]] + rest[1..], sep) == [c] + Join(rest, sep)
    decreases |rest|
  {
    if |rest| == 1 {
    } else {
      var all := [[c] + rest[0]] + rest[1..];
      var init := rest[..|rest| - 1];
      assert all[..|all| - 1] == [[c] + init[0]] + init[1..];
      JoinHeadExtend(c, init, sep);
    }
  }

  /** Joining the pieces of a split with the same separator restores the string. */
  lemma {:induction false} JoinSplit(s: string, sep: char)
    ensures Join(Split(s, sep), [sep]) == s
    decreases |s|
  {
    if s != [] {
      var rest := Split(s[1..], sep);
      JoinSplit(s[1..], sep);
      if s[0] == sep {
        JoinCons("", rest, [sep]);
      } else {
        JoinHeadExtend(s[0], rest, [sep]);
      }
      assert s == [s[0]] + s[1..];
    }
  }

  /** Replaces every occurrence of the character `from` by `to` (`str.replace(/x/g, y)`). */
  function ReplaceChar(s: string, from: char, to: char): (r: string)
    ensures |r| == |s|
    ensures forall k :: 0 <= k < |s| ==> r[k] == (if s[k] == from then to else s[k])
  {
    if s == [] then [] else [if s[0] == from then to else s[0]] + ReplaceChar(s[1..], from, to)
  }

  /**
   * Replaces every non-overlapping occurrence of `pat`, scanning left to right
   * (`str.replace(/pat/g, rep)`); `pat` must be non-empty.
   */
  function ReplaceAll(s: string, pat: string, rep: string): (r: string)
    requires pat != []
    ensures !Contains(s, pat) ==> r == s
    decreases |s|
  {
    if |s| < |pat| then
      NotContainsShort(s, pat);
      s
    else if s[..|pat|] == pat then rep + ReplaceAll(s[|pat|..], pat, rep)
    else
      var r := [s[0]] + ReplaceAll(s[1..], pat, rep);
      assert !Contains(s, pat) ==> !Contains(s[1..], pat);
      assert !Contains(s, pat) ==> r == [s[0]] + s[1..] == s;
      r
  }

  lemma {:induction false} NotContainsShort(s: string, pat: string)
    requires |s| < |pat|
    ensures !Contains(s, pat)
    decreases |s|
  {
    if |s| > 0 { NotContainsShort(s[1..], pat); }
  }

  predicate IsAsciiLetter(c: char) { 'a' <= c <= 'z' || 'A' <= c <= 'Z' }

  predicate IsDigit(c: char) { '0' <= c <= '9' }

  predicate IsWordChar(c: char) { IsAsciiLetter(c) || IsDigit(c) || c == '_' }

  /** JavaScript / Python whitespace restricted to the characters that occur in configuration text. */
  predicate IsSpace(c: char) { c == ' ' || c == '\t' || c == '\n' || c == '\r' }

  /** True when `s.trim()` is empty. */
  predicate IsBlank(s: string) { forall k :: 0 <= k < |s| ==> IsSpace(s[k]) }

  /** ASCII lower-casing (`toLowerCase` on the identifiers and flags handled here). */
  function Lower(s: string): (r: string)
    ensures |r| == |s|
    ensures forall k :: 0 <= k < |s| ==> r[k] == LowerChar(s[k])
  {
    seq(|s|, k requires 0 <= k < |s| => LowerChar(s[k]))
  }

  function LowerChar(c: char): char
  {
    if 'A' <= c <= 'Z' then (c as int + 32) as char else c
  }

  // ---------------------------------------------------------------------
  // Decimal numbers

  function DigitChar(d: nat): (c: char)
    requires d < 10
    ensures IsDigit(c)
  {
    ('0' as int + d) as char
  }

  /** Decimal rendering of a natural number, without leading zeros. */
  function NatToString(n: nat): (s: string)
    ensures |s| >= 1
    ensures forall k :: 0 <= k < |s| ==> IsDigit(s[k])
    decreases n
  {
    if n < 10 then [DigitChar(n)] else NatToString(n / 10) + [DigitChar(n % 10)]
  }

  function IntToString(i: int): (s: string)
    ensures |s| >= 1
  {
    if i < 0 then "-" + NatToString(-i) else NatToString(i)
  }

  /** Value of a string of decimal digits (Python `int(s)` after `s.isdigit()`). */
  function ParseDigits(s: string): (n: nat)
    requires forall k :: 0 <= k < |s| ==> IsDigit(s[k])
  {
    if s == [] then 0
    else
      assert IsDigit(s[|s| - 1]);
      10 * ParseDigits(s[..|s| - 1]) + (s[|s| - 1] as int - '0' as int)
  }

  /** Parsing the decimal rendering of a number gives the number back. */
  lemma {:induction false} ParseNatToString(n: nat)
    ensures ParseDigits(NatToString(n)) == n
    decreases n
  {
    if n >= 10 {
      var s := NatToString(n);
      assert s[..|s| - 1] == NatToString(n / 10);
      ParseNatToString(n / 10);
    }
  }

  /** Python `str(v)` of a scalar. */
  function PyStr(v: Value): string
  {
    match v
    case Null => "None"
    case Str(s) => s
    case Num(n) => IntToString(n)
    case Bool(b) => if b then "True" else "False"
  }

  /** JavaScript `String(v)` of a scalar (null and undefined both read as Null). */
  function JsString(v: Value): string
  {
    match v
    case Null => "null"
    case Str(s) => s
    case Num(n) => IntToString(n)
    case Bool(b) => if b then "true" else "false"
  }

  /** `set.add(x)` for each `x` of `xs`, in order: a JavaScript Set in insertion order. */
  function AddAll<T(==)>(ms: seq<T>, xs: seq<T>): seq<T>
  {
    if xs == [] then ms
    else
      var r := AddAll(ms, xs[..|xs| - 1]);
      if xs[|xs| - 1] in r then r else r + [xs[|xs| - 1]]
  }

  /** Adding to a Set keeps what it held, gains exactly the added items, and never repeats one. */
  lemma {:induction false} AddAllSpec<T>(ms: seq<T>, xs: seq<T>)
    ensures forall x :: x in AddAll(ms, xs) <==> x in ms || x in xs
    ensures NoDup(ms) ==> NoDup(AddAll(ms, xs))
  {
    if xs != [] {
      var init := xs[..|xs| - 1];
      AddAllSpec(ms, init);
      assert forall x :: x in xs <==> x in init || x == xs[|xs| - 1];
    }
  }

  // ---------------------------------------------------------------------
  // Code-point order on strings, as used by Python `sorted` and JavaScript `sort()`

  predicate LessEq(a: string, b: string)
    decreases |a|
  {
    a == [] || (b != [] && (a[0] < b[0] || (a[0] == b[0] && LessEq(a[1..], b[1..]))))
  }

  lemma {:induction false} LessEqRefl(a: string)
    ensures LessEq(a, a)
    decreases |a|
  {
    if a != [] { LessEqRefl(a[1..]); }
  }

  lemma {:induction false} LessEqTotal(a: string, b: string)
    ensures LessEq(a, b) || LessEq(b, a)
    decreases |a|
  {
    if a != [] && b != [] && a[0] == b[0] { LessEqTotal(a[1..], b[1..]); }
  }

  lemma {:induction false} LessEqAntisym(a: string, b: string)
    requires LessEq(a, b) && LessEq(b, a)
    ensures a == b
    decreases |a|
  {
    if a != [] {
      LessEqAntisym(a[1..], b[1..]);
      assert a == [a[0]] + a[1..] && b == [b[0]] + b[1..];
    }
  }

  lemma {:induction false} LessEqTrans(a: string, b: string, c: string)
    requires LessEq(a, b) && LessEq(b, c)
    ensures LessEq(a, c)
    decreases |a|
  {
    if a != [] && a[0] == b[0] && b[0] == c[0] { LessEqTrans(a[1..], b[1..], c[1..]); }
  }

  predicate Sorted(s: seq<string>)
  {
    forall i, j :: 0 <= i < j < |s| ==> LessEq(s[i], s[j])
  }

  function Insert(x: string, s: seq<string>): seq<string>
  {
    if s == [] then [x]
    else if LessEq(x, s[0]) then [x] + s
    else [s[0]] + Insert(x, s[1..])
  }

  /** Insertion sort by code-point order. */
  function Sort(s: seq<string>): seq<string>
  {
    if s == [] then [] else Insert(s[|s| - 1], Sort(s[..|s| - 1]))
  }

  /** Inserting adds exactly the one element. */
  lemma {:induction false} InsertElems(x: string, s: seq<string>)
    ensures multiset(Insert(x, s)) == multiset(s) + multiset{x}
  {
    if s != [] && !LessEq(x, s[0]) {
      InsertElems(x, s[1..]);
      assert s == [s[0]] + s[1..];
    }
  }

  /** An ordered sequence stays ordered under a head no greater than any of its elements. */
  lemma SortedCons(a: string, t: seq<string>)
    requires Sorted(t)
    requires forall k :: 0 <= k < |t| ==> LessEq(a, t[k])
    ensures Sorted([a] + t)
  {
    var r := [a] + t;
    forall i, j | 0 <= i < j < |r| ensures LessEq(r[i], r[j]) {
      if i > 0 { assert r[i] == t[i - 1] && r[j] == t[j - 1]; }
      else { assert r[j] == t[j - 1]; }
    }
  }

  /** Inserting into an ordered sequence keeps it ordered. */
  lemma {:induction false} InsertSpec(x: string, s: seq<string>)
    requires Sorted(s)
    ensures Sorted(Insert(x, s))
    ensures multiset(Insert(x, s)) == multiset(s) + multiset{x}
  {
    InsertElems(x, s);
    if s == [] {
    } else if LessEq(x, s[0]) {
      forall k | 0 <= k < |s| ensures LessEq(x, s[k]) { if k > 0 { LessEqTrans(x, s[0], s[k]); } }
      SortedCons(x, s);
    } else {
      LessEqTotal(x, s[0]);
      var rest := s[1..];
      assert Sorted(rest) by {
        forall i, j | 0 <= i < j < |rest| ensures LessEq(rest[i], rest[j]) { assert rest[i] == s[i + 1] && rest[j] == s[j + 1]; }
      }
      InsertSpec(x, rest);
      var tail := Insert(x, rest);
      forall k | 0 <= k < |tail| ensures LessEq(s[0], tail[k]) {
        assert tail[k] in multiset(tail);
        if tail[k] != x {
          assert tail[k] in multiset(rest);
          var m :| 0 <= m < |rest| && rest[m] == tail[k];
          assert rest[m] == s[m + 1];
        }
      }
      SortedCons(s[0], tail);
    }
  }

  /** Sorting yields an ordered rearrangement of its input. */
  lemma {:induction false} SortSpec(s: seq<string>)
    ensures Sorted(Sort(s))
    ensures multiset(Sort(s)) == multiset(s)
  {
    if s != [] {
      SortSpec(s[..|s| - 1]);
      InsertSpec(s[|s| - 1], Sort(s[..|s| - 1]));
      assert s == s[..|s| - 1] + [s[|s| - 1]];
    }
  }

  /** The least element of a non-empty sequence: what `sorted(xs)[0]` / `xs.sort()[0]` yields. */
  function Min(s: seq<string>): (m: string)
    requires |s| > 0
    ensures m in s
    ensures forall x :: x in s ==> LessEq(m, x)
  {
    if |s| == 1 then LessEqRefl(s[0]); s[0]
    else
      var m := Min(s[..|s| - 1]);
      var last := s[|s| - 1];
      assert forall x :: x in s ==> x in s[..|s| - 1] || x == last;
      LessEqTotal(m, last);
      LessEqRefl(last);
      if LessEq(m, last) then m
      else
        assert forall x :: x in s[..|s| - 1] ==> LessEq(last, x) by {
          forall x | x in s[..|s| - 1] ensures LessEq(last, x) { LessEqTrans(last, m, x); }
        }
        last
  }

  /** The first element of a sorted sequence is its minimum. */
  lemma {:induction false} SortHeadIsMin(s: seq<string>)
    requires |s| > 0
    ensures |Sort(s)| == |s| && Sort(s)[0] == Min(s)
  {
    var r := Sort(s);
    SortSpec(s);
    assert |r| == |multiset(r)| == |multiset(s)| == |s|;
    assert r[0] in multiset(s);
    assert Min(s) in multiset(r);
    var k :| 0 <= k < |r| && r[k] == Min(s);
    if k > 0 { assert LessEq(r[0], r[k]); }
    LessEqAntisym(r[0], Min(s));
  }

  /** `sorted(set(xs))`: the distinct elements in increasing order. */
  function SortedSet(xs: seq<string>): (r: seq<string>)
    ensures Sorted(r) && NoDup(r)
    ensures forall x :: x in r <==> x in xs
  {
    var d := Dedup(xs);
    var r := Sort(d);
    SortSpec(d);
    assert forall x :: x in r <==> x in multiset(d);
    SameMultisetNoDup(d, r);
    r
  }

  /** A rearrangement of a duplicate-free sequence is duplicate-free. */
  lemma SameMultisetNoDup<T>(d: seq<T>, r: seq<T>)
    requires NoDup(d) && multiset(r) == multiset(d)
    ensures NoDup(r)
  {
    forall i, j | 0 <= i < j < |r| ensures r[i] != r[j] {
      if r[i] == r[j] {
        TwoOccurrences(r, i, j);
        NoDupMultiplicity(d, r[i]);
        assert false;
      }
    }
  }

  lemma TwoOccurrences<T>(r: seq<T>, i: nat, j: nat)
    requires i < j < |r| && r[i] == r[j]
    ensures multiset(r)[r[i]] >= 2
  {
    assert r == r[..j] + r[j..];
    assert r[i] in r[..j];
    assert r[j] in r[j..];
    assert multiset(r) == multiset(r[..j]) + multiset(r[j..]);
  }

  lemma {:induction false} NoDupMultiplicity<T>(s: seq<T>, x: T)
    requires NoDup(s)
    ensures multiset(s)[x] <= 1
  {
    if s != [] {
      var init := s[..|s| - 1];
      assert s == init + [s[|s| - 1]];
      assert NoDup(init);
      NoDupMultiplicity(init, x);
      if s[|s| - 1] == x { assert x !in init; }
    }
  }

  predicate IsLeast(m: string, s: set<string>)
  {
    m in s && forall x :: x in s ==> LessEq(m, x)
  }

  lemma {:induction false} SetHasLeast(s: set<string>)
    requires s != {}
    ensures exists m :: IsLeast(m, s)
    decreases |s|
  {
    var x :| x in s;
    LessEqRefl(x);
    if s - {x} != {} {
      SetHasLeast(s - {x});
      var m :| IsLeast(m, s - {x});
      LessEqTotal(m, x);
      if LessEq(m, x) {
        assert IsLeast(m, s);
      } else {
        forall y | y in s ensures LessEq(x, y) {
          if y != x { LessEqTrans(x, m, y); }
        }
        assert IsLeast(x, s);
      }
    } else {
      assert s == {x};
      assert IsLeast(x, s);
    }
  }

  lemma LeastUnique(s: set<string>)
    ensures forall m, n :: IsLeast(m, s) && IsLeast(n, s) ==> m == n
  {
    forall m, n | IsLeast(m, s) && IsLeast(n, s) ensures m == n {
      LessEqAntisym(m, n);
    }
  }

  /** The least element of a non-empty set of strings. */
  function Least(s: set<string>): (m: string)
    requires s != {}
    ensures IsLeast(m, s)
  {
    SetHasLeast(s);
    LeastUnique(s);
    var m :| IsLeast(m, s);
    m
  }

  /** `sorted(s)` for a set of strings: its elements in increasing order. */
  function SortedOfSet(s: set<string>): seq<string>
    decreases |s|
  {
    if s == {} then [] else [Least(s)] + SortedOfSet(s - {Least(s)})
  }

  /** The sorted listing of a set holds each element exactly once, in increasing order. */
  lemma {:induction false} SortedOfSetSpec(s: set<string>)
    ensures Sorted(SortedOfSet(s)) && NoDup(SortedOfSet(s))
    ensures forall x :: x in SortedOfSet(s) <==> x in s
    ensures |SortedOfSet(s)| == |s|
    decreases |s|
  {
    if s != {} {
      var m := Least(s);
      var rest := SortedOfSet(s - {m});
      SortedOfSetSpec(s - {m});
      var r := [m] + rest;
      forall i, j | 0 <= i < j < |r| ensures LessEq(r[i], r[j]) {
        if i > 0 { assert r[i] == rest[i - 1] && r[j] == rest[j - 1]; }
        else { assert r[j] == rest[j - 1] && rest[j - 1] in rest; }
      }
    }
  }
}
