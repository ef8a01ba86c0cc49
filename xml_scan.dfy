// Text scanning with the regular-expression shapes the permissions extractor
// applies to Salesforce metadata XML, and the facts needed to read back XML
// whose tags are known.

module XmlScan {
  import opened Common

  // ---------------------------------------------------------------------
  // Occurrences

  /** `p` occurs in `s` at position `i`. */
  predicate At(s: string, p: string, i: int)
  {
    0 <= i && i + |p| <= |s| && Matches(s, p, i, 0)
  }

  /** `s` holds `p[k..]` character by character from position `i + k` on. */
  predicate Matches(s: string, p: string, i: nat, k: nat)
    requires i + |p| <= |s| && k <= |p|
    decreases |p| - k
  {
    k == |p| || (s[i + k] == p[k] && Matches(s, p, i, k + 1))
  }

  lemma {:induction false} MatchesSlice(s: string, p: string, i: nat, k: nat)
    requires i + |p| <= |s| && k <= |p|
    ensures Matches(s, p, i, k) <==> s[i + k..i + |p|] == p[k..]
    decreases |p| - k
  {
    if k < |p| {
      MatchesSlice(s, p, i, k + 1);
      assert s[i + k..i + |p|] == [s[i + k]] + s[i + k + 1..i + |p|];
      assert p[k..] == [p[k]] + p[k + 1..];
    }
  }

  lemma {:induction false} AtIff(s: string, p: string, i: int)
    ensures At(s, p, i) <==> 0 <= i && i + |p| <= |s| && s[i..i + |p|] == p
  {
    if 0 <= i && i + |p| <= |s| {
      MatchesSlice(s, p, i, 0);
      assert p[0..] == p;
    }
  }

  /** The first position at or after `from` where `p` occurs (`indexOf`). */
  function IndexFrom(s: string, p: string, from: nat): (r: Option<nat>)
    ensures r.Some? ==> from <= r.value && r.value + |p| <= |s|
    decreases |s| - from
  {
    if from + |p| > |s| then None
    else if At(s, p, from) then Some(from)
    else IndexFrom(s, p, from + 1)
  }

  /** `IndexFrom` finds an occurrence. */
  lemma {:induction false} IndexFromFound(s: string, p: string, from: nat)
    ensures IndexFrom(s, p, from).Some? ==> At(s, p, IndexFrom(s, p, from).value)
    decreases |s| - from
  {
    if from + |p| <= |s| && !At(s, p, from) {
      IndexFromFound(s, p, from + 1);
    }
  }

  /** `IndexFrom` finds the first occurrence, and finds none only when there is none. */
  lemma {:induction false} IndexFromSpec(s: string, p: string, from: nat)
    ensures IndexFrom(s, p, from).Some? ==>
      forall j :: from <= j < IndexFrom(s, p, from).value ==> !At(s, p, j)
    ensures IndexFrom(s, p, from).None? ==> forall j :: from <= j ==> !At(s, p, j)
    decreases |s| - from
  {
    if from + |p| <= |s| && !At(s, p, from) {
      IndexFromSpec(s, p, from + 1);
    }
  }

  /** An occurrence with none between `from` and it is the one `IndexFrom` finds. */
  lemma {:induction false} IndexFromIs(s: string, p: string, from: nat, k: nat)
    requires from <= k && At(s, p, k)
    requires forall j :: from <= j < k ==> !At(s, p, j)
    ensures IndexFrom(s, p, from) == Some(k)
    decreases k - from
  {
    if from < k {
      IndexFromIs(s, p, from + 1, k);
    }
  }

  /** `IndexFrom` finds nothing when nothing occurs. */
  lemma {:induction false} IndexFromNone(s: string, p: string, from: nat)
    requires p != [] && forall j :: from <= j < |s| ==> !At(s, p, j)
    ensures IndexFrom(s, p, from) == None
    decreases |s| - from
  {
    if from + |p| <= |s| {
      IndexFromNone(s, p, from + 1);
    }
  }

  lemma {:induction false} AtFirst(s: string, p: string, i: int)
    requires At(s, p, i) && p != []
    ensures s[i] == p[0]
  {
  }

  /** The first position at or after `from` that holds '<', or the end of `s`. */
  function RunEnd(s: string, from: nat): (e: nat)
    ensures from <= e && (from <= |s| ==> e <= |s|)
    decreases |s| - from
  {
    if from >= |s| || s[from] == '<' then from else RunEnd(s, from + 1)
  }

  lemma {:induction false} RunEndIs(s: string, from: nat, k: nat)
    requires from <= k <= |s| && (k < |s| ==> s[k] == '<')
    requires forall j :: from <= j < k ==> s[j] != '<'
    ensures RunEnd(s, from) == k
    decreases k - from
  {
    if from < k {
      RunEndIs(s, from + 1, k);
    }
  }

  predicate IsLineTerminator(c: char)
  {
    c == '\n' || c == '\r' || c == '\U{2028}' || c == '\U{2029}'
  }

  /** Text the regular-expression `.` can match character by character. */
  predicate OnOneLine(t: string)
  {
    forall k :: 0 <= k < |t| ==> !IsLineTerminator(t[k])
  }

  // ---------------------------------------------------------------------
  // The regular-expression shapes, scanning `s` from position `from`

  /**
   * All matches of `open[\s\S]*?close` with the global flag: from each
   * opening text to the nearest closing text after it, scanning on past
   * the match.
   */
  function Blocks(s: string, open: string, close: string, from: nat): (r: seq<string>)
    requires open != []
    decreases |s| - from
  {
    match IndexFrom(s, open, from)
    case None => []
    case Some(i) =>
      match IndexFrom(s, close, i + |open|)
      case None => []
      case Some(j) => [s[i..j + |close|]] + Blocks(s, open, close, j + |close|)
  }

  /**
   * The capture of the first match of `open(.*?)close`: at each opening
   * text in turn, the text up to the nearest closing text, provided no line
   * ends inside it; `None` when there is no match (`?.[1]` is `undefined`).
   */
  function FirstInner(s: string, open: string, close: string, from: nat): (r: Option<string>)
    requires open != []
    decreases |s| - from
  {
    match IndexFrom(s, open, from)
    case None => None
    case Some(i) =>
      match IndexFrom(s, close, i + |open|)
      case None => None
      case Some(j) =>
        if OnOneLine(s[i + |open|..j]) then Some(s[i + |open|..j])
        else FirstInner(s, open, close, i + 1)
  }

  /**
   * The captures of all matches of `open([^<]+)close` with the global flag
   * (each match with its two tags stripped off). `close` starts with '<',
   * so the greedy run can only end at the first '<' after the opening text.
   */
  function TextRuns(s: string, open: string, close: string, from: nat): (r: seq<string>)
    requires open != []
    decreases |s| - from
  {
    match IndexFrom(s, open, from)
    case None => []
    case Some(i) =>
      var e := RunEnd(s, i + |open|);
      if e > i + |open| && At(s, close, e) then
        [s[i + |open|..e]] + TextRuns(s, open, close, e + |close|)
      else TextRuns(s, open, close, i + 1)
  }

  /** The capture of the first match of `open([^<]*)close`, if any. */
  function FirstRun(s: string, open: string, close: string, from: nat): (r: Option<string>)
    requires open != []
    decreases |s| - from
  {
    match IndexFrom(s, open, from)
    case None => None
    case Some(i) =>
      var e := RunEnd(s, i + |open|);
      if At(s, close, e) then Some(s[i + |open|..e])
      else FirstRun(s, open, close, i + 1)
  }

  // ---------------------------------------------------------------------
  // Tags and text that cannot be mistaken for a given tag

  /** A tag name (including a leading '/' for a closing tag). */
  predicate IsName(n: string)
  {
    n != [] && '<' !in n && '>' !in n
  }

  function TagText(n: string): string
  {
    "<" + n + ">"
  }

  /** An occurrence of `t` starting at `q` could be completed by text appended to `s`. */
  predicate MayStart(s: string, t: string, q: int)
  {
    0 <= q < |s| &&
    var l := if q + |t| <= |s| then |t| else |s| - q;
    s[q..q + l] == t[..l]
  }

  /** `s` holds no occurrence of `t`, not even one cut off at its end. */
  predicate SafeFor(s: string, t: string)
  {
    forall q :: 0 <= q < |s| ==> !MayStart(s, t, q)
  }

  lemma {:induction false} AtAfter(a: string, b: string, p: string, i: int)
    requires 0 <= i
    ensures At(a + b, p, |a| + i) <==> At(b, p, i)
  {
    AtIff(a + b, p, |a| + i);
    AtIff(b, p, i);
    if i + |p| <= |b| {
      assert (a + b)[|a| + i..|a| + i + |p|] == b[i..i + |p|];
    }
  }

  /** An occurrence in `a + b` that starts inside `a` could start in `a` alone. */
  lemma {:induction false} AtMayStart(a: string, b: string, p: string, i: int)
    requires 0 <= i < |a| && At(a + b, p, i)
    ensures MayStart(a, p, i)
  {
    AtIff(a + b, p, i);
    var l := if i + |p| <= |a| then |p| else |a| - i;
    forall k | 0 <= k < l
      ensures a[i..i + l][k] == p[..l][k]
    {
      assert a[i + k] == (a + b)[i + k] == (a + b)[i..i + |p|][k];
    }
  }

  /** An occurrence is a possible start. */
  lemma {:induction false} AtIsMayStart(s: string, p: string, i: int)
    requires p != [] && At(s, p, i)
    ensures MayStart(s, p, i)
  {
    AtIff(s, p, i);
    assert p[..|p|] == p;
  }

  lemma {:induction false} SafeConcat(a: string, b: string, t: string)
    requires SafeFor(a, t) && SafeFor(b, t)
    ensures SafeFor(a + b, t)
  {
    forall q | MayStart(a + b, t, q)
      ensures false
    {
      var s := a + b;
      var l := if q + |t| <= |s| then |t| else |s| - q;
      if q >= |a| {
        assert s[q..q + l] == b[q - |a|..q - |a| + l];
        assert MayStart(b, t, q - |a|);
      } else {
        var la := if q + |t| <= |a| then |t| else |a| - q;
        assert s[q..q + la] == a[q..q + la];
        assert s[q..q + la] == s[q..q + l][..la];
        assert t[..la] == t[..l][..la];
        assert MayStart(a, t, q);
      }
    }
  }

  lemma {:induction false} SafeText(x: string, t: string)
    requires '<' !in x && t != [] && t[0] == '<'
    ensures SafeFor(x, t)
  {
    forall q | MayStart(x, t, q)
      ensures false
    {
    }
  }

  /** A possible start agrees with `t` character by character. */
  lemma {:induction false} MayStartChar(s: string, t: string, q: int, k: int)
    requires MayStart(s, t, q) && 0 <= k < |t| && q + k < |s|
    ensures s[q + k] == t[k]
  {
    var l := if q + |t| <= |s| then |t| else |s| - q;
    assert s[q..q + l][k] == t[..l][k];
  }

  lemma {:induction false} SafeTag(n: string, m: string)
    requires IsName(n) && IsName(m) && n != m
    ensures SafeFor(TagText(n), TagText(m))
  {
    var s, t := TagText(n), TagText(m);
    forall q | MayStart(s, t, q)
      ensures false
    {
      MayStartChar(s, t, q, 0);
      if q == 0 {
        if |n| < |m| {
          MayStartChar(s, t, 0, |n| + 1);
        } else if |n| > |m| {
          MayStartChar(s, t, 0, |m| + 1);
        } else {
          forall k | 0 <= k < |n|
            ensures n[k] == m[k]
          {
            MayStartChar(s, t, 0, k + 1);
            assert s[k + 1] == n[k] && t[k + 1] == m[k];
          }
        }
      }
    }
  }

  /** A tag between text safe for it occurs at exactly one position. */
  lemma {:induction false} UniqueAt(pre: string, n: string, rest: string, q: int)
    requires IsName(n) && SafeFor(pre, TagText(n)) && SafeFor(rest, TagText(n))
    requires At(pre + TagText(n) + rest, TagText(n), q)
    ensures q == |pre|
  {
    var t := TagText(n);
    var s := pre + t + rest;
    AtIsMayStart(s, t, q);
    MayStartChar(s, t, q, 0);
    if q < |pre| {
      AppendAssoc(pre, t, rest);
      AtMayStart(pre, t + rest, t, q);
    } else if q >= |pre| + |t| {
      AtAfter(pre + t, rest, t, q - |pre| - |t|);
      AtIsMayStart(rest, t, q - |pre| - |t|);
    }
  }

  // ---------------------------------------------------------------------
  // Reading known text back

  lemma {:induction false} Regroup(a: string, x: string, c: string, r: string)
    ensures a + x + c + r == a + (x + c + r)
    ensures x + c + r == x + (c + r)
  {
    AppendAssoc(a + x, c, r);
    AppendAssoc(a, x, c + r);
    AppendAssoc(x, c, r);
  }

  /** No occurrence of `t` starts inside text safe for it. */
  lemma {:induction false} SafeNone(P: string, w: string, R: string, t: string)
    requires SafeFor(w, t)
    ensures forall j :: |P| <= j < |P| + |w| ==> !At(P + w + R, t, j)
  {
    forall j | |P| <= j < |P| + |w| && At(P + (w + R), t, j)
      ensures false
    {
      AtAfter(P, w + R, t, j - |P|);
      AtMayStart(w, R, t, j - |P|);
    }
    AppendAssoc(P, w, R);
  }

  /** One step of `Blocks`, with every position given. */
  lemma {:induction false} BlocksStep(s: string, open: string, close: string, from: nat, i: nat, k: nat, j: nat, e: nat, x: string)
    requires open != [] && IndexFrom(s, open, from) == Some(i) && k == i + |open|
    requires IndexFrom(s, close, k) == Some(j) && e == j + |close| && i <= e <= |s| && s[i..e] == x
    ensures Blocks(s, open, close, from) == [x] + Blocks(s, open, close, e)
  {
  }

  /** One step of `TextRuns`, with every position given. */
  lemma {:induction false} TextRunsStep(s: string, open: string, close: string, from: nat, i: nat, k: nat, e: nat, n: nat, x: string)
    requires open != [] && IndexFrom(s, open, from) == Some(i) && k == i + |open|
    requires RunEnd(s, k) == e > k && At(s, close, e) && n == e + |close| && e <= |s| && s[k..e] == x
    ensures TextRuns(s, open, close, from) == [x] + TextRuns(s, open, close, n)
  {
  }

  lemma {:induction false} BlocksNone(s: string, open: string, close: string, from: nat)
    requires open != [] && IndexFrom(s, open, from) == None
    ensures Blocks(s, open, close, from) == []
  {
  }

  lemma {:induction false} TextRunsNone(s: string, open: string, close: string, from: nat)
    requires open != [] && IndexFrom(s, open, from) == None
    ensures TextRuns(s, open, close, from) == []
  {
  }

  lemma {:induction false} FirstRunUnfold(s: string, open: string, close: string, from: nat, i: nat, k: nat, e: nat)
    requires open != [] && IndexFrom(s, open, from) == Some(i) && k == i + |open|
    requires RunEnd(s, k) == e && At(s, close, e)
    ensures FirstRun(s, open, close, from) == Some(s[k..e])
  {
  }

  lemma {:induction false} FirstInnerUnfold(s: string, open: string, close: string, from: nat, i: nat, j: nat)
    requires open != [] && IndexFrom(s, open, from) == Some(i)
    requires IndexFrom(s, close, i + |open|) == Some(j) && OnOneLine(s[i + |open|..j])
    ensures FirstInner(s, open, close, from) == Some(s[i + |open|..j])
  {
  }
}
