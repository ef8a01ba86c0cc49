// Reading back well-formed XML: what the scans of XmlScan return on text
// made of groups of elements, runs of text between tags, and fields.

module XmlRead {
  import opened Common
  import opened XmlScan
  import opened XmlDoc

  /** `xs` occupies the pieces of `ps` from `a` on (its first `m` pieces are checked). */
  predicate PlacedUpTo(ps: seq<Piece>, a: nat, xs: seq<Piece>, m: nat)
    decreases m
  {
    m <= |xs| && a + |xs| <= |ps| && (m == 0 || (ps[a + m - 1] == xs[m - 1] && PlacedUpTo(ps, a, xs, m - 1)))
  }

  /** `xs` occupies the pieces of `ps` from `a` on. */
  predicate Placed(ps: seq<Piece>, a: nat, xs: seq<Piece>)
  {
    PlacedUpTo(ps, a, xs, |xs|)
  }

  lemma {:induction false} PlacedUpToIff(ps: seq<Piece>, a: nat, xs: seq<Piece>, m: nat)
    requires m <= |xs|
    ensures PlacedUpTo(ps, a, xs, m) <==> a + |xs| <= |ps| && forall k :: 0 <= k < m ==> ps[a + k] == xs[k]
    decreases m
  {
    if m > 0 {
      PlacedUpToIff(ps, a, xs, m - 1);
    }
  }

  lemma {:induction false} PlacedIff(ps: seq<Piece>, a: nat, xs: seq<Piece>)
    ensures Placed(ps, a, xs) <==> a + |xs| <= |ps| && forall k :: 0 <= k < |xs| ==> ps[a + k] == xs[k]
  {
    PlacedUpToIff(ps, a, xs, |xs|);
  }

  lemma {:induction false} PlacedAt(ps: seq<Piece>, a: nat, xs: seq<Piece>, k: nat)
    requires Placed(ps, a, xs) && k < |xs|
    ensures a + |xs| <= |ps| && ps[a + k] == xs[k]
  {
    PlacedIff(ps, a, xs);
  }

  lemma {:induction false} PlacedSplit(ps: seq<Piece>, a: nat, xs: seq<Piece>, ys: seq<Piece>)
    requires Placed(ps, a, xs + ys)
    ensures Placed(ps, a, xs) && Placed(ps, a + |xs|, ys)
  {
    PlacedIff(ps, a, xs + ys);
    PlacedIff(ps, a, xs);
    PlacedIff(ps, a + |xs|, ys);
    forall k | 0 <= k < |xs|
      ensures ps[a + k] == xs[k]
    {
      assert (xs + ys)[k] == xs[k];
    }
    forall k | 0 <= k < |ys|
      ensures ps[a + |xs| + k] == ys[k]
    {
      assert (xs + ys)[|xs| + k] == ys[k];
    }
  }

  lemma {:induction false} PlacedAt2(ps: seq<Piece>, a: nat, xs: seq<Piece>, p: nat, k: nat)
    requires Placed(ps, a, xs) && k < |xs| && p == a + k
    ensures p < |ps| && ps[p] == xs[k]
  {
    PlacedIff(ps, a, xs);
  }

  lemma FlatStep(ps: seq<Piece>, pi: nat, pj: nat, xs: seq<Piece>, i: nat, j: nat)
    requires pi < pj <= |ps| && i < j <= |xs|
    requires Flat(ps, pi, pj - 1) == Flat(xs, i, j - 1) && ps[pj - 1] == xs[j - 1]
    ensures Flat(ps, pi, pj) == Flat(xs, i, j)
  {
  }

  lemma {:induction false} FlatShift(ps: seq<Piece>, xs: seq<Piece>, d: nat, i: nat, j: nat)
    requires i <= j <= |xs| && d + j <= |ps|
    requires forall k :: i <= k < j ==> ps[d + k] == xs[k]
    ensures Flat(ps, d + i, d + j) == Flat(xs, i, j)
    decreases j
  {
    if j > i {
      FlatShift(ps, xs, d, i, j - 1);
      assert ps[d + j - 1] == xs[j - 1];
      FlatStep(ps, d + i, d + j, xs, i, j);
    }
  }

  lemma FlatPlaced(ps: seq<Piece>, a: nat, xs: seq<Piece>, i: nat, j: nat, pi: nat, pj: nat)
    requires Placed(ps, a, xs) && i <= j <= |xs| && pi == a + i && pj == a + j
    ensures pi <= pj <= |ps| && Flat(ps, pi, pj) == Flat(xs, i, j)
  {
    PlacedIff(ps, a, xs);
    FlatShift(ps, xs, a, i, j);
  }

  lemma {:induction false} WellFormedPlaced(ps: seq<Piece>, a: nat, xs: seq<Piece>)
    requires Placed(ps, a, xs) && WellFormed(ps, 0, |ps|)
    ensures WellFormed(xs, 0, |xs|)
  {
    PlacedIff(ps, a, xs);
    WellFormedIff(ps, 0, |ps|);
    WellFormedIff(xs, 0, |xs|);
    forall k | 0 <= k < |xs|
      ensures PieceOk(xs[k])
    {
      assert ps[a + k] == xs[k];
    }
  }

  lemma {:induction false} NoTagPlaced(ps: seq<Piece>, a: nat, xs: seq<Piece>, i: nat, j: nat, n: string)
    requires Placed(ps, a, xs) && i <= j <= |xs| && NoTag(xs, i, j, n)
    ensures a + |xs| <= |ps| && NoTag(ps, a + i, a + j, n)
  {
    PlacedIff(ps, a, xs);
    NoTagIff(xs, i, j, n);
    NoTagIff(ps, a + i, a + j, n);
    forall k | a + i <= k < a + j
      ensures ps[k] != Tag(n)
    {
      assert ps[k] == xs[k - a];
    }
  }

  /** `ys` occupies the pieces of `xs + ys + zs` after `xs`. */
  lemma {:induction false} PlacedMid(xs: seq<Piece>, ys: seq<Piece>, zs: seq<Piece>)
    ensures Placed(xs + ys + zs, |xs|, ys)
  {
    var ps := xs + ys + zs;
    forall k | 0 <= k < |ys|
      ensures ps[|xs| + k] == ys[k]
    {
    }
    PlacedIff(ps, |xs|, ys);
  }

  /** The text of pieces placed at `a` sits between their offsets. */
  lemma PlacedText(ps: seq<Piece>, a: nat, xs: seq<Piece>, e: nat)
    requires Placed(ps, a, xs) && e == a + |xs|
    ensures e <= |ps|
    ensures Off(ps, a) <= Off(ps, e) <= |Doc(ps)|
    ensures Doc(ps)[Off(ps, a)..Off(ps, e)] == Doc(xs)
  {
    FlatPlaced(ps, a, xs, 0, |xs|, a, e);
    FlatSlice(ps, a, e);
  }

  /** No `<o>` from piece `f` on when the pieces from `f` hold no tag `o`. */
  lemma {:induction false} NoneFrom(ps: seq<Piece>, f: nat, a: nat, o: string)
    requires WellFormed(ps, 0, |ps|) && IsName(o) && f <= a <= |ps|
    requires NoTag(ps, f, a, o) && NoTag(ps, a, |ps|, o)
    ensures IndexFrom(Doc(ps), TagText(o), Off(ps, f)) == None
  {
    NoTagJoin(ps, f, a, |ps|, o);
    WellFormedSub(ps, 0, |ps|, f, |ps|);
    TagAbsent(ps, f, o);
  }

  // ---------------------------------------------------------------------
  // Groups of elements: `w <o> ... <c>` after `w <o> ... <c>`

  /** The pieces of the elements `bodies`, each after a text `w`. */
  function Group(w: string, bodies: seq<seq<Piece>>): seq<Piece>
    decreases |bodies|
  {
    if bodies == [] then [] else [Text(w)] + bodies[0] + Group(w, bodies[1..])
  }

  /** An element body `<o> ... <c>` with no `<c>` inside. */
  predicate IsElement(body: seq<Piece>, o: string, c: string)
  {
    |body| >= 2 && body[0] == Tag(o) && body[|body| - 1] == Tag(c) && NoTag(body, 1, |body| - 1, c)
  }

  /** Every body in `bodies` is an element `<o> ... <c>`. */
  predicate Elements(bodies: seq<seq<Piece>>, o: string, c: string)
    decreases |bodies|
  {
    bodies == [] || (IsElement(bodies[0], o, c) && Elements(bodies[1..], o, c))
  }

  function Docs(bodies: seq<seq<Piece>>): (r: seq<string>)
    ensures |r| == |bodies|
    decreases |bodies|
  {
    if bodies == [] then [] else [Doc(bodies[0])] + Docs(bodies[1..])
  }

  /** The next `<o>` from piece `f` is the opening tag of an element at piece `a + 1`. */
  lemma {:induction false} OpenFound(ps: seq<Piece>, f: nat, a: nat, body: seq<Piece>, o: string, c: string)
    requires WellFormed(ps, 0, |ps|) && f <= a < |ps| && ps[a].Text?
    requires Placed(ps, a + 1, body) && IsElement(body, o, c) && NoTag(ps, f, a, o)
    ensures IndexFrom(Doc(ps), TagText(o), Off(ps, f)) == Some(Off(ps, a + 1))
    ensures Off(ps, a + 2) == Off(ps, a + 1) + |TagText(o)|
  {
    PlacedAt(ps, a + 1, body, 0);
    WellFormedSub(ps, 0, |ps|, f, a + 2);
    TagFound(ps, f, a + 1, o);
    assert Off(ps, a + 2) == Off(ps, a + 1) + |TagText(o)| by { PieceAt(ps, a + 1); }
  }

  /** The next `<c>` after the opening tag is the closing tag of the element. */
  lemma {:induction false} CloseFound(ps: seq<Piece>, a: nat, b: nat, body: seq<Piece>, o: string, c: string)
    requires WellFormed(ps, 0, |ps|) && Placed(ps, a + 1, body) && IsElement(body, o, c) && b == a + 1 + |body|
    ensures IndexFrom(Doc(ps), TagText(c), Off(ps, a + 2)) == Some(Off(ps, b - 1))
    ensures Off(ps, b) == Off(ps, b - 1) + |TagText(c)|
  {
    PlacedAt(ps, a + 1, body, |body| - 1);
    NoTagPlaced(ps, a + 1, body, 1, |body| - 1, c);
    WellFormedSub(ps, 0, |ps|, a + 2, b);
    TagFound(ps, a + 2, b - 1, c);
    assert Off(ps, b) == Off(ps, b - 1) + |TagText(c)| by { PieceAt(ps, b - 1); }
  }

  /** Where the scans stop on an element at piece `a + 1`, and the text between. */
  lemma {:induction false} ElementAt(ps: seq<Piece>, f: nat, a: nat, b: nat, body: seq<Piece>, o: string, c: string)
    requires WellFormed(ps, 0, |ps|) && f <= a < |ps| && ps[a].Text?
    requires Placed(ps, a + 1, body) && IsElement(body, o, c) && NoTag(ps, f, a, o) && b == a + 1 + |body|
    ensures b <= |ps|
    ensures IndexFrom(Doc(ps), TagText(o), Off(ps, f)) == Some(Off(ps, a + 1))
    ensures Off(ps, a + 2) == Off(ps, a + 1) + |TagText(o)|
    ensures IndexFrom(Doc(ps), TagText(c), Off(ps, a + 2)) == Some(Off(ps, b - 1))
    ensures Off(ps, b) == Off(ps, b - 1) + |TagText(c)|
    ensures Off(ps, a + 1) <= Off(ps, b) <= |Doc(ps)|
    ensures Doc(ps)[Off(ps, a + 1)..Off(ps, b)] == Doc(body)
  {
    OpenFound(ps, f, a, body, o, c);
    CloseFound(ps, a, b, body, o, c);
    PlacedText(ps, a + 1, body, b);
  }

  /** An element after a text piece at `a` is the next block found from piece `f`. */
  lemma {:induction false} BlocksHead(ps: seq<Piece>, f: nat, a: nat, b: nat, body: seq<Piece>, o: string, c: string)
    requires WellFormed(ps, 0, |ps|) && f <= a < |ps| && ps[a].Text?
    requires Placed(ps, a + 1, body) && IsElement(body, o, c) && NoTag(ps, f, a, o) && b == a + 1 + |body|
    ensures b <= |ps|
    ensures Blocks(Doc(ps), TagText(o), TagText(c), Off(ps, f))
         == [Doc(body)] + Blocks(Doc(ps), TagText(o), TagText(c), Off(ps, b))
  {
    ElementAt(ps, f, a, b, body, o, c);
    BlocksStep(Doc(ps), TagText(o), TagText(c), Off(ps, f), Off(ps, a + 1), Off(ps, a + 2),
      Off(ps, b - 1), Off(ps, b), Doc(body));
  }

  lemma {:induction false} GroupPlaced(ps: seq<Piece>, a: nat, b: nat, w: string, bodies: seq<seq<Piece>>)
    requires bodies != [] && Placed(ps, a, Group(w, bodies)) && b == a + 1 + |bodies[0]|
    ensures a < |ps| && ps[a] == Text(w) && Placed(ps, a + 1, bodies[0])
    ensures Placed(ps, b, Group(w, bodies[1..]))
    ensures a + |Group(w, bodies)| == b + |Group(w, bodies[1..])|
  {
    var rest := Group(w, bodies[1..]);
    AppendAssoc([Text(w)], bodies[0], rest);
    PlacedSplit(ps, a, [Text(w)], bodies[0] + rest);
    PlacedSplit(ps, a + 1, bodies[0], rest);
  }

  /**
   * Scanning for `<o>[\s\S]*?<c>` from piece `f` over a group of elements
   * that starts at piece `a` returns the text of each element, when `<o>`
   * occurs nowhere else from `f` on.
   */
  lemma {:induction false} BlocksOf(ps: seq<Piece>, f: nat, a: nat, e: nat, w: string, bodies: seq<seq<Piece>>, o: string, c: string)
    requires WellFormed(ps, 0, |ps|) && IsName(o)
    requires f <= a && Placed(ps, a, Group(w, bodies)) && e == a + |Group(w, bodies)|
    requires Elements(bodies, o, c) && NoTag(ps, f, a, o) && NoTag(ps, e, |ps|, o)
    ensures Blocks(Doc(ps), TagText(o), TagText(c), Off(ps, f)) == Docs(bodies)
    decreases |bodies|
  {
    if bodies == [] {
      NoneFrom(ps, f, a, o);
      BlocksNone(Doc(ps), TagText(o), TagText(c), Off(ps, f));
    } else {
      var b := a + 1 + |bodies[0]|;
      GroupPlaced(ps, a, b, w, bodies);
      BlocksHead(ps, f, a, b, bodies[0], o, c);
      BlocksOf(ps, b, b, e, w, bodies[1..], o, c);
      assert Docs(bodies) == [Doc(bodies[0])] + Docs(bodies[1..]);
    }
  }

  // ---------------------------------------------------------------------
  // Runs of text: `w <o>x</o>` after `w <o>x</o>`

  function Run(o: string, x: string): seq<Piece>
  {
    [Tag(o), Text(x), Tag("/" + o)]
  }

  /** The pieces of the runs `xs`, each after a text `w`. */
  function Runs(w: string, o: string, xs: seq<string>): seq<Piece>
    decreases |xs|
  {
    if xs == [] then [] else [Text(w)] + Run(o, xs[0]) + Runs(w, o, xs[1..])
  }

  lemma {:induction false} RunsPlaced(ps: seq<Piece>, a: nat, b: nat, w: string, o: string, xs: seq<string>)
    requires xs != [] && Placed(ps, a, Runs(w, o, xs)) && b == a + 4
    ensures Placed(ps, a, [Text(w)] + Run(o, xs[0])) && Placed(ps, b, Runs(w, o, xs[1..]))
    ensures a + |Runs(w, o, xs)| == b + |Runs(w, o, xs[1..])|
  {
    var rest := Runs(w, o, xs[1..]);
    PlacedSplit(ps, a, [Text(w)] + Run(o, xs[0]), rest);
  }

  /** Where the scans stop on a run `<o>x</o>` at piece `a + 1`. */
  lemma {:induction false} RunFound(ps: seq<Piece>, f: nat, a: nat, w: string, o: string, x: string)
    requires WellFormed(ps, 0, |ps|) && f <= a && x != []
    requires Placed(ps, a, [Text(w)] + Run(o, x)) && NoTag(ps, f, a, o)
    ensures a + 4 <= |ps|
    ensures IndexFrom(Doc(ps), TagText(o), Off(ps, f)) == Some(Off(ps, a + 1))
    ensures Off(ps, a + 2) == Off(ps, a + 1) + |TagText(o)|
    ensures RunEnd(Doc(ps), Off(ps, a + 2)) == Off(ps, a + 3) > Off(ps, a + 2)
    ensures At(Doc(ps), TagText("/" + o), Off(ps, a + 3))
    ensures Off(ps, a + 4) == Off(ps, a + 3) + |TagText("/" + o)|
  {
    var q := [Text(w)] + Run(o, x);
    PlacedAt(ps, a, q, 0);
    PlacedAt(ps, a, q, 1);
    PlacedAt(ps, a, q, 2);
    PlacedAt(ps, a, q, 3);
    WellFormedSub(ps, 0, |ps|, f, a + 3);
    TagFound(ps, f, a + 1, o);
    assert Off(ps, a + 2) == Off(ps, a + 1) + |TagText(o)| by { PieceAt(ps, a + 1); }
    TextBeforeTag(ps, a + 2, "/" + o);
    assert Off(ps, a + 3) == Off(ps, a + 2) + |x| by { PieceAt(ps, a + 2); }
    assert Off(ps, a + 4) == Off(ps, a + 3) + |TagText("/" + o)| by { PieceAt(ps, a + 3); }
  }

  /** The text of the run `<o>x</o>` at piece `a + 1`. */
  lemma {:induction false} RunText(ps: seq<Piece>, a: nat, w: string, o: string, x: string)
    requires Placed(ps, a, [Text(w)] + Run(o, x))
    ensures a + 4 <= |ps| && Off(ps, a + 3) <= |Doc(ps)|
    ensures Doc(ps)[Off(ps, a + 2)..Off(ps, a + 3)] == x
  {
    PlacedAt(ps, a, [Text(w)] + Run(o, x), 2);
    PieceText(ps, a + 2);
  }

  /** A run after a text piece at `a` is the next capture found from piece `f`. */
  lemma {:induction false} RunHead(ps: seq<Piece>, f: nat, a: nat, b: nat, w: string, o: string, x: string)
    requires WellFormed(ps, 0, |ps|) && f <= a && x != []
    requires Placed(ps, a, [Text(w)] + Run(o, x)) && NoTag(ps, f, a, o) && b == a + 4
    ensures b <= |ps|
    ensures TextRuns(Doc(ps), TagText(o), TagText("/" + o), Off(ps, f))
         == [x] + TextRuns(Doc(ps), TagText(o), TagText("/" + o), Off(ps, b))
  {
    RunFound(ps, f, a, w, o, x);
    RunText(ps, a, w, o, x);
    TextRunsStep(Doc(ps), TagText(o), TagText("/" + o), Off(ps, f), Off(ps, a + 1), Off(ps, a + 2),
      Off(ps, a + 3), Off(ps, b), x);
  }

  /**
   * Scanning for `<o>([^<]+)</o>` from piece `f` over the runs `xs` that
   * start at piece `a` returns `xs`, when `<o>` occurs nowhere else from
   * `f` on.
   */
  lemma {:induction false} TextRunsOf(ps: seq<Piece>, f: nat, a: nat, e: nat, w: string, o: string, xs: seq<string>)
    requires WellFormed(ps, 0, |ps|) && IsName(o)
    requires forall i :: 0 <= i < |xs| ==> xs[i] != []
    requires f <= a && Placed(ps, a, Runs(w, o, xs)) && e == a + |Runs(w, o, xs)|
    requires NoTag(ps, f, a, o) && NoTag(ps, e, |ps|, o)
    ensures TextRuns(Doc(ps), TagText(o), TagText("/" + o), Off(ps, f)) == xs
    decreases |xs|
  {
    if xs == [] {
      NoneFrom(ps, f, a, o);
      TextRunsNone(Doc(ps), TagText(o), TagText("/" + o), Off(ps, f));
    } else {
      var b := a + 4;
      RunsPlaced(ps, a, b, w, o, xs);
      RunHead(ps, f, a, b, w, o, xs[0]);
      TextRunsOf(ps, b, b, e, w, o, xs[1..]);
    }
  }

  /** The first `<o>([^<]*)</o>` from piece `f` is the run at piece `a + 1`. */
  lemma {:induction false} FirstRunOf(ps: seq<Piece>, f: nat, a: nat, w: string, o: string, x: string)
    requires WellFormed(ps, 0, |ps|) && f <= a && x != []
    requires Placed(ps, a, [Text(w)] + Run(o, x)) && NoTag(ps, f, a, o)
    ensures FirstRun(Doc(ps), TagText(o), TagText("/" + o), Off(ps, f)) == Some(x)
  {
    var s, open := Doc(ps), TagText(o);
    var i, k, e := Off(ps, a + 1), Off(ps, a + 2), Off(ps, a + 3);
    RunFound(ps, f, a, w, o, x);
    RunText(ps, a, w, o, x);
    FirstRunUnfold(s, open, TagText("/" + o), Off(ps, f), i, k, e);
  }

  /** Runs of text free of '<' between proper tags are well-formed. */
  lemma {:induction false} RunsOk(w: string, o: string, xs: seq<string>)
    requires '<' !in w && IsName(o) && IsName("/" + o)
    requires forall i :: 0 <= i < |xs| ==> '<' !in xs[i]
    ensures WellFormed(Runs(w, o, xs), 0, |Runs(w, o, xs)|)
    decreases |xs|
  {
    if xs != [] {
      var head := [Text(w)] + Run(o, xs[0]);
      assert WellFormed(head, 0, |head|) by {
        WellFormedIff(head, 0, |head|);
      }
      RunsOk(w, o, xs[1..]);
      WellFormedConcat(head, Runs(w, o, xs[1..]));
      assert Runs(w, o, xs) == head + Runs(w, o, xs[1..]);
    }
  }

  /** Runs of `<o>` hold no tag `n` other than `o` and `/o`. */
  lemma {:induction false} RunsFree(w: string, o: string, xs: seq<string>, n: string)
    requires n != o && n != "/" + o
    ensures NoTag(Runs(w, o, xs), 0, |Runs(w, o, xs)|, n)
    decreases |xs|
  {
    if xs != [] {
      var head, rest := [Text(w)] + Run(o, xs[0]), Runs(w, o, xs[1..]);
      assert NoTag(head, 0, |head|, n) by {
        NoTagIff(head, 0, |head|, n);
      }
      RunsFree(w, o, xs[1..], n);
      NoTagConcat(head, rest, n);
      NoTagJoin(head + rest, 0, |head|, |head + rest|, n);
      assert Runs(w, o, xs) == head + rest;
    }
  }
}

