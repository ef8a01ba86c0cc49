// Well-formed XML text as a sequence of pieces (runs of text and tags), and
// where the scans of XmlScan stop when they read such text.

module XmlDoc {
  import opened Common
  import opened XmlScan

  datatype Piece = Text(t: string) | Tag(name: string)

  function Str(p: Piece): string
  {
    match p
    case Text(t) => t
    case Tag(n) => TagText(n)
  }

  /** Text holds no '<' and a tag has a proper name. */
  predicate PieceOk(p: Piece)
  {
    match p
    case Text(t) => '<' !in t
    case Tag(n) => IsName(n)
  }

  /** Pieces `a` up to `b` are well-formed. */
  predicate WellFormed(ps: seq<Piece>, a: nat, b: nat)
    decreases b
  {
    b <= a || (b <= |ps| && PieceOk(ps[b - 1]) && WellFormed(ps, a, b - 1))
  }

  lemma {:induction false} WellFormedIff(ps: seq<Piece>, a: nat, b: nat)
    requires b <= |ps|
    ensures WellFormed(ps, a, b) <==> forall k :: a <= k < b ==> PieceOk(ps[k])
    decreases b
  {
    if b > a {
      WellFormedIff(ps, a, b - 1);
    }
  }

  lemma {:induction false} WellFormedSub(ps: seq<Piece>, a: nat, b: nat, a2: nat, b2: nat)
    requires a <= a2 && b2 <= b <= |ps| && WellFormed(ps, a, b)
    ensures WellFormed(ps, a2, b2)
  {
    WellFormedIff(ps, a, b);
    WellFormedIff(ps, a2, b2);
  }

  /** The text of pieces `a` up to `b`, one after the other. */
  function Flat(ps: seq<Piece>, a: nat, b: nat): string
    requires a <= b <= |ps|
    decreases b
  {
    if b == a then [] else Flat(ps, a, b - 1) + Str(ps[b - 1])
  }

  /** The whole text of the pieces. */
  function Doc(ps: seq<Piece>): string
  {
    Flat(ps, 0, |ps|)
  }

  /** Where piece `k` starts in the text. */
  function Off(ps: seq<Piece>, k: nat): nat
    requires k <= |ps|
  {
    |Flat(ps, 0, k)|
  }

  lemma {:induction false} FlatSplit(ps: seq<Piece>, a: nat, b: nat, c: nat)
    requires a <= b <= c <= |ps|
    ensures Flat(ps, a, c) == Flat(ps, a, b) + Flat(ps, b, c)
    decreases c
  {
    if c > b {
      FlatSplit(ps, a, b, c - 1);
      AppendAssoc(Flat(ps, a, b), Flat(ps, b, c - 1), Str(ps[c - 1]));
    }
  }

  lemma {:induction false} FlatOne(ps: seq<Piece>, k: nat)
    requires k < |ps|
    ensures Flat(ps, k, k + 1) == Str(ps[k])
  {
  }

  /** The text cut at pieces `a` and `b`. */
  lemma {:induction false} Split3(ps: seq<Piece>, a: nat, b: nat)
    requires a <= b <= |ps|
    ensures Doc(ps) == Flat(ps, 0, a) + Flat(ps, a, b) + Flat(ps, b, |ps|)
    ensures Off(ps, b) == Off(ps, a) + |Flat(ps, a, b)|
  {
    FlatSplit(ps, 0, a, b);
    FlatSplit(ps, 0, b, |ps|);
  }

  /** Pieces start in order, inside the text. */
  lemma {:induction false} OffMono(ps: seq<Piece>, a: nat, b: nat)
    requires a <= b <= |ps|
    ensures Off(ps, a) <= Off(ps, b) <= |Doc(ps)|
  {
    Split3(ps, a, b);
  }

  /** The text between the starts of pieces `a` and `b` is the text of those pieces. */
  lemma {:induction false} FlatSlice(ps: seq<Piece>, a: nat, b: nat)
    requires a <= b <= |ps|
    ensures Off(ps, a) <= Off(ps, b) <= |Doc(ps)|
    ensures Doc(ps)[Off(ps, a)..Off(ps, b)] == Flat(ps, a, b)
  {
    Split3(ps, a, b);
    var P, M, R := Flat(ps, 0, a), Flat(ps, a, b), Flat(ps, b, |ps|);
    AppendAssoc(P, M, R);
    assert (P + (M + R))[|P|..|P| + |M|] == M;
  }

  /** The text between the starts of pieces `k` and `k + 1` is the text of piece `k`. */
  lemma {:induction false} PieceText(ps: seq<Piece>, k: nat)
    requires k < |ps|
    ensures Off(ps, k) <= Off(ps, k + 1) <= |Doc(ps)|
    ensures Doc(ps)[Off(ps, k)..Off(ps, k + 1)] == Str(ps[k])
  {
    FlatSlice(ps, k, k + 1);
    FlatOne(ps, k);
  }

  /** Tag `n` is not among pieces `a` up to `b`. */
  predicate NoTag(ps: seq<Piece>, a: nat, b: nat, n: string)
    decreases b
  {
    b <= a || (b <= |ps| && ps[b - 1] != Tag(n) && NoTag(ps, a, b - 1, n))
  }

  lemma {:induction false} NoTagIff(ps: seq<Piece>, a: nat, b: nat, n: string)
    requires b <= |ps|
    ensures NoTag(ps, a, b, n) <==> forall k :: a <= k < b ==> ps[k] != Tag(n)
    decreases b
  {
    if b > a {
      NoTagIff(ps, a, b - 1, n);
    }
  }

  lemma {:induction false} NoTagSub(ps: seq<Piece>, a: nat, b: nat, a2: nat, b2: nat, n: string)
    requires a <= a2 && b2 <= b <= |ps| && NoTag(ps, a, b, n)
    ensures NoTag(ps, a2, b2, n)
  {
    NoTagIff(ps, a, b, n);
    NoTagIff(ps, a2, b2, n);
  }

  lemma {:induction false} NoTagJoin(ps: seq<Piece>, a: nat, b: nat, c: nat, n: string)
    requires a <= b <= c <= |ps| && NoTag(ps, a, b, n) && NoTag(ps, b, c, n)
    ensures NoTag(ps, a, c, n)
  {
    NoTagIff(ps, a, b, n);
    NoTagIff(ps, b, c, n);
    NoTagIff(ps, a, c, n);
  }

  /** Well-formed pieces without tag `n` cannot be mistaken for it. */
  lemma {:induction false} SafePieces(ps: seq<Piece>, a: nat, b: nat, n: string)
    requires a <= b <= |ps| && WellFormed(ps, a, b) && IsName(n) && NoTag(ps, a, b, n)
    ensures SafeFor(Flat(ps, a, b), TagText(n))
    decreases b
  {
    if b > a {
      var p := ps[b - 1];
      assert PieceOk(p) && p != Tag(n);
      SafePieces(ps, a, b - 1, n);
      match p {
        case Text(t) => SafeText(t, TagText(n));
        case Tag(m) => SafeTag(m, n);
      }
      SafeConcat(Flat(ps, a, b - 1), Str(p), TagText(n));
    }
  }

  /** Piece `k` occurs in the text where it starts. */
  lemma {:induction false} PieceAt(ps: seq<Piece>, k: nat)
    requires k < |ps|
    ensures Off(ps, k + 1) == Off(ps, k) + |Str(ps[k])|
    ensures At(Doc(ps), Str(ps[k]), Off(ps, k))
  {
    FlatSlice(ps, k, k + 1);
    Split3(ps, k, k + 1);
    AtIff(Doc(ps), Str(ps[k]), Off(ps, k));
  }

  /** No occurrence of tag `n` starts inside pieces `a` up to `b` when they hold no such tag. */
  lemma {:induction false} NoTagAt(ps: seq<Piece>, a: nat, b: nat, n: string)
    requires a <= b <= |ps| && WellFormed(ps, a, b) && IsName(n) && NoTag(ps, a, b, n)
    ensures Off(ps, a) <= Off(ps, b)
    ensures forall j :: Off(ps, a) <= j < Off(ps, b) ==> !At(Doc(ps), TagText(n), j)
  {
    Split3(ps, a, b);
    var P, w, R := Flat(ps, 0, a), Flat(ps, a, b), Flat(ps, b, |ps|);
    SafePieces(ps, a, b, n);
    AppendAssoc(P, w, R);
    SafeNone(P, w, R, TagText(n));
  }

  /** The search for tag `n` from piece `a` stops at piece `k`, its next occurrence. */
  lemma {:induction false} TagFound(ps: seq<Piece>, a: nat, k: nat, n: string)
    requires a <= k < |ps| && WellFormed(ps, a, k + 1) && ps[k] == Tag(n)
    requires NoTag(ps, a, k, n)
    ensures IndexFrom(Doc(ps), TagText(n), Off(ps, a)) == Some(Off(ps, k))
  {
    assert IsName(n) by { assert PieceOk(ps[k]); }
    PieceAt(ps, k);
    NoTagAt(ps, a, k, n);
    IndexFromIs(Doc(ps), TagText(n), Off(ps, a), Off(ps, k));
  }

  /** The search for tag `n` from piece `a` finds nothing when `n` does not follow. */
  lemma {:induction false} TagAbsent(ps: seq<Piece>, a: nat, n: string)
    requires a <= |ps| && WellFormed(ps, a, |ps|) && IsName(n) && NoTag(ps, a, |ps|, n)
    ensures IndexFrom(Doc(ps), TagText(n), Off(ps, a)) == None
  {
    NoTagAt(ps, a, |ps|, n);
    IndexFromNone(Doc(ps), TagText(n), Off(ps, a));
  }

  /** A text piece followed by tag `n`: the run of non-'<' characters ends at the tag. */
  lemma {:induction false} TextBeforeTag(ps: seq<Piece>, k: nat, n: string)
    requires k + 1 < |ps| && PieceOk(ps[k]) && ps[k].Text? && ps[k + 1] == Tag(n)
    ensures RunEnd(Doc(ps), Off(ps, k)) == Off(ps, k + 1)
    ensures At(Doc(ps), TagText(n), Off(ps, k + 1))
  {
    var s, x := Doc(ps), ps[k].t;
    PieceAt(ps, k);
    PieceAt(ps, k + 1);
    AtIff(s, x, Off(ps, k));
    forall j | Off(ps, k) <= j < Off(ps, k + 1)
      ensures s[j] != '<'
    {
      assert s[j] == s[Off(ps, k)..Off(ps, k + 1)][j - Off(ps, k)];
    }
    AtFirst(s, TagText(n), Off(ps, k + 1));
    RunEndIs(s, Off(ps, k), Off(ps, k + 1));
  }

  /** Inside a tag only its first character is '<'. */
  lemma {:induction false} TagInside(ps: seq<Piece>, p: nat, i: int)
    requires p < |ps| && ps[p].Tag? && IsName(ps[p].name) && Off(ps, p) < i < Off(ps, p + 1)
    ensures i < |Doc(ps)| && Doc(ps)[i] != '<'
  {
    PieceText(ps, p);
    var s := Doc(ps);
    assert s[i] == s[Off(ps, p)..Off(ps, p + 1)][i - Off(ps, p)];
  }

  /** A tag that occurs once among well-formed pieces occurs once in their text. */
  lemma {:induction false} TagUnique(ps: seq<Piece>, p: nat, n: string, j: int)
    requires p < |ps| && WellFormed(ps, 0, |ps|) && ps[p] == Tag(n)
    requires NoTag(ps, 0, p, n) && NoTag(ps, p + 1, |ps|, n) && At(Doc(ps), TagText(n), j)
    ensures j == Off(ps, p)
  {
    assert IsName(n) by { WellFormedIff(ps, 0, |ps|); assert PieceOk(ps[p]); }
    OffMono(ps, p, p + 1);
    if j < Off(ps, p) {
      WellFormedSub(ps, 0, |ps|, 0, p);
      NoTagAt(ps, 0, p, n);
    } else if j >= Off(ps, p + 1) {
      WellFormedSub(ps, 0, |ps|, p + 1, |ps|);
      NoTagAt(ps, p + 1, |ps|, n);
    } else if j > Off(ps, p) {
      TagInside(ps, p, j);
      AtFirst(Doc(ps), TagText(n), j);
    }
  }

  lemma {:induction false} WellFormedConcat(xs: seq<Piece>, ys: seq<Piece>)
    requires WellFormed(xs, 0, |xs|) && WellFormed(ys, 0, |ys|)
    ensures WellFormed(xs + ys, 0, |xs + ys|)
  {
    WellFormedIff(xs, 0, |xs|);
    WellFormedIff(ys, 0, |ys|);
    WellFormedIff(xs + ys, 0, |xs + ys|);
    forall k | 0 <= k < |xs + ys|
      ensures PieceOk((xs + ys)[k])
    {
      if k >= |xs| {
        assert (xs + ys)[k] == ys[k - |xs|];
      }
    }
  }

  /** Tag `n` is among neither `xs` nor `ys`, seen inside `xs + ys`. */
  lemma {:induction false} NoTagConcat(xs: seq<Piece>, ys: seq<Piece>, n: string)
    ensures NoTag(xs, 0, |xs|, n) ==> NoTag(xs + ys, 0, |xs|, n)
    ensures NoTag(ys, 0, |ys|, n) ==> NoTag(xs + ys, |xs|, |xs + ys|, n)
  {
    NoTagIff(xs, 0, |xs|, n);
    NoTagIff(ys, 0, |ys|, n);
    NoTagIff(xs + ys, 0, |xs|, n);
    NoTagIff(xs + ys, |xs|, |xs + ys|, n);
    forall k | |xs| <= k < |xs + ys|
      ensures (xs + ys)[k] == ys[k - |xs|]
    {
    }
  }

  /** Tag `n` is among neither `xs` nor `zs`, seen inside `xs + ys + zs`. */
  lemma {:induction false} NoTagAround(xs: seq<Piece>, ys: seq<Piece>, zs: seq<Piece>, n: string)
    requires NoTag(xs, 0, |xs|, n) && NoTag(zs, 0, |zs|, n)
    ensures NoTag(xs + ys + zs, 0, |xs|, n) && NoTag(xs + ys + zs, |xs + ys|, |xs + ys + zs|, n)
  {
    var ps := xs + ys + zs;
    NoTagIff(xs, 0, |xs|, n);
    NoTagIff(zs, 0, |zs|, n);
    NoTagIff(ps, 0, |xs|, n);
    NoTagIff(ps, |xs + ys|, |ps|, n);
    forall k | 0 <= k < |xs|
      ensures ps[k] == xs[k]
    {
    }
    forall k | |xs + ys| <= k < |ps|
      ensures ps[k] == zs[k - |xs + ys|]
    {
    }
  }

  /** Tag `n` is among neither `xs` nor `ys`, so not among `xs + ys`. */
  lemma {:induction false} NoTagAppend(xs: seq<Piece>, ys: seq<Piece>, n: string)
    requires NoTag(xs, 0, |xs|, n) && NoTag(ys, 0, |ys|, n)
    ensures NoTag(xs + ys, 0, |xs + ys|, n)
  {
    NoTagConcat(xs, ys, n);
    NoTagJoin(xs + ys, 0, |xs|, |xs + ys|, n);
  }
}

