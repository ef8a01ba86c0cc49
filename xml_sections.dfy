// A metadata document: a root element holding, section after section, the
// records of each kind (all `<objectPermissions>` records, then all
// `<fieldPermissions>` records, ...), and what a section scan returns on it.

module XmlSections {
  import opened Common
  import opened XmlScan
  import opened XmlDoc
  import opened XmlRead
  import opened XmlRecord

  /** The records written as elements named `tag`. */
  datatype Section = Section(tag: string, records: seq<seq<Field>>)

  /** The elements of the records `rs`. */
  function Bodies(o: string, w: string, rs: seq<seq<Field>>): (r: seq<seq<Piece>>)
    ensures |r| == |rs|
    decreases |rs|
  {
    if rs == [] then [] else [Element(o, w, rs[0])] + Bodies(o, w, rs[1..])
  }

  /** The pieces of the sections, one after the other. */
  function Pieces(w: string, secs: seq<Section>): seq<Piece>
    decreases |secs|
  {
    if secs == [] then [] else Group(w, Bodies(secs[0].tag, w, secs[0].records)) + Pieces(w, secs[1..])
  }

  /** `<root>` followed by the sections and `</root>`. */
  function Document(root: string, w: string, secs: seq<Section>): seq<Piece>
  {
    [Tag(root)] + Pieces(w, secs) + [Text(w), Tag("/" + root)]
  }

  predicate RecordsOk(o: string, w: string, rs: seq<seq<Field>>)
  {
    forall i :: 0 <= i < |rs| ==> RecordOk(o, w, rs[i])
  }

  predicate SectionsOk(w: string, secs: seq<Section>)
  {
    forall j :: 0 <= j < |secs| ==> RecordsOk(secs[j].tag, w, secs[j].records)
  }

  /** No field of the records is named `n`. */
  predicate RecordsFree(rs: seq<seq<Field>>, n: string)
  {
    forall i, k :: 0 <= i < |rs| && 0 <= k < |rs[i]| ==> rs[i][k].name != n
  }

  /** No section and no field of the sections is named `n`. */
  predicate Free(secs: seq<Section>, n: string)
    decreases |secs|
  {
    secs == [] || (secs[0].tag != n && RecordsFree(secs[0].records, n) && Free(secs[1..], n))
  }

  lemma {:induction false} BodiesElements(o: string, w: string, rs: seq<seq<Field>>)
    requires RecordsOk(o, w, rs)
    ensures Elements(Bodies(o, w, rs), o, "/" + o)
    decreases |rs|
  {
    if rs != [] {
      RecordIsElement(o, w, rs[0]);
      BodiesElements(o, w, rs[1..]);
      assert Bodies(o, w, rs)[1..] == Bodies(o, w, rs[1..]);
    }
  }

  lemma {:induction false} GroupOk(o: string, w: string, rs: seq<seq<Field>>)
    requires RecordsOk(o, w, rs)
    ensures WellFormed(Group(w, Bodies(o, w, rs)), 0, |Group(w, Bodies(o, w, rs))|)
    decreases |rs|
  {
    if rs != [] {
      var bs := Bodies(o, w, rs);
      assert bs[1..] == Bodies(o, w, rs[1..]);
      RecordWellFormed(o, w, rs[0]);
      GroupOk(o, w, rs[1..]);
      assert WellFormed([Text(w)], 0, 1);
      WellFormedConcat([Text(w)], bs[0]);
      WellFormedConcat([Text(w)] + bs[0], Group(w, bs[1..]));
    }
  }

  lemma {:induction false} GroupFree(o: string, w: string, rs: seq<seq<Field>>, n: string)
    requires Plain(n) && n != o && RecordsFree(rs, n)
    ensures NoTag(Group(w, Bodies(o, w, rs)), 0, |Group(w, Bodies(o, w, rs))|, n)
    decreases |rs|
  {
    if rs != [] {
      var bs := Bodies(o, w, rs);
      assert bs[1..] == Bodies(o, w, rs[1..]);
      assert RecordsFree(rs[1..], n) by {
        forall i, k | 0 <= i < |rs| - 1 && 0 <= k < |rs[1..][i]|
          ensures rs[1..][i][k].name != n
        {
          assert rs[1..][i] == rs[i + 1];
        }
      }
      var r := Element(o, w, rs[0]);
      RecordNoTag(o, w, rs[0], n, 0, |r|);
      GroupFree(o, w, rs[1..], n);
      assert NoTag([Text(w)], 0, 1, n);
      NoTagConcat([Text(w)], r, n);
      NoTagJoin([Text(w)] + r, 0, 1, |[Text(w)] + r|, n);
      var g := Group(w, bs[1..]);
      NoTagConcat([Text(w)] + r, g, n);
      NoTagJoin([Text(w)] + r + g, 0, |[Text(w)] + r|, |[Text(w)] + r + g|, n);
    }
  }

  lemma {:induction false} PiecesOk(w: string, secs: seq<Section>)
    requires SectionsOk(w, secs)
    ensures WellFormed(Pieces(w, secs), 0, |Pieces(w, secs)|)
    decreases |secs|
  {
    if secs != [] {
      assert RecordsOk(secs[0].tag, w, secs[0].records);
      GroupOk(secs[0].tag, w, secs[0].records);
      assert SectionsOk(w, secs[1..]) by {
        forall j | 0 <= j < |secs| - 1
          ensures RecordsOk(secs[1..][j].tag, w, secs[1..][j].records)
        {
          assert secs[1..][j] == secs[j + 1];
        }
      }
      PiecesOk(w, secs[1..]);
      WellFormedConcat(Group(w, Bodies(secs[0].tag, w, secs[0].records)), Pieces(w, secs[1..]));
    }
  }

  lemma {:induction false} PiecesFree(w: string, secs: seq<Section>, n: string)
    requires Plain(n) && Free(secs, n)
    ensures NoTag(Pieces(w, secs), 0, |Pieces(w, secs)|, n)
    decreases |secs|
  {
    if secs != [] {
      var g := Group(w, Bodies(secs[0].tag, w, secs[0].records));
      var rest := Pieces(w, secs[1..]);
      GroupFree(secs[0].tag, w, secs[0].records, n);
      PiecesFree(w, secs[1..], n);
      NoTagConcat(g, rest, n);
      NoTagJoin(g + rest, 0, |g|, |g + rest|, n);
    }
  }

  /** The pieces of the sections, cut around section `j`. */
  lemma {:induction false} PiecesSplit(w: string, secs: seq<Section>, j: nat)
    requires j < |secs|
    ensures Pieces(w, secs)
         == Pieces(w, secs[..j]) + Group(w, Bodies(secs[j].tag, w, secs[j].records)) + Pieces(w, secs[j + 1..])
    decreases j
  {
    if j == 0 {
      assert secs[..0] == [];
    } else {
      PiecesSplit(w, secs[1..], j - 1);
      assert secs[1..][..j - 1] == secs[..j][1..];
      assert secs[1..][j - 1 + 1..] == secs[j + 1..];
      var g := Group(w, Bodies(secs[0].tag, w, secs[0].records));
      AppendAssoc(g, Pieces(w, secs[1..][..j - 1]), Group(w, Bodies(secs[j].tag, w, secs[j].records)));
      AppendAssoc(g, Pieces(w, secs[1..][..j - 1]) + Group(w, Bodies(secs[j].tag, w, secs[j].records)), Pieces(w, secs[j + 1..]));
    }
  }

  predicate DocumentOk(root: string, w: string, secs: seq<Section>)
  {
    Plain(root) && '<' !in w && SectionsOk(w, secs)
  }

  /** Section `j` may be read on its own: its tag is nowhere else in the document. */
  predicate Readable(root: string, secs: seq<Section>, j: nat)
    requires j < |secs|
  {
    Plain(secs[j].tag) && secs[j].tag != root && Free(secs[..j], secs[j].tag) && Free(secs[j + 1..], secs[j].tag)
  }

  lemma {:induction false} SlicesOk(w: string, secs: seq<Section>, j: nat)
    requires SectionsOk(w, secs) && j < |secs|
    ensures SectionsOk(w, secs[..j]) && SectionsOk(w, secs[j + 1..])
    ensures RecordsOk(secs[j].tag, w, secs[j].records)
  {
    var tail := secs[j + 1..];
    forall i | 0 <= i < |tail|
      ensures RecordsOk(tail[i].tag, w, tail[i].records)
    {
      assert tail[i] == secs[j + 1 + i];
    }
  }

  /** The document cut around section `j`. */
  lemma {:induction false} DocumentSplit(root: string, w: string, secs: seq<Section>, j: nat)
    requires j < |secs|
    ensures Document(root, w, secs)
         == ([Tag(root)] + Pieces(w, secs[..j])) + Group(w, Bodies(secs[j].tag, w, secs[j].records))
          + (Pieces(w, secs[j + 1..]) + [Text(w), Tag("/" + root)])
  {
    var P, G, Q := Pieces(w, secs[..j]), Group(w, Bodies(secs[j].tag, w, secs[j].records)), Pieces(w, secs[j + 1..]);
    var R, T := [Tag(root)], [Text(w), Tag("/" + root)];
    PiecesSplit(w, secs, j);
    AppendAssoc(R, P + G, Q);
    AppendAssoc(R, P, G);
    AppendAssoc(R + P + G, Q, T);
  }

  /** The parts of a document around a section are well-formed. */
  lemma {:induction false} PartsOk(root: string, w: string, secs: seq<Section>, j: nat, X: seq<Piece>, G: seq<Piece>, Y: seq<Piece>)
    requires DocumentOk(root, w, secs) && j < |secs|
    requires X == [Tag(root)] + Pieces(w, secs[..j]) && G == Group(w, Bodies(secs[j].tag, w, secs[j].records))
    requires Y == Pieces(w, secs[j + 1..]) + [Text(w), Tag("/" + root)]
    ensures WellFormed(X + G + Y, 0, |X + G + Y|)
  {
    var R, T := [Tag(root)], [Text(w), Tag("/" + root)];
    SlicesOk(w, secs, j);
    PiecesOk(w, secs[..j]);
    PiecesOk(w, secs[j + 1..]);
    GroupOk(secs[j].tag, w, secs[j].records);
    assert WellFormed(R, 0, 1) && WellFormed(T, 0, 2);
    WellFormedConcat(R, Pieces(w, secs[..j]));
    WellFormedConcat(Pieces(w, secs[j + 1..]), T);
    WellFormedConcat(X, G);
    WellFormedConcat(X + G, Y);
  }

  /** The parts of a document around a readable section hold no tag of it. */
  lemma {:induction false} PartsFree(root: string, w: string, secs: seq<Section>, j: nat, X: seq<Piece>, G: seq<Piece>, Y: seq<Piece>)
    requires j < |secs| && Readable(root, secs, j)
    requires X == [Tag(root)] + Pieces(w, secs[..j]) && Y == Pieces(w, secs[j + 1..]) + [Text(w), Tag("/" + root)]
    ensures NoTag(X + G + Y, 0, |X|, secs[j].tag) && NoTag(X + G + Y, |X + G|, |X + G + Y|, secs[j].tag)
  {
    var o := secs[j].tag;
    var R, T := [Tag(root)], [Text(w), Tag("/" + root)];
    PiecesFree(w, secs[..j], o);
    PiecesFree(w, secs[j + 1..], o);
    assert '/' in "/" + root;
    assert NoTag(R, 0, 1, o) && NoTag(T, 0, 2, o);
    NoTagConcat(R, Pieces(w, secs[..j]), o);
    NoTagJoin(X, 0, 1, |X|, o);
    NoTagConcat(Pieces(w, secs[j + 1..]), T, o);
    NoTagJoin(Y, 0, |Pieces(w, secs[j + 1..])|, |Y|, o);
    NoTagAround(X, G, Y, o);
  }

  /** Where section `j` sits in the document, and that its tag occurs nowhere else. */
  lemma {:induction false} SectionAt(root: string, w: string, secs: seq<Section>, j: nat, d: seq<Piece>, a: nat, e: nat)
    requires DocumentOk(root, w, secs) && j < |secs| && Readable(root, secs, j) && d == Document(root, w, secs)
    requires a == 1 + |Pieces(w, secs[..j])|
    requires e == a + |Group(w, Bodies(secs[j].tag, w, secs[j].records))|
    ensures WellFormed(d, 0, |d|)
    ensures Placed(d, a, Group(w, Bodies(secs[j].tag, w, secs[j].records)))
    ensures NoTag(d, 0, a, secs[j].tag) && NoTag(d, e, |d|, secs[j].tag)
  {
    var X := [Tag(root)] + Pieces(w, secs[..j]);
    var G := Group(w, Bodies(secs[j].tag, w, secs[j].records));
    var Y := Pieces(w, secs[j + 1..]) + [Text(w), Tag("/" + root)];
    DocumentSplit(root, w, secs, j);
    PlacedMid(X, G, Y);
    PartsOk(root, w, secs, j, X, G, Y);
    PartsFree(root, w, secs, j, X, G, Y);
  }

  /**
   * Scanning the document for `<tag>[\s\S]*?</tag>` returns the text of
   * each record of that section, in order.
   */
  lemma {:induction false} ReadSection(root: string, w: string, secs: seq<Section>, j: nat)
    requires DocumentOk(root, w, secs) && j < |secs| && Readable(root, secs, j)
    ensures Blocks(Doc(Document(root, w, secs)), TagText(secs[j].tag), TagText("/" + secs[j].tag), 0)
         == Docs(Bodies(secs[j].tag, w, secs[j].records))
  {
    var o, rs := secs[j].tag, secs[j].records;
    var d := Document(root, w, secs);
    var a := 1 + |Pieces(w, secs[..j])|;
    var e := a + |Group(w, Bodies(o, w, rs))|;
    SectionAt(root, w, secs, j, d, a, e);
    SlicesOk(w, secs, j);
    BodiesElements(o, w, rs);
    assert Off(d, 0) == 0;
    BlocksOf(d, 0, a, e, w, Bodies(o, w, rs), o, "/" + o);
  }

  /** Record `i` of a section is the text of its element. */
  lemma {:induction false} BodiesAt(o: string, w: string, rs: seq<seq<Field>>, i: nat)
    requires i < |rs|
    ensures Docs(Bodies(o, w, rs))[i] == Doc(Element(o, w, rs[i]))
    decreases i
  {
    if i > 0 {
      BodiesAt(o, w, rs[1..], i - 1);
    }
  }

  /** `n` is free in the sections when no section and no field is named `n`. */
  lemma {:induction false} FreeOf(secs: seq<Section>, n: string)
    requires forall i :: 0 <= i < |secs| ==> secs[i].tag != n && RecordsFree(secs[i].records, n)
    ensures Free(secs, n)
    decreases |secs|
  {
    if secs != [] {
      assert secs[0].tag != n && RecordsFree(secs[0].records, n);
      FreeOf(secs[1..], n);
    }
  }

  /** Section `j` is readable when every other section and every field is named otherwise. */
  lemma {:induction false} ReadableOf(root: string, secs: seq<Section>, j: nat)
    requires j < |secs| && Plain(secs[j].tag) && secs[j].tag != root
    requires forall i :: 0 <= i < |secs| && i != j ==> secs[i].tag != secs[j].tag && RecordsFree(secs[i].records, secs[j].tag)
    ensures Readable(root, secs, j)
  {
    var n, tail := secs[j].tag, secs[j + 1..];
    forall i | 0 <= i < |tail| ensures tail[i].tag != n && RecordsFree(tail[i].records, n) {
      assert tail[i] == secs[j + 1 + i];
    }
    FreeOf(secs[..j], n);
    FreeOf(tail, n);
  }
}

