// Salesforce metadata records: an element `<o>` holding one `<name>value</name>`
// field per line, and what the extractor's field and flag scans read from it.

module XmlRecord {
  import opened Common
  import opened XmlScan
  import opened XmlDoc
  import opened XmlRead

  datatype Field = Field(name: string, value: string)

  /** A tag name that is not a closing one. */
  predicate Plain(n: string)
  {
    IsName(n) && '/' !in n
  }

  /** A name made of letters only is plain. */
  lemma {:induction false} LettersPlain(n: string)
    requires n != [] && forall i :: 0 <= i < |n| ==> 'a' <= n[i] <= 'z' || 'A' <= n[i] <= 'Z'
    ensures Plain(n)
  {
  }

  /** The closing tag of a plain name is a name. */
  lemma {:induction false} ClosingName(n: string)
    requires Plain(n)
    ensures IsName("/" + n)
  {
    assert forall c :: c in "/" + n ==> c == '/' || c in n;
  }

  /** A field written `<name>value</name>`, with a plain name and a value free of '<'. */
  predicate FieldOk(f: Field)
  {
    Plain(f.name) && '<' !in f.value
  }

  /** Piece `i` of the fields `fs`, each written after the white space `w`. */
  function FieldPiece(w: string, fs: seq<Field>, i: nat): Piece
    requires i < 4 * |fs|
  {
    var f := fs[i / 4];
    match i % 4
    case 0 => Text(w)
    case 1 => Tag(f.name)
    case 2 => Text(f.value)
    case _ => Tag("/" + f.name)
  }

  /** The element `<o> w<name>value</name> ... w</o>` holding the fields `fs`. */
  function Element(o: string, w: string, fs: seq<Field>): (r: seq<Piece>)
    ensures |r| == 4 * |fs| + 3
  {
    seq(4 * |fs| + 3, i requires 0 <= i < 4 * |fs| + 3 =>
      if i == 0 then Tag(o)
      else if i <= 4 * |fs| then FieldPiece(w, fs, i - 1)
      else if i == 4 * |fs| + 1 then Text(w)
      else Tag("/" + o))
  }

  /** Every field is well written and none is named like the element. */
  predicate RecordOk(o: string, w: string, fs: seq<Field>)
  {
    Plain(o) && '<' !in w && forall k :: 0 <= k < |fs| ==> FieldOk(fs[k]) && fs[k].name != o
  }

  /** The name of each field differs from the names of the fields before it. */
  predicate Distinct(fs: seq<Field>)
  {
    forall i, j :: 0 <= i < j < |fs| ==> fs[i].name != fs[j].name
  }

  /** Field `k` occupies pieces `4k + 1` to `4k + 4`. */
  lemma {:induction false} RecordAt(o: string, w: string, fs: seq<Field>, k: nat)
    requires k < |fs|
    ensures Element(o, w, fs)[4 * k + 1] == Text(w)
    ensures Element(o, w, fs)[4 * k + 2] == Tag(fs[k].name)
    ensures Element(o, w, fs)[4 * k + 3] == Text(fs[k].value)
    ensures Element(o, w, fs)[4 * k + 4] == Tag("/" + fs[k].name)
  {
  }

  /** Piece `i` of a record, by where it falls. */
  lemma {:induction false} RecordPiece(o: string, w: string, fs: seq<Field>, i: nat)
    requires i < 4 * |fs| + 3
    ensures i == 0 ==> Element(o, w, fs)[i] == Tag(o)
    ensures i == 4 * |fs| + 1 ==> Element(o, w, fs)[i] == Text(w)
    ensures i == 4 * |fs| + 2 ==> Element(o, w, fs)[i] == Tag("/" + o)
    ensures 0 < i <= 4 * |fs| ==>
      var k := (i - 1) / 4;
      k < |fs| && 4 * k + 1 <= i <= 4 * k + 4 &&
      Element(o, w, fs)[i] == FieldPiece(w, fs, i - 1)
  {
  }

  lemma {:induction false} RecordWellFormed(o: string, w: string, fs: seq<Field>)
    requires RecordOk(o, w, fs)
    ensures WellFormed(Element(o, w, fs), 0, |Element(o, w, fs)|)
  {
    var r := Element(o, w, fs);
    forall i | 0 <= i < |r|
      ensures PieceOk(r[i])
    {
      RecordPiece(o, w, fs, i);
      if 0 < i <= 4 * |fs| {
        assert FieldOk(fs[(i - 1) / 4]);
      }
    }
    WellFormedIff(r, 0, |r|);
  }

  /** No piece of the record is the tag `n` when no field and not the element is named `n`. */
  lemma {:induction false} RecordNoTag(o: string, w: string, fs: seq<Field>, n: string, a: nat, b: nat)
    requires Plain(n) && n != o && a <= b <= |Element(o, w, fs)|
    requires forall k :: 0 <= k < |fs| && 4 * k + 2 >= a && 4 * k + 2 < b ==> fs[k].name != n
    ensures NoTag(Element(o, w, fs), a, b, n)
  {
    var r := Element(o, w, fs);
    forall i | a <= i < b
      ensures r[i] != Tag(n)
    {
      RecordPiece(o, w, fs, i);
      if 0 < i <= 4 * |fs| {
        var k := (i - 1) / 4;
        if i == 4 * k + 4 {
          assert '/' in "/" + fs[k].name;
        }
      } else if i == 4 * |fs| + 2 {
        assert '/' in "/" + o;
      }
    }
    NoTagIff(r, a, b, n);
  }

  /** The record is an element `<o> ... </o>` with no `</o>` inside. */
  lemma {:induction false} RecordIsElement(o: string, w: string, fs: seq<Field>)
    requires RecordOk(o, w, fs)
    ensures IsElement(Element(o, w, fs), o, "/" + o)
  {
    var r := Element(o, w, fs);
    forall i | 1 <= i < |r| - 1
      ensures r[i] != Tag("/" + o)
    {
      RecordPiece(o, w, fs, i);
      if 0 < i <= 4 * |fs| {
        var k := (i - 1) / 4;
        assert FieldOk(fs[k]) && fs[k].name != o;
        if i == 4 * k + 2 {
          assert '/' in "/" + o;
        } else if i == 4 * k + 4 {
          assert ("/" + o)[1..] == o && ("/" + fs[k].name)[1..] == fs[k].name;
        }
      }
    }
    NoTagIff(r, 1, |r| - 1, "/" + o);
  }

  // ---------------------------------------------------------------------
  // Reading a field: `block.match(/<name>(.*?)<\/name>/)?.[1]`

  /** The search for `<name>` of field `k` from the start stops at its tag, piece `p`. */
  lemma {:induction false} FieldOpen(o: string, w: string, fs: seq<Field>, k: nat, r: seq<Piece>, p: nat)
    requires RecordOk(o, w, fs) && k < |fs| && r == Element(o, w, fs) && p == 4 * k + 2
    requires forall j :: 0 <= j < k ==> fs[j].name != fs[k].name
    ensures p + 2 < |r| && r[p + 1] == Text(fs[k].value) && r[p + 2] == Tag("/" + fs[k].name)
    ensures WellFormed(r, 0, |r|)
    ensures IndexFrom(Doc(r), TagText(fs[k].name), 0) == Some(Off(r, p))
    ensures Off(r, p + 1) == Off(r, p) + |TagText(fs[k].name)|
  {
    var n := fs[k].name;
    RecordAt(o, w, fs, k);
    RecordWellFormed(o, w, fs);
    assert FieldOk(fs[k]) && n != o;
    RecordNoTag(o, w, fs, n, 0, p);
    WellFormedSub(r, 0, |r|, 0, p + 1);
    TagFound(r, 0, p, n);
    assert Off(r, 0) == 0;
    PieceAt(r, p);
  }

  /** After the tag at piece `p`, the search for `</name>` stops two pieces on, past the value. */
  lemma {:induction false} FieldClose(r: seq<Piece>, p: nat, n: string, v: string)
    requires p + 2 < |r| && WellFormed(r, 0, |r|) && r[p + 1] == Text(v) && r[p + 2] == Tag("/" + n)
    ensures IndexFrom(Doc(r), TagText("/" + n), Off(r, p + 1)) == Some(Off(r, p + 2))
    ensures Off(r, p + 1) <= Off(r, p + 2) <= |Doc(r)| && Doc(r)[Off(r, p + 1)..Off(r, p + 2)] == v
  {
    WellFormedSub(r, 0, |r|, p + 1, p + 3);
    TagFound(r, p + 1, p + 2, "/" + n);
    PieceText(r, p + 1);
  }

  /** The value of the first field named like field `k` is what the scan captures. */
  lemma {:induction false} FieldRead(o: string, w: string, fs: seq<Field>, k: nat)
    requires RecordOk(o, w, fs) && k < |fs| && OnOneLine(fs[k].value)
    requires forall j :: 0 <= j < k ==> fs[j].name != fs[k].name
    ensures FirstInner(Doc(Element(o, w, fs)), TagText(fs[k].name), TagText("/" + fs[k].name), 0) == Some(fs[k].value)
  {
    var r, n, p := Element(o, w, fs), fs[k].name, 4 * k + 2;
    FieldOpen(o, w, fs, k, r, p);
    FieldClose(r, p, n, fs[k].value);
    FirstInnerUnfold(Doc(r), TagText(n), TagText("/" + n), 0, Off(r, p), Off(r, p + 2));
  }

  /** Without a field of that name the scan captures nothing. */
  lemma {:induction false} FieldAbsent(o: string, w: string, fs: seq<Field>, n: string)
    requires RecordOk(o, w, fs) && Plain(n) && n != o
    requires forall k :: 0 <= k < |fs| ==> fs[k].name != n
    ensures FirstInner(Doc(Element(o, w, fs)), TagText(n), TagText("/" + n), 0) == None
  {
    var r := Element(o, w, fs);
    RecordWellFormed(o, w, fs);
    RecordNoTag(o, w, fs, n, 0, |r|);
    TagAbsent(r, 0, n);
    assert Off(r, 0) == 0;
  }

  // ---------------------------------------------------------------------
  // Reading a flag: `block.includes('<name>true</name>')`

  /** The text a flag scan looks for. */
  function FlagText(n: string): string
  {
    TagText(n) + "true" + TagText("/" + n)
  }

  lemma {:induction false} FlagTextParts(n: string)
    ensures |FlagText(n)| == |TagText(n)| + 4 + |TagText("/" + n)| && |TagText("/" + n)| >= 3
    ensures FlagText(n)[..|TagText(n)|] == TagText(n)
    ensures FlagText(n)[|TagText(n)|..|TagText(n)| + 4] == "true"
    ensures FlagText(n)[|TagText(n)| + 4] == '<'
  {
    var a, b := TagText(n), TagText("/" + n);
    AppendAssoc(a, "true", b);
    assert (a + ("true" + b))[|a|..|a| + 4] == "true";
  }

  /** A match of the flag text starts with its opening tag. */
  lemma {:induction false} FlagTagAt(s: string, n: string, i: nat)
    requires i + |FlagText(n)| <= |s| && s[i..i + |FlagText(n)|] == FlagText(n)
    ensures At(s, TagText(n), i)
  {
    var t := FlagText(n);
    FlagTextParts(n);
    AtIff(s, TagText(n), i);
    assert s[i..i + |TagText(n)|] == s[i..i + |t|][..|TagText(n)|];
  }

  /** A flag whose value is "true" is found where its tag starts. */
  lemma {:induction false} FlagFound(r: seq<Piece>, p: nat, n: string)
    requires p + 2 < |r| && r[p] == Tag(n) && r[p + 1] == Text("true") && r[p + 2] == Tag("/" + n)
    ensures Contains(Doc(r), FlagText(n))
  {
    FlatSlice(r, p, p + 3);
    assert Flat(r, p, p + 1) == TagText(n);
    assert Flat(r, p, p + 2) == TagText(n) + "true";
    assert Flat(r, p, p + 3) == FlagText(n);
    ContainsAt(Doc(r), FlagText(n), Off(r, p));
  }

  /** Where "true" is followed by '<', the run of non-'<' characters is 4 long. */
  lemma {:induction false} TrueRun(s: string, q: nat)
    requires q + 5 <= |s| && s[q..q + 4] == "true" && s[q + 4] == '<'
    ensures RunEnd(s, q) == q + 4
  {
    forall j | q <= j < q + 4
      ensures s[j] != '<'
    {
      assert s[j] == s[q..q + 4][j - q];
    }
    RunEndIs(s, q, q + 4);
  }

  /** The flag text right after the opening tag reads "true" up to the next '<'. */
  lemma {:induction false} FlagTail(s: string, n: string, i: nat, q: nat)
    requires i + |FlagText(n)| <= |s| && s[i..i + |FlagText(n)|] == FlagText(n) && q == i + |TagText(n)|
    ensures q + 5 <= |s| && s[q..q + 4] == "true" && s[q + 4] == '<'
  {
    var t := FlagText(n);
    var u := s[i..i + |t|];
    FlagTextParts(n);
    assert s[q..q + 4] == "true" by {
      assert s[q..q + 4] == u[|TagText(n)|..|TagText(n)| + 4];
    }
    assert s[q + 4] == '<' by {
      assert s[q + 4] == u[|TagText(n)| + 4];
    }
  }

  /** An occurrence of the flag text at the tag of a field shows that its value is "true". */
  lemma {:induction false} FlagValue(r: seq<Piece>, p: nat, n: string, v: string, i: nat)
    requires p + 2 < |r| && WellFormed(r, 0, |r|) && r[p] == Tag(n) && r[p + 1] == Text(v) && r[p + 2] == Tag("/" + n)
    requires i == Off(r, p) && i + |FlagText(n)| <= |Doc(r)| && Doc(r)[i..i + |FlagText(n)|] == FlagText(n)
    ensures v == "true"
  {
    var s := Doc(r);
    var q := i + |TagText(n)|;
    assert q == Off(r, p + 1) by { PieceAt(r, p); }
    FlagTail(s, n, i, q);
    TrueRun(s, q);
    assert PieceOk(r[p + 1]) by { WellFormedIff(r, 0, |r|); }
    TextBeforeTag(r, p + 1, "/" + n);
    assert Off(r, p + 2) == q + 4;
    PieceText(r, p + 1);
    assert s[q..q + 4] == XmlDoc.Str(r[p + 1]);
  }

  /** For a field named once, the flag text is present exactly when its value is "true". */
  lemma {:induction false} FlagPresent(o: string, w: string, fs: seq<Field>, k: nat)
    requires RecordOk(o, w, fs) && k < |fs|
    requires forall j :: 0 <= j < |fs| && j != k ==> fs[j].name != fs[k].name
    ensures Contains(Doc(Element(o, w, fs)), FlagText(fs[k].name)) <==> fs[k].value == "true"
  {
    var r, n, v, p := Element(o, w, fs), fs[k].name, fs[k].value, 4 * k + 2;
    RecordAt(o, w, fs, k);
    if v == "true" {
      FlagFound(r, p, n);
    }
    if Contains(Doc(r), FlagText(n)) {
      var s, t := Doc(r), FlagText(n);
      var i := ContainsWitness(s, t);
      RecordWellFormed(o, w, fs);
      assert FieldOk(fs[k]) && n != o;
      RecordNoTag(o, w, fs, n, 0, p);
      RecordNoTag(o, w, fs, n, p + 1, |r|);
      FlagTagAt(s, n, i);
      TagUnique(r, p, n, i);
      FlagValue(r, p, n, v, i);
    }
  }

  /** Without a field of that name the flag text is absent. */
  lemma {:induction false} FlagAbsent(o: string, w: string, fs: seq<Field>, n: string)
    requires RecordOk(o, w, fs) && Plain(n) && n != o
    requires forall k :: 0 <= k < |fs| ==> fs[k].name != n
    ensures !Contains(Doc(Element(o, w, fs)), FlagText(n))
  {
    var r := Element(o, w, fs);
    if Contains(Doc(r), FlagText(n)) {
      var s, t := Doc(r), FlagText(n);
      var i := ContainsWitness(s, t);
      FlagTagAt(s, n, i);
      RecordWellFormed(o, w, fs);
      RecordNoTag(o, w, fs, n, 0, |r|);
      NoTagAt(r, 0, |r|, n);
    }
  }

  // ---------------------------------------------------------------------
  // The two readings for records whose field names are distinct

  /** The flag scan for the name of field `k` tells whether its value is "true". */
  lemma {:induction false} FlagOf(o: string, w: string, fs: seq<Field>, k: nat, n: string, v: string)
    requires RecordOk(o, w, fs) && Distinct(fs) && k < |fs| && fs[k] == Field(n, v)
    ensures Contains(Doc(Element(o, w, fs)), FlagText(n)) <==> v == "true"
  {
    FlagPresent(o, w, fs, k);
  }

  /** The capture for the name of field `k` is its value. */
  lemma {:induction false} CaptureOf(o: string, w: string, fs: seq<Field>, k: nat, n: string, v: string)
    requires RecordOk(o, w, fs) && Distinct(fs) && k < |fs| && fs[k] == Field(n, v) && OnOneLine(v)
    ensures FirstInner(Doc(Element(o, w, fs)), TagText(n), TagText("/" + n), 0) == Some(v)
  {
    FieldRead(o, w, fs, k);
  }
}
