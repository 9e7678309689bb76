/** Documents made of lines and fenced blocks, and what a CommonMark reader finds in them. */
module Documents {
  import opened Text
  import opened CommonMark
  import opened Escape

  datatype Element = Line(pieces: seq<Piece>) | Fenced(lines: seq<Text>)

  function RenderElement(e: Element, inv: Invisible): seq<Text> {
    match e case Line(pieces) => [Format(pieces, inv)] case Fenced(lines) => MdBlock(lines, inv)
  }

  function Render(doc: seq<Element>, inv: Invisible): seq<Text> {
    if doc == [] then [] else RenderElement(doc[0], inv) + Render(doc[1..], inv)
  }

  function BlockOf(e: Element, inv: Invisible): seq<Block> {
    match e case Line(_) => [] case Fenced(lines) => [Block(Lit("text"), PrintableAll(lines, inv))]
  }

  /** The blocks a reader is meant to find: one for each fenced element. */
  function BlocksOf(doc: seq<Element>, inv: Invisible): seq<Block> {
    if doc == [] then [] else BlockOf(doc[0], inv) + BlocksOf(doc[1..], inv)
  }

  lemma {:induction false} RenderConcat(a: seq<Element>, b: seq<Element>, inv: Invisible)
    ensures Render(a + b, inv) == Render(a, inv) + Render(b, inv)
  {
    if a == [] {
      assert a + b == b;
    } else {
      assert (a + b)[1..] == a[1..] + b && (a + b)[0] == a[0];
      RenderConcat(a[1..], b, inv);
      AppendAssoc(RenderElement(a[0], inv), Render(a[1..], inv), Render(b, inv));
    }
  }

  lemma {:induction false} BlocksOfConcat(a: seq<Element>, b: seq<Element>, inv: Invisible)
    ensures BlocksOf(a + b, inv) == BlocksOf(a, inv) + BlocksOf(b, inv)
  {
    if a == [] {
      assert a + b == b;
    } else {
      assert (a + b)[1..] == a[1..] + b && (a + b)[0] == a[0];
      BlocksOfConcat(a[1..], b, inv);
      AppendAssoc(BlockOf(a[0], inv), BlocksOf(a[1..], inv), BlocksOf(b, inv));
    }
  }

  /** How the fixed part at the start of a line keeps it from opening a fence: it is no fence marker
      and no list marker. */
  predicate HarmlessStart(t: Text) {
    t != [] && t[0] != SPACE && t[0] != BACKTICK && t[0] != TILDE
    && (IsBullet(t[0]) ==> |t| > 1 && t[1] != SPACE)
  }

  /** Up to three spaces and one list marker in front of a line, and what is left of it. */
  predicate HarmlessLine(pieces: seq<Piece>) {
    pieces != [] ==>
      || (pieces[0].Fixed? && HarmlessStart(Lit(pieces[0].word)))
      || (|pieces| > 1 && pieces[0] == Fixed("- ")
          && ((pieces[1].Fixed? && HarmlessStart(Lit(pieces[1].word))) || pieces[1].Code?))
      || (|pieces| > 1 && pieces[0] == Fixed("  - ") && pieces[1].Fixed? && HarmlessStart(Lit(pieces[1].word)))
  }

  predicate Safe(e: Element) {
    e.Line? ==> WellSeparated(e.pieces) && HarmlessLine(e.pieces)
  }

  predicate AllSafe(doc: seq<Element>) {
    forall i :: 0 <= i < |doc| ==> Safe(doc[i])
  }

  // ---------------------------------------------------------------------------------------------
  // Lines that open nothing

  lemma HarmlessOpensNothing(t: Text, rest: Text)
    requires HarmlessStart(t)
    ensures Opens(t + rest).None?
  {
    var line := t + rest;
    RunUnique(line, SPACE, 0);
    assert line[0] == t[0] && line[0..] == line;
    assert |t| > 1 ==> line[1] == t[1];
  }

  lemma BulletOpensNothing(rest: Text)
    requires Opens(rest).None?
    ensures Opens(Lit("- ") + rest).None?
  {
    var line := Lit("- ") + rest;
    RunUnique(line, SPACE, 0);
    assert line[0..] == line && line[0] == DASH && line[1] == SPACE;
    assert line[2..] == rest;
  }

  lemma NestedOpensNothing(rest: Text)
    requires Opens(rest).None?
    ensures Opens(Lit("  - ") + rest).None?
  {
    var line := Lit("  - ") + rest;
    assert line[0] == SPACE && line[1] == SPACE && line[2] == DASH && line[3] == SPACE;
    RunUnique(line, SPACE, 2);
    assert line[4..] == rest;
  }

  lemma TicksOpenNothing(n: nat, info: Text)
    requires n > 0 && info != [] && info[0] != BACKTICK && BACKTICK in info
    ensures Opens(Repeat(BACKTICK, n) + info).None?
  {
    var line := Repeat(BACKTICK, n) + info;
    RunUnique(line, SPACE, 0);
    assert line[0..] == line && line[0] == BACKTICK;
    RunUnique(line, BACKTICK, n);
    assert line[n..] == info;
  }

  /** A value at the start of a line opens nothing: were its fence three backticks or more, the line
      would still hold the closing ones, and a backtick fence has no backtick after it. */
  lemma CodeOpensNothing(v: Text, inv: Invisible, rest: Text)
    ensures Opens(MdCode(v, inv) + rest).None?
  {
    var p := Printable(v, inv);
    if p == [] {
      HarmlessOpensNothing(Lit("(empty)"), rest);
    } else {
      var n := LongestRun(p) + 1;
      var fence, body := Repeat(BACKTICK, n), Pad(p);
      PadRuns(p);
      var info := body + fence + rest;
      AppendAssoc(fence + body, fence, rest);
      AppendAssoc(fence, body, fence + rest);
      AppendAssoc(body, fence, rest);
      assert MdCode(v, inv) + rest == fence + info;
      assert info[0] == body[0];
      assert (body + fence)[|body|] == BACKTICK;
      TicksOpenNothing(n, info);
    }
  }

  lemma LineOpensNothing(pieces: seq<Piece>, inv: Invisible)
    requires HarmlessLine(pieces)
    ensures Opens(Format(pieces, inv)).None?
  {
    if pieces != [] {
      var tail := pieces[1..];
      if pieces[0].Fixed? && HarmlessStart(Lit(pieces[0].word)) {
        HarmlessOpensNothing(Lit(pieces[0].word), Format(tail, inv));
      } else {
        var next, rest := tail[0], Format(tail[1..], inv);
        assert Format(tail, inv) == FormatPiece(next, inv) + rest;
        if next.Code? {
          CodeOpensNothing(next.value, inv, rest);
        } else {
          HarmlessOpensNothing(Lit(next.word), rest);
        }
        if pieces[0] == Fixed("- ") {
          BulletOpensNothing(Format(tail, inv));
        } else {
          NestedOpensNothing(Format(tail, inv));
        }
      }
    }
  }

  lemma MdCodeOneLine(v: Text, inv: Invisible)
    ensures OneLine(MdCode(v, inv))
  {
    PrintableShown(v, inv);
    if Printable(v, inv) == [] {
      assert forall c :: c in Lit("(empty)") ==> !IsLineEnding(c);
    } else {
      assert forall c :: c in MdCode(v, inv) ==> c == BACKTICK || c == SPACE || c in Printable(v, inv);
    }
  }

  lemma {:induction false} FormatOneLine(pieces: seq<Piece>, inv: Invisible)
    requires WellSeparated(pieces)
    ensures OneLine(Format(pieces, inv))
  {
    if pieces != [] {
      FormatOneLine(pieces[1..], inv);
      match pieces[0]
      case Fixed(w) => assert forall c :: c in Lit(w) ==> IsPlain(c);
      case Raw(t) => assert forall c :: c in t ==> IsPlain(c);
      case Code(v) => MdCodeOneLine(v, inv);
    }
  }

  lemma {:induction false} RenderOneLine(doc: seq<Element>, inv: Invisible)
    requires AllSafe(doc)
    ensures forall l :: l in Render(doc, inv) ==> OneLine(l)
  {
    if doc != [] {
      RenderOneLine(doc[1..], inv);
      match doc[0]
      case Line(pieces) => FormatOneLine(pieces, inv);
      case Fenced(lines) => MdBlockOneLine(lines, inv);
    }
  }

  // ---------------------------------------------------------------------------------------------
  // What a reader finds

  /** The block scan finds exactly the intended blocks: no value opens, closes or extends one, and the
      document does not end inside one. */
  lemma {:induction false} ScanRendered(doc: seq<Element>, inv: Invisible)
    requires AllSafe(doc)
    ensures ScanBlocks(Render(doc, inv)) == Scan(BlocksOf(doc, inv), false)
  {
    if doc != [] {
      var rest := Render(doc[1..], inv);
      ScanRendered(doc[1..], inv);
      match doc[0]
      case Line(pieces) =>
        LineOpensNothing(pieces, inv);
        ScanSkips([Format(pieces, inv)], rest);
      case Fenced(lines) =>
        ScanMdBlock(lines, inv, rest);
    }
  }

  /** The same, for the text of the document. */
  lemma ScanText(doc: seq<Element>, inv: Invisible)
    requires doc != [] && AllSafe(doc)
    ensures ScanBlocks(Lines(Join([NEWLINE], Render(doc, inv)))) == Scan(BlocksOf(doc, inv), false)
  {
    RenderOneLine(doc, inv);
    LinesOfJoin(Render(doc, inv));
    ScanRendered(doc, inv);
  }

  function FormatAll(lines: seq<seq<Piece>>, inv: Invisible): (r: seq<Text>)
    ensures |r| == |lines|
    ensures forall i :: 0 <= i < |lines| ==> r[i] == Format(lines[i], inv)
  {
    seq(|lines|, i requires 0 <= i < |lines| => Format(lines[i], inv))
  }

  function SeenLines(lines: seq<seq<Piece>>, inv: Invisible): seq<Inline> {
    if lines == [] then []
    else if |lines| == 1 then Seen(lines[0], inv)
    else Seen(lines[0], inv) + [Char(NEWLINE)] + SeenLines(lines[1..], inv)
  }

  /** A code span may run over the lines of a paragraph, so lines are also read joined: still every
      value is in a span of its own, and no span crosses from one line to another. */
  lemma {:induction false} ScanParagraph(lines: seq<seq<Piece>>, inv: Invisible)
    requires forall i :: 0 <= i < |lines| ==> WellSeparated(lines[i])
    ensures ScanInline(Join([NEWLINE], FormatAll(lines, inv))) == SeenLines(lines, inv)
  {
    if |lines| == 1 {
      ScanFormatted(lines[0], inv, []);
      assert Format(lines[0], inv) + [] == Format(lines[0], inv);
    } else if |lines| > 1 {
      var tail := Join([NEWLINE], FormatAll(lines[1..], inv));
      ScanParagraph(lines[1..], inv);
      assert FormatAll(lines, inv)[1..] == FormatAll(lines[1..], inv);
      var rest := [NEWLINE] + tail;
      assert rest[1..] == tail && Next(rest) == ([Char(NEWLINE)], 1);
      ScanFormatted(lines[0], inv, rest);
      AppendAssoc(Format(lines[0], inv), [NEWLINE], tail);
      AppendAssoc(Seen(lines[0], inv), [Char(NEWLINE)], SeenLines(lines[1..], inv));
    }
  }
}
