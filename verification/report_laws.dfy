/** What a CommonMark reader sees of a report: every value inside its own code span, every finding's
    evidence inside its own fenced block, whatever the snapshot's strings are. */
module ReportLaws {
  import opened Text
  import opened Sorting
  import opened CommonMark
  import opened Escape
  import opened Documents
  import opened Snapshots
  import opened Findings
  import opened Iocs
  import opened Report

  // ---------------------------------------------------------------------------------------------
  // Every line of the report is safe

  lemma {:induction false} SeparatedByIndex(pieces: seq<Piece>)
    requires forall i :: 0 <= i < |pieces| && pieces[i].Raw? ==> pieces[i].text != [] && Plain(pieces[i].text)
    requires forall i :: 0 < i < |pieces| ==> !pieces[i - 1].Code? || !pieces[i].Code?
    ensures WellSeparated(pieces)
  {
    if pieces != [] {
      SeparatedByIndex(pieces[1..]);
    }
  }

  lemma DecimalPlain(n: int)
    ensures Plain(Decimal(n))
  {
    DecimalChars(n);
    forall i | 0 <= i < |Decimal(n)| ensures IsPlain(Decimal(n)[i]) {
      assert Decimal(n)[i] in Decimal(n);
    }
  }

  /** A line that starts with a fixed part and adds pieces that are well separated themselves. */
  lemma SafeLine(front: seq<Piece>, rest: seq<Piece>)
    requires WellSeparated(front) && WellSeparated(rest)
    requires front != [] && (rest == [] || !front[|front| - 1].Code? || !rest[0].Code?)
    requires HarmlessLine(front)
    ensures Safe(Line(front + rest))
  {
    WellSeparatedConcat(front, rest);
    assert forall i :: 0 <= i < |front| ==> (front + rest)[i] == front[i];
  }

  /** A list item: a marker, a fixed caption and pieces that are well separated themselves. */
  lemma ItemSafe(marker: Word, caption: Word, rest: seq<Piece>)
    requires marker == "- " || marker == "  - "
    requires HarmlessStart(Lit(caption)) && WellSeparated(rest)
    ensures Safe(Line([Fixed(marker), Fixed(caption)] + rest))
  {
    SeparatedByIndex([Fixed(marker), Fixed(caption)]);
    SafeLine([Fixed(marker), Fixed(caption)], rest);
  }

  lemma {:induction false} JoinWordsSeparated(words: seq<Word>)
    ensures WellSeparated(JoinWords(words))
    ensures words != [] ==> JoinWords(words) != []
    ensures words != [] ==> JoinWords(words)[0].Fixed? && JoinWords(words)[|JoinWords(words)| - 1].Fixed?
  {
    if |words| == 1 {
      SeparatedByIndex([Fixed(words[0])]);
    } else if |words| > 1 {
      JoinWordsSeparated(words[1..]);
      SeparatedByIndex([Fixed(words[0]), Fixed(", ")]);
      WellSeparatedConcat([Fixed(words[0]), Fixed(", ")], JoinWords(words[1..]));
    }
  }

  lemma {:induction false} JoinCodesSeparated(values: seq<Text>)
    ensures WellSeparated(JoinCodes(values))
  {
    if |values| == 1 {
      SeparatedByIndex([Code(values[0])]);
    } else if |values| > 1 {
      JoinCodesSeparated(values[1..]);
      SeparatedByIndex([Code(values[0]), Fixed(", ")]);
      WellSeparatedConcat([Code(values[0]), Fixed(", ")], JoinCodes(values[1..]));
    }
  }

  lemma NoneIfEmptySeparated(pieces: seq<Piece>)
    requires WellSeparated(pieces)
    ensures WellSeparated(NoneIfEmpty(pieces))
  {
    SeparatedByIndex([Fixed("none")]);
  }

  lemma BetweenWords(count: Piece, words: seq<Piece>)
    requires count.Raw? && count.text != [] && Plain(count.text) && WellSeparated(words)
    ensures WellSeparated(Verdict(count, words)) && Verdict(count, words) != [] && Verdict(count, words)[0] == count
  {
    var front, last := [count, Fixed(" finding(s) — ")], [Fixed(". Investigate.")];
    SeparatedByIndex(front);
    SeparatedByIndex(last);
    WellSeparatedConcat(front, words);
    WellSeparatedConcat(front + words, last);
  }

  lemma VerdictSeparated(fs: seq<Finding>)
    ensures WellSeparated(VerdictPieces(fs))
    ensures VerdictPieces(fs) != [] && !VerdictPieces(fs)[0].Code?
  {
    if fs == [] {
      SeparatedByIndex(VerdictPieces(fs));
    } else {
      DecimalPlain(|fs|);
      JoinWordsSeparated(KindWords(SortedSet(set f | f in fs :: f.kind, KindKey)));
      BetweenWords(Raw(Decimal(|fs|)), JoinWords(KindWords(SortedSet(set f | f in fs :: f.kind, KindKey))));
    }
  }

  lemma HostLinesSafe(s: Snapshot)
    ensures Safe(TitleLine(s.host)) && Safe(HostLine(s.host))
  {
    SeparatedByIndex(TitleLine(s.host).pieces);
    SeparatedByIndex(HostLine(s.host).pieces);
  }

  lemma CapturedSafe(s: Snapshot)
    ensures Safe(CapturedLine(s))
  {
    DecimalPlain(s.capture.euid);
    SeparatedByIndex(CapturedLine(s).pieces);
  }

  lemma CaptureLinesSafe(s: Snapshot, baseline: Option<Text>)
    ensures Safe(CapturedLine(s)) && Safe(ToolLine(s)) && Safe(BaselineLine(baseline))
  {
    CapturedSafe(s);
    SeparatedByIndex(ToolLine(s).pieces);
    SeparatedByIndex(BaselineLine(baseline).pieces);
  }

  lemma CountsSafe(fs: seq<Finding>)
    ensures Safe(CountsLine(fs))
  {
    DecimalPlain(CountOf(fs, High));
    DecimalPlain(CountOf(fs, Medium));
    DecimalPlain(CountOf(fs, Low));
    SeparatedByIndex(CountsLine(fs).pieces);
  }

  lemma VerdictSafe(fs: seq<Finding>)
    ensures Safe(VerdictLine(fs))
  {
    VerdictSeparated(fs);
    ItemSafe("- ", "Verdict: ", VerdictPieces(fs));
  }

  lemma HeadingsSafe()
    ensures SafeLines([SummaryHeading()]) && SafeLines([FindingsHeading()]) && SafeLines([IocsHeading()])
    ensures SafeLines([NotesHeading()]) && SafeLines([NoneLine()])
  {
    SeparatedByIndex(SummaryHeading().pieces);
    SeparatedByIndex(FindingsHeading().pieces);
    SeparatedByIndex(IocsHeading().pieces);
    SeparatedByIndex(NotesHeading().pieces);
    SeparatedByIndex(NoneLine().pieces);
  }

  /** Lines only, and all of them safe. */
  predicate SafeLines(doc: seq<Element>) {
    forall i :: 0 <= i < |doc| ==> doc[i].Line? && Safe(doc[i])
  }

  lemma SafeLinesConcat(a: seq<Element>, b: seq<Element>)
    requires SafeLines(a) && SafeLines(b)
    ensures SafeLines(a + b)
  {
  }

  lemma HostPartSafe(s: Snapshot)
    ensures SafeLines(HostPart(s.host))
  {
    HostLinesSafe(s);
  }

  lemma CapturePartSafe(s: Snapshot, baseline: Option<Text>)
    ensures SafeLines(CapturePart(s)) && SafeLines([BaselineLine(baseline), BLANK])
  {
    CaptureLinesSafe(s, baseline);
  }

  lemma FourSafe(a: Element, b: Element, c: Element, d: Element)
    requires SafeLines([a]) && b.Line? && Safe(b) && c.Line? && Safe(c) && d.Line? && Safe(d)
    ensures SafeLines([a, b, c, d])
  {
    assert [a][0] == a;
  }

  lemma SummaryPartSafe(fs: seq<Finding>)
    ensures SafeLines(SummaryPart(fs))
  {
    CountsSafe(fs);
    VerdictSafe(fs);
    HeadingsSafe();
    FourSafe(SummaryHeading(), CountsLine(fs), VerdictLine(fs), BLANK);
  }

  lemma FindingsPartSafe(fs: seq<Finding>)
    ensures SafeLines(FindingsPart(fs))
  {
    HeadingsSafe();
    SafeLinesConcat([FindingsHeading()], if fs == [] then [NoneLine()] else []);
  }

  lemma SafeLinesConcat5(a: seq<Element>, b: seq<Element>, c: seq<Element>, d: seq<Element>, e: seq<Element>)
    requires SafeLines(a) && SafeLines(b) && SafeLines(c) && SafeLines(d) && SafeLines(e)
    ensures SafeLines(a + b + c + d + e)
  {
    SafeLinesConcat(a, b);
    SafeLinesConcat(a + b, c);
    SafeLinesConcat(a + b + c, d);
    SafeLinesConcat(a + b + c + d, e);
  }

  lemma HeaderSafe(s: Snapshot, fs: seq<Finding>, baseline: Option<Text>)
    ensures SafeLines(HeaderElements(s, fs, baseline))
  {
    HostPartSafe(s);
    CapturePartSafe(s, baseline);
    SummaryPartSafe(fs);
    FindingsPartSafe(fs);
    SafeLinesConcat5(HostPart(s.host), CapturePart(s), [BaselineLine(baseline), BLANK], SummaryPart(fs), FindingsPart(fs));
  }

  lemma FindingHeadingSafe(f: Finding)
    ensures SafeLines([FindingHeading(f)])
  {
    SeparatedByIndex(FindingHeading(f).pieces);
  }

  lemma SeenSafe(rest: seq<Piece>)
    requires WellSeparated(rest)
    ensures Safe(Line([Fixed("- "), Fixed("Seen by: ")] + rest))
  {
    ItemSafe("- ", "Seen by: ", rest);
  }

  lemma SeenBySafe(f: Finding)
    ensures SafeLines(SeenByPart(f))
  {
    JoinWordsSeparated(ChannelWords(f.channels));
    SeenSafe(JoinWords(ChannelWords(f.channels)));
  }

  lemma DeniedSafe(rest: seq<Piece>)
    requires WellSeparated(rest)
    ensures Safe(Line([Fixed("- "), Fixed("Denied by: ")] + rest))
  {
    ItemSafe("- ", "Denied by: ", rest);
  }

  lemma DeniedBySafe(f: Finding)
    ensures SafeLines(DeniedByPart(f))
  {
    JoinWordsSeparated(DissentWords(f.dissent));
    DeniedSafe(JoinWords(DissentWords(f.dissent)));
  }

  /** A finding is safe lines around at most one block. */
  lemma FindingSafe(f: Finding)
    ensures SafeLines(AboveBlock(f))
  {
    FindingHeadingSafe(f);
    SeenBySafe(f);
    DeniedBySafe(f);
    SafeLinesConcat([FindingHeading(f)], SeenByPart(f));
    SafeLinesConcat([FindingHeading(f)] + SeenByPart(f), DeniedByPart(f));
  }

  lemma OneBlock(body: seq<Text>, inv: Invisible)
    ensures BlocksOf([Fenced(body)], inv) == [Block(Lit("text"), PrintableAll(body, inv))]
  {
    var block: seq<Element> := [Fenced(body)];
    assert block[1..] == [] && BlocksOf(block[1..], inv) == [];
    assert BlocksOf(block, inv) == BlockOf(block[0], inv) + [];
  }

  lemma SafeAround(before: seq<Element>, block: seq<Element>, after: seq<Element>)
    requires SafeLines(before) && SafeLines(after)
    requires forall i :: 0 <= i < |block| ==> block[i].Fenced?
    ensures AllSafe(before + block + after)
  {
  }

  lemma AroundBlock(before: seq<Element>, body: seq<Text>, inv: Invisible)
    requires SafeLines(before)
    ensures AllSafe(before + (if body == [] then [] else [Fenced(body)]) + [BLANK])
    ensures BlocksOf(before + (if body == [] then [] else [Fenced(body)]) + [BLANK], inv)
         == if body == [] then [] else [Block(Lit("text"), PrintableAll(body, inv))]
  {
    if body == [] {
      SafeAround(before, [], [BLANK]);
      BlocksBetween(before, [], [BLANK], inv);
    } else {
      SafeAround(before, [Fenced(body)], [BLANK]);
      BlocksBetween(before, [Fenced(body)], [BLANK], inv);
      OneBlock(body, inv);
    }
  }

  lemma {:induction false} FindingsSafe(fs: seq<Finding>, p: Printer)
    ensures AllSafe(FindingsElements(fs, p))
  {
    if fs != [] {
      var f := fs[|fs| - 1];
      FindingsSafe(fs[..|fs| - 1], p);
      FindingSafe(f);
      AroundBlock(AboveBlock(f), FindingBody(f, p), p.inv);
      AllSafeConcat(FindingsElements(fs[..|fs| - 1], p), FindingElements(f, p));
    }
  }

  lemma AllSafeConcat(a: seq<Element>, b: seq<Element>)
    requires AllSafe(a) && AllSafe(b)
    ensures AllSafe(a + b)
  {
  }

  lemma IocSafe(i: Ioc)
    ensures Safe(IocElement(i))
  {
    SeparatedByIndex(IocElement(i).pieces);
  }

  lemma SaturatedSafe(channel: Text)
    ensures Safe(SaturatedLine(channel))
  {
    SeparatedByIndex(CouldNot(channel));
    SeparatedByIndex(SaturatedWhy() + SaturatedSo());
    SafeLine(CouldNot(channel), SaturatedWhy() + SaturatedSo());
    AppendAssoc(CouldNot(channel), SaturatedWhy(), SaturatedSo());
  }

  lemma UncorroboratedSafe(channel: Text)
    ensures Safe(UncorroboratedLine(channel))
  {
    SeparatedByIndex(CouldNot(channel));
    SeparatedByIndex(UncorroboratedWhy() + UncorroboratedSo());
    SafeLine(CouldNot(channel), UncorroboratedWhy() + UncorroboratedSo());
    AppendAssoc(CouldNot(channel), UncorroboratedWhy(), UncorroboratedSo());
  }

  lemma BitSafe(bit: Text, owners: Json, p: Printer)
    ensures Safe(BitLine(bit, owners, p))
  {
    var front := [Fixed("  - "), Fixed("bit "), Code(bit), Fixed(": ")];
    SeparatedByIndex(front);
    JoinCodesSeparated(if owners.List? then StrAll(owners.items, p) else []);
    SafeLine(front, JoinCodes(if owners.List? then StrAll(owners.items, p) else []));
  }

  lemma ListedSafe(n: ChannelNote, p: Printer)
    ensures Safe(ListedLine(n.detail, p))
  {
    SeparatedByIndex(ListedLine(n.detail, p).pieces);
  }

  /** Values in code spans after a nested caption, or the word none. */
  lemma CodesSafe(caption: Word, values: seq<Text>)
    requires HarmlessStart(Lit(caption))
    ensures Safe(Line([Fixed("  - "), Fixed(caption)] + NoneIfEmpty(JoinCodes(values))))
  {
    JoinCodesSeparated(values);
    NoneIfEmptySeparated(JoinCodes(values));
    ItemSafe("  - ", caption, NoneIfEmpty(JoinCodes(values)));
  }

  lemma ConsultedCodes(values: seq<Text>)
    ensures Safe(Line([Fixed("  - "), Fixed("channels consulted: ")] + NoneIfEmpty(JoinCodes(values))))
  {
    CodesSafe("channels consulted: ", values);
  }

  lemma ConsultedSafe(n: ChannelNote, p: Printer)
    ensures Safe(ConsultedLine(n.detail, p))
  {
    ConsultedCodes(StrAll(ItemsOf(n.detail, Lit("channels_consulted")), p));
  }

  lemma KeysSafe(n: ChannelNote)
    ensures Safe(KeysLine(n.detail))
  {
    CodesSafe("detail keys: ", SortedTexts(n.detail.Keys));
  }

  lemma UnknownSafe(n: ChannelNote)
    ensures Safe(UnknownLine(n.channel, n.reason))
  {
    SeparatedByIndex(UnknownLine(n.channel, n.reason).pieces);
  }

  lemma BitsSafe(bits: seq<Text>, explained: map<Text, Json>, p: Printer)
    requires forall b :: b in bits ==> b in explained
    ensures SafeLines(BitLines(bits, explained, p))
  {
    forall i | 0 <= i < |bits| ensures Safe(BitLine(bits[i], explained[bits[i]], p)) {
      BitSafe(bits[i], explained[bits[i]], p);
    }
  }

  lemma NoteSafe(n: ChannelNote, p: Printer)
    ensures SafeLines(NoteElements(n, p))
  {
    if n.reason == Lit("saturated") {
      var explained := FieldsOf(n.detail, Lit("explained_by"));
      SaturatedSafe(n.channel);
      BitsSafe(SortedTexts(explained.Keys), explained, p);
    } else if n.reason == Lit("uncorroborated") {
      UncorroboratedSafe(n.channel);
      ListedSafe(n, p);
      ConsultedSafe(n, p);
    } else {
      UnknownSafe(n);
      KeysSafe(n);
    }
  }

  lemma {:induction false} NotesSafe(notes: seq<ChannelNote>, p: Printer)
    ensures SafeLines(NotesElements(notes, p))
  {
    if notes != [] {
      NotesSafe(notes[..|notes| - 1], p);
      NoteSafe(notes[|notes| - 1], p);
    }
  }

  lemma IocsPartSafe(iocs: seq<Ioc>)
    ensures SafeLines(IocsPart(iocs))
  {
    HeadingsSafe();
    forall i | 0 <= i < |iocs| ensures Safe(IocElements(iocs)[i]) {
      IocSafe(iocs[i]);
    }
    var none := if iocs == [] then [NoneLine()] else [];
    SafeLinesConcat([IocsHeading()], none);
    SafeLinesConcat([IocsHeading()] + none, IocElements(iocs));
    SafeLinesConcat([IocsHeading()] + none + IocElements(iocs), [BLANK]);
  }

  lemma NotesPartSafe(lines: seq<Element>)
    requires SafeLines(lines)
    ensures SafeLines(NotesPart(lines))
  {
    HeadingsSafe();
    assert [NotesHeading(), BLANK] == [NotesHeading()] + [BLANK];
    SafeLinesConcat([NotesHeading()], [BLANK]);
    SafeLinesConcat([NotesHeading(), BLANK], lines);
    SafeLinesConcat([NotesHeading(), BLANK] + lines, [BLANK]);
  }

  lemma TailSafe(iocs: seq<Ioc>, notes: seq<ChannelNote>, p: Printer)
    ensures SafeLines(TailElements(iocs, notes, p))
  {
    IocsPartSafe(iocs);
    NotesSafe(notes, p);
    NotesPartSafe(NotesElements(notes, p));
    SafeLinesConcat(IocsPart(iocs), NotesPart(NotesElements(notes, p)));
  }

  lemma DocumentSafe(s: Snapshot, fs: seq<Finding>, iocs: seq<Ioc>, baseline: Option<Text>,
                     notes: seq<ChannelNote>, p: Printer)
    ensures AllSafe(Document(s, fs, iocs, baseline, notes, p))
  {
    HeaderSafe(s, fs, baseline);
    FindingsSafe(Ranked(fs), p);
    TailSafe(iocs, notes, p);
    AllSafeConcat3(HeaderElements(s, fs, baseline), FindingsElements(Ranked(fs), p), TailElements(iocs, notes, p));
  }

  lemma AllSafeConcat3(a: seq<Element>, b: seq<Element>, c: seq<Element>)
    requires SafeLines(a) && AllSafe(b) && SafeLines(c)
    ensures AllSafe(a + b + c)
  {
  }

  // ---------------------------------------------------------------------------------------------
  // The blocks of the report

  predicate OnlyLines(doc: seq<Element>) {
    forall i :: 0 <= i < |doc| ==> doc[i].Line?
  }

  lemma {:induction false} LinesHaveNoBlocks(doc: seq<Element>, inv: Invisible)
    requires OnlyLines(doc)
    ensures BlocksOf(doc, inv) == []
  {
    if doc != [] {
      LinesHaveNoBlocks(doc[1..], inv);
    }
  }

  /** One block for each finding that has something to say, in order. */
  function FindingBlocks(fs: seq<Finding>, p: Printer): seq<Block> {
    if fs == [] then []
    else
      var body := FindingBody(fs[|fs| - 1], p);
      FindingBlocks(fs[..|fs| - 1], p)
      + if body == [] then [] else [Block(Lit("text"), PrintableAll(body, p.inv))]
  }

  lemma {:induction false} FindingsHaveBlocks(fs: seq<Finding>, p: Printer)
    ensures BlocksOf(FindingsElements(fs, p), p.inv) == FindingBlocks(fs, p)
  {
    if fs != [] {
      var n := |fs| - 1;
      FindingsHaveBlocks(fs[..n], p);
      var f := fs[n];
      FindingSafe(f);
      AroundBlock(AboveBlock(f), FindingBody(f, p), p.inv);
      BlocksOfConcat(FindingsElements(fs[..n], p), FindingElements(fs[n], p), p.inv);
    }
  }

  /** Whole-document containment: reading the report's text back finds one fenced block for each
      finding that has a body, in ranked order, holding exactly the shown form of that finding's
      summary and evidence lines; no other line opens a block, and the report does not end inside one.
      This holds for all snapshots, findings, indicators, notes and baseline names. */
  lemma ReportContainment(s: Snapshot, fs: seq<Finding>, iocs: seq<Ioc>, baseline: Option<Text>,
                          notes: seq<ChannelNote>, p: Printer)
    ensures ScanBlocks(Lines(RenderMarkdown(s, fs, iocs, baseline, notes, p)))
         == Scan(FindingBlocks(Ranked(fs), p), false)
  {
    DocumentSafe(s, fs, iocs, baseline, notes, p);
    ScanText(Document(s, fs, iocs, baseline, notes, p), p.inv);
    DocumentBlocks(s, fs, iocs, baseline, notes, p);
  }

  lemma BlocksBetween(header: seq<Element>, middle: seq<Element>, tail: seq<Element>, inv: Invisible)
    requires SafeLines(header) && SafeLines(tail)
    ensures BlocksOf(header + middle + tail, inv) == BlocksOf(middle, inv)
  {
    RenderConcat3(header, middle, tail, inv);
    LinesHaveNoBlocks(header, inv);
    LinesHaveNoBlocks(tail, inv);
  }

  /** The blocks of the document are those of its findings. */
  lemma DocumentBlocks(s: Snapshot, fs: seq<Finding>, iocs: seq<Ioc>, baseline: Option<Text>,
                       notes: seq<ChannelNote>, p: Printer)
    ensures BlocksOf(Document(s, fs, iocs, baseline, notes, p), p.inv) == FindingBlocks(Ranked(fs), p)
  {
    HeaderSafe(s, fs, baseline);
    TailSafe(iocs, notes, p);
    FindingsHaveBlocks(Ranked(fs), p);
    BlocksBetween(HeaderElements(s, fs, baseline), FindingsElements(Ranked(fs), p), TailElements(iocs, notes, p), p.inv);
  }

  function PiecesOf(doc: seq<Element>): seq<seq<Piece>>
    requires OnlyLines(doc)
  {
    seq(|doc|, i requires 0 <= i < |doc| => doc[i].pieces)
  }

  lemma {:induction false} RenderLines(doc: seq<Element>, inv: Invisible)
    requires OnlyLines(doc)
    ensures Render(doc, inv) == FormatAll(PiecesOf(doc), inv)
  {
    if doc != [] {
      RenderLines(doc[1..], inv);
      assert PiecesOf(doc)[1..] == PiecesOf(doc[1..]);
    }
  }

  /** Between the blocks, any stretch of lines read as one paragraph shows every value in a code span
      of its own and nothing else in one. */
  lemma ReportSpans(s: Snapshot, fs: seq<Finding>, iocs: seq<Ioc>, baseline: Option<Text>,
                    notes: seq<ChannelNote>, p: Printer, i: nat, j: nat)
    requires i <= j <= |Document(s, fs, iocs, baseline, notes, p)|
    requires OnlyLines(Document(s, fs, iocs, baseline, notes, p)[i..j])
    ensures var part := Document(s, fs, iocs, baseline, notes, p)[i..j];
      ScanInline(Join([NEWLINE], Render(part, p.inv))) == SeenLines(PiecesOf(part), p.inv)
  {
    DocumentSafe(s, fs, iocs, baseline, notes, p);
    StretchSpans(Document(s, fs, iocs, baseline, notes, p), p.inv, i, j);
  }

  lemma StretchSpans(doc: seq<Element>, inv: Invisible, i: nat, j: nat)
    requires i <= j <= |doc| && AllSafe(doc) && OnlyLines(doc[i..j])
    ensures ScanInline(Join([NEWLINE], Render(doc[i..j], inv))) == SeenLines(PiecesOf(doc[i..j]), inv)
  {
    var part := doc[i..j];
    RenderLines(part, inv);
    forall k | 0 <= k < |part| ensures WellSeparated(PiecesOf(part)[k]) {
      assert Safe(doc[i + k]);
    }
    ScanParagraph(PiecesOf(part), inv);
  }

  /** Findings are shown most certain first, by subject within a confidence; none is added or lost. */
  lemma RankedOrder(fs: seq<Finding>)
    ensures multiset(Ranked(fs)) == multiset(fs)
    ensures Ascending(Ranked(fs), RankKey)
  {
    SortPermutes(fs, RankKey);
    SortAscends(fs, RankKey);
  }
}
