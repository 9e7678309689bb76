/** reporting/report.py: the Markdown report. */
module Report {
  import opened Text
  import opened Sorting
  import opened Escape
  import opened Documents
  import opened Snapshots
  import opened Findings
  import opened Iocs

  /** What the report takes from Python: the Unicode categories and repr(). */
  datatype Printer = Printer(
    inv: Invisible, reprEvidence: seq<Evidence> -> Text, reprNames: seq<Text> -> Text, reprJson: Json -> Text)

  // ---------------------------------------------------------------------------------------------
  // The renderer's own constants

  function ConfidenceWord(c: Confidence): Word {
    match c case Low => "LOW" case Medium => "MEDIUM" case High => "HIGH"
  }

  const SUSPECTED_HIDDEN: Word := "suspected_hidden_module"

  function KindWord(k: FindingKind): Word {
    match k
    case BaselineDrift => "baseline_drift"
    case HiddenModule => "hidden_module"
    case HiddenProcess => "hidden_process"
    case OverListedModule => "over_listed_module"
    case SuspectedHiddenModule => SUSPECTED_HIDDEN
  }

  function KindKey(k: FindingKind): seq<int> {
    match k
    case BaselineDrift => [0]
    case HiddenModule => [1]
    case HiddenProcess => [2]
    case OverListedModule => [3]
    case SuspectedHiddenModule => [4]
  }

  /** Sorting finding kinds by key is sorting them by name. */
  lemma KindsAreAlphabetical(a: FindingKind, b: FindingKind)
    requires KindKey(a)[0] < KindKey(b)[0]
    ensures LexLt(Lit(KindWord(a)), Lit(KindWord(b)))
  {
    var s, t := Lit(KindWord(a)), Lit(KindWord(b));
    if a == HiddenModule && b == HiddenProcess {
      FirstDifference(s, t, 7);
    } else {
      FirstDifference(s, t, 0);
    }
  }

  function ProcessChannelWord(c: Channel): Word
    requires c.DirectStatus? || c.SocketVisible? || c.SyscallKill?
  {
    ChannelName(c)
  }

  function AnonymousChannelWord(c: Channel): Word
    requires c.Taint? || c.VmallocRegion?
  {
    ChannelName(c)
  }

  function NamedChannelWord(c: Channel): Word
    requires c.FtraceOrphan? || c.UnexpectedHook?
  {
    ChannelName(c)
  }

  function ListingChannelWord(c: Channel): Word
    requires c.BaselineDriftChannel? || c.OverListedChannel?
  {
    ChannelName(c)
  }

  /** Channel names come from kdetect's own detectors, so they are written as they are. */
  function ChannelWord(c: Channel): (w: Word)
    ensures w == ChannelName(c)
  {
    match c
    case DirectStatus => ProcessChannelWord(c)
    case SocketVisible => ProcessChannelWord(c)
    case SyscallKill => ProcessChannelWord(c)
    case Taint => AnonymousChannelWord(c)
    case VmallocRegion => AnonymousChannelWord(c)
    case FtraceOrphan => NamedChannelWord(c)
    case UnexpectedHook => NamedChannelWord(c)
    case BaselineDriftChannel => ListingChannelWord(c)
    case OverListedChannel => ListingChannelWord(c)
  }

  function ProcfsDissentWord(d: Dissent): Word
    requires d.ProcfsReaddir? || d.ModulesListing?
  {
    DissentName(d)
  }

  function OtherDissentWord(d: Dissent): Word
    requires d.EveryCorroboratingChannel? || d.SignedBaseline?
  {
    DissentName(d)
  }

  function DissentWord(d: Dissent): (w: Word)
    ensures w == DissentName(d)
  {
    if d.ProcfsReaddir? || d.ModulesListing? then ProcfsDissentWord(d) else OtherDissentWord(d)
  }

  function TypeWord(t: IocType): Word { TypeName(t) }

  /** ", ".join of the renderer's own words, as pieces. */
  function JoinWords(words: seq<Word>): seq<Piece> {
    if words == [] then []
    else if |words| == 1 then [Fixed(words[0])]
    else [Fixed(words[0]), Fixed(", ")] + JoinWords(words[1..])
  }

  function ChannelWords(channels: seq<Channel>): seq<Word> {
    seq(|channels|, i requires 0 <= i < |channels| => ChannelWord(channels[i]))
  }

  function DissentWords(dissents: seq<Dissent>): seq<Word> {
    seq(|dissents|, i requires 0 <= i < |dissents| => DissentWord(dissents[i]))
  }

  function KindWords(kinds: seq<FindingKind>): seq<Word> {
    seq(|kinds|, i requires 0 <= i < |kinds| => KindWord(kinds[i]))
  }

  // ---------------------------------------------------------------------------------------------
  // _ranked

  function RankKey(f: Finding): seq<int> {
    [match f.confidence case High => 0 case Medium => 1 case Low => 2] + f.subject
  }

  function Ranked(fs: seq<Finding>): seq<Finding> {
    SortBy(fs, RankKey)
  }

  // ---------------------------------------------------------------------------------------------
  // _render_evidence

  function Shows(t: Option<Text>): Text {
    match t case None => Lit("None") case Some(s) => s
  }

  function CommOf(e: Evidence): Text {
    if e.ProcessEvidence? && e.comm.Some? then e.comm.value else []
  }

  /** The first comm that is not empty; empty when there is none. */
  function FirstComm(es: seq<Evidence>): Text {
    if es == [] then []
    else if FirstComm(es[..|es| - 1]) != [] then FirstComm(es[..|es| - 1])
    else CommOf(es[|es| - 1])
  }

  /** FirstComm is the comm at the least index that has one. */
  lemma {:induction false} FirstCommIsFirst(es: seq<Evidence>)
    ensures FirstComm(es) == [] <==> forall i :: 0 <= i < |es| ==> CommOf(es[i]) == []
    ensures FirstComm(es) != [] ==>
              exists i :: 0 <= i < |es| && CommOf(es[i]) == FirstComm(es) && forall j :: 0 <= j < i ==> CommOf(es[j]) == []
  {
    if es != [] {
      var n := |es| - 1;
      var front := es[..n];
      FirstCommIsFirst(front);
      assert forall i :: 0 <= i < n ==> front[i] == es[i];
      if FirstComm(front) != [] {
        var i :| 0 <= i < n && CommOf(front[i]) == FirstComm(front) && forall j :: 0 <= j < i ==> CommOf(front[j]) == [];
        assert CommOf(es[i]) == FirstComm(es);
      } else if CommOf(es[n]) != [] {
        assert CommOf(es[n]) == FirstComm(es);
      }
    }
  }

  function SocketLine(e: Evidence): Text {
    if e.SocketEvidence? then
      Lit("socket: ") + Shows(e.local) + Lit(" -> ") + Shows(e.remote) + Lit(" (") + Shows(e.state) + Lit(")")
    else Lit("socket: None -> None (None)")
  }

  function SocketLines(es: seq<Evidence>): seq<Text> {
    seq(|es|, i requires 0 <= i < |es| => SocketLine(es[i]))
  }

  function ChannelLine(f: Finding, c: Channel, p: Printer): Text {
    Lit(ChannelName(c)) + Lit(": ") + p.reprEvidence(EvidenceUnder(f, c))
  }

  function ChannelLines(f: Finding, channels: seq<Channel>, p: Printer): seq<Text> {
    seq(|channels|, i requires 0 <= i < |channels| => ChannelLine(f, channels[i], p))
  }

  /** "candidates" sorts after "baseline_drift" and before every other channel name. */
  function CandidateLines(f: Finding, p: Printer): seq<Text> {
    if f.candidates == [] then [] else [Lit("candidates: ") + p.reprNames(f.candidates)]
  }

  function CommLine(comm: Text): Text {
    Lit("comm: ") + if comm != [] then comm else Lit("unknown")
  }

  function ProcessLines(f: Finding): seq<Text> {
    [CommLine(FirstComm(EvidenceUnder(f, SyscallKill) + EvidenceUnder(f, DirectStatus))), EXE_LINE]
    + SocketLines(EvidenceUnder(f, SocketVisible))
  }

  const EXE_LINE := Lit("exe: unavailable (hidden from /proc)")

  /** One line for each key of the evidence dictionary, in sorted order. */
  function KeyLines(f: Finding, p: Printer): seq<Text> {
    var keys := f.evidence.Keys;
    ChannelLines(f, SortedChannels(keys * {BaselineDriftChannel}), p) + CandidateLines(f, p)
    + ChannelLines(f, SortedChannels(keys - {BaselineDriftChannel}), p)
  }

  function EvidenceLines(f: Finding, p: Printer): seq<Text> {
    if f.kind == HiddenProcess then ProcessLines(f) else KeyLines(f, p)
  }

  method FindComm(es: seq<Evidence>) returns (comm: Text)
    ensures comm == FirstComm(es)
  {
    comm := [];
    for i := 0 to |es|
      invariant comm == FirstComm(es[..i])
    {
      assert es[..i + 1][..i] == es[..i];
      if comm == [] {
        comm := CommOf(es[i]);
      }
    }
    assert es[..|es|] == es;
  }

  method RenderSockets(es: seq<Evidence>) returns (lines: seq<Text>)
    ensures lines == SocketLines(es)
  {
    lines := [];
    for i := 0 to |es|
      invariant lines == SocketLines(es[..i])
    {
      assert SocketLines(es[..i + 1]) == SocketLines(es[..i]) + [SocketLine(es[i])];
      lines := lines + [SocketLine(es[i])];
    }
    assert es[..|es|] == es;
  }

  lemma ChannelLinesStep(f: Finding, channels: seq<Channel>, i: nat, p: Printer)
    requires i < |channels|
    ensures ChannelLines(f, channels[..i + 1], p) == ChannelLines(f, channels[..i], p) + [ChannelLine(f, channels[i], p)]
  {
  }

  method RenderChannels(f: Finding, channels: seq<Channel>, p: Printer) returns (lines: seq<Text>)
    ensures lines == ChannelLines(f, channels, p)
  {
    lines := [];
    for i := 0 to |channels|
      invariant lines == ChannelLines(f, channels[..i], p)
    {
      ChannelLinesStep(f, channels, i, p);
      lines := lines + [ChannelLine(f, channels[i], p)];
    }
    assert channels[..|channels|] == channels;
  }

  method RenderEvidence(f: Finding, p: Printer) returns (lines: seq<Text>)
    ensures lines == EvidenceLines(f, p)
  {
    if f.kind == HiddenProcess {
      var comm := FindComm(EvidenceUnder(f, SyscallKill) + EvidenceUnder(f, DirectStatus));
      var sockets := RenderSockets(EvidenceUnder(f, SocketVisible));
      lines := [CommLine(comm), EXE_LINE] + sockets;
    } else {
      var before := RenderChannels(f, SortedChannels(f.evidence.Keys * {BaselineDriftChannel}), p);
      var after := RenderChannels(f, SortedChannels(f.evidence.Keys - {BaselineDriftChannel}), p);
      lines := before + CandidateLines(f, p) + after;
    }
  }

  /** The candidates entry is where sorting the dictionary's keys puts it. */
  lemma CandidatesInOrder(c: Channel)
    ensures if c == BaselineDriftChannel then LexLt(Lit(ChannelName(c)), Lit("candidates"))
            else LexLt(Lit("candidates"), Lit(ChannelName(c)))
  {
    if c == BaselineDriftChannel {
      FirstDifference(Lit(ChannelName(c)), Lit("candidates"), 0);
    } else {
      FirstDifference(Lit("candidates"), Lit(ChannelName(c)), 0);
    }
  }

  /** The lines a finding puts in its fenced block. */
  function FindingBody(f: Finding, p: Printer): seq<Text> {
    (if f.summary != [] then [f.summary] else []) + EvidenceLines(f, p)
  }

  // ---------------------------------------------------------------------------------------------
  // _note_lines

  /** ", ".join(md_code(v) for v in values), as pieces. */
  function JoinCodes(values: seq<Text>): seq<Piece> {
    if values == [] then []
    else if |values| == 1 then [Code(values[0])]
    else [Code(values[0]), Fixed(", ")] + JoinCodes(values[1..])
  }

  function StrOf(j: Json, p: Printer): Text {
    match j
    case Str(s) => s
    case Int(n) => Decimal(n)
    case _ => p.reprJson(j)
  }

  function StrAll(items: seq<Json>, p: Printer): seq<Text> {
    seq(|items|, i requires 0 <= i < |items| => StrOf(items[i], p))
  }

  /** The items of a JSON list; none for anything else. */
  function ItemsOf(detail: map<Text, Json>, key: Text): seq<Json> {
    if key in detail && detail[key].List? then detail[key].items else []
  }

  function FieldsOf(detail: map<Text, Json>, key: Text): map<Text, Json> {
    if key in detail && detail[key].Object? then detail[key].fields else map[]
  }

  function BitLine(bit: Text, owners: Json, p: Printer): Element {
    Line([Fixed("  - "), Fixed("bit "), Code(bit), Fixed(": ")]
         + JoinCodes(if owners.List? then StrAll(owners.items, p) else []))
  }

  function BitLines(bits: seq<Text>, explained: map<Text, Json>, p: Printer): seq<Element>
    requires forall b :: b in bits ==> b in explained
  {
    seq(|bits|, i requires 0 <= i < |bits| => BitLine(bits[i], explained[bits[i]], p))
  }

  function NoneIfEmpty(pieces: seq<Piece>): seq<Piece> {
    if pieces == [] then [Fixed("none")] else pieces
  }

  function CouldNot(channel: Text): seq<Piece> {
    [Fixed("- "), Code(channel), Fixed(" could not corroborate: ")]
  }

  const SATURATED_1: Word := "every bit it reads is already "
  const SATURATED_2: Word := "explained by a listed module, "
  const UNCORROBORATED_1: Word := "every listed module came back "
  const UNCORROBORATED_2: Word := "uncorroborated, so the channel "
  const UNCORROBORATED_3: Word := "is reporting on itself rather "
  const UNCORROBORATED_4: Word := "than on the modules."

  function SaturatedWhy(): seq<Piece> { [Fixed(SATURATED_1), Fixed(SATURATED_2)] }

  function SaturatedSo(): seq<Piece> {
    [Fixed("so it cannot speak to a "), Fixed("hidden one.")]
  }

  function UncorroboratedWhy(): seq<Piece> { [Fixed(UNCORROBORATED_1), Fixed(UNCORROBORATED_2)] }

  function UncorroboratedSo(): seq<Piece> { [Fixed(UNCORROBORATED_3), Fixed(UNCORROBORATED_4)] }

  function SaturatedLine(channel: Text): Element {
    Line(CouldNot(channel) + SaturatedWhy() + SaturatedSo())
  }

  function UncorroboratedLine(channel: Text): Element {
    Line(CouldNot(channel) + UncorroboratedWhy() + UncorroboratedSo())
  }

  function ListedLine(detail: map<Text, Json>, p: Printer): Element {
    var listed := Lit("listed");
    Line([Fixed("  - "), Fixed("listed modules: "), Code(if listed in detail then StrOf(detail[listed], p) else Lit("?"))])
  }

  function ConsultedLine(detail: map<Text, Json>, p: Printer): Element {
    Line([Fixed("  - "), Fixed("channels consulted: ")]
         + NoneIfEmpty(JoinCodes(StrAll(ItemsOf(detail, Lit("channels_consulted")), p))))
  }

  function UnknownLine(channel: Text, reason: Text): Element {
    Line([Fixed("- "), Code(channel), Fixed(" did not contribute (reason: "), Code(reason), Fixed(").")])
  }

  function KeysLine(detail: map<Text, Json>): Element {
    Line([Fixed("  - "), Fixed("detail keys: ")] + NoneIfEmpty(JoinCodes(SortedTexts(detail.Keys))))
  }

  function NoteElements(n: ChannelNote, p: Printer): seq<Element> {
    if n.reason == Lit("saturated") then
      var explained := FieldsOf(n.detail, Lit("explained_by"));
      [SaturatedLine(n.channel)] + BitLines(SortedTexts(explained.Keys), explained, p)
    else if n.reason == Lit("uncorroborated") then
      [UncorroboratedLine(n.channel), ListedLine(n.detail, p), ConsultedLine(n.detail, p)]
    else
      [UnknownLine(n.channel, n.reason), KeysLine(n.detail)]
  }

  function NotesElements(notes: seq<ChannelNote>, p: Printer): seq<Element> {
    if notes == [] then [] else NotesElements(notes[..|notes| - 1], p) + NoteElements(notes[|notes| - 1], p)
  }

  // ---------------------------------------------------------------------------------------------
  // render_markdown

  const BLANK := Line([])

  function CountOf(fs: seq<Finding>, c: Confidence): nat {
    if fs == [] then 0 else (if fs[0].confidence == c then 1 else 0) + CountOf(fs[1..], c)
  }

  function Verdict(count: Piece, kinds: seq<Piece>): seq<Piece> {
    [count, Fixed(" finding(s) — ")] + kinds + [Fixed(". Investigate.")]
  }

  function VerdictPieces(fs: seq<Finding>): seq<Piece> {
    if fs == [] then [Fixed("No findings.")]
    else Verdict(Raw(Decimal(|fs|)), JoinWords(KindWords(SortedSet(set f | f in fs :: f.kind, KindKey))))
  }

  function TitleLine(h: HostFacts): Element {
    Line([Fixed("# kdetect report — "), Code(h.hostname)])
  }

  function HostLine(h: HostFacts): Element {
    Line([Fixed("**Host:** "), Code(h.hostname), Fixed(" · "), Code(h.kernelRelease), Fixed(" · "), Code(h.arch)])
  }

  function CapturedLine(s: Snapshot): Element {
    var bootId := s.host.bootId;
    Line([Fixed("**Captured:** "), Code(s.capturedAt), Fixed(" · boot "),
          Code(bootId[..if |bootId| < 8 then |bootId| else 8]), Fixed(" · euid "), Raw(Decimal(s.capture.euid))])
  }

  function ToolLine(s: Snapshot): Element {
    Line([Fixed("**Tool:** kdetect "), Code(s.capture.toolVersion), Fixed(" · schema "), Code(s.schemaVersion)])
  }

  function BaselineLine(baseline: Option<Text>): Element {
    Line([Fixed("**Baseline:** "), if baseline.Some? && baseline.value != [] then Code(baseline.value) else Fixed("none")])
  }

  function CountsLine(fs: seq<Finding>): Element {
    Line([Fixed("- "), Fixed("HIGH: "), Raw(Decimal(CountOf(fs, High))), Fixed(" · MEDIUM: "),
          Raw(Decimal(CountOf(fs, Medium))), Fixed(" · LOW: "), Raw(Decimal(CountOf(fs, Low)))])
  }

  function VerdictLine(fs: seq<Finding>): Element {
    Line([Fixed("- "), Fixed("Verdict: ")] + VerdictPieces(fs))
  }

  function SummaryHeading(): Element { Line([Fixed("## Summary")]) }

  function FindingsHeading(): Element { Line([Fixed("## Findings")]) }

  function IocsHeading(): Element { Line([Fixed("## Indicators "), Fixed("of Compromise")]) }

  function NotesHeading(): Element { Line([Fixed("## Channel coverage")]) }

  function NoneLine(): Element { Line([Fixed("None.")]) }

  function HostPart(h: HostFacts): seq<Element> { [TitleLine(h), BLANK, HostLine(h)] }

  function CapturePart(s: Snapshot): seq<Element> { [CapturedLine(s), ToolLine(s)] }

  function SummaryPart(fs: seq<Finding>): seq<Element> { [SummaryHeading(), CountsLine(fs), VerdictLine(fs), BLANK] }

  function FindingsPart(fs: seq<Finding>): seq<Element> {
    [FindingsHeading()] + if fs == [] then [NoneLine()] else []
  }

  function HeaderElements(s: Snapshot, fs: seq<Finding>, baseline: Option<Text>): seq<Element> {
    HostPart(s.host) + CapturePart(s) + [BaselineLine(baseline), BLANK] + SummaryPart(fs) + FindingsPart(fs)
  }

  function FindingHeading(f: Finding): Element {
    Line([Fixed("### ["), Fixed(ConfidenceWord(f.confidence)), Fixed("] "), Fixed(KindWord(f.kind)), Fixed(" — "),
          Code(f.subject)])
  }

  function SeenByLine(f: Finding): Element {
    Line([Fixed("- "), Fixed("Seen by: ")] + JoinWords(ChannelWords(f.channels)))
  }

  function DeniedByLine(f: Finding): Element {
    Line([Fixed("- "), Fixed("Denied by: ")] + JoinWords(DissentWords(f.dissent)))
  }

  function SeenByPart(f: Finding): seq<Element> {
    if f.channels == [] then [] else [SeenByLine(f)]
  }

  function DeniedByPart(f: Finding): seq<Element> {
    if f.dissent == [] then [] else [DeniedByLine(f)]
  }

  /** The lines above a finding's block. */
  function AboveBlock(f: Finding): seq<Element> { [FindingHeading(f)] + SeenByPart(f) + DeniedByPart(f) }

  function FindingWith(f: Finding, body: seq<Text>): seq<Element> {
    AboveBlock(f) + (if body == [] then [] else [Fenced(body)]) + [BLANK]
  }

  function FindingElements(f: Finding, p: Printer): seq<Element> {
    FindingWith(f, FindingBody(f, p))
  }

  function FindingsElements(fs: seq<Finding>, p: Printer): seq<Element> {
    if fs == [] then [] else FindingsElements(fs[..|fs| - 1], p) + FindingElements(fs[|fs| - 1], p)
  }

  function IocElement(i: Ioc): Element {
    Line([Fixed("- "), Fixed(TypeWord(i.type_)), Fixed(": "), Code(i.value), Fixed(" ("),
          Fixed(ConfidenceWord(i.confidence)), Fixed(")")])
  }

  function IocElements(iocs: seq<Ioc>): seq<Element> {
    seq(|iocs|, i requires 0 <= i < |iocs| => IocElement(iocs[i]))
  }

  function IocsPart(iocs: seq<Ioc>): seq<Element> {
    [IocsHeading()] + (if iocs == [] then [NoneLine()] else []) + IocElements(iocs) + [BLANK]
  }

  /** The heading is printed only when there is something to print under it. */
  function NotesPart(lines: seq<Element>): seq<Element> {
    if lines == [] then [] else [NotesHeading(), BLANK] + lines + [BLANK]
  }

  function TailElements(iocs: seq<Ioc>, notes: seq<ChannelNote>, p: Printer): seq<Element> {
    IocsPart(iocs) + NotesPart(NotesElements(notes, p))
  }

  /** The report as lines and fenced blocks. */
  function Document(s: Snapshot, fs: seq<Finding>, iocs: seq<Ioc>, baseline: Option<Text>,
                    notes: seq<ChannelNote>, p: Printer): seq<Element> {
    HeaderElements(s, fs, baseline) + FindingsElements(Ranked(fs), p) + TailElements(iocs, notes, p)
  }

  function RenderMarkdown(s: Snapshot, fs: seq<Finding>, iocs: seq<Ioc>, baseline: Option<Text>,
                          notes: seq<ChannelNote>, p: Printer): Text {
    Join([NEWLINE], Render(Document(s, fs, iocs, baseline, notes, p), p.inv))
  }

  /** The empty line. */
  const EMPTY_LINE: seq<Text> := [[]]

  lemma RenderOne(e: Element, inv: Invisible)
    ensures Render([e], inv) == RenderElement(e, inv)
    ensures Render([BLANK], inv) == EMPTY_LINE
  {
    assert [e][1..] == [] && [BLANK][1..] == [];
    assert RenderElement(e, inv) + [] == RenderElement(e, inv);
    assert RenderElement(BLANK, inv) + [] == EMPTY_LINE;
  }

  lemma RenderAppend(doc: seq<Element>, e: Element, inv: Invisible)
    ensures Render(doc + [e], inv) == Render(doc, inv) + RenderElement(e, inv)
    ensures Render(doc + [BLANK], inv) == Render(doc, inv) + EMPTY_LINE
  {
    RenderOne(e, inv);
    RenderConcat(doc, [e], inv);
    RenderConcat(doc, [BLANK], inv);
  }

  method BuildAbove(f: Finding, inv: Invisible) returns (out: seq<Text>)
    ensures out == Render(AboveBlock(f), inv)
  {
    ghost var doc := [FindingHeading(f)];
    RenderOne(FindingHeading(f), inv);
    out := RenderElement(FindingHeading(f), inv);
    if f.channels != [] {
      RenderAppend(doc, SeenByLine(f), inv);
      out := out + RenderElement(SeenByLine(f), inv);
    }
    assert doc + [] == doc;
    doc := doc + SeenByPart(f);
    assert out == Render(doc, inv);
    if f.dissent != [] {
      RenderAppend(doc, DeniedByLine(f), inv);
      out := out + RenderElement(DeniedByLine(f), inv);
    }
    assert doc + [] == doc;
    assert AboveBlock(f) == doc + DeniedByPart(f);
  }

  /** The block, when it has lines, and the empty line after it. */
  method CloseFinding(above: seq<Text>, body: seq<Text>, ghost doc: seq<Element>, inv: Invisible) returns (out: seq<Text>)
    requires above == Render(doc, inv)
    ensures out == Render(doc + (if body == [] then [] else [Fenced(body)]) + [BLANK], inv)
  {
    out := above;
    if body != [] {
      RenderAppend(doc, Fenced(body), inv);
      out := out + MdBlock(body, inv);
    }
    ghost var block: seq<Element> := if body == [] then [] else [Fenced(body)];
    assert doc + [] == doc;
    assert out == Render(doc + block, inv);
    RenderAppend(doc + block, BLANK, inv);
    out := out + EMPTY_LINE;
  }

  method BuildFinding(f: Finding, p: Printer) returns (out: seq<Text>)
    ensures out == Render(FindingElements(f, p), p.inv)
  {
    var above := BuildAbove(f, p.inv);
    var evidence := RenderEvidence(f, p);
    out := CloseFinding(above, (if f.summary != [] then [f.summary] else []) + evidence, AboveBlock(f), p.inv);
  }

  method BuildFindings(fs: seq<Finding>, p: Printer) returns (out: seq<Text>)
    ensures out == Render(FindingsElements(fs, p), p.inv)
  {
    out := [];
    for i := 0 to |fs|
      invariant out == Render(FindingsElements(fs[..i], p), p.inv)
    {
      assert fs[..i + 1][..i] == fs[..i];
      RenderConcat(FindingsElements(fs[..i], p), FindingElements(fs[i], p), p.inv);
      var lines := BuildFinding(fs[i], p);
      out := out + lines;
    }
    assert fs[..|fs|] == fs;
  }

  lemma IocElementsStep(iocs: seq<Ioc>, i: nat)
    requires i < |iocs|
    ensures IocElements(iocs[..i + 1]) == IocElements(iocs[..i]) + [IocElement(iocs[i])]
  {
  }

  method BuildIocs(iocs: seq<Ioc>, inv: Invisible) returns (out: seq<Text>)
    ensures out == Render(IocsPart(iocs), inv)
  {
    out := RenderElement(IocsHeading(), inv);
    ghost var doc := [IocsHeading()];
    RenderOne(IocsHeading(), inv);
    if iocs == [] {
      out := out + RenderElement(NoneLine(), inv);
      RenderAppend(doc, NoneLine(), inv);
    }
    doc := doc + if iocs == [] then [NoneLine()] else [];
    for i := 0 to |iocs|
      invariant out == Render(doc + IocElements(iocs[..i]), inv)
    {
      IocElementsStep(iocs, i);
      AppendAssoc(doc, IocElements(iocs[..i]), [IocElement(iocs[i])]);
      RenderAppend(doc + IocElements(iocs[..i]), IocElement(iocs[i]), inv);
      out := out + RenderElement(IocElement(iocs[i]), inv);
    }
    assert iocs[..|iocs|] == iocs;
    out := out + EMPTY_LINE;
    RenderAppend(doc + IocElements(iocs), BLANK, inv);
  }

  lemma BitLinesStep(bits: seq<Text>, explained: map<Text, Json>, p: Printer, i: nat)
    requires i < |bits| && forall b :: b in bits ==> b in explained
    ensures BitLines(bits[..i + 1], explained, p) == BitLines(bits[..i], explained, p) + [BitLine(bits[i], explained[bits[i]], p)]
  {
  }

  /** The loop over the explained bits of a saturated channel. */
  method BuildBits(bits: seq<Text>, explained: map<Text, Json>, p: Printer) returns (out: seq<Text>)
    requires forall b :: b in bits ==> b in explained
    ensures out == Render(BitLines(bits, explained, p), p.inv)
  {
    out := [];
    for i := 0 to |bits|
      invariant out == Render(BitLines(bits[..i], explained, p), p.inv)
    {
      BitLinesStep(bits, explained, p, i);
      RenderAppend(BitLines(bits[..i], explained, p), BitLine(bits[i], explained[bits[i]], p), p.inv);
      out := out + RenderElement(BitLine(bits[i], explained[bits[i]], p), p.inv);
    }
    assert bits[..|bits|] == bits;
  }

  method BuildNote(n: ChannelNote, p: Printer) returns (out: seq<Text>)
    ensures out == Render(NoteElements(n, p), p.inv)
  {
    if n.reason == Lit("saturated") {
      var explained := FieldsOf(n.detail, Lit("explained_by"));
      var bits := BuildBits(SortedTexts(explained.Keys), explained, p);
      RenderOne(SaturatedLine(n.channel), p.inv);
      RenderConcat([SaturatedLine(n.channel)], BitLines(SortedTexts(explained.Keys), explained, p), p.inv);
      out := RenderElement(SaturatedLine(n.channel), p.inv) + bits;
    } else {
      out := Render(NoteElements(n, p), p.inv);
    }
  }

  method BuildNotes(notes: seq<ChannelNote>, p: Printer) returns (out: seq<Text>)
    ensures out == Render(NotesElements(notes, p), p.inv)
  {
    out := [];
    for i := 0 to |notes|
      invariant out == Render(NotesElements(notes[..i], p), p.inv)
    {
      assert notes[..i + 1][..i] == notes[..i];
      RenderConcat(NotesElements(notes[..i], p), NoteElements(notes[i], p), p.inv);
      var lines := BuildNote(notes[i], p);
      out := out + lines;
    }
    assert notes[..|notes|] == notes;
  }

  lemma RenderEmpty(doc: seq<Element>, inv: Invisible)
    ensures Render(doc, inv) == [] <==> doc == []
  {
  }

  /** The notes under their heading, which is printed only when there are lines to print. */
  method BuildCoverage(notes: seq<ChannelNote>, p: Printer) returns (out: seq<Text>)
    ensures out == Render(NotesPart(NotesElements(notes, p)), p.inv)
  {
    var lines := BuildNotes(notes, p);
    ghost var doc := NotesElements(notes, p);
    RenderEmpty(doc, p.inv);
    out := [];
    if lines != [] {
      RenderOne(NotesHeading(), p.inv);
      RenderAppend([NotesHeading()], BLANK, p.inv);
      assert [NotesHeading()] + [BLANK] == [NotesHeading(), BLANK];
      RenderConcat([NotesHeading(), BLANK], doc, p.inv);
      RenderAppend([NotesHeading(), BLANK] + doc, BLANK, p.inv);
      out := RenderElement(NotesHeading(), p.inv) + EMPTY_LINE + lines + EMPTY_LINE;
    }
  }

  method BuildMarkdown(s: Snapshot, fs: seq<Finding>, iocs: seq<Ioc>, baseline: Option<Text>,
                       notes: seq<ChannelNote>, p: Printer) returns (text: Text)
    ensures text == RenderMarkdown(s, fs, iocs, baseline, notes, p)
  {
    var out := Render(HeaderElements(s, fs, baseline), p.inv);
    var findings := BuildFindings(Ranked(fs), p);
    out := out + findings;
    var indicators := BuildIocs(iocs, p.inv);
    var coverage := BuildCoverage(notes, p);
    RenderConcat3(HeaderElements(s, fs, baseline), FindingsElements(Ranked(fs), p), TailElements(iocs, notes, p), p.inv);
    RenderConcat(IocsPart(iocs), NotesPart(NotesElements(notes, p)), p.inv);
    AppendAssoc(out, indicators, coverage);
    out := out + indicators + coverage;
    text := Join([NEWLINE], out);
  }

  lemma RenderConcat3(a: seq<Element>, b: seq<Element>, c: seq<Element>, inv: Invisible)
    ensures Render(a + b + c, inv) == Render(a, inv) + Render(b, inv) + Render(c, inv)
    ensures BlocksOf(a + b + c, inv) == BlocksOf(a, inv) + BlocksOf(b, inv) + BlocksOf(c, inv)
  {
    RenderConcat(a + b, c, inv);
    RenderConcat(a, b, inv);
    BlocksOfConcat(a + b, c, inv);
    BlocksOfConcat(a, b, inv);
  }
}
