/** parsers/procfs.py: /proc/[pid]/stat, cmdline and status. */
module ProcfsParsers {
  import opened Text
  import opened Strings

  datatype StatFields = StatFields(
    pid: int, comm: Text, state: Text, ppid: int, flags: int, numThreads: int, starttime: int)

  datatype StatusFields = StatusFields(uid: seq<int>, gid: seq<int>, tgid: int, name: Option<Text>)

  const OPEN: CodePoint := 0x28
  const CLOSE: CodePoint := 0x29
  const COLON: CodePoint := 0x3A
  const NUL: CodePoint := 0

  /** int(t): surrounding whitespace is allowed; None where it raises. */
  function IntOf(t: Text): Option<int> {
    ParseInt(Strip(t))
  }

  /** The fields, from the text before the comm, the comm, and the tokens after it. */
  function FieldsFrom(pidText: Text, comm: Text, rest: seq<Text>): Option<StatFields> {
    if |rest| < 20 then None
    else
      var pid, ppid, flags := IntOf(pidText), IntOf(rest[1]), IntOf(rest[6]);
      var threads, start := IntOf(rest[17]), IntOf(rest[19]);
      if pid.None? || ppid.None? || flags.None? || threads.None? || start.None? then None
      else Some(StatFields(pid.value, comm, rest[0], ppid.value, flags.value, threads.value, start.value))
  }

  /** The text before the first '(', the text up to the last ')', and the text after it. */
  function CutStat(t: Text): Option<(Text, Text, Text)> {
    var open, close := Find(t, OPEN), RFind(t, CLOSE);
    if open.None? || close.None? || close.value < open.value then None
    else Some((t[..open.value], t[open.value + 1..close.value], t[close.value + 1..]))
  }

  /** None where parse_stat raises ParseError. */
  function ParseStat(text: Text): Option<StatFields> {
    match CutStat(RStrip(text))
    case None => None
    case Some((before, comm, after)) => FieldsFrom(Strip(before), comm, Split(after))
  }

  // ---------------------------------------------------------------------------------------------
  // The stat line round trip

  function Decimals(ns: seq<int>): (r: seq<Text>)
    ensures |r| == |ns| && forall i :: 0 <= i < |ns| ==> r[i] == Decimal(ns[i])
  {
    seq(|ns|, i requires 0 <= i < |ns| => Decimal(ns[i]))
  }

  /** A stat line as the kernel prints it: pid, (comm), state, then integers. */
  function StatLine(pid: int, comm: Text, state: Text, fields: seq<int>): Text {
    (Decimal(pid) + [SPACE]) + [OPEN] + comm + [CLOSE] + StatTail(state, fields)
  }

  lemma DecimalToken(n: int)
    ensures Decimal(n) != [] && NoSpace(Decimal(n))
    ensures OPEN !in Decimal(n) && CLOSE !in Decimal(n)
    ensures Strip(Decimal(n)) == Decimal(n)
    ensures IntOf(Decimal(n)) == Some(n)
  {
    DecimalChars(n);
    forall i | 0 <= i < |Decimal(n)| ensures !IsSpace(Decimal(n)[i]) {
      assert Decimal(n)[i] in Decimal(n);
    }
    DecimalRoundTrip(n);
  }

  lemma {:induction false} JoinExcludes(toks: seq<Text>, c: CodePoint)
    requires c != SPACE && forall i :: 0 <= i < |toks| ==> c !in toks[i]
    ensures c !in Join([SPACE], toks)
  {
    if |toks| > 1 {
      JoinExcludes(toks[1..], c);
    }
  }

  lemma {:induction false} JoinEnds(toks: seq<Text>)
    requires Tokens(toks) && toks != []
    ensures Join([SPACE], toks) != []
    ensures !IsSpace(Join([SPACE], toks)[|Join([SPACE], toks)| - 1])
  {
    if |toks| > 1 {
      JoinEnds(toks[1..]);
    }
  }

  lemma TokensOf(state: Text, fields: seq<int>)
    requires state != [] && NoSpace(state) && CLOSE !in state
    ensures Tokens([state] + Decimals(fields))
    ensures CLOSE !in Join([SPACE], [state] + Decimals(fields))
  {
    var toks := [state] + Decimals(fields);
    forall i | 0 <= i < |toks| ensures toks[i] != [] && NoSpace(toks[i]) && CLOSE !in toks[i] {
      if i > 0 {
        DecimalToken(fields[i - 1]);
      }
    }
    JoinExcludes(toks, CLOSE);
  }

  /** The integers after comm, as the kernel prints them after the closing parenthesis. */
  function StatTail(state: Text, fields: seq<int>): Text {
    [SPACE] + Join([SPACE], [state] + Decimals(fields))
  }

  lemma ThreeParts(a: Text, b: Text, c: Text)
    ensures (a + [OPEN] + b + [CLOSE] + c)[..|a|] == a
    ensures (a + [OPEN] + b + [CLOSE] + c)[|a| + 1..|a| + 1 + |b|] == b
    ensures (a + [OPEN] + b + [CLOSE] + c)[|a| + 2 + |b|..] == c
  {
  }

  /** The parser cuts at the parentheses around the comm, not at any inside it. */
  lemma CutAtComm(head: Text, comm: Text, tail: Text)
    requires OPEN !in head && CLOSE !in tail
    ensures CutStat(head + [OPEN] + comm + [CLOSE] + tail) == Some((head, comm, tail))
  {
    FindFirst(head, OPEN, comm + [CLOSE] + tail);
    AppendAssoc(head + [OPEN] + comm, [CLOSE], tail);
    AppendAssoc(head + [OPEN], comm, [CLOSE] + tail);
    AppendAssoc(comm, [CLOSE], tail);
    RFindLast(head + [OPEN] + comm, CLOSE, tail);
    ThreeParts(head, comm, tail);
  }

  lemma StatEnds(pid: int, comm: Text, state: Text, fields: seq<int>)
    requires state != [] && NoSpace(state) && CLOSE !in state
    ensures var t := StatLine(pid, comm, state, fields); t != [] && !IsSpace(t[|t| - 1])
  {
    var toks := [state] + Decimals(fields);
    TokensOf(state, fields);
    JoinEnds(toks);
    var t, joined := StatLine(pid, comm, state, fields), Join([SPACE], toks);
    assert t[|t| - 1] == joined[|joined| - 1];
  }

  lemma StatTailSplits(state: Text, fields: seq<int>)
    requires state != [] && NoSpace(state) && CLOSE !in state
    ensures Split(StatTail(state, fields)) == [state] + Decimals(fields)
  {
    TokensOf(state, fields);
    SplitSpace(SPACE, Join([SPACE], [state] + Decimals(fields)));
    SplitJoin([state] + Decimals(fields));
  }

  lemma FieldsFromPrinted(pid: int, comm: Text, state: Text, fields: seq<int>)
    requires |fields| >= 19
    ensures FieldsFrom(Decimal(pid), comm, [state] + Decimals(fields))
         == Some(StatFields(pid, comm, state, fields[0], fields[5], fields[16], fields[18]))
  {
    DecimalToken(pid);
    DecimalToken(fields[0]);
    DecimalToken(fields[5]);
    DecimalToken(fields[16]);
    DecimalToken(fields[18]);
  }

  /** A printed stat line is read back exactly, whatever characters the comm contains, with or without
      trailing whitespace. */
  lemma StatRoundTrip(pid: int, comm: Text, state: Text, fields: seq<int>, ws: Text)
    requires state != [] && NoSpace(state) && CLOSE !in state
    requires |fields| >= 19 && AllSpace(ws)
    ensures ParseStat(StatLine(pid, comm, state, fields) + ws)
         == Some(StatFields(pid, comm, state, fields[0], fields[5], fields[16], fields[18]))
  {
    StatEnds(pid, comm, state, fields);
    RStripTrailing(StatLine(pid, comm, state, fields), ws);
    DecimalToken(pid);
    TokensOf(state, fields);
    CutAtComm(Decimal(pid) + [SPACE], comm, StatTail(state, fields));
    RStripTrailing(Decimal(pid), [SPACE]);
    StatTailSplits(state, fields);
    FieldsFromPrinted(pid, comm, state, fields);
  }

  // ---------------------------------------------------------------------------------------------
  // cmdline

  /** The parts between NULs, without the empty ones. */
  function ParseCmdline(text: Text): seq<Text> {
    if text == [] then []
    else
      match Find(text, NUL)
      case None => [text]
      case Some(i) => (if i == 0 then [] else [text[..i]]) + ParseCmdline(text[i + 1..])
  }

  function CmdlineText(args: seq<Text>): Text {
    if args == [] then [] else args[0] + [NUL] + CmdlineText(args[1..])
  }

  /** Arguments without NULs are read back, except empty ones, which are dropped. */
  lemma {:induction false} CmdlineRoundTrip(args: seq<Text>)
    requires forall i :: 0 <= i < |args| ==> NUL !in args[i]
    ensures ParseCmdline(CmdlineText(args)) == NotEmpty(args)
  {
    if args != [] {
      var t := CmdlineText(args);
      FindFirst(args[0], NUL, CmdlineText(args[1..]));
      assert t[..|args[0]|] == args[0] && t[|args[0]| + 1..] == CmdlineText(args[1..]);
      CmdlineRoundTrip(args[1..]);
    }
  }

  function NotEmpty(args: seq<Text>): seq<Text> {
    if args == [] then [] else (if args[0] == [] then [] else [args[0]]) + NotEmpty(args[1..])
  }

  // ---------------------------------------------------------------------------------------------
  // status

  /** [int(v) for v in tokens]; None where some token is not a number. */
  function Ints(toks: seq<Text>): Option<seq<int>> {
    if toks == [] then Some([])
    else
      var rest := Ints(toks[..|toks| - 1]);
      var last := IntOf(toks[|toks| - 1]);
      if rest.None? || last.None? then None else Some(rest.value + [last.value])
  }

  /** What the lines read so far set; bad once a line held a value that is not a number. */
  datatype StatusState = StatusState(
    uid: Option<seq<int>>, gid: Option<seq<int>>, tgid: Option<int>, name: Option<Text>, bad: bool)

  function StatusStep(st: StatusState, line: Text): StatusState {
    match Find(line, COLON)
    case None => st
    case Some(i) =>
      var key, value := line[..i], line[i + 1..];
      if key == UID then (var v := Ints(Split(value)); st.(uid := v, bad := st.bad || v.None?))
      else if key == GID then (var v := Ints(Split(value)); st.(gid := v, bad := st.bad || v.None?))
      else if key == TGID then (var v := IntOf(Strip(value)); st.(tgid := v, bad := st.bad || v.None?))
      else if key == NAME then st.(name := Some(Strip(value)))
      else st
  }

  function StatusOf(lines: seq<Text>): StatusState {
    if lines == [] then StatusState(None, None, None, None, false)
    else StatusStep(StatusOf(lines[..|lines| - 1]), lines[|lines| - 1])
  }

  /** None where parse_status raises ParseError. */
  function ParseStatus(text: Text): Option<StatusFields> {
    var st := StatusOf(SplitLines(text));
    if st.bad || st.uid.None? || st.gid.None? || st.tgid.None? then None
    else Some(StatusFields(st.uid.value, st.gid.value, st.tgid.value, st.name))
  }

  method ReadStatus(text: Text) returns (r: Option<StatusFields>)
    ensures r == ParseStatus(text)
  {
    var uid: Option<seq<int>>, gid: Option<seq<int>> := None, None;
    var tgid: Option<int>, name: Option<Text> := None, None;
    var lines := SplitLines(text);
    for i := 0 to |lines|
      invariant StatusState(uid, gid, tgid, name, false) == StatusOf(lines[..i])
    {
      assert lines[..i + 1][..i] == lines[..i];
      var st := StatusStep(StatusState(uid, gid, tgid, name, false), lines[i]);
      if st.bad {
        BadStays(lines, i + 1);
        return None;
      }
      uid, gid, tgid, name := st.uid, st.gid, st.tgid, st.name;
    }
    assert lines[..|lines|] == lines;
    if uid.None? || gid.None? || tgid.None? {
      return None;
    }
    r := Some(StatusFields(uid.value, gid.value, tgid.value, name));
  }

  /** A line that is not a number makes the whole file unparseable, whatever follows. */
  lemma {:induction false} BadStays(lines: seq<Text>, k: nat)
    requires k <= |lines| && StatusOf(lines[..k]).bad
    ensures StatusOf(lines).bad
    decreases |lines|
  {
    if k == |lines| {
      assert lines[..k] == lines;
    } else {
      assert lines[..|lines| - 1][..k] == lines[..k];
      BadStays(lines[..|lines| - 1], k);
    }
  }

  // ---------------------------------------------------------------------------------------------
  // The status file the kernel prints

  const UID: Text := Lit("Uid")
  const GID: Text := Lit("Gid")
  const TGID: Text := Lit("Tgid")
  const NAME: Text := Lit("Name")

  /** A line of some other key, or of none. */
  predicate Irrelevant(line: Text) {
    match Find(line, COLON)
    case None => true
    case Some(i) => line[..i] != UID && line[..i] != GID && line[..i] != TGID && line[..i] != NAME
  }

  /** One line of a status file: a name, the other three with their numbers spaced in any way, or a
      line of another key. */
  datatype StatusEntry =
    | NameEntry(value: Text)
    | TgidEntry(before: Text, tgid: int, after: Text)
    | UidEntry(ids: seq<int>, gaps: seq<Text>)
    | GidEntry(ids: seq<int>, gaps: seq<Text>)
    | OtherEntry(line: Text)

  predicate ValidIds(ids: seq<int>, gaps: seq<Text>) {
    Gaps(gaps, |ids|) && NoBreaks(gaps)
  }

  predicate ValidEntry(e: StatusEntry) {
    match e
    case NameEntry(value) => NoBreak(value)
    case TgidEntry(before, _, after) => AllSpace(before) && AllSpace(after) && NoBreak(before) && NoBreak(after)
    case UidEntry(ids, gaps) => ValidIds(ids, gaps)
    case GidEntry(ids, gaps) => ValidIds(ids, gaps)
    case OtherEntry(line) => Irrelevant(line) && NoBreak(line)
  }

  function StatusLine(key: Text, value: Text): Text {
    key + [COLON] + value
  }

  function PrintEntry(e: StatusEntry): Text
    requires ValidEntry(e)
  {
    match e
    case NameEntry(value) => StatusLine(NAME, value)
    case TgidEntry(before, tgid, after) => StatusLine(TGID, before + Decimal(tgid) + after)
    case UidEntry(ids, gaps) => StatusLine(UID, Spaced(Decimals(ids), gaps))
    case GidEntry(ids, gaps) => StatusLine(GID, Spaced(Decimals(ids), gaps))
    case OtherEntry(line) => line
  }

  predicate ValidEntries(es: seq<StatusEntry>) {
    forall i :: 0 <= i < |es| ==> ValidEntry(es[i])
  }

  function PrintEntries(es: seq<StatusEntry>): (r: seq<Text>)
    requires ValidEntries(es)
    ensures |r| == |es| && forall i :: 0 <= i < |es| ==> r[i] == PrintEntry(es[i])
  {
    seq(|es|, i requires 0 <= i < |es| => PrintEntry(es[i]))
  }

  function LastUid(es: seq<StatusEntry>): Option<seq<int>> {
    if es == [] then None
    else if es[|es| - 1].UidEntry? then Some(es[|es| - 1].ids)
    else LastUid(es[..|es| - 1])
  }

  function LastGid(es: seq<StatusEntry>): Option<seq<int>> {
    if es == [] then None
    else if es[|es| - 1].GidEntry? then Some(es[|es| - 1].ids)
    else LastGid(es[..|es| - 1])
  }

  function LastTgid(es: seq<StatusEntry>): Option<int> {
    if es == [] then None
    else if es[|es| - 1].TgidEntry? then Some(es[|es| - 1].tgid)
    else LastTgid(es[..|es| - 1])
  }

  function LastName(es: seq<StatusEntry>): Option<Text> {
    if es == [] then None
    else if es[|es| - 1].NameEntry? then Some(Strip(es[|es| - 1].value))
    else LastName(es[..|es| - 1])
  }

  lemma StatusAppend(lines: seq<Text>, line: Text)
    ensures StatusOf(lines + [line]) == StatusStep(StatusOf(lines), line)
  {
    assert (lines + [line])[..|lines|] == lines;
  }

  lemma LineParts(key: Text, value: Text)
    requires COLON !in key
    ensures Find(StatusLine(key, value), COLON) == Some(|key|)
    ensures StatusLine(key, value)[..|key|] == key && StatusLine(key, value)[|key| + 1..] == value
  {
    FindFirst(key, COLON, value);
    AppendAssoc(key, [COLON], value);
    TakeFront(key, [COLON] + value);
    TakeFront(key + [COLON], value);
  }

  lemma IntsAppend(toks: seq<Text>, front: seq<int>, last: int)
    requires toks != [] && toks[|toks| - 1] == Decimal(last) && Ints(toks[..|toks| - 1]) == Some(front)
    ensures Ints(toks) == Some(front + [last])
  {
    DecimalToken(last);
  }

  lemma DecimalsFront(ids: seq<int>)
    requires ids != []
    ensures var n := |ids| - 1;
      Decimals(ids)[..n] == Decimals(ids[..n]) && Decimals(ids)[n] == Decimal(ids[n]) && ids == ids[..n] + [ids[n]]
  {
  }

  lemma {:induction false} IntsOfDecimals(ids: seq<int>)
    ensures Ints(Decimals(ids)) == Some(ids)
  {
    if ids != [] {
      var n := |ids| - 1;
      IntsOfDecimals(ids[..n]);
      DecimalsFront(ids);
      IntsAppend(Decimals(ids), ids[..n], ids[n]);
    }
  }

  lemma DecimalsAreTokens(ids: seq<int>)
    ensures Tokens(Decimals(ids))
  {
    forall i | 0 <= i < |ids| ensures Decimals(ids)[i] != [] && NoSpace(Decimals(ids)[i]) {
      DecimalToken(ids[i]);
    }
  }

  lemma IdsRoundTrip(ids: seq<int>, gaps: seq<Text>)
    requires ValidIds(ids, gaps)
    ensures Ints(Split(Spaced(Decimals(ids), gaps))) == Some(ids)
  {
    DecimalsAreTokens(ids);
    SplitSpaced(Decimals(ids), gaps);
    IntsOfDecimals(ids);
  }

  lemma TgidRoundTrip(before: Text, tgid: int, after: Text)
    requires AllSpace(before) && AllSpace(after)
    ensures IntOf(Strip(before + Decimal(tgid) + after)) == Some(tgid)
  {
    DecimalToken(tgid);
    StripAround(before, Decimal(tgid), after);
  }

  lemma KeysDiffer()
    ensures COLON !in UID && COLON !in GID && COLON !in TGID && COLON !in NAME
    ensures UID != GID && UID != TGID && UID != NAME && GID != TGID && GID != NAME && TGID != NAME
    ensures NoBreak(UID) && NoBreak(GID) && NoBreak(TGID) && NoBreak(NAME)
  {
    assert UID[0] == 'U' as int && GID[0] == 'G' as int && TGID[0] == 'T' as int && NAME[0] == 'N' as int;
  }

  /** What a printed line does to the fields read so far. */
  lemma EntryStep(st: StatusState, e: StatusEntry)
    requires ValidEntry(e)
    ensures StatusStep(st, PrintEntry(e))
         == match e
            case NameEntry(value) => st.(name := Some(Strip(value)))
            case TgidEntry(_, tgid, _) => st.(tgid := Some(tgid))
            case UidEntry(ids, _) => st.(uid := Some(ids))
            case GidEntry(ids, _) => st.(gid := Some(ids))
            case OtherEntry(_) => st
  {
    KeysDiffer();
    match e
    case NameEntry(value) =>
      LineParts(NAME, value);
    case TgidEntry(before, tgid, after) =>
      LineParts(TGID, before + Decimal(tgid) + after);
      TgidRoundTrip(before, tgid, after);
    case UidEntry(ids, gaps) =>
      LineParts(UID, Spaced(Decimals(ids), gaps));
      IdsRoundTrip(ids, gaps);
    case GidEntry(ids, gaps) =>
      LineParts(GID, Spaced(Decimals(ids), gaps));
      IdsRoundTrip(ids, gaps);
    case OtherEntry(_) =>
  }

  lemma {:induction false} EntriesRead(es: seq<StatusEntry>)
    requires ValidEntries(es)
    ensures StatusOf(PrintEntries(es)) == StatusState(LastUid(es), LastGid(es), LastTgid(es), LastName(es), false)
  {
    if es != [] {
      var n := |es| - 1;
      EntriesRead(es[..n]);
      assert PrintEntries(es) == PrintEntries(es[..n]) + [PrintEntry(es[n])];
      StatusAppend(PrintEntries(es[..n]), PrintEntry(es[n]));
      EntryStep(StatusOf(PrintEntries(es[..n])), es[n]);
    }
  }

  lemma LineNoBreak(key: Text, value: Text)
    requires NoBreak(key) && NoBreak(value)
    ensures NoBreak(StatusLine(key, value))
  {
    NoBreakConcat(key, [COLON]);
    NoBreakConcat(key + [COLON], value);
  }

  lemma EntryNoBreak(e: StatusEntry)
    requires ValidEntry(e)
    ensures NoBreak(PrintEntry(e))
  {
    KeysDiffer();
    match e
    case NameEntry(value) =>
      LineNoBreak(NAME, value);
    case TgidEntry(before, tgid, after) =>
      DecimalToken(tgid);
      TokenNoBreak(Decimal(tgid));
      NoBreakConcat(before, Decimal(tgid));
      NoBreakConcat(before + Decimal(tgid), after);
      LineNoBreak(TGID, before + Decimal(tgid) + after);
    case UidEntry(ids, gaps) =>
      DecimalsAreTokens(ids);
      SpacedNoBreak(Decimals(ids), gaps);
      LineNoBreak(UID, Spaced(Decimals(ids), gaps));
    case GidEntry(ids, gaps) =>
      DecimalsAreTokens(ids);
      SpacedNoBreak(Decimals(ids), gaps);
      LineNoBreak(GID, Spaced(Decimals(ids), gaps));
    case OtherEntry(_) =>
  }

  /** The text of a status file is read back: each field is that of the last line with its key,
      whatever whitespace stands around its numbers and whatever other lines there are; without a Uid,
      a Gid or a Tgid line it is refused. */
  lemma StatusRoundTrip(es: seq<StatusEntry>)
    requires ValidEntries(es)
    ensures ParseStatus(Unlines(PrintEntries(es)))
         == if LastUid(es).None? || LastGid(es).None? || LastTgid(es).None? then None
            else Some(StatusFields(LastUid(es).value, LastGid(es).value, LastTgid(es).value, LastName(es)))
  {
    forall i | 0 <= i < |es| ensures NoBreak(PrintEntries(es)[i]) {
      EntryNoBreak(es[i]);
    }
    SplitUnlines(PrintEntries(es));
    EntriesRead(es);
  }

  /** A name that neither starts nor ends with whitespace is read back from behind the kernel's tab. */
  lemma NameKept(name: Text)
    requires name != [] && !IsSpace(name[0]) && !IsSpace(name[|name| - 1])
    ensures LastName([NameEntry([TAB] + name)]) == Some(name)
  {
    StripAround([TAB], name, []);
    assert [TAB] + name + [] == [TAB] + name;
  }
}
