/** A reader for the two CommonMark 0.31.2 constructs the report relies on, written from the
    specification and not from the program: code spans (section 6.1) and fenced code blocks
    (section 4.5). The report writer is proved against this reader. */
module CommonMark {
  import opened Text

  /** The length of the run of c at the front of s. */
  function LeadingRun(s: Text, c: CodePoint): (n: nat)
    ensures n <= |s|
    ensures forall i :: 0 <= i < n ==> s[i] == c
    ensures n < |s| ==> s[n] != c
  {
    if s == [] || s[0] != c then 0 else 1 + LeadingRun(s[1..], c)
  }

  // ---------------------------------------------------------------------------------------------
  // Section 6.1: code spans

  datatype Inline = Char(c: CodePoint) | Span(content: Text)

  /** Section 2.4: the ASCII punctuation characters a backslash escapes. */
  predicate IsPunctuation(c: CodePoint) {
    0x21 <= c <= 0x2F || 0x3A <= c <= 0x40 || 0x5B <= c <= 0x60 || 0x7B <= c <= 0x7E
  }

  /** How far a scan moves past the front of s: over a whole backtick string, or over one character.
      A backtick string is neither preceded nor followed by a backtick, so it is taken whole. */
  function Step(s: Text): (n: nat)
    requires s != []
    ensures 0 < n <= |s|
  {
    if s[0] == BACKTICK then LeadingRun(s, BACKTICK) else 1
  }

  /** The offset of the first backtick string of exactly n backticks. */
  function FindClose(s: Text, n: nat): (at: Option<nat>)
    ensures at.Some? ==> at.value + n <= |s|
    decreases |s|
  {
    if s == [] then None
    else if s[0] == BACKTICK && Step(s) == n then Some(0)
    else
      match FindClose(s[Step(s)..], n)
      case None => None
      case Some(i) => Some(Step(s) + i)
  }

  /** Line endings inside a code span are converted to spaces. */
  function EndingsToSpaces(s: Text): Text {
    if s == [] then []
    else if s[0] == RETURN && |s| > 1 && s[1] == NEWLINE then [SPACE] + EndingsToSpaces(s[2..])
    else [if s[0] == NEWLINE || s[0] == RETURN then SPACE else s[0]] + EndingsToSpaces(s[1..])
  }

  predicate AllSpaces(s: Text) {
    forall c :: c in s ==> c == SPACE
  }

  /** One space is stripped from both ends when both ends are spaces and the content is not all
      spaces. */
  function Strip(s: Text): Text {
    if |s| >= 2 && s[0] == SPACE && s[|s| - 1] == SPACE && !AllSpaces(s) then s[1..|s| - 1] else s
  }

  function SpanContent(s: Text): Text {
    Strip(EndingsToSpaces(s))
  }

  function Chars(s: Text): (r: seq<Inline>)
    ensures |r| == |s|
    ensures forall i :: 0 <= i < |s| ==> r[i] == Char(s[i])
  {
    seq(|s|, i requires 0 <= i < |s| => Char(s[i]))
  }

  /** What the front of a text is read as, and how much of it that takes: an escaped punctuation
      character, a code span, a backtick string without a matching closer, or a character. */
  function Next(s: Text): (r: (seq<Inline>, nat))
    requires s != []
    ensures 0 < r.1 <= |s|
  {
    if s[0] == BACKSLASH && |s| > 1 && IsPunctuation(s[1]) then ([Char(s[1])], 2)
    else if s[0] != BACKTICK then ([Char(s[0])], 1)
    else
      var n := Step(s);
      match FindClose(s[n..], n)
      case None => (Chars(s[..n]), n)
      case Some(i) => ([Span(SpanContent(s[n..n + i]))], n + i + n)
  }

  /** The inline content of a text, read from left to right. */
  function ScanInline(s: Text): seq<Inline>
    decreases |s|
  {
    if s == [] then [] else Next(s).0 + ScanInline(s[Next(s).1..])
  }

  lemma RunUnique(s: Text, c: CodePoint, n: nat)
    requires n <= |s|
    requires forall i :: 0 <= i < n ==> s[i] == c
    requires n < |s| ==> s[n] != c
    ensures LeadingRun(s, c) == n
  {
  }

  lemma NextSpan(n: nat, body: Text, rest: Text)
    requires n > 0 && body != [] && body[0] != BACKTICK
    requires FindClose(body + Repeat(BACKTICK, n) + rest, n) == Some(|body|)
    ensures Next(Repeat(BACKTICK, n) + body + Repeat(BACKTICK, n) + rest)
         == ([Span(SpanContent(body))], n + |body| + n)
  {
    var fence := Repeat(BACKTICK, n);
    var s := fence + body + fence + rest;
    var after := body + fence + rest;
    AppendAssoc(fence + body, fence, rest);
    AppendAssoc(fence, body, fence + rest);
    AppendAssoc(body, fence, rest);
    TakeFront(fence, after);
    assert s == fence + after;
    RunUnique(s, BACKTICK, n);
    AppendAssoc(body, fence, rest);
    TakeFront(body, fence + rest);
    assert s[n..n + |body|] == s[n..][..|body|];
  }

  // ---------------------------------------------------------------------------------------------
  // Section 4.5: fenced code blocks

  /** An opening fence: the marker, how many of it, its indentation, and its info string. */
  datatype Fence = Fence(mark: CodePoint, length: nat, indent: nat, info: Text)

  datatype Block = Block(info: Text, body: seq<Text>)

  /** The blocks of a document; open when its last block was still open at the end. */
  datatype Scan = Scan(blocks: seq<Block>, open: bool)

  predicate IsBlank(c: CodePoint) {
    c == SPACE || c == TAB
  }

  function TrimBlanks(s: Text): Text
    decreases |s|
  {
    if s != [] && IsBlank(s[0]) then TrimBlanks(s[1..])
    else if s != [] && IsBlank(s[|s| - 1]) then TrimBlanks(s[..|s| - 1])
    else s
  }

  /** The fence a line opens in its own right. */
  function OpenFence(line: Text): Option<Fence> {
    var indent := LeadingRun(line, SPACE);
    var rest := line[indent..];
    if indent > 3 || rest == [] || (rest[0] != BACKTICK && rest[0] != TILDE) then None
    else
      var n := LeadingRun(rest, rest[0]);
      var info := rest[n..];
      if n < 3 || (rest[0] == BACKTICK && BACKTICK in info) then None
      else Some(Fence(rest[0], n, indent, TrimBlanks(info)))
  }

  /** Bullet list markers (section 5.2). */
  predicate IsBullet(c: CodePoint) {
    c == DASH || c == 0x2A || c == 0x2B
  }

  /** The fence a line opens, in its own right or as the content of list items it starts. */
  function Opens(line: Text): Option<Fence>
    decreases |line|
  {
    var indent := LeadingRun(line, SPACE);
    if OpenFence(line).Some? then OpenFence(line)
    else if indent + 2 <= |line| && IsBullet(line[indent]) && line[indent + 1] == SPACE then
      Opens(line[indent + 2..])
    else None
  }

  predicate Closes(line: Text, f: Fence) {
    var indent := LeadingRun(line, SPACE);
    var run := LeadingRun(line[indent..], f.mark);
    indent <= 3 && run >= f.length && run > 0 && forall c :: c in line[indent + run..] ==> IsBlank(c)
  }

  /** A content line loses as much indentation as the opening fence had. */
  function Content(line: Text, f: Fence): Text {
    var indent := LeadingRun(line, SPACE);
    line[if indent < f.indent then indent else f.indent..]
  }

  function ScanBlocks(lines: seq<Text>): Scan
    decreases |lines|, 1
  {
    if lines == [] then Scan([], false)
    else
      match Opens(lines[0])
      case None => ScanBlocks(lines[1..])
      case Some(f) => ScanInside(lines[1..], f, [])
  }

  function ScanInside(lines: seq<Text>, f: Fence, body: seq<Text>): Scan
    decreases |lines|, 0
  {
    if lines == [] then Scan([Block(f.info, body)], true)
    else if Closes(lines[0], f) then
      var rest := ScanBlocks(lines[1..]);
      Scan([Block(f.info, body)] + rest.blocks, rest.open)
    else ScanInside(lines[1..], f, body + [Content(lines[0], f)])
  }

  // ---------------------------------------------------------------------------------------------
  // Section 2.1: lines

  predicate IsLineEnding(c: CodePoint) {
    c == NEWLINE || c == RETURN
  }

  predicate OneLine(s: Text) {
    forall c :: c in s ==> !IsLineEnding(c)
  }

  /** The lines of a document; an ending is a newline, a carriage return, or the two together. */
  function Lines(s: Text): (r: seq<Text>)
    ensures |r| > 0
    decreases |s|
  {
    if s == [] then [[]]
    else if s[0] == RETURN && |s| > 1 && s[1] == NEWLINE then [[]] + Lines(s[2..])
    else if IsLineEnding(s[0]) then [[]] + Lines(s[1..])
    else var rest := Lines(s[1..]); [[s[0]] + rest[0]] + rest[1..]
  }

  lemma {:induction false} LinesOfLine(a: Text, rest: Text)
    requires OneLine(a)
    ensures Lines(a + rest) == [a + Lines(rest)[0]] + Lines(rest)[1..]
  {
    if a == [] {
      assert a + rest == rest && a + Lines(rest)[0] == Lines(rest)[0];
    } else {
      assert a[0] in a;
      assert forall c :: c in a[1..] ==> c in a;
      assert (a + rest)[1..] == a[1..] + rest;
      LinesOfLine(a[1..], rest);
      assert [a[0]] + (a[1..] + Lines(rest)[0]) == a + Lines(rest)[0];
    }
  }

  /** Joining lines with newlines is undone by reading the lines back. */
  lemma LinesOfNewline(rest: Text)
    ensures Lines([NEWLINE] + rest) == [[]] + Lines(rest)
  {
    assert ([NEWLINE] + rest)[1..] == rest;
  }

  lemma {:induction false} LinesOfJoin(lines: seq<Text>)
    requires lines != []
    requires forall l :: l in lines ==> OneLine(l)
    ensures Lines(Join([NEWLINE], lines)) == lines
  {
    assert lines[0] in lines;
    if |lines| == 1 {
      LinesOfLine(lines[0], []);
      assert lines[0] + [] == lines[0];
    } else {
      var tail := Join([NEWLINE], lines[1..]);
      assert forall l :: l in lines[1..] ==> l in lines;
      LinesOfJoin(lines[1..]);
      LinesOfLine(lines[0], [NEWLINE] + tail);
      LinesOfNewline(tail);
      AppendAssoc(lines[0], [NEWLINE], tail);
      assert lines[0] + [] == lines[0];
    }
  }

  /** Lines that open nothing are invisible to the block scan. */
  lemma {:induction false} ScanSkips(plain: seq<Text>, rest: seq<Text>)
    requires forall l :: l in plain ==> Opens(l).None?
    ensures ScanBlocks(plain + rest) == ScanBlocks(rest)
  {
    if plain == [] {
      assert plain + rest == rest;
    } else {
      assert plain[0] in plain;
      assert forall l :: l in plain[1..] ==> l in plain;
      assert (plain + rest)[1..] == plain[1..] + rest;
      ScanSkips(plain[1..], rest);
    }
  }

  lemma ScanOpens(line: Text, rest: seq<Text>, f: Fence)
    requires Opens(line) == Some(f)
    ensures ScanBlocks([line] + rest) == ScanInside(rest, f, [])
  {
    assert ([line] + rest)[1..] == rest;
  }

  /** Inside an unindented fence, lines that do not close it are its body, unchanged. */
  lemma {:induction false} ScanCollects(body: seq<Text>, close: Text, rest: seq<Text>, f: Fence, acc: seq<Text>)
    requires f.indent == 0
    requires forall l :: l in body ==> !Closes(l, f)
    requires Closes(close, f)
    ensures ScanInside(body + [close] + rest, f, acc)
         == Scan([Block(f.info, acc + body)] + ScanBlocks(rest).blocks, ScanBlocks(rest).open)
  {
    var lines := body + [close] + rest;
    if body == [] {
      assert lines[1..] == rest;
      assert acc + body == acc;
    } else {
      assert body[0] in body;
      assert forall l :: l in body[1..] ==> l in body;
      assert lines[1..] == body[1..] + [close] + rest;
      assert acc + [body[0]] + body[1..] == acc + body;
      ScanCollects(body[1..], close, rest, f, acc + [body[0]]);
    }
  }

  /** A whole unindented fenced block. */
  lemma ScanFenced(open: Text, body: seq<Text>, close: Text, rest: seq<Text>, f: Fence)
    requires Opens(open) == Some(f) && f.indent == 0
    requires forall l :: l in body ==> !Closes(l, f)
    requires Closes(close, f)
    ensures ScanBlocks([open] + body + [close] + rest)
         == Scan([Block(f.info, body)] + ScanBlocks(rest).blocks, ScanBlocks(rest).open)
  {
    var inside := body + [close] + rest;
    assert [open] + body + [close] + rest == [open] + inside;
    ScanOpens(open, inside, f);
    ScanCollects(body, close, rest, f, []);
    assert [] + body == body;
  }
}
