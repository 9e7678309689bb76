/** reporting/escape.py: making untrusted strings safe to show.

    The Unicode category tables are a parameter: `Invisible` is any classification of code points
    under which printable ASCII is visible. */
module Escape {
  import opened Text
  import opened CommonMark

  /** Membership of a code point in the categories shown as escapes (Cc, Cf, Cs, Zl, Zp). */
  type Invisible = f: CodePoint -> bool | forall c: CodePoint :: 0x20 <= c <= 0x7E ==> !f(c)
    witness (c: CodePoint) => false

  // ---------------------------------------------------------------------------------------------
  // printable

  /** f"{n:0{width}x}": at least width hexadecimal digits. */
  function PadHex(n: nat, width: nat): Text {
    var digits := Digits(n, 16);
    Repeat(0x30, if |digits| < width then width - |digits| else 0) + digits
  }

  function EscapeChar(c: CodePoint, inv: Invisible): Text {
    if c == NEWLINE then Lit("\\n")
    else if c == RETURN then Lit("\\r")
    else if c == TAB then Lit("\\t")
    else if c == BACKSLASH then Lit("\\\\")
    else if inv(c) then
      if c < 0x100 then Lit("\\x") + PadHex(c, 2)
      else if c < 0x10000 then Lit("\\u") + PadHex(c, 4)
      else Lit("\\U") + PadHex(c, 8)
    else [c]
  }

  function Printable(s: Text, inv: Invisible): Text {
    if s == [] then [] else EscapeChar(s[0], inv) + Printable(s[1..], inv)
  }

  lemma {:induction false} PrintableDistributes(a: Text, b: Text, inv: Invisible)
    ensures Printable(a + b, inv) == Printable(a, inv) + Printable(b, inv)
  {
    if a == [] {
      assert a + b == b;
    } else {
      assert (a + b)[1..] == a[1..] + b;
      PrintableDistributes(a[1..], b, inv);
    }
  }

  lemma PrintableStep(s: Text, i: nat, inv: Invisible)
    requires i < |s|
    ensures Printable(s[..i + 1], inv) == Printable(s[..i], inv) + EscapeChar(s[i], inv)
  {
    assert s[..i + 1] == s[..i] + [s[i]];
    PrintableDistributes(s[..i], [s[i]], inv);
  }

  method MakePrintable(s: Text, inv: Invisible) returns (r: Text)
    ensures r == Printable(s, inv)
  {
    var out: seq<Text> := [];
    for i := 0 to |s|
      invariant Concat(out) == Printable(s[..i], inv)
    {
      PrintableStep(s, i, inv);
      ConcatAppend(out, [EscapeChar(s[i], inv)]);
      out := out + [EscapeChar(s[i], inv)];
    }
    r := Concat(out);
    assert s[..|s|] == s;
  }

  // ---------------------------------------------------------------------------------------------
  // printable loses nothing

  function Prepend(c: CodePoint, t: Option<Text>): Option<Text> {
    match t case None => None case Some(s) => Some([c] + s)
  }

  /** Reads one fixed-width hexadecimal escape and continues. */
  function UnescapeHex(t: Text, width: nat): Option<Text>
    decreases |t|, 0
  {
    if |t| < width then None
    else
      match DigitsValue(t[..width], 16)
      case None => None
      case Some(v) => if v >= 0x110000 || width == 0 then None else Prepend(v, Unescape(t[width..]))
  }

  /** The inverse of Printable: what the escapes stand for. */
  function Unescape(t: Text): Option<Text>
    decreases |t|, 1
  {
    if t == [] then Some([])
    else if t[0] != BACKSLASH then Prepend(t[0], Unescape(t[1..]))
    else if |t| < 2 then None
    else if t[1] == 'n' as int then Prepend(NEWLINE, Unescape(t[2..]))
    else if t[1] == 'r' as int then Prepend(RETURN, Unescape(t[2..]))
    else if t[1] == 't' as int then Prepend(TAB, Unescape(t[2..]))
    else if t[1] == BACKSLASH then Prepend(BACKSLASH, Unescape(t[2..]))
    else if t[1] == 'x' as int then UnescapeHex(t[2..], 2)
    else if t[1] == 'u' as int then UnescapeHex(t[2..], 4)
    else if t[1] == 'U' as int then UnescapeHex(t[2..], 8)
    else None
  }

  lemma {:induction false} HexLength(n: nat, w: nat)
    requires w > 0 && n < Pow16(w)
    ensures |Digits(n, 16)| <= w
  {
    if n >= 16 {
      assert w > 1;
      HexLength(n / 16, w - 1);
    }
  }

  lemma {:induction false} ZerosValue(k: nat, t: Text)
    ensures DigitsValue(Repeat(0x30, k) + t, 16) == DigitsValue(t, 16)
    decreases k + |t|
  {
    var u := Repeat(0x30, k) + t;
    if t != [] {
      assert u[..|u| - 1] == Repeat(0x30, k) + t[..|t| - 1];
      ZerosValue(k, t[..|t| - 1]);
    } else if k > 0 {
      assert u[..|u| - 1] == Repeat(0x30, k - 1) + [];
      ZerosValue(k - 1, []);
    }
  }

  /** The padded form has exactly the width asked for when the number fits it, and keeps its value. */
  lemma PadHexExact(n: nat, width: nat)
    requires width > 0 && n < Pow16(width)
    ensures |PadHex(n, width)| == width
    ensures DigitsValue(PadHex(n, width), 16) == Some(n)
  {
    HexLength(n, width);
    ZerosValue(width - |Digits(n, 16)|, Digits(n, 16));
    DigitsRoundTrip(n, 16);
  }

  lemma UnescapeHexOne(c: CodePoint, width: nat, rest: Text)
    requires width > 0 && c < Pow16(width)
    ensures UnescapeHex(PadHex(c, width) + rest, width) == Prepend(c, Unescape(rest))
  {
    PadHexExact(c, width);
    var t := PadHex(c, width) + rest;
    assert t[..width] == PadHex(c, width) && t[width..] == rest;
  }

  lemma PowersOf16()
    ensures Pow16(2) == 0x100 && Pow16(4) == 0x10000 && Pow16(8) == 0x1_0000_0000
  {
    assert Pow16(1) == 16 && Pow16(2) == 0x100 && Pow16(3) == 0x1000 && Pow16(4) == 0x10000;
    assert Pow16(5) == 0x100000 && Pow16(6) == 0x1000000 && Pow16(7) == 0x10000000;
  }

  lemma DropEscape(e: Text, rest: Text)
    ensures (e + rest)[|e|..] == rest
  {
  }

  lemma DropMark(mark: Text, digits: Text, rest: Text)
    requires |mark| == 2
    ensures mark + digits + rest != [] && (mark + digits + rest)[2..] == digits + rest
    ensures (mark + digits + rest)[0] == mark[0] && (mark + digits + rest)[1] == mark[1]
  {
  }

  /** How a hexadecimal escape starts, and how many digits it has. */
  function WideMark(c: CodePoint): (Text, nat) {
    if c < 0x100 then (Lit("\\x"), 2) else if c < 0x10000 then (Lit("\\u"), 4) else (Lit("\\U"), 8)
  }

  lemma UnescapeWide(c: CodePoint, rest: Text)
    ensures Unescape(WideMark(c).0 + PadHex(c, WideMark(c).1) + rest) == Prepend(c, Unescape(rest))
  {
    PowersOf16();
    DropMark(WideMark(c).0, PadHex(c, WideMark(c).1), rest);
    UnescapeHexOne(c, WideMark(c).1, rest);
  }

  lemma UnescapeOne(c: CodePoint, inv: Invisible, rest: Text)
    ensures Unescape(EscapeChar(c, inv) + rest) == Prepend(c, Unescape(rest))
  {
    if c != NEWLINE && c != RETURN && c != TAB && c != BACKSLASH && inv(c) {
      UnescapeWide(c, rest);
    } else {
      DropEscape(EscapeChar(c, inv), rest);
    }
  }

  /** The escape code is uniquely decodable: nothing about a value is lost by showing it. */
  lemma {:induction false} PrintableLossless(s: Text, inv: Invisible)
    ensures Unescape(Printable(s, inv)) == Some(s)
  {
    if s != [] {
      var rest := s[1..];
      PrintableLossless(rest, inv);
      UnescapeOne(s[0], inv, Printable(rest, inv));
      assert [s[0]] + rest == s;
    }
  }

  lemma PrintableInjective(a: Text, b: Text, inv: Invisible)
    requires Printable(a, inv) == Printable(b, inv)
    ensures a == b
  {
    PrintableLossless(a, inv);
    PrintableLossless(b, inv);
  }

  /** What may appear in shown text: no line ending or tab, and nothing invisible. */
  predicate Shown(c: CodePoint, inv: Invisible) {
    !inv(c) && c != NEWLINE && c != RETURN && c != TAB
  }

  lemma PadHexAscii(n: nat, width: nat)
    ensures forall i :: 0 <= i < |PadHex(n, width)| ==> 0x30 <= PadHex(n, width)[i] <= 0x66
  {
    DigitsAreDigits(n, 16);
    assert forall d :: d in PadHex(n, width) ==> d == 0x30 || IsDigit(d);
    assert forall i :: 0 <= i < |PadHex(n, width)| ==> PadHex(n, width)[i] in PadHex(n, width);
  }

  predicate Ascii(t: Text) {
    forall i :: 0 <= i < |t| ==> 0x20 <= t[i] <= 0x7E
  }

  lemma EscapeCharAscii(c: CodePoint, inv: Invisible)
    ensures EscapeChar(c, inv) != []
    ensures Ascii(EscapeChar(c, inv)) || (EscapeChar(c, inv) == [c] && Shown(c, inv))
  {
    PadHexAscii(c, 2);
    PadHexAscii(c, 4);
    PadHexAscii(c, 8);
  }

  lemma EscapeCharShown(c: CodePoint, inv: Invisible)
    ensures EscapeChar(c, inv) != []
    ensures forall d :: d in EscapeChar(c, inv) ==> Shown(d, inv)
  {
    EscapeCharAscii(c, inv);
  }

  lemma {:induction false} PrintableShown(s: Text, inv: Invisible)
    ensures forall d :: d in Printable(s, inv) ==> Shown(d, inv)
    ensures s != [] ==> Printable(s, inv) != []
  {
    if s != [] {
      EscapeCharShown(s[0], inv);
      PrintableShown(s[1..], inv);
    }
  }

  // ---------------------------------------------------------------------------------------------
  // Backtick runs

  function LongestRun(s: Text): nat {
    if s == [] then 0
    else
      var here, later := LeadingRun(s, BACKTICK), LongestRun(s[1..]);
      if here > later then here else later
  }

  predicate RunAt(s: Text, i: nat, k: nat) {
    i + k <= |s| && forall j :: i <= j < i + k ==> s[j] == BACKTICK
  }

  lemma {:induction false} LongestRunBounds(s: Text, i: nat, k: nat)
    requires RunAt(s, i, k)
    ensures k <= LongestRun(s)
  {
    if s != [] {
      if i > 0 {
        assert RunAt(s[1..], i - 1, k);
        LongestRunBounds(s[1..], i - 1, k);
      }
    }
  }

  lemma {:induction false} LongestRunOccurs(s: Text)
    ensures exists i: nat :: RunAt(s, i, LongestRun(s))
  {
    if s == [] || LeadingRun(s, BACKTICK) >= LongestRun(s[1..]) {
      assert RunAt(s, 0, LongestRun(s));
    } else {
      LongestRunOccurs(s[1..]);
      var i: nat :| RunAt(s[1..], i, LongestRun(s[1..]));
      assert forall j :: i + 1 <= j < i + 1 + LongestRun(s) ==> s[j] == s[1..][j - 1];
      assert RunAt(s, i + 1, LongestRun(s));
    }
  }

  /** The one-pass count finds a run of the length it returns, and none is longer. */
  method MeasureLongestRun(s: Text) returns (longest: nat)
    ensures longest == LongestRun(s)
    ensures exists i: nat :: RunAt(s, i, longest)
    ensures forall i: nat, k: nat :: RunAt(s, i, k) ==> k <= longest
  {
    var run: nat := 0;
    ghost var at: nat := 0;
    longest := 0;
    for n := 0 to |s|
      invariant run <= n && RunAt(s, n - run, run)
      invariant run < n ==> s[n - run - 1] != BACKTICK
      invariant at + longest <= n && RunAt(s, at, longest)
      invariant run <= longest
      invariant forall i: nat, k: nat :: i + k <= n && RunAt(s, i, k) ==> k <= longest
    {
      run := if s[n] == BACKTICK then run + 1 else 0;
      forall i: nat, k: nat | i + k <= n + 1 && RunAt(s, i, k)
        ensures k <= longest || k <= run
      {
        if i + k == n + 1 && k > 0 && run < n + 1 {
          assert s[n - run] != BACKTICK;
        }
      }
      if run > longest {
        longest, at := run, n + 1 - run;
      }
    }
    LongestRunOccurs(s);
    LongestRunBounds(s, at, longest);
    forall i: nat, k: nat | RunAt(s, i, k) ensures k <= longest {
      assert i + k <= |s|;
    }
  }

  lemma LongestRunSuffix(s: Text, k: nat)
    requires k <= |s|
    ensures LongestRun(s[k..]) <= LongestRun(s)
  {
    LongestRunOccurs(s[k..]);
    var i: nat :| RunAt(s[k..], i, LongestRun(s[k..]));
    assert forall j :: k + i <= j < k + i + LongestRun(s[k..]) ==> s[j] == s[k..][j - k];
    LongestRunBounds(s, k + i, LongestRun(s[k..]));
  }

  // ---------------------------------------------------------------------------------------------
  // md_code

  predicate NeedsPadding(p: Text)
    requires p != []
  {
    p[0] == BACKTICK || p[0] == SPACE || p[|p| - 1] == BACKTICK || p[|p| - 1] == SPACE
  }

  function Pad(p: Text): Text
    requires p != []
  {
    if NeedsPadding(p) then [SPACE] + p + [SPACE] else p
  }

  function MdCode(s: Text, inv: Invisible): Text {
    var p := Printable(s, inv);
    if p == [] then Lit("(empty)")
    else
      var fence := Repeat(BACKTICK, LongestRun(p) + 1);
      fence + Pad(p) + fence
  }

  lemma PadKeepsRuns(p: Text)
    ensures LongestRun(p) <= LongestRun([SPACE] + p + [SPACE])
  {
    var b := [SPACE] + p + [SPACE];
    LongestRunOccurs(p);
    var i: nat :| RunAt(p, i, LongestRun(p));
    assert forall j :: i + 1 <= j < i + 1 + LongestRun(p) ==> b[j] == p[j - 1];
    LongestRunBounds(b, i + 1, LongestRun(p));
  }

  lemma PadAddsNone(p: Text)
    ensures LongestRun([SPACE] + p + [SPACE]) <= LongestRun(p)
  {
    var b := [SPACE] + p + [SPACE];
    LongestRunOccurs(b);
    var k: nat :| RunAt(b, k, LongestRun(b));
    if LongestRun(b) > 0 {
      assert b[k] == BACKTICK && b[k + LongestRun(b) - 1] == BACKTICK;
      assert forall j :: k - 1 <= j < k - 1 + LongestRun(b) ==> p[j] == b[j + 1];
      LongestRunBounds(p, k - 1, LongestRun(b));
    }
  }

  /** Padding adds no backtick run and keeps backticks away from both ends. */
  lemma PadRuns(p: Text)
    requires p != []
    ensures LongestRun(Pad(p)) == LongestRun(p)
    ensures Pad(p)[0] != BACKTICK && Pad(p)[|Pad(p)| - 1] != BACKTICK
  {
    if NeedsPadding(p) {
      PadKeepsRuns(p);
      PadAddsNone(p);
    }
  }

  /** A body without a run as long as the fence is read up to the closing fence and no further. */
  lemma FindCloseHere(n: nat, rest: Text)
    requires n > 0 && (rest != [] ==> rest[0] != BACKTICK)
    ensures FindClose(Repeat(BACKTICK, n) + rest, n) == Some(0)
  {
    RunUnique(Repeat(BACKTICK, n) + rest, BACKTICK, n);
  }

  /** A step over the body that is not a closing fence. */
  lemma FindCloseStep(body: Text, n: nat, after: Text)
    requires body != [] && body[|body| - 1] != BACKTICK && n > LongestRun(body)
    requires FindClose(body[Step(body)..] + after, n) == Some(|body| - Step(body))
    ensures FindClose(body + after, n) == Some(|body|)
  {
    StepOver(body, after);
    DropFront(body, after, Step(body));
    LongestRunBounds(body, 0, LeadingRun(body, BACKTICK));
  }

  lemma StepOver(body: Text, after: Text)
    requires body != [] && body[|body| - 1] != BACKTICK
    ensures Step(body + after) == Step(body)
  {
    RunUnique(body + after, BACKTICK, LeadingRun(body, BACKTICK));
  }

  lemma {:induction false} FindCloseSkips(body: Text, n: nat, rest: Text)
    requires n > LongestRun(body)
    requires body != [] ==> body[|body| - 1] != BACKTICK
    requires rest != [] ==> rest[0] != BACKTICK
    ensures FindClose(body + Repeat(BACKTICK, n) + rest, n) == Some(|body|)
    decreases |body|
  {
    var fence := Repeat(BACKTICK, n);
    AppendAssoc(body, fence, rest);
    if body == [] {
      assert body + (fence + rest) == fence + rest;
      FindCloseHere(n, rest);
    } else {
      var step := Step(body);
      LongestRunSuffix(body, step);
      FindCloseSkips(body[step..], n, rest);
      AppendAssoc(body[step..], fence, rest);
      FindCloseStep(body, n, fence + rest);
    }
  }

  lemma {:induction false} NoEndings(s: Text)
    requires OneLine(s)
    ensures EndingsToSpaces(s) == s
  {
    if s != [] {
      assert s[0] in s;
      assert forall c :: c in s[1..] ==> c in s;
      NoEndings(s[1..]);
      assert s == [s[0]] + s[1..];
    }
  }

  /** What a reader of the span sees: the shown value. Section 6.1 does not strip a span of spaces
      only, so a value of n spaces is seen as n + 2 of them. */
  function SeenCode(s: Text, inv: Invisible): Text {
    var p := Printable(s, inv);
    if AllSpaces(p) then [SPACE] + p + [SPACE] else p
  }

  lemma SpanOfPad(s: Text, inv: Invisible)
    requires s != []
    ensures Printable(s, inv) != []
    ensures SpanContent(Pad(Printable(s, inv))) == SeenCode(s, inv)
  {
    PrintableShown(s, inv);
    var p := Printable(s, inv);
    NoEndings(Pad(p));
    assert p[0] in p;
    if NeedsPadding(p) {
      if AllSpaces(p) {
        assert AllSpaces(Pad(p));
      } else {
        var c :| c in p && c != SPACE;
        assert c in Pad(p);
      }
    }
  }

  /** One code span is read back exactly, whatever follows it. */
  lemma ScanCode(s: Text, inv: Invisible, rest: Text)
    requires s != []
    requires rest != [] ==> rest[0] != BACKTICK
    ensures ScanInline(MdCode(s, inv) + rest) == [Span(SeenCode(s, inv))] + ScanInline(rest)
  {
    PrintableShown(s, inv);
    var p := Printable(s, inv);
    var n := LongestRun(p) + 1;
    var fence, body := Repeat(BACKTICK, n), Pad(p);
    PadRuns(p);
    SpanOfPad(s, inv);
    FindCloseSkips(body, n, rest);
    NextSpan(n, body, rest);
    var t := MdCode(s, inv) + rest;
    assert t == fence + body + fence + rest;
    assert t[n + |body| + n..] == rest;
  }

  lemma SeenCodeInjective(a: Text, b: Text, inv: Invisible)
    requires SeenCode(a, inv) == SeenCode(b, inv)
    ensures a == b
  {
    var p, q := Printable(a, inv), Printable(b, inv);
    if AllSpaces(p) != AllSpaces(q) {
      assert false;
    }
    if AllSpaces(p) {
      assert p == SeenCode(a, inv)[1..|p| + 1] && q == SeenCode(b, inv)[1..|q| + 1];
    }
    PrintableInjective(a, b, inv);
  }

  /** Different values are shown differently, the empty value included. */
  lemma MdCodeInjective(a: Text, b: Text, inv: Invisible)
    requires MdCode(a, inv) == MdCode(b, inv)
    ensures a == b
  {
    if a == [] || b == [] {
      assert Lit("(empty)")[0] != BACKTICK;
      PrintableShown(if a == [] then b else a, inv);
    } else {
      ScanCode(a, inv, []);
      ScanCode(b, inv, []);
      assert MdCode(a, inv) + [] == MdCode(a, inv) && MdCode(b, inv) + [] == MdCode(b, inv);
      assert ScanInline(MdCode(a, inv))[0] == Span(SeenCode(a, inv));
      assert ScanInline(MdCode(b, inv))[0] == Span(SeenCode(b, inv));
      SeenCodeInjective(a, b, inv);
    }
  }

  // ---------------------------------------------------------------------------------------------
  // Lines mixing fixed text and values

  /** A character the fixed parts of a report may use: not a backtick or backslash, not a line ending,
      and not '<' (which could open raw HTML or an autolink). */
  predicate IsPlain(c: CodePoint) {
    c != BACKTICK && c != BACKSLASH && c != '<' as int && !IsLineEnding(c)
  }

  predicate IsWord(s: string) {
    s != "" && forall i :: 0 <= i < |s| ==> IsPlain(s[i] as int)
  }

  /** A fixed part of an f-string. */
  type Word = s: string | IsWord(s) witness "x"

  /** A part of an f-string: fixed words, text that is not a snapshot's, or a value shown through
      md_code. */
  datatype Piece = Fixed(word: Word) | Raw(text: Text) | Code(value: Text)

  function FormatPiece(p: Piece, inv: Invisible): Text {
    match p case Fixed(w) => Lit(w) case Raw(t) => t case Code(v) => MdCode(v, inv)
  }

  function Format(pieces: seq<Piece>, inv: Invisible): Text {
    if pieces == [] then [] else FormatPiece(pieces[0], inv) + Format(pieces[1..], inv)
  }

  predicate Plain(t: Text) {
    forall i :: 0 <= i < |t| ==> IsPlain(t[i])
  }

  /** Text between values is plain and not empty, and two values never touch. */
  predicate WellSeparated(pieces: seq<Piece>) {
    pieces != [] ==>
      && (pieces[0].Raw? ==> pieces[0].text != [] && Plain(pieces[0].text))
      && (|pieces| > 1 ==> !pieces[0].Code? || !pieces[1].Code?)
      && WellSeparated(pieces[1..])
  }

  lemma WellSeparatedConcat(a: seq<Piece>, b: seq<Piece>)
    requires WellSeparated(a) && WellSeparated(b)
    requires a != [] && b != [] ==> !a[|a| - 1].Code? || !b[0].Code?
    ensures WellSeparated(a + b)
  {
    if a == [] {
      assert a + b == b;
    } else {
      DropFront(a, b, 1);
      WellSeparatedConcat(a[1..], b);
    }
  }

  function SeenPiece(p: Piece, inv: Invisible): seq<Inline> {
    match p
    case Fixed(w) => Chars(Lit(w))
    case Raw(t) => Chars(t)
    case Code(v) => if v == [] then Chars(Lit("(empty)")) else [Span(SeenCode(v, inv))]
  }

  /** What a reader sees of a formatted line. */
  function Seen(pieces: seq<Piece>, inv: Invisible): seq<Inline> {
    if pieces == [] then [] else SeenPiece(pieces[0], inv) + Seen(pieces[1..], inv)
  }

  lemma NextPlain(c: CodePoint, rest: Text)
    requires IsPlain(c)
    ensures ScanInline([c] + rest) == [Char(c)] + ScanInline(rest)
  {
    assert ([c] + rest)[1..] == rest;
  }

  lemma {:induction false} ScanPlain(t: Text, rest: Text)
    requires Plain(t)
    ensures ScanInline(t + rest) == Chars(t) + ScanInline(rest)
  {
    if t == [] {
      assert t + rest == rest;
    } else {
      NextPlain(t[0], t[1..] + rest);
      ScanPlain(t[1..], rest);
      assert t == [t[0]] + t[1..];
      AppendAssoc([t[0]], t[1..], rest);
      assert Chars(t) == [Char(t[0])] + Chars(t[1..]);
      AppendAssoc([Char(t[0])], Chars(t[1..]), ScanInline(rest));
    }
  }

  lemma ScanPiece(p: Piece, inv: Invisible, rest: Text)
    requires p.Raw? ==> Plain(p.text)
    requires p.Code? && rest != [] ==> rest[0] != BACKTICK
    ensures ScanInline(FormatPiece(p, inv) + rest) == SeenPiece(p, inv) + ScanInline(rest)
  {
    if p.Fixed? {
      ScanPlain(Lit(p.word), rest);
    } else if p.Raw? {
      ScanPlain(p.text, rest);
    } else if p.value == [] {
      ScanPlain(Lit("(empty)"), rest);
    } else {
      ScanCode(p.value, inv, rest);
    }
  }

  /** What follows a value starts with something other than a backtick. */
  lemma AfterCode(pieces: seq<Piece>, inv: Invisible, rest: Text)
    requires WellSeparated(pieces) && pieces != []
    requires pieces[|pieces| - 1].Code? && rest != [] ==> rest[0] != BACKTICK
    ensures var after := Format(pieces[1..], inv) + rest; pieces[0].Code? && after != [] ==> after[0] != BACKTICK
  {
    if pieces[0].Code? && |pieces| > 1 {
      var next := pieces[1..][0];
      assert next == pieces[1] && !next.Code?;
      var t := FormatPiece(next, inv);
      assert t != [] && IsPlain(t[0]);
      assert (Format(pieces[1..], inv) + rest)[0] == t[0];
    }
  }

  /** Reading a formatted line recovers its parts: each value in a span of its own, in order, and no
      value starts, ends or joins a span that was not meant for it. */
  lemma {:induction false} ScanFormatted(pieces: seq<Piece>, inv: Invisible, rest: Text)
    requires WellSeparated(pieces)
    requires pieces != [] && pieces[|pieces| - 1].Code? && rest != [] ==> rest[0] != BACKTICK
    ensures ScanInline(Format(pieces, inv) + rest) == Seen(pieces, inv) + ScanInline(rest)
  {
    if pieces == [] {
      assert Format(pieces, inv) + rest == rest;
    } else {
      var p, tail := pieces[0], pieces[1..];
      var after := Format(tail, inv) + rest;
      ScanFormatted(tail, inv, rest);
      AfterCode(pieces, inv, rest);
      ScanPiece(p, inv, after);
      AppendAssoc(FormatPiece(p, inv), Format(tail, inv), rest);
      assert Format(pieces, inv) + rest == FormatPiece(p, inv) + after;
      AppendAssoc(SeenPiece(p, inv), Seen(tail, inv), ScanInline(rest));
    }
  }

  // ---------------------------------------------------------------------------------------------
  // md_block

  function PrintableAll(lines: seq<Text>, inv: Invisible): (r: seq<Text>)
    ensures |r| == |lines|
    ensures forall i :: 0 <= i < |lines| ==> r[i] == Printable(lines[i], inv)
  {
    seq(|lines|, i requires 0 <= i < |lines| => Printable(lines[i], inv))
  }

  /** The longest backtick run of any line; 0 when there are no lines. */
  function LongestInLines(lines: seq<Text>): (n: nat)
    ensures forall l :: l in lines ==> LongestRun(l) <= n
  {
    if lines == [] then 0
    else
      var rest := LongestInLines(lines[1..]);
      if LongestRun(lines[0]) > rest then LongestRun(lines[0]) else rest
  }

  function MdBlock(lines: seq<Text>, inv: Invisible): seq<Text> {
    var body := PrintableAll(lines, inv);
    var longest := LongestInLines(body);
    var fence := Repeat(BACKTICK, if longest + 1 > 3 then longest + 1 else 3);
    [fence + Lit("text")] + body + [fence]
  }

  lemma FenceOpens(n: nat)
    requires n >= 3
    ensures Opens(Repeat(BACKTICK, n) + Lit("text")) == Some(Fence(BACKTICK, n, 0, Lit("text")))
  {
    var line := Repeat(BACKTICK, n) + Lit("text");
    RunUnique(line, SPACE, 0);
    assert line[0..] == line;
    RunUnique(line, BACKTICK, n);
    assert line[n..] == Lit("text");
    assert forall c :: c in Lit("text") ==> c != BACKTICK;
    assert TrimBlanks(Lit("text")) == Lit("text");
  }

  lemma FenceCloses(n: nat, f: Fence)
    requires f.mark == BACKTICK && f.length == n >= 3
    ensures Closes(Repeat(BACKTICK, n), f)
  {
    var line := Repeat(BACKTICK, n);
    RunUnique(line, SPACE, 0);
    assert line[0..] == line;
    RunUnique(line, BACKTICK, n);
  }

  lemma ShortRunDoesNotClose(line: Text, f: Fence)
    requires f.mark == BACKTICK && f.length > LongestRun(line)
    ensures !Closes(line, f)
  {
    var indent := LeadingRun(line, SPACE);
    var run := LeadingRun(line[indent..], BACKTICK);
    assert forall j :: indent <= j < indent + run ==> line[j] == line[indent..][j - indent];
    LongestRunBounds(line, indent, run);
  }

  /** A fenced block is read back as one block holding exactly the shown lines, and reading
      continues after it as if it had not been there. */
  lemma ScanMdBlock(lines: seq<Text>, inv: Invisible, rest: seq<Text>)
    ensures ScanBlocks(MdBlock(lines, inv) + rest)
         == Scan([Block(Lit("text"), PrintableAll(lines, inv))] + ScanBlocks(rest).blocks,
                 ScanBlocks(rest).open)
  {
    var body := PrintableAll(lines, inv);
    var longest := LongestInLines(body);
    var n := if longest + 1 > 3 then longest + 1 else 3;
    var fence := Repeat(BACKTICK, n);
    var f := Fence(BACKTICK, n, 0, Lit("text"));
    FenceOpens(n);
    FenceCloses(n, f);
    forall l | l in body ensures !Closes(l, f) {
      ShortRunDoesNotClose(l, f);
    }
    ScanFenced(fence + Lit("text"), body, fence, rest, f);
  }

  /** No line of a block contains a line ending. */
  lemma MdBlockOneLine(lines: seq<Text>, inv: Invisible)
    ensures forall l :: l in MdBlock(lines, inv) ==> OneLine(l)
  {
    var block := MdBlock(lines, inv);
    var body := PrintableAll(lines, inv);
    forall l | l in block ensures OneLine(l) {
      if l in body {
        var i :| 0 <= i < |body| && body[i] == l;
        PrintableShown(lines[i], inv);
      }
    }
  }
}
