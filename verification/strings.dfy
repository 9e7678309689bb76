/** The str methods the parsers use: whitespace, strip, split, find, splitlines. */
module Strings {
  import opened Text

  /** str.isspace on one character. */
  predicate IsSpace(c: CodePoint) {
    0x09 <= c <= 0x0D || 0x1C <= c <= 0x20 || c == 0x85 || c == 0xA0 || c == 0x1680
    || 0x2000 <= c <= 0x200A || c == 0x2028 || c == 0x2029 || c == 0x202F || c == 0x205F || c == 0x3000
  }

  predicate AllSpace(t: Text) {
    forall i :: 0 <= i < |t| ==> IsSpace(t[i])
  }

  predicate NoSpace(t: Text) {
    forall i :: 0 <= i < |t| ==> !IsSpace(t[i])
  }

  function LStrip(t: Text): (r: Text)
    ensures |r| <= |t| && (r != [] ==> !IsSpace(r[0]))
    ensures t != [] && !IsSpace(t[0]) ==> r == t
  {
    if t != [] && IsSpace(t[0]) then LStrip(t[1..]) else t
  }

  function RStrip(t: Text): Text {
    if t != [] && IsSpace(t[|t| - 1]) then RStrip(t[..|t| - 1]) else t
  }

  function Strip(t: Text): Text {
    LStrip(RStrip(t))
  }

  /** The length of the token at the front of t. */
  function TokenLength(t: Text): (n: nat)
    ensures n <= |t|
    ensures forall i :: 0 <= i < n ==> !IsSpace(t[i])
    ensures n < |t| ==> IsSpace(t[n])
    ensures t != [] && !IsSpace(t[0]) ==> n > 0
  {
    if t == [] || IsSpace(t[0]) then 0 else 1 + TokenLength(t[1..])
  }

  /** t.split(): the tokens between runs of whitespace. */
  function Split(t: Text): (r: seq<Text>)
    ensures forall i :: 0 <= i < |r| ==> r[i] != [] && NoSpace(r[i])
    decreases |t|
  {
    var s := LStrip(t);
    if s == [] then [] else [s[..TokenLength(s)]] + Split(s[TokenLength(s)..])
  }

  /** t.find(c), None for -1. */
  function Find(t: Text, c: CodePoint): (at: Option<nat>)
    ensures at.Some? ==> at.value < |t| && t[at.value] == c && c !in t[..at.value]
    ensures at.None? <==> c !in t
  {
    if t == [] then None
    else if t[0] == c then Some(0)
    else match Find(t[1..], c) case None => None case Some(i) => Some(i + 1)
  }

  /** t.rfind(c), None for -1. */
  function RFind(t: Text, c: CodePoint): (at: Option<nat>)
    ensures at.Some? ==> at.value < |t| && t[at.value] == c && c !in t[at.value + 1..]
    ensures at.None? <==> c !in t
  {
    if t == [] then None
    else if t[|t| - 1] == c then Some(|t| - 1)
    else RFind(t[..|t| - 1], c)
  }

  /** The offset of the first occurrence of a word, None for -1. */
  function FindWord(t: Text, w: Text): (at: Option<nat>)
    requires w != []
    ensures at.Some? ==> at.value + |w| <= |t| && t[at.value..at.value + |w|] == w
  {
    if |t| < |w| then None
    else if t[..|w|] == w then Some(0)
    else match FindWord(t[1..], w) case None => None case Some(i) => Some(i + 1)
  }

  /** The offset of the last occurrence of a word. */
  function RFindWord(t: Text, w: Text): (at: Option<nat>)
    requires w != []
    ensures at.Some? ==> at.value + |w| <= |t| && t[at.value..at.value + |w|] == w
  {
    if |t| < |w| then None
    else if t[|t| - |w|..] == w then Some(|t| - |w|)
    else RFindWord(t[..|t| - 1], w)
  }

  /** t.split(c)[0]. */
  function Before(t: Text, c: CodePoint): Text {
    match Find(t, c) case None => t case Some(i) => t[..i]
  }

  /** The separators of str.splitlines. */
  predicate IsLineBreak(c: CodePoint) {
    0x0A <= c <= 0x0D || 0x1C <= c <= 0x1E || c == 0x85 || c == 0x2028 || c == 0x2029
  }

  function LineLength(t: Text): (n: nat)
    ensures n <= |t| && (n < |t| ==> IsLineBreak(t[n]))
  {
    if t == [] || IsLineBreak(t[0]) then 0 else 1 + LineLength(t[1..])
  }

  /** t.splitlines(): no empty line after a final separator. */
  function SplitLines(t: Text): seq<Text>
    decreases |t|
  {
    if t == [] then []
    else
      var n := LineLength(t);
      var next := if n == |t| then n
                  else if t[n] == RETURN && n + 1 < |t| && t[n + 1] == NEWLINE then n + 2
                  else n + 1;
      [t[..n]] + SplitLines(t[next..])
  }

  // ---------------------------------------------------------------------------------------------

  lemma {:induction false} TokenUnique(tok: Text, rest: Text)
    requires NoSpace(tok) && (rest != [] ==> IsSpace(rest[0]))
    ensures TokenLength(tok + rest) == |tok|
  {
    if tok == [] {
      assert tok + rest == rest;
    } else {
      assert (tok + rest)[1..] == tok[1..] + rest;
      TokenUnique(tok[1..], rest);
    }
  }

  lemma SplitToken(tok: Text, rest: Text)
    requires tok != [] && NoSpace(tok) && (rest != [] ==> IsSpace(rest[0]))
    ensures Split(tok + rest) == [tok] + Split(rest)
  {
    var t := tok + rest;
    assert t[0] == tok[0];
    TokenUnique(tok, rest);
    assert t[..|tok|] == tok && t[|tok|..] == rest;
  }

  lemma SplitSpace(c: CodePoint, rest: Text)
    requires IsSpace(c)
    ensures Split([c] + rest) == Split(rest)
  {
    assert ([c] + rest)[1..] == rest;
  }

  predicate Tokens(toks: seq<Text>) {
    forall i :: 0 <= i < |toks| ==> toks[i] != [] && NoSpace(toks[i])
  }

  /** Tokens joined by single spaces are split back. */
  lemma {:induction false} SplitJoin(toks: seq<Text>)
    requires Tokens(toks)
    ensures Split(Join([SPACE], toks)) == toks
  {
    if |toks| == 1 {
      SplitToken(toks[0], []);
      assert toks[0] + [] == toks[0];
    } else if |toks| > 1 {
      var tail := Join([SPACE], toks[1..]);
      SplitJoin(toks[1..]);
      SplitToken(toks[0], [SPACE] + tail);
      SplitSpace(SPACE, tail);
      assert toks[0] + [SPACE] + tail == toks[0] + ([SPACE] + tail);
      assert toks == [toks[0]] + toks[1..];
    }
  }

  lemma {:induction false} RStripTrailing(t: Text, ws: Text)
    requires AllSpace(ws) && (t != [] ==> !IsSpace(t[|t| - 1]))
    ensures RStrip(t + ws) == t
  {
    if ws == [] {
      assert t + ws == t;
    } else {
      var n := |ws| - 1;
      assert (t + ws)[..|t + ws| - 1] == t + ws[..n] && (t + ws)[|t + ws| - 1] == ws[n];
      RStripTrailing(t, ws[..n]);
    }
  }

  lemma {:induction false} FindFirst(a: Text, c: CodePoint, b: Text)
    requires c !in a
    ensures Find(a + [c] + b, c) == Some(|a|)
  {
    if a != [] {
      assert a[0] in a && forall d :: d in a[1..] ==> d in a;
      assert (a + [c] + b)[1..] == a[1..] + [c] + b;
      FindFirst(a[1..], c, b);
    }
  }

  lemma {:induction false} RFindLast(a: Text, c: CodePoint, b: Text)
    requires c !in b
    ensures RFind(a + [c] + b, c) == Some(|a|)
  {
    if b != [] {
      var n := |b| - 1;
      var t := a + [c] + b;
      assert b[n] in b && forall d :: d in b[..n] ==> d in b;
      assert t[..|t| - 1] == a + [c] + b[..n] && t[|t| - 1] == b[n];
      RFindLast(a, c, b[..n]);
    }
  }

  lemma {:induction false} LStripLeading(ws: Text, rest: Text)
    requires AllSpace(ws)
    ensures LStrip(ws + rest) == LStrip(rest)
  {
    if ws == [] {
      assert ws + rest == rest;
    } else {
      LStripLeading(ws[1..], rest);
      DropFront(ws, rest, 1);
    }
  }

  /** Leading whitespace does not change the tokens. */
  lemma SplitLeading(ws: Text, rest: Text)
    requires AllSpace(ws)
    ensures Split(ws + rest) == Split(rest)
  {
    LStripLeading(ws, rest);
  }

  /** Whitespace around a text that neither starts nor ends with any is stripped. */
  lemma StripAround(left: Text, t: Text, right: Text)
    requires AllSpace(left) && AllSpace(right)
    requires t != [] && !IsSpace(t[0]) && !IsSpace(t[|t| - 1])
    ensures Strip(left + t + right) == t
  {
    var u := left + t;
    assert u[|u| - 1] == t[|t| - 1];
    RStripTrailing(u, right);
    LStripLeading(left, t);
  }

  // ---------------------------------------------------------------------------------------------
  // Tokens with whitespace of any kind around them

  /** gaps[0], the first token, gaps[1], the second token, and so on to the last gap. */
  function Spaced(toks: seq<Text>, gaps: seq<Text>): Text
    requires |gaps| == |toks| + 1
  {
    if toks == [] then gaps[0] else gaps[0] + (toks[0] + Spaced(toks[1..], gaps[1..]))
  }

  /** Whitespace before, between and after the tokens; between them there is some. */
  predicate Gaps(gaps: seq<Text>, n: nat) {
    && |gaps| == n + 1
    && (forall i :: 0 <= i <= n ==> AllSpace(gaps[i]))
    && (forall i :: 0 < i < n ==> gaps[i] != [])
  }

  lemma SplitBlank(ws: Text)
    requires AllSpace(ws)
    ensures Split(ws) == []
  {
    LStripLeading(ws, []);
    assert ws + [] == ws;
  }

  /** Tokens are split back whatever whitespace stands around them. */
  lemma {:induction false} SplitSpaced(toks: seq<Text>, gaps: seq<Text>)
    requires Tokens(toks) && Gaps(gaps, |toks|)
    ensures Split(Spaced(toks, gaps)) == toks
  {
    if toks == [] {
      SplitBlank(gaps[0]);
    } else {
      var rest := Spaced(toks[1..], gaps[1..]);
      SplitSpaced(toks[1..], gaps[1..]);
      if |toks| == 1 {
        assert rest == gaps[1];
      } else {
        assert rest[0] == gaps[1][0];
      }
      SplitToken(toks[0], rest);
      SplitLeading(gaps[0], toks[0] + rest);
      assert toks == [toks[0]] + toks[1..];
    }
  }

  // ---------------------------------------------------------------------------------------------
  // Lines

  predicate NoBreak(t: Text) {
    forall i :: 0 <= i < |t| ==> !IsLineBreak(t[i])
  }

  predicate NoBreaks(parts: seq<Text>) {
    forall i :: 0 <= i < |parts| ==> NoBreak(parts[i])
  }

  /** The lines, each with a newline after it. */
  function Unlines(lines: seq<Text>): Text {
    if lines == [] then [] else lines[0] + ([NEWLINE] + Unlines(lines[1..]))
  }

  lemma {:induction false} LineLengthIs(line: Text, rest: Text)
    requires NoBreak(line)
    ensures LineLength(line + ([NEWLINE] + rest)) == |line|
  {
    var t := line + ([NEWLINE] + rest);
    if line == [] {
      assert t[0] == NEWLINE;
    } else {
      assert t[0] == line[0];
      DropFront(line, [NEWLINE] + rest, 1);
      LineLengthIs(line[1..], rest);
    }
  }

  lemma SplitFirstLine(line: Text, rest: Text)
    requires NoBreak(line)
    ensures SplitLines(line + ([NEWLINE] + rest)) == [line] + SplitLines(rest)
  {
    var t := line + ([NEWLINE] + rest);
    LineLengthIs(line, rest);
    TakeFront(line, [NEWLINE] + rest);
    assert t[|line|] == NEWLINE;
    assert t[|line| + 1..] == rest;
  }

  /** Lines without line breaks are cut back out of the text they make. */
  lemma {:induction false} SplitUnlines(lines: seq<Text>)
    requires NoBreaks(lines)
    ensures SplitLines(Unlines(lines)) == lines
  {
    if lines != [] {
      SplitUnlines(lines[1..]);
      SplitFirstLine(lines[0], Unlines(lines[1..]));
      assert lines == [lines[0]] + lines[1..];
    }
  }

  lemma NoBreakConcat(a: Text, b: Text)
    requires NoBreak(a) && NoBreak(b)
    ensures NoBreak(a + b)
  {
  }

  lemma TokenNoBreak(t: Text)
    requires NoSpace(t)
    ensures NoBreak(t)
  {
  }

  lemma {:induction false} SpacedNoBreak(toks: seq<Text>, gaps: seq<Text>)
    requires |gaps| == |toks| + 1 && Tokens(toks) && NoBreaks(gaps)
    ensures NoBreak(Spaced(toks, gaps))
  {
    if toks != [] {
      SpacedNoBreak(toks[1..], gaps[1..]);
      TokenNoBreak(toks[0]);
      NoBreakConcat(toks[0], Spaced(toks[1..], gaps[1..]));
      NoBreakConcat(gaps[0], toks[0] + Spaced(toks[1..], gaps[1..]));
    }
  }
}
