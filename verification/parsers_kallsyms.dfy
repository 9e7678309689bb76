/** parsers/kernel_hooks.py: which module each kernel symbol belongs to. */
module KallsymsParser {
  import opened Text
  import opened Strings
  import opened KernelHooksParser

  /** The symbol and the module a line attributes it to; None for a core-kernel line. */
  function EntryIn(line: Text): Option<(Text, Text)> {
    var s := RStrip(line);
    if s == [] || s[|s| - 1] != RIGHT || LEFT !in s || |Split(s)| < 3 then None
    else Some((Split(s)[2], s[RFind(s, LEFT).value + 1..|s| - 1]))
  }

  /** The map the loop builds: a later line for the same symbol replaces an earlier one. */
  function Attributions(lines: seq<Text>): map<Text, Text> {
    if lines == [] then map[]
    else
      var before := Attributions(lines[..|lines| - 1]);
      match EntryIn(lines[|lines| - 1])
      case None => before
      case Some((name, owner)) => before[name := owner]
  }

  lemma AttributionsStep(lines: seq<Text>, i: nat)
    requires i < |lines|
    ensures Attributions(lines[..i + 1]) == match EntryIn(lines[i])
      case None => Attributions(lines[..i])
      case Some((name, owner)) => Attributions(lines[..i])[name := owner]
  {
    assert lines[..i + 1][..i] == lines[..i];
  }

  method ReduceKallsyms(text: Text) returns (out: map<Text, Text>)
    ensures out == Attributions(SplitLines(text))
  {
    var lines := SplitLines(text);
    out := map[];
    for i := 0 to |lines|
      invariant out == Attributions(lines[..i])
    {
      AttributionsStep(lines, i);
      var entry := EntryIn(lines[i]);
      if entry.Some? {
        out := out[entry.value.0 := entry.value.1];
      }
    }
    assert lines[..|lines|] == lines;
  }

  // ---------------------------------------------------------------------------------------------
  // The kernel's print format

  datatype Symbol = Symbol(address: Text, kind: Text, name: Text, owner: Option<Text>)

  predicate IsWord(t: Text) {
    t != [] && NoSpace(t) && LEFT !in t
  }

  /** Three words, and a module name that may hold anything but '[' and a line break. */
  predicate WellFormed(y: Symbol) {
    && IsWord(y.address) && IsWord(y.kind) && IsWord(y.name)
    && (y.owner.Some? ==> LEFT !in y.owner.value && NoBreak(y.owner.value))
  }

  function Columns(y: Symbol): Text {
    y.address + [SPACE] + y.kind + [SPACE] + y.name
  }

  function PrintSymbol(y: Symbol): Text {
    Columns(y) + match y.owner case None => [] case Some(m) => [TAB, LEFT] + m + [RIGHT]
  }

  lemma FiveParts(a: Text, b: Text, c: Text, rest: Text)
    ensures a + [SPACE] + b + [SPACE] + c + rest == a + ([SPACE] + (b + ([SPACE] + (c + rest))))
  {
    AppendAssoc(a + [SPACE] + b + [SPACE], c, rest);
    AppendAssoc(a + [SPACE] + b, [SPACE], c + rest);
    AppendAssoc(a + [SPACE], b, [SPACE] + (c + rest));
    AppendAssoc(a, [SPACE], b + ([SPACE] + (c + rest)));
  }

  lemma SplitColumn(word: Text, rest: Text)
    requires word != [] && NoSpace(word)
    ensures Split(word + ([SPACE] + rest)) == [word] + Split(rest)
  {
    SplitToken(word, [SPACE] + rest);
    SplitSpace(SPACE, rest);
  }

  lemma ThreeFirst<T>(a: T, b: T, c: T, rest: seq<T>)
    ensures [a] + ([b] + ([c] + rest)) == [a, b, c] + rest
  {
  }

  lemma ColumnsSplit(y: Symbol, rest: Text)
    requires WellFormed(y) && (rest != [] ==> IsSpace(rest[0]))
    ensures Split(Columns(y) + rest) == [y.address, y.kind, y.name] + Split(rest)
  {
    FiveParts(y.address, y.kind, y.name, rest);
    SplitColumn(y.address, y.kind + ([SPACE] + (y.name + rest)));
    SplitColumn(y.kind, y.name + rest);
    SplitToken(y.name, rest);
    ThreeFirst(y.address, y.kind, y.name, Split(rest));
  }

  lemma CoreLine(y: Symbol, ws: Text)
    requires WellFormed(y) && y.owner.None? && AllSpace(ws)
    ensures EntryIn(PrintSymbol(y) + ws) == None
  {
    var s := PrintSymbol(y);
    assert s == Columns(y) && s[|s| - 1] == y.name[|y.name| - 1];
    RStripTrailing(s, ws);
    assert LEFT !in s;
  }

  lemma ModuleTag(front: Text, m: Text)
    requires LEFT !in m
    ensures var s := front + [TAB, LEFT] + m + [RIGHT];
      RFind(s, LEFT) == Some(|front| + 1) && s[|front| + 2..|s| - 1] == m
  {
    var s := front + [TAB, LEFT] + m + [RIGHT];
    assert s == (front + [TAB]) + [LEFT] + (m + [RIGHT]);
    RFindLast(front + [TAB], LEFT, m + [RIGHT]);
  }

  lemma ModuleLine(y: Symbol, m: Text, ws: Text)
    requires WellFormed(y) && y.owner == Some(m) && AllSpace(ws)
    ensures EntryIn(PrintSymbol(y) + ws) == Some((y.name, m))
  {
    var s, tail := PrintSymbol(y), [TAB, LEFT] + m + [RIGHT];
    assert s == Columns(y) + tail && s == Columns(y) + [TAB, LEFT] + m + [RIGHT];
    assert s[|s| - 1] == RIGHT;
    RStripTrailing(s, ws);
    ColumnsSplit(y, tail);
    ModuleTag(Columns(y), m);
  }

  /** A printed symbol reads back, whatever whitespace ends the line; core symbols give nothing. */
  lemma SymbolRoundTrip(y: Symbol, ws: Text)
    requires WellFormed(y) && AllSpace(ws)
    ensures EntryIn(PrintSymbol(y) + ws) == match y.owner case None => None case Some(m) => Some((y.name, m))
  {
    match y.owner
    case None => CoreLine(y, ws);
    case Some(m) => ModuleLine(y, m, ws);
  }

  /** The last module that the symbols give a name; None when no module has it. */
  function OwnerOf(ys: seq<Symbol>, name: Text): Option<Text> {
    if ys == [] then None
    else
      var last := ys[|ys| - 1];
      if last.name == name && last.owner.Some? then last.owner else OwnerOf(ys[..|ys| - 1], name)
  }

  function PrintAll(ys: seq<Symbol>): (r: seq<Text>)
    ensures |r| == |ys| && forall i :: 0 <= i < |ys| ==> r[i] == PrintSymbol(ys[i])
  {
    seq(|ys|, i requires 0 <= i < |ys| => PrintSymbol(ys[i]))
  }

  lemma {:induction false} SymbolsRead(ys: seq<Symbol>, name: Text)
    requires forall i :: 0 <= i < |ys| ==> WellFormed(ys[i])
    ensures var out := Attributions(PrintAll(ys));
      match OwnerOf(ys, name) case None => name !in out case Some(m) => name in out && out[name] == m
  {
    if ys != [] {
      var n := |ys| - 1;
      SymbolsRead(ys[..n], name);
      assert PrintAll(ys)[..n] == PrintAll(ys[..n]);
      SymbolRoundTrip(ys[n], []);
      assert PrintSymbol(ys[n]) + [] == PrintSymbol(ys[n]);
    }
  }

  lemma ColumnsNoBreak(y: Symbol)
    requires WellFormed(y)
    ensures NoBreak(Columns(y))
  {
    TokenNoBreak(y.address);
    TokenNoBreak(y.kind);
    TokenNoBreak(y.name);
    NoBreakConcat(y.address, [SPACE]);
    NoBreakConcat(y.address + [SPACE], y.kind);
    NoBreakConcat(y.address + [SPACE] + y.kind, [SPACE]);
    NoBreakConcat(y.address + [SPACE] + y.kind + [SPACE], y.name);
  }

  lemma SymbolNoBreak(y: Symbol)
    requires WellFormed(y)
    ensures NoBreak(PrintSymbol(y))
  {
    ColumnsNoBreak(y);
    match y.owner
    case None =>
      assert Columns(y) + [] == Columns(y);
    case Some(m) =>
      NoBreakConcat([TAB, LEFT], m);
      NoBreakConcat([TAB, LEFT] + m, [RIGHT]);
      NoBreakConcat(Columns(y), [TAB, LEFT] + m + [RIGHT]);
  }

  /** The text of a printed symbol table gives a map that sends each module symbol to the last module
      that has it, and holds no other name. */
  lemma TableRoundTrip(ys: seq<Symbol>, name: Text)
    requires forall i :: 0 <= i < |ys| ==> WellFormed(ys[i])
    ensures var out := Attributions(SplitLines(Unlines(PrintAll(ys))));
      match OwnerOf(ys, name) case None => name !in out case Some(m) => name in out && out[name] == m
  {
    forall i | 0 <= i < |ys| ensures NoBreak(PrintAll(ys)[i]) {
      SymbolNoBreak(ys[i]);
    }
    SplitUnlines(PrintAll(ys));
    SymbolsRead(ys, name);
  }
}
