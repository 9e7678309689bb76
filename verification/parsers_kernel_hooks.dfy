/** parsers/kernel_hooks.py: the enabled_functions listing. */
module KernelHooksParser {
  import opened Text
  import opened Strings

  datatype HookRow = HookRow(function_: Text, callback: Option<Text>, ownerModule: Option<Text>)

  const ARROW := Lit("->")
  const TRAMP := Lit("tramp:")
  const LEFT: CodePoint := 0x5B
  const RIGHT: CodePoint := 0x5D
  const OPEN: CodePoint := 0x28
  const CLOSE: CodePoint := 0x29
  const PLUS: CodePoint := 0x2B

  // ---------------------------------------------------------------------------------------------
  // _callback_and_module

  /** The last "[name]" of a line: from the last '[' to the first ']' after it. */
  function ModuleIn(line: Text): Option<Text> {
    match RFind(line, LEFT)
    case None => None
    case Some(lb) =>
      match Find(line[lb..], RIGHT)
      case None => None
      case Some(n) => if n == 0 then None else Some(line[lb + 1..lb + n])
  }

  /** tokens[0].split("+")[0] or None. */
  function SymbolOf(tokens: seq<Text>): Option<Text> {
    if tokens == [] || Before(tokens[0], PLUS) == [] then None else Some(Before(tokens[0], PLUS))
  }

  /** The callback a line names. The outer None is a ValueError: after "tramp:" the code indexes a '('
      that it has only looked for in the whole line. */
  function CallbackIn(line: Text): Option<Option<Text>> {
    match RFindWord(line, ARROW)
    case Some(i) => Some(SymbolOf(Split(line[i + 2..])))
    case None =>
      match FindWord(line, TRAMP)
      case None => Some(None)
      case Some(i) =>
        if OPEN !in line then Some(None)
        else
          match Find(line[i + 6..], OPEN)
          case None => None
          case Some(n) => Some(SymbolOf(Split(Before(line[i + 6..][n + 1..], CLOSE))))
  }

  /** A line on which the parser raises: no arrow, and every '(' before the first "tramp:". */
  predicate Raises(line: Text) {
    CallbackIn(line).None?
  }

  lemma RaisesExactly(line: Text)
    ensures Raises(line)
       <==> RFindWord(line, ARROW).None? && FindWord(line, TRAMP).Some? && OPEN in line
            && OPEN !in line[FindWord(line, TRAMP).value + 6..]
  {
  }

  /** The documented shape of a line, "name (count) [flags] [tramp: ...]", can be such a line. */
  lemma RaisesOnAShortTrampoline()
    ensures Raises(Lit("f (1) ") + TRAMP)
  {
    var front := Lit("f (1) ");
    assert front == ['f' as int, SPACE, OPEN, '1' as int, CLOSE, SPACE];
    RaisesBeforeTrampoline(front);
  }

  /** Any front with a '(' and without a 't' or a '-', followed by a bare "tramp:". */
  lemma RaisesBeforeTrampoline(front: Text)
    requires OPEN in front && TRAMP[0] !in front && DASH !in front
    ensures Raises(front + TRAMP)
  {
    var t := front + TRAMP;
    assert DASH !in TRAMP;
    NoArrow(t);
    TakeFront(front, TRAMP);
    assert t[|front|..|front| + |TRAMP|] == t[|front|..];
    FindWordAt(t, TRAMP, |front|);
    assert t[|front| + 6..] == [];
    var i :| 0 <= i < |front| && front[i] == OPEN;
    assert t[i] == OPEN;
  }

  lemma {:induction false} NoArrow(t: Text)
    requires forall i :: 0 <= i < |t| ==> t[i] != DASH
    ensures RFindWord(t, ARROW).None?
  {
    if |t| >= 2 {
      assert t[|t| - 2..][0] != ARROW[0];
      NoArrow(t[..|t| - 1]);
    }
  }

  lemma {:induction false} FindWordAt(t: Text, w: Text, k: nat)
    requires w != [] && k + |w| <= |t| && t[k..k + |w|] == w
    requires forall i :: 0 <= i < k ==> t[i] != w[0]
    ensures FindWord(t, w) == Some(k)
  {
    if k == 0 {
      assert t[..|w|] == w;
    } else {
      assert t[..|w|][0] == t[0];
      assert t[1..][k - 1..k - 1 + |w|] == w;
      FindWordAt(t[1..], w, k - 1);
    }
  }

  // ---------------------------------------------------------------------------------------------
  // The grouping specification

  predicate Blank(line: Text) {
    AllSpace(line)
  }

  function NotBlank(lines: seq<Text>): (r: seq<Text>)
    ensures forall i :: 0 <= i < |r| ==> !Blank(r[i])
  {
    if lines == [] then [] else (if Blank(lines[0]) then [] else [lines[0]]) + NotBlank(lines[1..])
  }

  /** A line that begins a hooked function: it starts in column 0. */
  predicate IsHead(line: Text) {
    line != [] && !IsSpace(line[0])
  }

  function Continuations(lines: seq<Text>): (r: seq<Text>)
    ensures |r| <= |lines| && r == lines[..|r|]
    ensures forall i :: 0 <= i < |r| ==> !IsHead(r[i])
    ensures |r| < |lines| ==> IsHead(lines[|r|])
  {
    if lines == [] || IsHead(lines[0]) then [] else [lines[0]] + Continuations(lines[1..])
  }

  function Callback(line: Text): Option<Text> {
    match CallbackIn(line) case None => None case Some(cb) => cb
  }

  function FirstCallback(lines: seq<Text>): Option<Text> {
    if lines == [] then None
    else if Callback(lines[0]).Some? then Callback(lines[0])
    else FirstCallback(lines[1..])
  }

  function FirstModule(lines: seq<Text>): Option<Text> {
    if lines == [] then None
    else if ModuleIn(lines[0]).Some? then ModuleIn(lines[0])
    else FirstModule(lines[1..])
  }

  /** The row of one block: the head's first token, and independently the block's first callback and
      first module. */
  function BlockRow(block: seq<Text>): HookRow
    requires block != []
  {
    HookRow(block[0][..TokenLength(block[0])], FirstCallback(block), FirstModule(block))
  }

  /** Cut the lines into blocks at the heads; lines before the first head belong to no block. */
  function Rows(lines: seq<Text>): seq<HookRow>
    decreases |lines|
  {
    if lines == [] then []
    else if !IsHead(lines[0]) then Rows(lines[1..])
    else
      var rest := Continuations(lines[1..]);
      [BlockRow([lines[0]] + rest)] + Rows(lines[1 + |rest|..])
  }

  predicate SomeRaises(lines: seq<Text>) {
    exists i :: 0 <= i < |lines| && Raises(lines[i])
  }

  /** None where parse_enabled_functions raises. */
  function EnabledFunctions(text: Text): Option<seq<HookRow>> {
    var lines := NotBlank(SplitLines(text));
    if SomeRaises(lines) then None else Some(Rows(lines))
  }

  function Heads(lines: seq<Text>): nat {
    if lines == [] then 0 else (if IsHead(lines[0]) then 1 else 0) + Heads(lines[1..])
  }

  lemma {:induction false} HeadsSkip(lines: seq<Text>, k: nat)
    requires k <= |lines| && forall i :: 0 <= i < k ==> !IsHead(lines[i])
    ensures Heads(lines) == Heads(lines[k..])
  {
    if k > 0 {
      HeadsSkip(lines[1..], k - 1);
      assert lines[1..][k - 1..] == lines[k..];
    }
  }

  /** There is one row for each line in column 0. */
  lemma {:induction false} RowPerHead(lines: seq<Text>)
    ensures |Rows(lines)| == Heads(lines)
    decreases |lines|
  {
    if lines != [] {
      if IsHead(lines[0]) {
        var n := |Continuations(lines[1..])|;
        assert forall i :: 0 <= i < n ==> lines[1..][i] == Continuations(lines[1..])[i];
        HeadsSkip(lines[1..], n);
        assert lines[1..][n..] == lines[1 + n..];
        RowPerHead(lines[1 + n..]);
      } else {
        RowPerHead(lines[1..]);
      }
    }
  }

  // ---------------------------------------------------------------------------------------------
  // The streaming parser

  function Or(a: Option<Text>, b: Option<Text>): Option<Text> {
    if a.Some? then a else b
  }

  /** The rows still to come, from the parser's three variables and the lines not yet read. */
  function Pending(function_: Option<Text>, callback: Option<Text>, owner: Option<Text>, lines: seq<Text>): seq<HookRow> {
    var rest := Continuations(lines);
    (if function_.None? then []
     else [HookRow(function_.value, Or(callback, FirstCallback(rest)), Or(owner, FirstModule(rest)))])
    + Rows(lines[|rest|..])
  }

  /** Append the pending function, if there is one. */
  function Flush(rows: seq<HookRow>, function_: Option<Text>, callback: Option<Text>, owner: Option<Text>): seq<HookRow> {
    rows + if function_.None? then [] else [HookRow(function_.value, callback, owner)]
  }

  lemma {:induction false} RowsSkip(lines: seq<Text>)
    ensures Rows(lines) == Rows(lines[|Continuations(lines)|..])
  {
    if lines != [] && !IsHead(lines[0]) {
      RowsSkip(lines[1..]);
      assert lines[1..][|Continuations(lines[1..])|..] == lines[|Continuations(lines)|..];
    }
  }

  /** A column-0 line closes the pending function and opens its own. */
  lemma PendingHead(function_: Option<Text>, callback: Option<Text>, owner: Option<Text>, lines: seq<Text>)
    requires lines != [] && IsHead(lines[0])
    ensures Pending(function_, callback, owner, lines)
         == (if function_.None? then [] else [HookRow(function_.value, callback, owner)])
            + Pending(Some(lines[0][..TokenLength(lines[0])]), Callback(lines[0]), ModuleIn(lines[0]), lines[1..])
  {
    var rest := Continuations(lines[1..]);
    assert lines[0..] == lines;
    assert lines[1..][|rest|..] == lines[1 + |rest|..];
    assert ([lines[0]] + rest)[1..] == rest;
  }

  /** An indented line adds to the pending function what it still lacks. */
  lemma PendingIndented(function_: Option<Text>, callback: Option<Text>, owner: Option<Text>, lines: seq<Text>)
    requires lines != [] && !IsHead(lines[0])
    ensures Pending(function_, callback, owner, lines)
         == Pending(function_, Or(callback, Callback(lines[0])), Or(owner, ModuleIn(lines[0])), lines[1..])
  {
    var rest := Continuations(lines[1..]);
    assert Continuations(lines) == [lines[0]] + rest;
    assert ([lines[0]] + rest)[1..] == rest;
    assert lines[1..][|rest|..] == lines[1 + |rest|..];
  }

  /** What one line does to the rows, done and to come. */
  lemma PendingStep(rows: seq<HookRow>, function_: Option<Text>, callback: Option<Text>, owner: Option<Text>,
                    lines: seq<Text>, cb: Option<Text>, mod: Option<Text>)
    requires lines != [] && lines[0] != []
    requires cb == Callback(lines[0]) && mod == ModuleIn(lines[0])
    ensures IsHead(lines[0]) ==>
              rows + Pending(function_, callback, owner, lines)
              == Flush(rows, function_, callback, owner)
                 + Pending(Some(lines[0][..TokenLength(lines[0])]), cb, mod, lines[1..])
    ensures !IsHead(lines[0]) ==>
              rows + Pending(function_, callback, owner, lines)
              == rows + Pending(function_, Or(callback, cb), Or(owner, mod), lines[1..])
  {
    if IsHead(lines[0]) {
      PendingHead(function_, callback, owner, lines);
      var next := Pending(Some(lines[0][..TokenLength(lines[0])]), cb, mod, lines[1..]);
      AppendAssoc(rows, if function_.None? then [] else [HookRow(function_.value, callback, owner)], next);
    } else {
      PendingIndented(function_, callback, owner, lines);
    }
  }

  lemma TailOf<T>(xs: seq<T>, i: nat)
    requires i < |xs|
    ensures xs[i..] != [] && xs[i..][0] == xs[i] && xs[i..][1..] == xs[i + 1..]
  {
  }

  lemma PendingStart(lines: seq<Text>)
    ensures Pending(None, None, None, lines[0..]) == Rows(lines)
  {
    assert lines[0..] == lines;
    RowsSkip(lines);
  }

  lemma PendingEnd(rows: seq<HookRow>, function_: Option<Text>, callback: Option<Text>, owner: Option<Text>, lines: seq<Text>)
    ensures Flush(rows, function_, callback, owner) == rows + Pending(function_, callback, owner, lines[|lines|..])
  {
  }

  method ParseLines(lines: seq<Text>) returns (r: Option<seq<HookRow>>)
    requires forall i :: 0 <= i < |lines| ==> !Blank(lines[i])
    ensures r == if SomeRaises(lines) then None else Some(Rows(lines))
  {
    var rows: seq<HookRow> := [];
    var function_: Option<Text>, callback: Option<Text>, owner: Option<Text> := None, None, None;
    PendingStart(lines);
    for i := 0 to |lines|
      invariant forall j :: 0 <= j < i ==> !Raises(lines[j])
      invariant rows + Pending(function_, callback, owner, lines[i..]) == Rows(lines)
    {
      var line := lines[i];
      var cb, mod := CallbackIn(line), ModuleIn(line);
      if cb.None? {
        assert Raises(lines[i]);
        return None;
      }
      TailOf(lines, i);
      PendingStep(rows, function_, callback, owner, lines[i..], cb.value, mod);
      if !IsSpace(line[0]) {
        rows := Flush(rows, function_, callback, owner);
        function_, callback, owner := Some(line[..TokenLength(line)]), cb.value, mod;
      } else {
        callback, owner := Or(callback, cb.value), Or(owner, mod);
      }
    }
    PendingEnd(rows, function_, callback, owner, lines);
    r := Some(Flush(rows, function_, callback, owner));
  }

  /** One pass with three variables and a flush yields exactly the rows of the grouping. */
  method ParseEnabledFunctions(text: Text) returns (r: Option<seq<HookRow>>)
    ensures r == EnabledFunctions(text)
  {
    r := ParseLines(NotBlank(SplitLines(text)));
  }

  // ---------------------------------------------------------------------------------------------
  // The single-line format

  /** "->callback+offset [module]" at the end of a line. */
  function ArrowTail(callback: Text, offset: Text, owner: Text): Text {
    callback + [PLUS] + offset + [SPACE] + ([LEFT] + owner + [RIGHT])
  }

  predicate NoBracket(t: Text) {
    LEFT !in t && RIGHT !in t
  }

  predicate IsSymbol(t: Text) {
    t != [] && NoSpace(t) && PLUS !in t
  }

  lemma TagFound(front: Text, owner: Text)
    requires NoBracket(owner)
    ensures var line := front + ([LEFT] + owner + [RIGHT]);
      RFind(line, LEFT) == Some(|front|) && line[|front|..] == [LEFT] + owner + [RIGHT]
  {
    AppendAssoc([LEFT], owner, [RIGHT]);
    AppendAssoc(front, [LEFT], owner + [RIGHT]);
    assert LEFT !in owner + [RIGHT];
    RFindLast(front, LEFT, owner + [RIGHT]);
    TakeFront(front, [LEFT] + owner + [RIGHT]);
  }

  lemma TagCloses(owner: Text)
    requires NoBracket(owner)
    ensures Find([LEFT] + owner + [RIGHT], RIGHT) == Some(|owner| + 1)
  {
    var tag := [LEFT] + owner + [RIGHT];
    assert RIGHT !in [LEFT] + owner;
    FindFirst([LEFT] + owner, RIGHT, []);
    assert tag + [] == tag;
  }

  lemma SliceOfSlice(t: Text, left: nat, n: nat)
    requires 1 <= n && left + n <= |t|
    ensures t[left + 1..left + n] == t[left..][1..n]
  {
  }

  lemma ModuleBetween(line: Text, left: nat, n: nat, owner: Text)
    requires RFind(line, LEFT) == Some(left) && Find(line[left..], RIGHT) == Some(n) && n > 0
    requires line[left..][1..n] == owner
    ensures ModuleIn(line) == Some(owner)
  {
    SliceOfSlice(line, left, n);
  }

  lemma TagInside(owner: Text)
    ensures ([LEFT] + owner + [RIGHT])[1..|owner| + 1] == owner
  {
  }

  lemma TagRead(front: Text, owner: Text)
    requires NoBracket(owner)
    ensures ModuleIn(front + ([LEFT] + owner + [RIGHT])) == Some(owner)
  {
    TagFound(front, owner);
    TagCloses(owner);
    TagInside(owner);
    ModuleBetween(front + ([LEFT] + owner + [RIGHT]), |front|, |owner| + 1, owner);
  }

  lemma SymbolRead(callback: Text, offset: Text, rest: Text)
    requires IsSymbol(callback) && NoSpace(offset) && rest != [] && IsSpace(rest[0])
    ensures SymbolOf(Split(callback + [PLUS] + offset + rest)) == Some(callback)
  {
    var token := callback + [PLUS] + offset;
    assert NoSpace(token);
    SplitToken(token, rest);
    FindFirst(callback, PLUS, offset);
    assert token[..|callback|] == callback;
  }

  lemma ArrowChars()
    ensures |ARROW| == 2 && ARROW[0] == DASH && ARROW[1] != DASH
  {
  }

  lemma NotAtEnd(t: Text)
    requires |t| >= 2 && t[|t| - 2..] != ARROW
    ensures RFindWord(t, ARROW) == RFindWord(t[..|t| - 1], ARROW)
  {
    ArrowChars();
  }

  lemma NoArrowBefore(t: Text)
    requires t != [] && RFindWord(t, ARROW).None?
    ensures RFindWord(t[..|t| - 1], ARROW).None?
    ensures |t| >= 2 ==> t[|t| - 2..] != ARROW
  {
    ArrowChars();
  }

  /** The last arrow of a line is the one after which there is none. */
  lemma {:induction false} LastArrow(front: Text, after: Text)
    requires RFindWord(after, ARROW).None?
    ensures RFindWord(front + ARROW + after, ARROW) == Some(|front|)
  {
    ArrowChars();
    var t := front + ARROW + after;
    if after == [] {
      assert t[|t| - 2..] == ARROW;
    } else {
      var m := |after| - 1;
      assert t[..|t| - 1] == front + ARROW + after[..m];
      if m > 0 {
        assert t[|t| - 2..] == after[|after| - 2..];
      } else {
        assert t[|t| - 2] == ARROW[1];
      }
      NoArrowBefore(after);
      NotAtEnd(t);
      LastArrow(front, after[..m]);
    }
  }

  lemma ArrowRead(front: Text, after: Text)
    requires RFindWord(after, ARROW).None?
    ensures RFindWord(front + ARROW + after, ARROW) == Some(|front|)
    ensures (front + ARROW + after)[|front| + 2..] == after
  {
    LastArrow(front, after);
    TakeFront(front + ARROW, after);
  }

  /** A hooked line in the kernel's single-line format: whatever precedes the last arrow, the callback
      and the module after it are read back. */
  lemma HookLineRoundTrip(front: Text, callback: Text, offset: Text, owner: Text)
    requires IsSymbol(callback) && NoSpace(offset) && NoBracket(owner)
    requires RFindWord(ArrowTail(callback, offset, owner), ARROW).None?
    ensures var line := front + ARROW + ArrowTail(callback, offset, owner);
      CallbackIn(line) == Some(Some(callback)) && ModuleIn(line) == Some(owner)
  {
    var tag := [LEFT] + owner + [RIGHT];
    var start := callback + [PLUS] + offset;
    ArrowRead(front, ArrowTail(callback, offset, owner));
    AppendAssoc(start, [SPACE], tag);
    SymbolRead(callback, offset, [SPACE] + tag);
    AppendAssoc(front + ARROW, start + [SPACE], tag);
    TagRead(front + ARROW + (start + [SPACE]), owner);
  }
}
