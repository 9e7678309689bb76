/** parsers/sockets.py: the /proc/net TCP and UDP tables.

    inet_ntop on sixteen bytes is a parameter: its zero compression is not part of this model. */
module SocketsParser {
  import opened Text
  import opened Strings
  import opened ProcfsParsers

  type Byte = n: int | 0 <= n < 256

  const DOT: CodePoint := 0x2E

  datatype NetRow = NetRow(inode: int, kind: Text, state: Text, local: Text, remote: Text, uid: int)

  // ---------------------------------------------------------------------------------------------
  // _decode_addr

  /** int(t, 16) on hexadecimal digits; None where it raises. */
  function HexNumber(t: Text): Option<int> {
    if t == [] then None else DigitsValue(t, 16)
  }

  function Dotted(b: seq<Byte>): Text
    requires |b| == 4
  {
    Decimal(b[0]) + [DOT] + (Decimal(b[1]) + [DOT] + (Decimal(b[2]) + [DOT] + Decimal(b[3])))
  }

  /** struct.pack("<I", v). */
  function PackLittle(v: nat): (b: seq<Byte>)
    requires v < 0x1_0000_0000
    ensures |b| == 4
  {
    [v % 256, v / 256 % 256, v / 65536 % 256, v / 16777216]
  }

  /** bytes.fromhex(t). */
  function FromHex(t: Text): Option<seq<Byte>> {
    if t == [] then Some([])
    else if |t| == 1 then None
    else
      var high, low := HexValue(t[0]), HexValue(t[1]);
      var rest := FromHex(t[2..]);
      if high.None? || low.None? || rest.None? then None else Some([high.value * 16 + low.value] + rest.value)
  }

  /** Each group of four bytes reversed. */
  function SwapWords(b: seq<Byte>): (r: seq<Byte>)
    requires |b| % 4 == 0
    ensures |r| == |b|
  {
    if b == [] then [] else [b[3], b[2], b[1], b[0]] + SwapWords(b[4..])
  }

  /** The shown address; None where the code raises. */
  function DecodeAddr(field: Text, ipv6: seq<Byte> -> Text): Option<Text> {
    var ip := Before(field, COLON);
    var port := HexNumber(if |ip| == |field| then [] else field[|ip| + 1..]);
    if port.None? then None
    else if |ip| == 8 then
      match HexNumber(ip)
      case None => None
      case Some(v) =>
        HexNumberBound(ip);
        Some(Dotted(PackLittle(v)) + [COLON] + Decimal(port.value))
    else if |ip| == 32 then
      match FromHex(ip)
      case None => None
      case Some(raw) =>
        FromHexLength(ip);
        Some(ipv6(SwapWords(raw)) + [COLON] + Decimal(port.value))
    else None
  }

  lemma {:induction false} HexBound(t: Text, n: nat)
    requires |t| == n && DigitsValue(t, 16).Some?
    ensures DigitsValue(t, 16).value < Pow16(n)
  {
    if n > 0 {
      HexBound(t[..n - 1], n - 1);
    }
  }

  lemma HexNumberBound(t: Text)
    requires |t| == 8 && HexNumber(t).Some?
    ensures 0 <= HexNumber(t).value < 0x1_0000_0000
  {
    HexBound(t, 8);
    assert Pow16(2) == 256 && Pow16(4) == 65536 && Pow16(6) == 16777216;
  }

  lemma {:induction false} FromHexLength(t: Text)
    requires FromHex(t).Some?
    ensures 2 * |FromHex(t).value| == |t|
  {
    if t != [] {
      FromHexLength(t[2..]);
    }
  }

  // ---------------------------------------------------------------------------------------------
  // The kernel's print format

  /** %X of one hexadecimal digit. */
  function UpperDigit(d: int): CodePoint
    requires 0 <= d < 16
  {
    if d < 10 then 0x30 + d else 0x41 + (d - 10)
  }

  /** %02X. */
  function Hex2(b: Byte): (t: Text)
    ensures |t| == 2
  {
    [UpperDigit(b / 16)] + [UpperDigit(b % 16)]
  }

  /** %08X of four bytes of memory read as a little-endian word: the last byte is printed first. */
  function KernelWord(b: seq<Byte>): (t: Text)
    requires |b| == 4
    ensures |t| == 8
  {
    Hex2(b[3]) + Hex2(b[2]) + Hex2(b[1]) + Hex2(b[0])
  }

  function KernelWords(b: seq<Byte>): (t: Text)
    requires |b| % 4 == 0
    ensures |t| == 2 * |b|
  {
    if b == [] then [] else KernelWord(b[..4]) + KernelWords(b[4..])
  }

  /** %04X of a port. */
  function KernelPort(port: int): Text
    requires 0 <= port < 65536
  {
    Hex2(port / 256) + Hex2(port % 256)
  }

  lemma DigitAppended(t: Text, d: int)
    requires 0 <= d < 16
    ensures DigitsValue(t + [UpperDigit(d)], 16)
         == if DigitsValue(t, 16).None? then None else Some(DigitsValue(t, 16).value * 16 + d)
  {
    var u := t + [UpperDigit(d)];
    assert u[..|u| - 1] == t;
    assert HexValue(UpperDigit(d)) == Some(d);
  }

  lemma Hex2Value(t: Text, b: Byte)
    ensures DigitsValue(t + Hex2(b), 16)
         == if DigitsValue(t, 16).None? then None else Some(DigitsValue(t, 16).value * 256 + b)
  {
    AppendAssoc(t, [UpperDigit(b / 16)], [UpperDigit(b % 16)]);
    DigitAppended(t, b / 16);
    DigitAppended(t + [UpperDigit(b / 16)], b % 16);
  }

  function LittleEndian(b: seq<Byte>): nat
    requires |b| == 4
  {
    var b0: int, b1: int, b2: int, b3: int := b[0], b[1], b[2], b[3];
    ((b3 * 256 + b2) * 256 + b1) * 256 + b0
  }

  lemma KernelWordValue(b: seq<Byte>)
    requires |b| == 4
    ensures DigitsValue(KernelWord(b), 16) == Some(LittleEndian(b))
  {
    Hex2Value([], b[3]);
    assert [] + Hex2(b[3]) == Hex2(b[3]);
    Hex2Value(Hex2(b[3]), b[2]);
    Hex2Value(Hex2(b[3]) + Hex2(b[2]), b[1]);
    Hex2Value(Hex2(b[3]) + Hex2(b[2]) + Hex2(b[1]), b[0]);
  }

  lemma PackUnpacks(b: seq<Byte>)
    requires |b| == 4
    ensures LittleEndian(b) < 0x1_0000_0000
    ensures PackLittle(LittleEndian(b)) == b
  {
    var b0: int, b1: int, b2: int, b3: int := b[0], b[1], b[2], b[3];
    var w1: int := b3 * 256 + b2;
    var w2: int := w1 * 256 + b1;
    var v: int := w2 * 256 + b0;
    assert v / 256 == w2 && v % 256 == b0;
    assert w2 / 256 == w1 && w2 % 256 == b1;
    assert v / 65536 == w1 && w1 % 256 == b2;
    assert v / 16777216 == b3;
  }

  lemma HexNoColon(b: Byte)
    ensures COLON !in Hex2(b)
  {
  }

  lemma WordNoColon(b: seq<Byte>)
    requires |b| == 4
    ensures COLON !in KernelWord(b)
  {
    HexNoColon(b[0]);
    HexNoColon(b[1]);
    HexNoColon(b[2]);
    HexNoColon(b[3]);
  }

  lemma {:induction false} WordsNoColon(b: seq<Byte>)
    requires |b| % 4 == 0
    ensures COLON !in KernelWords(b)
  {
    if b != [] {
      WordNoColon(b[..4]);
      WordsNoColon(b[4..]);
    }
  }

  lemma BeforeColon(ip: Text, rest: Text)
    requires COLON !in ip
    ensures Before(ip + [COLON] + rest, COLON) == ip
    ensures (ip + [COLON] + rest)[|ip| + 1..] == rest
  {
    FindFirst(ip, COLON, rest);
    assert (ip + [COLON] + rest)[..|ip|] == ip;
  }

  lemma PortValue(port: int)
    requires 0 <= port < 65536
    ensures HexNumber(KernelPort(port)) == Some(port)
  {
    Hex2Value([], port / 256);
    assert [] + Hex2(port / 256) == Hex2(port / 256);
    Hex2Value(Hex2(port / 256), port % 256);
  }

  /** Decoding inverts the kernel's print format for IPv4. */
  lemma DecodeInvertsV4(b: seq<Byte>, port: int, ipv6: seq<Byte> -> Text)
    requires |b| == 4 && 0 <= port < 65536
    ensures DecodeAddr(KernelWord(b) + [COLON] + KernelPort(port), ipv6) == Some(Dotted(b) + [COLON] + Decimal(port))
  {
    WordNoColon(b);
    BeforeColon(KernelWord(b), KernelPort(port));
    PortValue(port);
    KernelWordValue(b);
    PackUnpacks(b);
  }

  lemma FromHexByte(b: Byte, rest: Text)
    ensures FromHex(Hex2(b) + rest) == match FromHex(rest) case None => None case Some(r) => Some([b] + r)
  {
    var t := Hex2(b) + rest;
    assert t[2..] == rest && t[0] == UpperDigit(b / 16) && t[1] == UpperDigit(b % 16);
    assert HexValue(t[0]) == Some(b / 16) && HexValue(t[1]) == Some(b % 16);
  }

  lemma FromHexPair(a: Byte, b: Byte, rest: Text)
    requires FromHex(rest).Some?
    ensures FromHex(Hex2(a) + (Hex2(b) + rest)) == Some([a, b] + FromHex(rest).value)
  {
    FromHexByte(b, rest);
    FromHexByte(a, Hex2(b) + rest);
    var r: seq<Byte> := FromHex(rest).value;
    assert [a] + ([b] + r) == [a, b] + r;
  }

  lemma TwoByTwo(b: seq<Byte>, r: seq<Byte>)
    requires |b| == 4
    ensures [b[3], b[2]] + ([b[1], b[0]] + r) == [b[3], b[2], b[1], b[0]] + r
  {
  }

  lemma FromHexWord(b: seq<Byte>, rest: Text)
    requires |b| == 4 && FromHex(rest).Some?
    ensures FromHex(KernelWord(b) + rest) == Some([b[3], b[2], b[1], b[0]] + FromHex(rest).value)
  {
    var half := Hex2(b[1]) + (Hex2(b[0]) + rest);
    FromHexPair(b[1], b[0], rest);
    FromHexPair(b[3], b[2], half);
    AppendAssoc(Hex2(b[3]) + Hex2(b[2]) + Hex2(b[1]), Hex2(b[0]), rest);
    AppendAssoc(Hex2(b[3]) + Hex2(b[2]), Hex2(b[1]), Hex2(b[0]) + rest);
    AppendAssoc(Hex2(b[3]), Hex2(b[2]), half);
    TwoByTwo(b, FromHex(rest).value);
  }

  lemma {:induction false} FromHexWords(b: seq<Byte>)
    requires |b| % 4 == 0
    ensures FromHex(KernelWords(b)) == Some(SwapWords(b))
  {
    if b != [] {
      FromHexWords(b[4..]);
      FromHexWord(b[..4], KernelWords(b[4..]));
    }
  }

  /** Reversing the bytes of every word twice gives the bytes back. */
  lemma {:induction false} SwapTwice(b: seq<Byte>)
    requires |b| % 4 == 0
    ensures SwapWords(SwapWords(b)) == b
  {
    if b != [] {
      SwapTwice(b[4..]);
      var s := SwapWords(b);
      assert s == [b[3], b[2], b[1], b[0]] + SwapWords(b[4..]);
      assert s[4..] == SwapWords(b[4..]);
      assert SwapWords(s) == [s[3], s[2], s[1], s[0]] + SwapWords(s[4..]);
      assert b == [b[0], b[1], b[2], b[3]] + b[4..];
    }
  }

  /** Decoding recovers all sixteen bytes of an IPv6 address. */
  lemma DecodeInvertsV6(b: seq<Byte>, port: int, ipv6: seq<Byte> -> Text)
    requires |b| == 16 && 0 <= port < 65536
    ensures DecodeAddr(KernelWords(b) + [COLON] + KernelPort(port), ipv6) == Some(ipv6(b) + [COLON] + Decimal(port))
  {
    WordsNoColon(b);
    BeforeColon(KernelWords(b), KernelPort(port));
    PortValue(port);
    FromHexWords(b);
    SwapTwice(b);
  }

  // ---------------------------------------------------------------------------------------------
  // No two addresses look alike

  lemma FirstPart(a: Text, x: Text, b: Text, y: Text, sep: CodePoint)
    requires sep !in a && sep !in b
    requires a + [sep] + x == b + [sep] + y
    ensures a == b && x == y
  {
    FindFirst(a, sep, x);
    FindFirst(b, sep, y);
    assert (a + [sep] + x)[..|a|] == a && (b + [sep] + y)[..|b|] == b;
    assert (a + [sep] + x)[|a| + 1..] == x && (b + [sep] + y)[|b| + 1..] == y;
  }

  lemma LastPart(a: Text, x: Text, b: Text, y: Text, sep: CodePoint)
    requires sep !in x && sep !in y
    requires a + [sep] + x == b + [sep] + y
    ensures a == b && x == y
  {
    RFindLast(a, sep, x);
    RFindLast(b, sep, y);
    assert (a + [sep] + x)[..|a|] == a && (b + [sep] + y)[..|b|] == b;
    assert (a + [sep] + x)[|a| + 1..] == x && (b + [sep] + y)[|b| + 1..] == y;
  }

  lemma DecimalExcludes(n: int)
    ensures DOT !in Decimal(n) && COLON !in Decimal(n)
  {
    DecimalChars(n);
  }

  lemma DottedInjective(a: seq<Byte>, b: seq<Byte>)
    requires |a| == 4 && |b| == 4 && Dotted(a) == Dotted(b)
    ensures a == b
  {
    forall n: int ensures DOT !in Decimal(n) {
      DecimalExcludes(n);
    }
    var a3, b3 := Decimal(a[2]) + [DOT] + Decimal(a[3]), Decimal(b[2]) + [DOT] + Decimal(b[3]);
    var a2, b2 := Decimal(a[1]) + [DOT] + a3, Decimal(b[1]) + [DOT] + b3;
    FirstPart(Decimal(a[0]), a2, Decimal(b[0]), b2, DOT);
    FirstPart(Decimal(a[1]), a3, Decimal(b[1]), b3, DOT);
    FirstPart(Decimal(a[2]), Decimal(a[3]), Decimal(b[2]), Decimal(b[3]), DOT);
    DecimalInjective(a[0], b[0]);
    DecimalInjective(a[1], b[1]);
    DecimalInjective(a[2], b[2]);
    DecimalInjective(a[3], b[3]);
  }

  lemma EndpointInjective(a: Text, p: int, b: Text, q: int)
    requires a + [COLON] + Decimal(p) == b + [COLON] + Decimal(q)
    ensures a == b && p == q
  {
    DecimalExcludes(p);
    DecimalExcludes(q);
    LastPart(a, Decimal(p), b, Decimal(q), COLON);
    DecimalInjective(p, q);
  }

  lemma DottedNoColon(b: seq<Byte>)
    requires |b| == 4
    ensures COLON !in Dotted(b)
  {
    DecimalExcludes(b[0]);
    DecimalExcludes(b[1]);
    DecimalExcludes(b[2]);
    DecimalExcludes(b[3]);
  }

  /** The text form of an address of either family. */
  function AddressText(b: seq<Byte>, ipv6: seq<Byte> -> Text): Text
    requires |b| == 4 || |b| == 16
  {
    if |b| == 4 then Dotted(b) else ipv6(b)
  }

  lemma DecodeInverts(b: seq<Byte>, port: int, ipv6: seq<Byte> -> Text)
    requires (|b| == 4 || |b| == 16) && 0 <= port < 65536
    ensures DecodeAddr(KernelWords(b) + [COLON] + KernelPort(port), ipv6) == Some(AddressText(b, ipv6) + [COLON] + Decimal(port))
  {
    if |b| == 4 {
      OneWord(b);
      DecodeInvertsV4(b, port, ipv6);
    } else {
      DecodeInvertsV6(b, port, ipv6);
    }
  }

  lemma AddressTextInjective(a: seq<Byte>, b: seq<Byte>, ipv6: seq<Byte> -> Text)
    requires (|a| == 4 || |a| == 16) && (|b| == 4 || |b| == 16)
    requires forall x, y :: ipv6(x) == ipv6(y) ==> x == y
    requires forall x :: COLON in ipv6(x)
    requires AddressText(a, ipv6) == AddressText(b, ipv6)
    ensures a == b
  {
    if |a| == 4 && |b| == 4 {
      DottedInjective(a, b);
    } else if |a| == 4 {
      DottedNoColon(a);
    } else if |b| == 4 {
      DottedNoColon(b);
    }
  }

  /** Two kernel fields of either family that decode alike hold the same address and port, given that
      the IPv6 text form tells addresses apart and has a colon in it. */
  lemma DecodeInjective(a: seq<Byte>, p: int, b: seq<Byte>, q: int, ipv6: seq<Byte> -> Text)
    requires (|a| == 4 || |a| == 16) && (|b| == 4 || |b| == 16) && 0 <= p < 65536 && 0 <= q < 65536
    requires forall x, y :: ipv6(x) == ipv6(y) ==> x == y
    requires forall x :: COLON in ipv6(x)
    requires DecodeAddr(KernelWords(a) + [COLON] + KernelPort(p), ipv6)
          == DecodeAddr(KernelWords(b) + [COLON] + KernelPort(q), ipv6)
    ensures a == b && p == q
  {
    DecodeInverts(a, p, ipv6);
    DecodeInverts(b, q, ipv6);
    EndpointInjective(AddressText(a, ipv6), p, AddressText(b, ipv6), q);
    AddressTextInjective(a, b, ipv6);
  }

  lemma OneWord(b: seq<Byte>)
    requires |b| == 4
    ensures KernelWords(b) == KernelWord(b)
  {
    assert b[..4] == b && b[4..] == [];
    assert KernelWords(b) == KernelWord(b) + KernelWords(b[4..]);
  }

  // ---------------------------------------------------------------------------------------------
  // parse_net_tcp

  function Upper(t: Text): Text {
    seq(|t|, i requires 0 <= i < |t| => if 0x61 <= t[i] <= 0x7A then t[i] - 0x20 else t[i])
  }

  /** The TCP state names by code; an unknown code is shown as it is. */
  function StateOf(code: Text): Text {
    var c := Upper(code);
    if c == Lit("01") then Lit("ESTABLISHED")
    else if c == Lit("02") then Lit("SYN_SENT")
    else if c == Lit("03") then Lit("SYN_RECV")
    else if c == Lit("04") then Lit("FIN_WAIT1")
    else if c == Lit("05") then Lit("FIN_WAIT2")
    else if c == Lit("06") then Lit("TIME_WAIT")
    else if c == Lit("07") then Lit("CLOSE")
    else if c == Lit("08") then Lit("CLOSE_WAIT")
    else if c == Lit("09") then Lit("LAST_ACK")
    else if c == Lit("0A") then Lit("LISTEN")
    else if c == Lit("0B") then Lit("CLOSING")
    else if c == Lit("0C") then Lit("NEW_SYN_RECV")
    else code
  }

  /** Header lines and blank lines are skipped: only a first token ending in ':' starts a row. */
  predicate IsRow(parts: seq<Text>) {
    parts != [] && parts[0] != Lit("sl") && parts[0] != [] && parts[0][|parts[0]| - 1] == COLON
  }

  /** The row of a line; None where the parser raises SocketParseError. */
  function RowOf(parts: seq<Text>, kind: Text, ipv6: seq<Byte> -> Text): Option<NetRow> {
    if |parts| < 10 then None
    else
      var inode, uid := IntOf(parts[9]), IntOf(parts[7]);
      var local, remote := DecodeAddr(parts[1], ipv6), DecodeAddr(parts[2], ipv6);
      if inode.None? || uid.None? || local.None? || remote.None? then None
      else Some(NetRow(inode.value, kind, StateOf(parts[3]), local.value, remote.value, uid.value))
  }

  /** The rows of a table, in order; None when some row is bad. */
  function TableRows(lines: seq<Text>, kind: Text, ipv6: seq<Byte> -> Text): Option<seq<NetRow>> {
    if lines == [] then Some([])
    else
      var before := TableRows(lines[..|lines| - 1], kind, ipv6);
      var parts := Split(lines[|lines| - 1]);
      if !IsRow(parts) || before.None? then before
      else
        match RowOf(parts, kind, ipv6)
        case None => None
        case Some(row) => Some(before.value + [row])
  }

  lemma {:induction false} BadTableStays(lines: seq<Text>, k: nat, kind: Text, ipv6: seq<Byte> -> Text)
    requires k <= |lines| && TableRows(lines[..k], kind, ipv6).None?
    ensures TableRows(lines, kind, ipv6).None?
    decreases |lines|
  {
    if k == |lines| {
      assert lines[..k] == lines;
    } else {
      assert lines[..|lines| - 1][..k] == lines[..k];
      BadTableStays(lines[..|lines| - 1], k, kind, ipv6);
    }
  }

  lemma TableStep(lines: seq<Text>, line: Text, kind: Text, ipv6: seq<Byte> -> Text)
    ensures TableRows(lines + [line], kind, ipv6)
         == if !IsRow(Split(line)) || TableRows(lines, kind, ipv6).None? then TableRows(lines, kind, ipv6)
            else match RowOf(Split(line), kind, ipv6)
                 case None => None
                 case Some(row) => Some(TableRows(lines, kind, ipv6).value + [row])
  {
    assert (lines + [line])[..|lines|] == lines;
  }

  method ParseNetTable(text: Text, kind: Text, ipv6: seq<Byte> -> Text) returns (rows: Option<seq<NetRow>>)
    ensures rows == TableRows(SplitLines(text), kind, ipv6)
  {
    var lines := SplitLines(text);
    var out: seq<NetRow> := [];
    for i := 0 to |lines|
      invariant TableRows(lines[..i], kind, ipv6) == Some(out)
    {
      TakeOneMore(lines, i);
      TableStep(lines[..i], lines[i], kind, ipv6);
      var parts := Split(lines[i]);
      if IsRow(parts) {
        var row := RowOf(parts, kind, ipv6);
        if row.None? {
          BadTableStays(lines, i + 1, kind, ipv6);
          return None;
        }
        out := out + [row.value];
      }
    }
    assert lines[..|lines|] == lines;
    rows := Some(out);
  }

  // ---------------------------------------------------------------------------------------------
  // The kernel's table

  datatype Endpoint = Endpoint(address: seq<Byte>, port: int)

  predicate ValidEndpoint(e: Endpoint) {
    (|e.address| == 4 || |e.address| == 16) && 0 <= e.port < 65536
  }

  function PrintEndpoint(e: Endpoint): Text
    requires ValidEndpoint(e)
  {
    KernelWords(e.address) + [COLON] + KernelPort(e.port)
  }

  function ShowEndpoint(e: Endpoint, ipv6: seq<Byte> -> Text): Text
    requires ValidEndpoint(e)
  {
    AddressText(e.address, ipv6) + [COLON] + Decimal(e.port)
  }

  /** One row: its number, both endpoints, the state code, three columns that are not read, the uid,
      one more, the inode, and whatever follows. */
  datatype KernelRow = KernelRow(
    slot: int, local: Endpoint, remote: Endpoint, code: Text, skipped: seq<Text>, uid: int, timeout: Text,
    inode: int, rest: seq<Text>)

  predicate ValidRow(r: KernelRow) {
    && ValidEndpoint(r.local) && ValidEndpoint(r.remote)
    && IsToken(r.code) && Tokens(r.skipped) && |r.skipped| == 3 && IsToken(r.timeout) && Tokens(r.rest)
  }

  function Columns(r: KernelRow): seq<Text>
    requires ValidRow(r)
  {
    [Decimal(r.slot) + [COLON], PrintEndpoint(r.local), PrintEndpoint(r.remote), r.code] + r.skipped
    + [Decimal(r.uid), r.timeout, Decimal(r.inode)] + r.rest
  }

  function ShowRow(r: KernelRow, kind: Text, ipv6: seq<Byte> -> Text): NetRow
    requires ValidRow(r)
  {
    NetRow(r.inode, kind, StateOf(r.code), ShowEndpoint(r.local, ipv6), ShowEndpoint(r.remote, ipv6), r.uid)
  }

  lemma HexNoSpace(b: Byte)
    ensures NoSpace(Hex2(b))
  {
  }

  lemma NoSpaceConcat(a: Text, b: Text)
    requires NoSpace(a) && NoSpace(b)
    ensures NoSpace(a + b)
  {
  }

  lemma WordNoSpace(b: seq<Byte>)
    requires |b| == 4
    ensures NoSpace(KernelWord(b))
  {
    HexNoSpace(b[0]);
    HexNoSpace(b[1]);
    HexNoSpace(b[2]);
    HexNoSpace(b[3]);
    NoSpaceConcat(Hex2(b[3]), Hex2(b[2]));
    NoSpaceConcat(Hex2(b[3]) + Hex2(b[2]), Hex2(b[1]));
    NoSpaceConcat(Hex2(b[3]) + Hex2(b[2]) + Hex2(b[1]), Hex2(b[0]));
  }

  lemma {:induction false} WordsNoSpace(b: seq<Byte>)
    requires |b| % 4 == 0
    ensures NoSpace(KernelWords(b))
  {
    if b != [] {
      WordNoSpace(b[..4]);
      WordsNoSpace(b[4..]);
      NoSpaceConcat(KernelWord(b[..4]), KernelWords(b[4..]));
    }
  }

  lemma EndpointRoundTrip(e: Endpoint, ipv6: seq<Byte> -> Text)
    requires ValidEndpoint(e)
    ensures PrintEndpoint(e) != [] && NoSpace(PrintEndpoint(e))
    ensures DecodeAddr(PrintEndpoint(e), ipv6) == Some(ShowEndpoint(e, ipv6))
  {
    WordsNoSpace(e.address);
    HexNoSpace(e.port / 256);
    HexNoSpace(e.port % 256);
    NoSpaceConcat(Hex2(e.port / 256), Hex2(e.port % 256));
    NoSpaceConcat(KernelWords(e.address), [COLON]);
    NoSpaceConcat(KernelWords(e.address) + [COLON], KernelPort(e.port));
    DecodeInverts(e.address, e.port, ipv6);
  }

  lemma TokensConcat(a: seq<Text>, b: seq<Text>)
    requires Tokens(a) && Tokens(b)
    ensures Tokens(a + b)
  {
  }

  predicate IsToken(t: Text) {
    t != [] && NoSpace(t)
  }

  lemma FourTokens(a: Text, b: Text, c: Text, d: Text)
    requires IsToken(a) && IsToken(b) && IsToken(c) && IsToken(d)
    ensures Tokens([a, b, c, d])
  {
  }

  lemma ThreeTokens(a: Text, b: Text, c: Text)
    requires IsToken(a) && IsToken(b) && IsToken(c)
    ensures Tokens([a, b, c])
  {
  }

  lemma SlotToken(slot: int)
    ensures var t := Decimal(slot) + [COLON]; IsToken(t) && t != Lit("sl") && t[|t| - 1] == COLON
  {
    DecimalToken(slot);
    NoSpaceConcat(Decimal(slot), [COLON]);
    var t := Decimal(slot) + [COLON];
    assert t[|t| - 1] == COLON && Lit("sl")[1] == 'l' as int;
  }

  lemma ColumnsAreTokens(r: KernelRow, ipv6: seq<Byte> -> Text)
    requires ValidRow(r)
    ensures Tokens(Columns(r))
  {
    SlotToken(r.slot);
    EndpointRoundTrip(r.local, ipv6);
    EndpointRoundTrip(r.remote, ipv6);
    DecimalToken(r.uid);
    DecimalToken(r.inode);
    var head := [Decimal(r.slot) + [COLON], PrintEndpoint(r.local), PrintEndpoint(r.remote), r.code];
    var tail := [Decimal(r.uid), r.timeout, Decimal(r.inode)];
    FourTokens(head[0], head[1], head[2], head[3]);
    ThreeTokens(tail[0], tail[1], tail[2]);
    TokensConcat(head, r.skipped);
    TokensConcat(head + r.skipped, tail);
    TokensConcat(head + r.skipped + tail, r.rest);
  }

  lemma ColumnsAt(r: KernelRow)
    requires ValidRow(r)
    ensures var c := Columns(r);
      && |c| >= 10 && c[0] == Decimal(r.slot) + [COLON] && c[1] == PrintEndpoint(r.local)
      && c[2] == PrintEndpoint(r.remote) && c[3] == r.code && c[7] == Decimal(r.uid) && c[9] == Decimal(r.inode)
  {
  }

  lemma RowFrom(parts: seq<Text>, kind: Text, ipv6: seq<Byte> -> Text, inode: int, uid: int, local: Text, remote: Text)
    requires |parts| >= 10 && IntOf(parts[9]) == Some(inode) && IntOf(parts[7]) == Some(uid)
    requires DecodeAddr(parts[1], ipv6) == Some(local) && DecodeAddr(parts[2], ipv6) == Some(remote)
    ensures RowOf(parts, kind, ipv6) == Some(NetRow(inode, kind, StateOf(parts[3]), local, remote, uid))
  {
  }

  lemma ColumnsRead(r: KernelRow, kind: Text, ipv6: seq<Byte> -> Text)
    requires ValidRow(r)
    ensures IsRow(Columns(r)) && RowOf(Columns(r), kind, ipv6) == Some(ShowRow(r, kind, ipv6))
  {
    SlotToken(r.slot);
    EndpointRoundTrip(r.local, ipv6);
    EndpointRoundTrip(r.remote, ipv6);
    DecimalToken(r.uid);
    DecimalToken(r.inode);
    ColumnsAt(r);
    RowFrom(Columns(r), kind, ipv6, r.inode, r.uid, ShowEndpoint(r.local, ipv6), ShowEndpoint(r.remote, ipv6));
  }

  /** A row as the kernel prints it: columns padded with spaces, blanks in front and perhaps behind. */
  datatype PrintedRow = PrintedRow(row: KernelRow, gaps: seq<Text>)

  predicate ValidPrinted(r: PrintedRow) {
    ValidRow(r.row) && Gaps(r.gaps, |Columns(r.row)|) && NoBreaks(r.gaps)
  }

  function PrintRow(r: PrintedRow): Text
    requires ValidPrinted(r)
  {
    Spaced(Columns(r.row), r.gaps)
  }

  /** A printed row is read back: inode, state, both endpoints the right way round, and uid. */
  lemma RowRoundTrip(r: PrintedRow, kind: Text, ipv6: seq<Byte> -> Text)
    requires ValidPrinted(r)
    ensures IsRow(Split(PrintRow(r))) && RowOf(Split(PrintRow(r)), kind, ipv6) == Some(ShowRow(r.row, kind, ipv6))
    ensures NoBreak(PrintRow(r))
  {
    ColumnsAreTokens(r.row, ipv6);
    SplitSpaced(Columns(r.row), r.gaps);
    SpacedNoBreak(Columns(r.row), r.gaps);
    ColumnsRead(r.row, kind, ipv6);
  }

  predicate ValidTable(rows: seq<PrintedRow>) {
    forall i :: 0 <= i < |rows| ==> ValidPrinted(rows[i])
  }

  function PrintRows(rows: seq<PrintedRow>): seq<Text>
    requires ValidTable(rows)
  {
    if rows == [] then [] else PrintRows(rows[..|rows| - 1]) + [PrintRow(rows[|rows| - 1])]
  }

  function ShowRows(rows: seq<PrintedRow>, kind: Text, ipv6: seq<Byte> -> Text): seq<NetRow>
    requires ValidTable(rows)
  {
    if rows == [] then []
    else ShowRows(rows[..|rows| - 1], kind, ipv6) + [ShowRow(rows[|rows| - 1].row, kind, ipv6)]
  }

  lemma RowAppends(lines: seq<Text>, r: PrintedRow, kind: Text, ipv6: seq<Byte> -> Text)
    requires ValidPrinted(r) && TableRows(lines, kind, ipv6).Some?
    ensures TableRows(lines + [PrintRow(r)], kind, ipv6)
         == Some(TableRows(lines, kind, ipv6).value + [ShowRow(r.row, kind, ipv6)])
  {
    RowRoundTrip(r, kind, ipv6);
    TableStep(lines, PrintRow(r), kind, ipv6);
  }

  lemma {:induction false} RowsRead(header: Text, rows: seq<PrintedRow>, kind: Text, ipv6: seq<Byte> -> Text)
    requires !IsRow(Split(header)) && ValidTable(rows)
    ensures TableRows([header] + PrintRows(rows), kind, ipv6) == Some(ShowRows(rows, kind, ipv6))
  {
    if rows == [] {
      TableStep([], header, kind, ipv6);
      assert [] + [header] == [header] + PrintRows(rows);
    } else {
      var n := |rows| - 1;
      RowsRead(header, rows[..n], kind, ipv6);
      RowAppends([header] + PrintRows(rows[..n]), rows[n], kind, ipv6);
      AppendAssoc([header], PrintRows(rows[..n]), [PrintRow(rows[n])]);
    }
  }

  lemma {:induction false} RowsNoBreak(rows: seq<PrintedRow>, kind: Text, ipv6: seq<Byte> -> Text)
    requires ValidTable(rows)
    ensures NoBreaks(PrintRows(rows))
  {
    if rows != [] {
      RowsNoBreak(rows[..|rows| - 1], kind, ipv6);
      RowRoundTrip(rows[|rows| - 1], kind, ipv6);
    }
  }

  /** The text of a printed table, header and all, is read back row by row. */
  lemma TableRoundTrip(header: Text, rows: seq<PrintedRow>, kind: Text, ipv6: seq<Byte> -> Text)
    requires NoBreak(header) && !IsRow(Split(header)) && ValidTable(rows)
    ensures TableRows(SplitLines(Unlines([header] + PrintRows(rows))), kind, ipv6) == Some(ShowRows(rows, kind, ipv6))
  {
    RowsNoBreak(rows, kind, ipv6);
    SplitUnlines([header] + PrintRows(rows));
    RowsRead(header, rows, kind, ipv6);
  }
}
