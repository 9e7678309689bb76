/** Python strings as sequences of code points, and the string operations the program leans on.

    Lone surrogates occur in the program's input (json.loads can produce them), so a string is a
    sequence of numbers below 0x110000 rather than a sequence of Dafny characters. */
module Text {

  datatype Option<+T> = None | Some(value: T)

  type CodePoint = n: int | 0 <= n < 0x110000
  type Text = seq<CodePoint>

  const NEWLINE: CodePoint := 0x0A
  const RETURN: CodePoint := 0x0D
  const TAB: CodePoint := 0x09
  const SPACE: CodePoint := 0x20
  const BACKSLASH: CodePoint := 0x5C
  const BACKTICK: CodePoint := 0x60
  const TILDE: CodePoint := 0x7E
  const DASH: CodePoint := 0x2D

  /** A string literal of the program, as text. */
  function Lit(s: string): (t: Text)
    ensures |t| == |s|
    ensures forall i :: 0 <= i < |s| ==> t[i] == s[i] as int
  {
    seq(|s|, i requires 0 <= i < |s| => s[i] as int)
  }

  function Repeat(c: CodePoint, n: nat): (t: Text)
    ensures |t| == n
    ensures forall i :: 0 <= i < n ==> t[i] == c
  {
    seq(n, _ => c)
  }

  lemma AppendAssoc<T>(a: seq<T>, b: seq<T>, c: seq<T>)
    ensures (a + b) + c == a + (b + c)
  {
  }

  lemma DropFront<T>(a: seq<T>, b: seq<T>, k: nat)
    requires k <= |a|
    ensures (a + b)[k..] == a[k..] + b
  {
  }

  lemma TakeOneMore<T>(xs: seq<T>, i: nat)
    requires i < |xs|
    ensures xs[..i + 1] == xs[..i] + [xs[i]]
  {
  }

  lemma TakeFront<T>(a: seq<T>, b: seq<T>)
    ensures (a + b)[..|a|] == a && (a + b)[|a|..] == b
  {
  }

  function Concat(parts: seq<Text>): Text {
    if parts == [] then [] else parts[0] + Concat(parts[1..])
  }

  lemma ConcatAppend(a: seq<Text>, b: seq<Text>)
    ensures Concat(a + b) == Concat(a) + Concat(b)
  {
    if a == [] {
      assert a + b == b;
    } else {
      assert (a + b)[1..] == a[1..] + b;
    }
  }

  /** Python's `sep.join(parts)`. */
  function Join(sep: Text, parts: seq<Text>): Text {
    if parts == [] then []
    else if |parts| == 1 then parts[0]
    else parts[0] + sep + Join(sep, parts[1..])
  }

  // ---------------------------------------------------------------------------------------------
  // Numbers in text

  /** The digit characters 0-9 a-f. */
  function HexDigit(d: int): (c: CodePoint)
    requires 0 <= d < 16
  {
    if d < 10 then 0x30 + d else 0x61 + (d - 10)
  }

  /** Python's int(c, 16) on one character: both letter cases, None on anything else. */
  function HexValue(c: CodePoint): (v: Option<int>)
    ensures v.Some? ==> 0 <= v.value < 16
  {
    if 0x30 <= c <= 0x39 then Some(c - 0x30)
    else if 0x61 <= c <= 0x66 then Some(c - 0x61 + 10)
    else if 0x41 <= c <= 0x46 then Some(c - 0x41 + 10)
    else None
  }

  /** The digits of n in a base, most significant first, without leading zeros ("0" for zero). */
  function Digits(n: nat, base: int): (t: Text)
    requires base == 10 || base == 16
    ensures |t| > 0
  {
    if n < base then [HexDigit(n)] else Digits(n / base, base) + [HexDigit(n % base)]
  }

  function Pow16(w: nat): (p: nat)
    ensures p > 0
  {
    if w == 0 then 1 else 16 * Pow16(w - 1)
  }

  /** The number a string of digits denotes; None when some character is not a digit of the base. */
  function DigitsValue(t: Text, base: int): (v: Option<int>)
    requires base == 10 || base == 16
    ensures v.Some? ==> v.value >= 0
  {
    if t == [] then Some(0)
    else
      var high := DigitsValue(t[..|t| - 1], base);
      var low := HexValue(t[|t| - 1]);
      if high.None? || low.None? || low.value >= base then None
      else Some(high.value * base + low.value)
  }

  lemma QuotientAndRest(n: nat, base: int)
    requires base == 10 || base == 16
    ensures n / base * base + n % base == n
  {
    assert base == 10 ==> n / 10 * 10 + n % 10 == n;
  }

  lemma LastDigit(high: Text, d: int, base: int)
    requires (base == 10 || base == 16) && 0 <= d < base
    ensures DigitsValue(high + [HexDigit(d)], base)
         == match DigitsValue(high, base) case None => None case Some(v) => Some(v * base + d)
  {
    var t := high + [HexDigit(d)];
    assert t[..|t| - 1] == high;
    assert HexValue(HexDigit(d)) == Some(d);
  }

  lemma {:induction false} DigitsRoundTrip(n: nat, base: int)
    requires base == 10 || base == 16
    ensures DigitsValue(Digits(n, base), base) == Some(n)
  {
    if n < base {
      assert Digits(n, base)[..0] == [];
    } else {
      DigitsRoundTrip(n / base, base);
      LastDigit(Digits(n / base, base), n % base, base);
      QuotientAndRest(n, base);
    }
  }

  /** Every character of a printed number is a decimal or lower-case hexadecimal digit. */
  predicate IsDigit(c: CodePoint) {
    0x30 <= c <= 0x39 || 0x61 <= c <= 0x66
  }

  lemma {:induction false} DigitsAreDigits(n: nat, base: int)
    requires base == 10 || base == 16
    ensures forall c :: c in Digits(n, base) ==> IsDigit(c) && (base <= 10 ==> 0x30 <= c <= 0x39)
  {
    if n >= base {
      DigitsAreDigits(n / base, base);
    }
  }

  /** Python's str(n) for an integer. */
  function Decimal(n: int): (t: Text)
    ensures |t| > 0
  {
    if n < 0 then [DASH] + Digits(-n, 10) else Digits(n, 10)
  }

  lemma DecimalChars(n: int)
    ensures forall c :: c in Decimal(n) ==> c == DASH || 0x30 <= c <= 0x39
  {
    DigitsAreDigits(if n < 0 then -n else n, 10);
  }

  /** Python's int(t) on an optionally signed run of ASCII decimal digits; None where it raises. */
  function ParseInt(t: Text): Option<int> {
    if t == [] then None
    else if t[0] == DASH then
      (if |t| == 1 then None
       else match DigitsValue(t[1..], 10) case None => None case Some(v) => Some(-v))
    else if t[0] == 0x2B then
      (if |t| == 1 then None else DigitsValue(t[1..], 10))
    else DigitsValue(t, 10)
  }

  lemma DecimalRoundTrip(n: int)
    ensures ParseInt(Decimal(n)) == Some(n)
  {
    DigitsAreDigits(if n < 0 then -n else n, 10);
    DigitsRoundTrip(if n < 0 then -n else n, 10);
    if n < 0 {
      assert Decimal(n)[1..] == Digits(-n, 10);
    } else {
      assert Digits(n, 10)[0] in Digits(n, 10);
    }
  }

  lemma DecimalInjective(a: int, b: int)
    requires Decimal(a) == Decimal(b)
    ensures a == b
  {
    DecimalRoundTrip(a);
    DecimalRoundTrip(b);
  }
}
