/** 64-bit integers and their decimal text (internal/lint/refs.go:163-188). */
module Numbers {

  const MIN_INT64: int := -0x8000_0000_0000_0000
  const MAX_INT64: int := 0x7FFF_FFFF_FFFF_FFFF
  const TWO_64: int := 0x1_0000_0000_0000_0000

  /** Two's-complement wrap-around: the int64 congruent to `i` modulo 2^64. */
  function Wrap(i: int): (r: int)
    ensures MIN_INT64 <= r <= MAX_INT64
    ensures r % TWO_64 == i % TWO_64
    ensures MIN_INT64 <= i <= MAX_INT64 ==> r == i
  {
    var m := i % TWO_64;
    if m > MAX_INT64 then m - TWO_64 else m
  }

  /** One step of digit accumulation does not care whether its operand was already wrapped. */
  lemma WrapAccumulate(v: int, d: int)
    ensures Wrap(Wrap(v) * 10 + d) == Wrap(v * 10 + d)
  {
    var k := (v - Wrap(v)) / TWO_64;
    assert v == Wrap(v) + k * TWO_64;
    var x, y := Wrap(v) * 10 + d, v * 10 + d;
    assert y == x + 10 * k * TWO_64;
    assert y % TWO_64 == x % TWO_64;
  }

  predicate IsDigit(c: char) {
    '0' <= c <= '9'
  }

  function DigitValue(c: char): (d: nat)
    requires IsDigit(c)
    ensures d < 10
  {
    c as int - '0' as int
  }

  function DigitChar(d: nat): (c: char)
    requires d < 10
    ensures IsDigit(c) && DigitValue(c) == d
  {
    ('0' as int + d) as char
  }

  predicate AllDigits(s: string) {
    forall i | 0 <= i < |s| :: IsDigit(s[i])
  }

  /** The number a digit string denotes; the empty string denotes zero. */
  function Value(s: string): nat
    requires AllDigits(s)
  {
    if s == "" then 0 else Value(s[..|s| - 1]) * 10 + DigitValue(s[|s| - 1])
  }

  function Decimal(n: nat): string {
    if n < 10 then [DigitChar(n)] else Decimal(n / 10) + [DigitChar(n % 10)]
  }

  function DecimalInt(i: int): string {
    if i < 0 then "-" + Decimal(-i) else Decimal(i)
  }

  /** Reads what `DecimalInt` prints: an optional minus sign and at least one digit. */
  predicate IsNumeral(s: string) {
    s != "" && AllDigits(if s[0] == '-' then s[1..] else s) && s != "-"
  }

  function Read(s: string): int
    requires IsNumeral(s)
  {
    if s[0] == '-' then 0 - Value(s[1..]) else Value(s)
  }

  /** Canonical numerals have no superfluous leading zero and no negative zero. */
  predicate Canonical(s: string)
    requires IsNumeral(s)
  {
    var digits := if s[0] == '-' then s[1..] else s;
    digits[0] == '0' ==> s == "0"
  }

  lemma {:induction false} DecimalReadsBack(n: nat)
    ensures AllDigits(Decimal(n)) && Decimal(n) != ""
    ensures Value(Decimal(n)) == n
    ensures Decimal(n)[0] == '0' ==> n == 0
  {
    if n < 10 {
      assert Decimal(n) == [DigitChar(n)];
      assert Decimal(n)[..0] == "";
      assert Value(Decimal(n)[..0]) == 0;
    } else {
      DecimalReadsBack(n / 10);
      var s := Decimal(n);
      assert s[..|s| - 1] == Decimal(n / 10);
      assert s[|s| - 1] == DigitChar(n % 10);
    }
  }

  /** Print/parse round trip: canonical text that reads back to the number printed. */
  lemma PrintReadRoundTrip(i: int)
    ensures IsNumeral(DecimalInt(i))
    ensures Read(DecimalInt(i)) == i
    ensures Canonical(DecimalInt(i))
  {
    DecimalReadsBack(if i < 0 then -i else i);
    if i < 0 {
      assert DecimalInt(i)[1..] == Decimal(-i);
    }
  }

  lemma DecimalInjective(m: int, n: int)
    requires DecimalInt(m) == DecimalInt(n)
    ensures m == n
  {
    PrintReadRoundTrip(m);
    PrintReadRoundTrip(n);
  }

  function Pow10(k: nat): (p: nat)
    ensures p > 0
  {
    if k == 0 then 1 else 10 * Pow10(k - 1)
  }

  lemma {:induction false} DecimalLength(n: nat, k: nat)
    requires 0 < k && n < Pow10(k)
    ensures 1 <= |Decimal(n)| <= k
  {
    if n >= 10 {
      assert k > 1;
      DecimalLength(n / 10, k - 1);
    }
  }

  /** An int64 magnitude prints in at most 19 digits, one less than the buffer holds. */
  lemma Int64Length(n: nat)
    requires n <= MAX_INT64
    ensures 1 <= |Decimal(n)| <= 19
  {
    assert Pow10(10) == 1_0000000000 by {
      assert Pow10(5) == 100000;
    }
    assert Pow10(15) == 1_00000_0000000000 by {
      assert Pow10(12) == 100 * Pow10(10);
    }
    assert Pow10(19) == 1_0000_00000_0000000000 by {
      assert Pow10(17) == 100 * Pow10(15);
    }
    DecimalLength(n, 19);
  }

  /** The sign test and the wrapping negation; only the smallest int64 stays negative. */
  method Magnitude(n: int) returns (i: int, neg: bool)
    requires MIN_INT64 <= n <= MAX_INT64
    ensures neg <==> n < 0
    ensures i == if n == MIN_INT64 then MIN_INT64 else if n < 0 then -n else n
  {
    i, neg := n, n < 0;
    if neg {
      i := Wrap(-i);
    }
  }

  /** What is left to print once the buffer holds the lower digits. */
  function Pending(i: int): string {
    if i <= 0 then "" else Decimal(i)
  }

  lemma PendingStep(i: nat, tail: string)
    requires 0 < i
    ensures Pending(i) != ""
    ensures Pending(i) + tail == Pending(i / 10) + ([DigitChar(i % 10)] + tail)
  {
  }

  /** What `itoa` returns: the negation of the smallest int64 wraps and prints no digit. */
  function ItoaText(n: int): string {
    if n == MIN_INT64 then "-" else DecimalInt(n)
  }

  /** `itoa` prints canonical decimal that reads back exactly off the smallest int64. */
  lemma ItoaExact(n: int)
    requires MIN_INT64 <= n <= MAX_INT64
    ensures var s := ItoaText(n);
            (IsNumeral(s) && Read(s) == n && Canonical(s)) <==> n != MIN_INT64
  {
    PrintReadRoundTrip(n);
  }

  /** Stores one character in front of the text that ends the buffer. */
  method Put(buf: array<char>, pos: nat, c: char)
    requires 0 < pos <= buf.Length
    modifies buf
    ensures buf[pos - 1..] == [c] + old(buf[pos..])
  {
    buf[pos - 1] := c;
  }

  /** The digit loop of `itoa`: it fills the buffer from its end. */
  method WriteDigits(buf: array<char>, n: int) returns (pos: nat)
    requires buf.Length == 20 && n <= MAX_INT64
    modifies buf
    ensures 1 <= pos <= 20 && buf[pos..] == Pending(n)
  {
    PendingLength(n);
    var i := n;
    pos := 20;
    while i > 0
      invariant 1 <= pos <= 20
      invariant Pending(n) == Pending(i) + buf[pos..]
    {
      PendingStep(i, buf[pos..]);
      Put(buf, pos, DigitChar(i % 10));
      pos := pos - 1;
      i := i / 10;
    }
  }

  lemma PendingLength(i: int)
    requires i <= MAX_INT64
    ensures |Pending(i)| <= 19
  {
    if i > 0 {
      Int64Length(i);
    }
  }

  /**
   The hand-written printer: digits are written from the end of a 20-byte buffer, and the
   negation wraps, so the one int64 it gets wrong is the smallest.
   */
  method Itoa(n: int) returns (s: string)
    requires MIN_INT64 <= n <= MAX_INT64
    ensures s == ItoaText(n)
  {
    if n == 0 {
      return "0";
    }
    var i, neg := Magnitude(n);
    var buf := new char[20];
    var pos := WriteDigits(buf, i);
    if neg {
      Put(buf, pos, '-');
      pos := pos - 1;
    }
    s := buf[pos..];
  }

  /** The path of a finding inside an indexed list (`refPath`). */
  function RefPath(base: string, idx: nat, leaf: string): string {
    base + "[" + Decimal(idx) + "]." + leaf
  }

  /** The first closing bracket ends the numeral. */
  lemma NumeralEnds(a: string, x: string, b: string, y: string)
    requires AllDigits(a) && AllDigits(b)
    requires a + "]" + x == b + "]" + y
    ensures a == b && x == y
  {
    var s := a + "]" + x;
    assert s[|a|] == ']' && forall k | 0 <= k < |a| :: s[k] == a[k] && s[k] != ']';
    assert s == b + "]" + y;
    assert s[|b|] == ']' && forall k | 0 <= k < |b| :: s[k] == b[k] && s[k] != ']';
    assert |a| == |b|;
    assert s[..|a|] == a && s[..|b|] == b;
    assert s[|a| + 1..] == x && s[|b| + 1..] == y;
  }

  /** With the base fixed, a path determines both its index and its leaf. */
  lemma RefPathInjective(base: string, i: nat, leaf: string, j: nat, other: string)
    requires RefPath(base, i, leaf) == RefPath(base, j, other)
    ensures i == j && leaf == other
  {
    DecimalReadsBack(i);
    DecimalReadsBack(j);
    var x, y := Decimal(i) + "]" + ("." + leaf), Decimal(j) + "]" + ("." + other);
    assert RefPath(base, i, leaf) == base + "[" + x && RefPath(base, j, other) == base + "[" + y;
    assert (base + "[" + x)[|base| + 1..] == x && (base + "[" + y)[|base| + 1..] == y;
    NumeralEnds(Decimal(i), "." + leaf, Decimal(j), "." + other);
    assert ("." + leaf)[1..] == leaf && ("." + other)[1..] == other;
  }

  /** Digits count by position: each further digit multiplies what stands before it by ten. */
  lemma {:induction false} ValuePositional(a: string, b: string)
    requires AllDigits(a) && AllDigits(b)
    ensures AllDigits(a + b) && Value(a + b) == Value(a) * Pow10(|b|) + Value(b)
  {
    if b == "" {
      assert a + b == a;
    } else {
      var n := |b| - 1;
      assert (a + b)[..|a| + n] == a + b[..n];
      ValuePositional(a, b[..n]);
      Shift(Value(a), Pow10(n), Value(b[..n]), DigitValue(b[n]));
    }
  }

  lemma Shift(v: int, p: int, w: int, d: int)
    ensures (v * p + w) * 10 + d == v * (10 * p) + (w * 10 + d)
  {
  }

  lemma DigitAlone(d: nat)
    requires d < 10
    ensures Value([DigitChar(d)]) == d && DigitChar(d) as int == '0' as int + d
  {
    assert [DigitChar(d)][..0] == "";
    assert Value([DigitChar(d)][..0]) == 0;
  }

  /** What a negative number and a finding path look like. */
  lemma Samples(base: string, leaf: string)
    ensures DecimalInt(-120) == "-120"
    ensures RefPath(base, 10, leaf) == base + "[10]." + leaf
  {
    assert Decimal(12) == "12";
    assert Decimal(120) == "120";
    assert Decimal(10) == "10";
  }
}
