/** Amounts as the client and the node pass them around: unbounded integers
    (Go's big.Int), their big-endian bytes, their decimal strings, and the
    64-bit integers that strconv.ParseInt and Go's `+` on int64 produce. */
module Amounts {

  import opened Wrappers

  type Byte = x: int | 0 <= x < 256

  const MAX_INT64: int := 0x7fff_ffff_ffff_ffff
  const MIN_INT64: int := -0x8000_0000_0000_0000
  const MAX_UINT64: int := 0xffff_ffff_ffff_ffff
  const TWO_TO_64: int := 0x1_0000_0000_0000_0000

  // ---------- big-endian bytes ----------

  /** big.Int.SetBytes: the unsigned big-endian value of a byte string. */
  function SetBytes(b: seq<Byte>): nat {
    if b == [] then 0 else 256 * SetBytes(b[..|b| - 1]) + b[|b| - 1]
  }

  /** big.Int.Bytes of a non-negative value: no leading zero byte, and nothing for zero. */
  function NatBytes(n: nat): seq<Byte> {
    if n == 0 then [] else NatBytes(n / 256) + [n % 256]
  }

  /** big.Int.Bytes: the bytes of the absolute value; the sign is lost. */
  function Bytes(z: int): seq<Byte> {
    NatBytes(if z < 0 then -z else z)
  }

  predicate Minimal(b: seq<Byte>) {
    b == [] || b[0] != 0
  }

  /** Bytes then SetBytes is the absolute value: exact for an amount that is not negative. */
  lemma {:induction false} BytesRoundTrip(z: int)
    ensures SetBytes(Bytes(z)) == if z < 0 then -z else z
    ensures Minimal(Bytes(z))
  {
    NatBytesRoundTrip(if z < 0 then -z else z);
  }

  lemma {:induction false} NatBytesRoundTrip(n: nat)
    ensures SetBytes(NatBytes(n)) == n
    ensures Minimal(NatBytes(n))
    ensures NatBytes(n) == [] <==> n == 0
  {
    if n != 0 {
      NatBytesRoundTrip(n / 256);
      assert NatBytes(n)[..|NatBytes(n)| - 1] == NatBytes(n / 256);
      if n < 256 {
        assert NatBytes(n) == [n];
      } else {
        assert NatBytes(n)[0] == NatBytes(n / 256)[0];
      }
    }
  }

  /** The encoding is canonical: SetBytes then Bytes restores every string without leading zeros. */
  lemma {:induction false} MinimalBytesAreCanonical(b: seq<Byte>)
    requires Minimal(b)
    ensures Bytes(SetBytes(b)) == b
    ensures SetBytes(b) == 0 <==> b == []
  {
    if b != [] {
      var front, last := b[..|b| - 1], b[|b| - 1];
      if front == [] {
        assert SetBytes(b) == last;
        assert NatBytes(last) == NatBytes(0) + [last];
      } else {
        assert front[0] == b[0];
        MinimalBytesAreCanonical(front);
        assert SetBytes(b) / 256 == SetBytes(front) && SetBytes(b) % 256 == last;
      }
    }
  }

  // ---------- decimal strings ----------

  predicate IsDigit(c: char) { '0' <= c <= '9' }

  function DigitValue(c: char): nat
    requires IsDigit(c)
  {
    c as int - '0' as int
  }

  function DigitChar(d: nat): (c: char)
    requires d < 10
    ensures IsDigit(c) && DigitValue(c) == d
  {
    ('0' as int + d) as char
  }

  predicate AllDigits(s: string) { forall i :: 0 <= i < |s| ==> IsDigit(s[i]) }

  /** Scanning digits from the left, with `acc` read already. */
  function DecFold(s: string, acc: nat): nat
    requires AllDigits(s)
  {
    if s == "" then acc else DecFold(s[1..], 10 * acc + DigitValue(s[0]))
  }

  predicate IsSigned(s: string) { s != "" && (s[0] == '-' || s[0] == '+') }

  predicate IsNegative(s: string) { s != "" && s[0] == '-' }

  /** What is left of a number after its optional sign. */
  function Magnitude(s: string): string {
    if IsSigned(s) then s[1..] else s
  }

  /** big.Int.SetString(s, 10): an optional sign, then one or more digits and nothing else. */
  function SetString(s: string): Option<int> {
    var digits := Magnitude(s);
    if digits == "" || !AllDigits(digits) then None
    else
      var n: int := DecFold(digits, 0);
      Some(if IsNegative(s) then -n else n)
  }

  function Decimal(n: nat): (s: string)
    ensures s != "" && AllDigits(s)
  {
    if n < 10 then [DigitChar(n)] else Decimal(n / 10) + [DigitChar(n % 10)]
  }

  /** big.Int.String, and strconv.Itoa for the machine integers. */
  function String(z: int): string {
    if z < 0 then "-" + Decimal(-z) else Decimal(z)
  }

  lemma {:induction false} DecFoldLast(s: string, c: char, acc: nat)
    requires AllDigits(s) && IsDigit(c)
    ensures AllDigits(s + [c])
    ensures DecFold(s + [c], acc) == 10 * DecFold(s, acc) + DigitValue(c)
  {
    if s == "" {
      assert s + [c] == [c];
      assert DecFold([c][1..], 10 * acc + DigitValue(c)) == 10 * acc + DigitValue(c);
    } else {
      assert (s + [c])[1..] == s[1..] + [c];
      DecFoldLast(s[1..], c, 10 * acc + DigitValue(s[0]));
    }
  }

  lemma {:induction false} DecimalRoundTrip(n: nat)
    ensures DecFold(Decimal(n), 0) == n
  {
    if n < 10 {
      DecFoldLast("", DigitChar(n), 0);
      assert "" + [DigitChar(n)] == Decimal(n);
    } else {
      DecimalRoundTrip(n / 10);
      DecFoldLast(Decimal(n / 10), DigitChar(n % 10), 0);
    }
  }

  /** Printing then parsing in decimal returns the same integer, negative ones included. */
  lemma {:induction false} StringRoundTrip(z: int)
    ensures SetString(String(z)) == Some(z)
  {
    if z < 0 {
      DecimalRoundTrip(-z);
      assert String(z)[1..] == Decimal(-z);
    } else {
      DecimalRoundTrip(z);
      assert IsDigit(Decimal(z)[0]);
    }
  }

  /** BigInt.MarshalJSON of FromAmountBytes: how an encoded amount is displayed. */
  function Displayed(buf: seq<Byte>): string {
    "\"" + String(SetBytes(buf)) + "\""
  }

  /** What is displayed between the quotes parses back to the amount that was encoded. */
  lemma DisplayRoundTrip(z: nat)
    ensures var shown := Displayed(Bytes(z)); SetString(shown[1..|shown| - 1]) == Some(z)
  {
    BytesRoundTrip(z);
    StringRoundTrip(z);
    var shown := Displayed(Bytes(z));
    assert shown[1..|shown| - 1] == String(z);
  }

  /** The two codecs on sample values: bytes are base 256 with the highest first, text is base 10. */
  lemma SampleCodes()
    ensures SetBytes([1, 0]) == 256 && Bytes(256) == [1, 0]
    ensures String(-10) == "-10" && SetString("-10") == Some(-10) && SetString("+7") == Some(7)
    ensures SetString("") == None && SetString("-") == None && SetString("1a") == None
    ensures Displayed([1, 0]) == "\"256\""
  {
    assert SetBytes([1]) == 1;
    assert [1, 0][..1] == [1];
    assert NatBytes(256) == NatBytes(1) + [0];
    assert NatBytes(1) == NatBytes(0) + [1];
    assert Decimal(10) == "10";
    assert Decimal(256) == "256";
    assert Magnitude("1a")[1] == 'a';
  }

  // ---------- 64-bit integers ----------

  /** Go's `+` on int64, applied to an exact sum. */
  function Wrap64(x: int): (r: int)
    ensures MIN_INT64 <= r <= MAX_INT64
    ensures MIN_INT64 <= x <= MAX_INT64 ==> r == x
    ensures (x - r) % TWO_TO_64 == 0
  {
    (x - MIN_INT64) % TWO_TO_64 + MIN_INT64
  }

  /** Wrapping after each addition is wrapping once at the end. */
  lemma WrapIsModular(x: int, y: int)
    ensures Wrap64(Wrap64(x) + y) == Wrap64(x + y)
  {
    var k := (x - MIN_INT64) / TWO_TO_64;
    assert Wrap64(x) == x - k * TWO_TO_64;
    assert (x + y - MIN_INT64 - k * TWO_TO_64) % TWO_TO_64 == (x + y - MIN_INT64) % TWO_TO_64;
  }

  datatype Scan = Scanned(n: nat) | SyntaxError | RangeError

  /** The loop of strconv.ParseUint in base 10. It stops at the first digit that
      overflows, so what follows that digit is never looked at. */
  function ScanUint(s: string, acc: nat): Scan {
    if s == "" then Scanned(acc)
    else if !IsDigit(s[0]) then SyntaxError
    else if 10 * acc + DigitValue(s[0]) > MAX_UINT64 then RangeError
    else ScanUint(s[1..], 10 * acc + DigitValue(s[0]))
  }

  /** The two results of strconv.ParseInt: a value (saturated on overflow, zero
      on bad syntax) and whether the error is nil. */
  datatype ParseResult = ParseResult(value: int, ok: bool)

  function Saturate(negative: bool, n: int): ParseResult {
    if !negative && n > MAX_INT64 then ParseResult(MAX_INT64, false)
    else if negative && n > -MIN_INT64 then ParseResult(MIN_INT64, false)
    else ParseResult(if negative then -n else n, true)
  }

  /** strconv.ParseInt(s, 10, 64). */
  function ParseInt64(s: string): ParseResult {
    if Magnitude(s) == "" then ParseResult(0, false)
    else
      match ScanUint(Magnitude(s), 0)
      case SyntaxError => ParseResult(0, false)
      case RangeError => Saturate(IsNegative(s), MAX_UINT64)
      case Scanned(n) => Saturate(IsNegative(s), n)
  }

  function Clamp64(z: int): int {
    if z > MAX_INT64 then MAX_INT64 else if z < MIN_INT64 then MIN_INT64 else z
  }

  lemma {:induction false} ScanOfDigits(s: string, acc: nat)
    requires AllDigits(s) && acc <= MAX_UINT64
    ensures DecFold(s, acc) >= acc
    ensures ScanUint(s, acc) == if DecFold(s, acc) <= MAX_UINT64 then Scanned(DecFold(s, acc)) else RangeError
  {
    if s != "" {
      var next := 10 * acc + DigitValue(s[0]);
      if next <= MAX_UINT64 {
        ScanOfDigits(s[1..], next);
      } else {
        DecFoldGrows(s[1..], next);
      }
    }
  }

  lemma {:induction false} DecFoldGrows(s: string, acc: nat)
    requires AllDigits(s)
    ensures DecFold(s, acc) >= acc
  {
    if s != "" {
      DecFoldGrows(s[1..], 10 * acc + DigitValue(s[0]));
    }
  }

  lemma {:induction false} ScannedMeansDigits(s: string, acc: nat)
    requires ScanUint(s, acc).Scanned?
    ensures AllDigits(s)
  {
    if s != "" {
      ScannedMeansDigits(s[1..], 10 * acc + DigitValue(s[0]));
      assert forall i :: 0 < i < |s| ==> s[i] == s[1..][i - 1];
    }
  }

  /** On every string that big.Int accepts, ParseInt returns the same integer
      clamped to 64 bits, and its error is nil exactly when nothing was clamped. */
  lemma {:induction false} ParseIntClamps(s: string)
    requires SetString(s).Some?
    ensures ParseInt64(s).value == Clamp64(SetString(s).value)
    ensures ParseInt64(s).ok <==> MIN_INT64 <= SetString(s).value <= MAX_INT64
  {
    ScanOfDigits(Magnitude(s), 0);
  }

  /** And a nil error from ParseInt means that big.Int reads the same string as the same integer. */
  lemma {:induction false} ParseIntOkMeansExact(s: string)
    ensures ParseInt64(s).ok <==> SetString(s).Some? && MIN_INT64 <= SetString(s).value <= MAX_INT64
    ensures ParseInt64(s).ok ==> SetString(s) == Some(ParseInt64(s).value)
  {
    if ParseInt64(s).ok {
      ScannedMeansDigits(Magnitude(s), 0);
    }
    if SetString(s).Some? {
      ParseIntClamps(s);
    }
  }

  /** A mutable big.Int. The receiver of Add and Sub may also be an operand. */
  class BigInt {
    var v: int

    constructor (x: int)
      ensures v == x
    {
      v := x;
    }

    method Add(x: BigInt, y: BigInt)
      modifies this
      ensures v == old(x.v) + old(y.v)
    {
      v := x.v + y.v;
    }

    method Sub(x: BigInt, y: BigInt)
      modifies this
      ensures v == old(x.v) - old(y.v)
    {
      v := x.v - y.v;
    }

    /** big.Int.Div is Euclidean, as Dafny's division is. */
    method Div(x: BigInt, y: BigInt)
      requires y.v != 0
      modifies this
      ensures v == old(x.v) / old(y.v)
    {
      v := x.v / y.v;
    }
  }
}
