/**
 * Bytes, ASCII text and decimal numbers: the conversions the services
 * perform when they build URLs, identifiers and messages
 * (Python's str(int) and f-strings, Go's strconv.Itoa, %d and strconv.Atoi).
 */
module Text {

  newtype byte = x: int | 0 <= x < 256

  /** The byte of an ASCII character; every literal in this model is ASCII. */
  function ByteOf(c: char): byte
  {
    if c as int < 256 then c as int as byte else '?' as int as byte
  }

  /** Python's b'...' literal: the bytes of an ASCII string, one per character. */
  function Ascii(s: string): (r: seq<byte>)
    ensures |r| == |s|
  {
    seq(|s|, i requires 0 <= i < |s| => ByteOf(s[i]))
  }

  predicate IsDigit(c: char)
  {
    '0' <= c <= '9'
  }

  predicate AllDigits(s: string)
  {
    forall i :: 0 <= i < |s| ==> IsDigit(s[i])
  }

  function DigitChar(d: nat): (c: char)
    requires d < 10
    ensures IsDigit(c) && c as int - '0' as int == d
  {
    ('0' as int + d) as char
  }

  function DigitValue(c: char): (d: nat)
    requires IsDigit(c)
    ensures d < 10
  {
    c as int - '0' as int
  }

  /** The decimal digits of n, most significant first, without leading zeros. */
  function NatToString(n: nat): (s: string)
    ensures 0 < |s| && AllDigits(s)
    ensures (s[0] == '0') <==> n == 0
    decreases n
  {
    if n < 10 then [DigitChar(n)] else NatToString(n / 10) + [DigitChar(n % 10)]
  }

  /** Decimal rendering of an integer, with a leading '-' when negative. */
  function IntToString(i: int): (s: string)
    ensures 0 < |s|
    ensures (s[0] == '-') <==> i < 0
    ensures i >= 0 ==> AllDigits(s)
  {
    if i < 0 then "-" + NatToString(-i) else NatToString(i)
  }

  /** The number a string of decimal digits denotes, read most significant digit first. */
  function DigitsValue(s: string): nat
    requires AllDigits(s)
  {
    if s == [] then 0 else DigitsValue(s[..|s| - 1]) * 10 + DigitValue(s[|s| - 1])
  }

  lemma {:induction false} DigitsValueOfNatToString(n: nat)
    ensures DigitsValue(NatToString(n)) == n
    decreases n
  {
    if n >= 10 {
      var s := NatToString(n);
      assert s[..|s| - 1] == NatToString(n / 10);
      DigitsValueOfNatToString(n / 10);
    }
  }

  /** Decimal rendering is injective: distinct numbers never share a rendering. */
  lemma NatToStringInjective(m: nat, n: nat)
    ensures NatToString(m) == NatToString(n) ==> m == n
  {
    DigitsValueOfNatToString(m);
    DigitsValueOfNatToString(n);
  }

  const MaxUint64: int := 0xffff_ffff_ffff_ffff
  const MaxInt64: int := 0x7fff_ffff_ffff_ffff
  const MinInt64: int := -0x8000_0000_0000_0000

  /** What Go's unsigned decimal scan of a digit string yields. */
  datatype Scan = SyntaxError | RangeError | Value(n: nat)

  /**
   * Go's strconv.ParseUint(s, 10, 64) over the characters after a sign, from
   * acc: a non-digit is a syntax error, and a value beyond 2^64-1 is a range
   * error the moment it occurs, whatever characters follow.
   */
  function ScanDigits(s: string, acc: nat): (r: Scan)
    requires acc <= MaxUint64
    ensures r.Value? ==> AllDigits(s) && r.n <= MaxUint64
    decreases |s|
  {
    if s == [] then Value(acc)
    else if !IsDigit(s[0]) then SyntaxError
    else if acc * 10 + DigitValue(s[0]) > MaxUint64 then RangeError
    else ScanDigits(s[1..], acc * 10 + DigitValue(s[0]))
  }

  /**
   * Go's strconv.Atoi on a 64-bit platform with its error discarded, as in
   * `id, _ := strconv.Atoi(idStr)`: a syntax error gives 0, and a range error
   * gives the int64 bound on the side of the sign.
   */
  function AtoiIgnoringError(s: string): (n: int)
    ensures MinInt64 <= n <= MaxInt64
    ensures s == [] ==> n == 0
  {
    if s == [] then 0
    else
      var neg := s[0] == '-';
      var body := if s[0] == '-' || s[0] == '+' then s[1..] else s;
      if body == [] then 0
      else match ScanDigits(body, 0)
        case SyntaxError => 0
        case RangeError => if neg then MinInt64 else MaxInt64
        case Value(u) =>
          if neg then (if u > -MinInt64 then MinInt64 else 0 - u as int)
          else (if u > MaxInt64 then MaxInt64 else u)
  }

  lemma {:induction false} ScanDigitsFrom(s: string, k: nat)
    requires AllDigits(s) && k <= |s| && DigitsValue(s) <= MaxUint64
    ensures DigitsValue(s[..k]) <= MaxUint64
    ensures ScanDigits(s[k..], DigitsValue(s[..k])) == Value(DigitsValue(s))
    decreases |s| - k
  {
    PrefixValueBounded(s, k);
    if k < |s| {
      var p := s[..k + 1];
      assert p[..|p| - 1] == s[..k];
      assert s[k..][1..] == s[k + 1..];
      PrefixValueBounded(s, k + 1);
      ScanDigitsFrom(s, k + 1);
    } else {
      assert s[..k] == s;
    }
  }

  lemma {:induction false} PrefixValueBounded(s: string, k: nat)
    requires AllDigits(s) && k <= |s|
    ensures DigitsValue(s[..k]) <= DigitsValue(s)
    decreases |s| - k
  {
    if k < |s| {
      PrefixValueBounded(s, k + 1);
      var p := s[..k + 1];
      assert p[..|p| - 1] == s[..k];
    } else {
      assert s[..k] == s;
    }
  }

  /** Reading back an integer's decimal rendering gives the integer (int64 range). */
  lemma AtoiOfIntToString(i: int)
    requires MinInt64 <= i <= MaxInt64
    ensures AtoiIgnoringError(IntToString(i)) == i
  {
    var m: nat := if i < 0 then -i else i;
    var digits := NatToString(m);
    DigitsValueOfNatToString(m);
    ScanDigitsFrom(digits, 0);
    assert digits[0..] == digits;
    assert digits[..0] == [];
    if i < 0 {
      assert IntToString(i)[1..] == digits;
    }
  }

  function Pow10(n: nat): (p: nat)
    ensures p >= 1
  {
    if n == 0 then 1 else 10 * Pow10(n - 1)
  }

  lemma Pow10Of19()
    ensures Pow10(19) == 10_000_000_000_000_000_000
  {
    assert Pow10(4) == 10_000;
    assert Pow10(8) == 100_000_000;
    assert Pow10(12) == 1_000_000_000_000;
    assert Pow10(16) == 10_000_000_000_000_000;
  }

  /** A scan that starts below 10^k and has at most 19 - k digits left never overflows. */
  lemma {:induction false} ScanDigitsShort(s: string, acc: nat, k: nat)
    requires acc < Pow10(k) && k + |s| <= 19
    ensures acc <= MaxUint64 && ScanDigits(s, acc) != RangeError
    decreases |s|
  {
    Pow10Monotone(k, 19);
    Pow10Of19();
    assert acc <= MaxUint64;
    if s != [] && IsDigit(s[0]) {
      var next := acc * 10 + DigitValue(s[0]);
      assert Pow10(k + 1) == 10 * Pow10(k);
      assert next < Pow10(k + 1);
      ScanDigitsShort(s[1..], next, k + 1);
      assert ScanDigits(s, acc) == ScanDigits(s[1..], next);
    }
  }

  lemma {:induction false} Pow10Monotone(m: nat, n: nat)
    requires m <= n
    ensures Pow10(m) <= Pow10(n)
    decreases n
  {
    if m < n {
      Pow10Monotone(m, n - 1);
    }
  }

  /**
   * An id of at most 19 characters that is not a signed run of digits reads
   * as 0 once Atoi's error is discarded.
   */
  lemma AtoiOfNonNumeric(s: string)
    requires |s| <= 19
    requires !AllDigits(if s != [] && (s[0] == '-' || s[0] == '+') then s[1..] else s)
    ensures AtoiIgnoringError(s) == 0
  {
    var body := if s[0] == '-' || s[0] == '+' then s[1..] else s;
    ScanDigitsShort(body, 0, 0);
  }
}
