/**
 * Decimal text of integers as .NET writes and reads it under the invariant
 * culture: `int.ToString()`, the "D2" format, and `int.TryParse` with its
 * default `NumberStyles.Integer` (surrounding white space, one optional sign,
 * at least one digit, and the 32-bit range).
 */
module Decimal {
  import opened Wrappers

  const MinInt32: int := -0x8000_0000
  const MaxInt32: int := 0x7fff_ffff

  predicate IsDigit(c: char) {
    '0' <= c <= '9'
  }

  predicate AllDigits(s: string) {
    forall i :: 0 <= i < |s| ==> IsDigit(s[i])
  }

  function DigitChar(d: nat): (c: char)
    requires d < 10
    ensures IsDigit(c) && c as int - '0' as int == d
  {
    ('0' as int + d) as char
  }

  function DigitValue(c: char): (d: nat)
    requires IsDigit(c)
    ensures d < 10
  {
    c as int - '0' as int
  }

  function Pow10(k: nat): (p: nat)
    ensures p >= 1
  {
    if k == 0 then 1 else 10 * Pow10(k - 1)
  }

  /** Powers of ten multiply by adding exponents. */
  lemma {:induction false} Pow10Add(a: nat, b: nat)
    ensures Pow10(a + b) == Pow10(a) * Pow10(b)
  {
    if a > 0 {
      Pow10Add(a - 1, b);
      assert Pow10(a + b) == 10 * Pow10(a - 1 + b);
    }
  }

  /** Most significant digit first, no leading zeros. */
  function ShowNat(n: nat): (s: string)
    ensures 1 <= |s| && AllDigits(s)
    decreases n
  {
    if n < 10 then [DigitChar(n)] else ShowNat(n / 10) + [DigitChar(n % 10)]
  }

  /** `int.ToString()`: a minus sign before the magnitude of a negative value. */
  function ShowInt(n: int): (s: string)
    ensures 1 <= |s|
  {
    if n < 0 then "-" + ShowNat(-n) else ShowNat(n)
  }

  /** The "D2" format of a non-negative value: at least two digits, zero-padded. */
  function PadTwo(n: nat): (s: string)
    ensures 2 <= |s| && AllDigits(s)
  {
    if n < 10 then "0" + ShowNat(n) else ShowNat(n)
  }

  /** The "D2" format of any value: a negative one gets a minus sign before its padded magnitude. */
  function FormatD2(n: int): string {
    if n < 0 then "-" + PadTwo(-n) else PadTwo(n)
  }

  /** The value of a digit string read left to right; the empty string reads as 0. */
  function DigitsValue(s: string): nat
    requires AllDigits(s)
  {
    if s == [] then 0 else DigitsValue(s[..|s| - 1]) * 10 + DigitValue(s[|s| - 1])
  }

  /** Reading back what ShowNat wrote gives the number again. */
  lemma {:induction false} DigitsValueShowNat(n: nat)
    ensures DigitsValue(ShowNat(n)) == n
    decreases n
  {
    if n >= 10 {
      var s := ShowNat(n);
      assert s[..|s| - 1] == ShowNat(n / 10);
      DigitsValueShowNat(n / 10);
    }
  }

  /** A string of k digits denotes less than 10^k. */
  lemma {:induction false} DigitsValueBound(s: string)
    requires AllDigits(s)
    ensures DigitsValue(s) < Pow10(|s|)
  {
    if s != [] {
      DigitsValueBound(s[..|s| - 1]);
    }
  }

  /** ShowNat never writes two different numbers the same way. */
  lemma ShowNatInjective(a: nat, b: nat)
    requires ShowNat(a) == ShowNat(b)
    ensures a == b
  {
    DigitsValueShowNat(a);
    DigitsValueShowNat(b);
  }

  /** The text of a value starts with a minus sign exactly when the value is negative. */
  lemma SignShown(n: int)
    ensures ShowInt(n)[0] == '-' <==> n < 0
  {
    if n >= 0 {
      assert IsDigit(ShowNat(n)[0]);
    }
  }

  /** ShowInt never writes two different numbers the same way. */
  lemma ShowIntInjective(a: int, b: int)
    requires ShowInt(a) == ShowInt(b)
    ensures a == b
  {
    if a < 0 && b < 0 {
      assert ShowNat(-a) == ShowInt(a)[1..];
      assert ShowNat(-b) == ShowInt(b)[1..];
      ShowNatInjective(-a, -b);
    } else if a >= 0 && b >= 0 {
      ShowNatInjective(a, b);
    } else {
      // One text starts with '-', the other with a digit.
      SignShown(a);
      SignShown(b);
      assert false;
    }
  }

  /** The white space NumberStyles.Integer skips: U+0009 to U+000D and U+0020. */
  predicate IsWhite(c: char) {
    c == ' ' || '\t' <= c <= '\r'
  }

  /** The input without its leading white space: a suffix, only white space removed, all of it. */
  function TrimStart(s: string): (t: string)
    ensures |t| <= |s| && t == s[|s| - |t|..]
    ensures forall i :: 0 <= i < |s| - |t| ==> IsWhite(s[i])
    ensures t == [] || !IsWhite(t[0])
  {
    if s != [] && IsWhite(s[0]) then TrimStart(s[1..]) else s
  }

  /** The input without its trailing white space: a prefix, only white space removed, all of it. */
  function TrimEnd(s: string): (t: string)
    ensures |t| <= |s| && t == s[..|t|]
    ensures forall i :: |t| <= i < |s| ==> IsWhite(s[i])
    ensures t == [] || !IsWhite(t[|t| - 1])
  {
    if s != [] && IsWhite(s[|s| - 1]) then TrimEnd(s[..|s| - 1]) else s
  }

  /** The value of an optionally signed digit string, or None when it is not one. */
  function SignedValue(t: string): Option<int> {
    if |t| >= 2 && (t[0] == '-' || t[0] == '+') && AllDigits(t[1..]) then
      Some(if t[0] == '-' then -(DigitsValue(t[1..]) as int) else DigitsValue(t[1..]))
    else if |t| >= 1 && AllDigits(t) then
      Some(DigitsValue(t))
    else
      None
  }

  /**
   * `int.TryParse(s, out v)`: Some(v) when it returns true. The value must
   * fit in 32 bits; an overflow makes TryParse return false.
   */
  function TryParseInt32(s: string): (r: Option<int>)
    ensures r.Some? ==> MinInt32 <= r.value <= MaxInt32
  {
    var v := SignedValue(TrimEnd(TrimStart(s)));
    if v.Some? && MinInt32 <= v.value <= MaxInt32 then v else None
  }

  /** The text of a number has no white space at either end, so trimming keeps it. */
  lemma TrimShown(n: int)
    ensures TrimEnd(TrimStart(ShowInt(n))) == ShowInt(n)
  {
    var s := ShowInt(n);
    assert !IsWhite(s[0]) && !IsWhite(s[|s| - 1]);
    assert TrimStart(s) == s;
  }

  /** The text of a number reads back as the number. */
  lemma SignedValueShown(n: int)
    ensures SignedValue(ShowInt(n)) == Some(n)
  {
    var s := ShowInt(n);
    if n < 0 {
      assert s[1..] == ShowNat(-n);
      DigitsValueShowNat(-n);
    } else {
      assert s == ShowNat(n);
      DigitsValueShowNat(n);
    }
  }

  /** Every 32-bit value survives a trip through ToString and TryParse. */
  lemma ParseShowInt(n: int)
    requires MinInt32 <= n <= MaxInt32
    ensures TryParseInt32(ShowInt(n)) == Some(n)
  {
    TrimShown(n);
    SignedValueShown(n);
    assert SignedValue(TrimEnd(TrimStart(ShowInt(n)))) == Some(n);
  }

  /** A text of at most k characters that parses denotes a value in (-10^(k-1), 10^k). */
  lemma ParsedValueBound(s: string, k: nat)
    requires 1 <= |s| <= k
    requires SignedValue(TrimEnd(TrimStart(s))).Some?
    ensures var v := SignedValue(TrimEnd(TrimStart(s))).value;
      -(Pow10(k - 1) as int) < v < Pow10(k)
  {
    SignedValueBound(TrimEnd(TrimStart(s)), k);
  }

  lemma SignedValueBound(t: string, k: nat)
    requires 1 <= k && |t| <= k && SignedValue(t).Some?
    ensures -(Pow10(k - 1) as int) < SignedValue(t).value < Pow10(k)
  {
    if |t| >= 2 && (t[0] == '-' || t[0] == '+') && AllDigits(t[1..]) {
      DigitsValueBound(t[1..]);
      PowMonotone(|t| - 1, k - 1);
      PowMonotone(k - 1, k);
    } else {
      DigitsValueBound(t);
      PowMonotone(|t|, k);
    }
  }

  lemma {:induction false} PowMonotone(i: nat, j: nat)
    requires i <= j
    ensures Pow10(i) <= Pow10(j)
    decreases j
  {
    if i < j {
      PowMonotone(i, j - 1);
    }
  }
}
