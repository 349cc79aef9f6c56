/**
 * Base-10 rendering of integers, as Go's `strconv.FormatInt(x, 10)` does it:
 * a leading '-' for negative values, then the decimal digits of |x| with no
 * leading zeros ("0" for zero).  ParseDecimal is the reference inverse used to
 * state what the rendered strings mean.
 */
module Decimal {
  import opened Wrappers

  predicate IsDigit(c: char) {
    '0' <= c <= '9'
  }

  predicate AllDigits(s: string) {
    forall i :: 0 <= i < |s| ==> IsDigit(s[i])
  }

  function DigitValue(c: char): (d: nat)
    requires IsDigit(c)
    ensures d < 10
  {
    c as int - '0' as int
  }

  function DigitChar(d: nat): (c: char)
    requires d < 10
    ensures IsDigit(c) && DigitValue(c) == d
  {
    ('0' as int + d) as char
  }

  /** The decimal digits of n, most significant first. */
  function FormatNat(n: nat): (s: string)
    ensures |s| >= 1 && AllDigits(s)
    ensures s[0] == '0' <==> n == 0
    decreases n
  {
    if n < 10 then [DigitChar(n)] else FormatNat(n / 10) + [DigitChar(n % 10)]
  }

  /**
   * `strconv.FormatInt(x, 10)`: the result is canonical and parses back to x,
   * for every integer, zero and negative values included.
   */
  function FormatInt(x: int): (s: string)
    ensures IsCanonical(s) && ParseDecimal(s) == Some(x)
  {
    if x < 0 then
      FormatNatValue(-x);
      var s := "-" + FormatNat(-x);
      assert s[1..] == FormatNat(-x);
      s
    else
      FormatNatValue(x);
      FormatNat(x)
  }

  /** The number a non-empty run of digits denotes, read most significant first. */
  function DigitsValue(s: string): nat
    requires AllDigits(s)
  {
    if s == [] then 0 else DigitsValue(s[..|s| - 1]) * 10 + DigitValue(s[|s| - 1])
  }

  /** An optional sign followed by one or more decimal digits. */
  function ParseDecimal(s: string): Option<int> {
    if |s| > 0 && (s[0] == '-' || s[0] == '+') then
      var digits := s[1..];
      if |digits| > 0 && AllDigits(digits) then
        Some(if s[0] == '-' then -(DigitsValue(digits) as int) else DigitsValue(digits))
      else None
    else if |s| > 0 && AllDigits(s) then Some(DigitsValue(s))
    else None
  }

  /** The strings FormatInt can produce: no '+', no leading zero, no "-0". */
  predicate IsCanonical(s: string) {
    || s == "0"
    || (|s| >= 1 && AllDigits(s) && s[0] != '0')
    || (|s| >= 2 && s[0] == '-' && AllDigits(s[1..]) && s[1] != '0')
  }

  lemma {:induction false} FormatNatValue(n: nat)
    ensures DigitsValue(FormatNat(n)) == n
    decreases n
  {
    if n >= 10 {
      var s := FormatNat(n);
      assert s[..|s| - 1] == FormatNat(n / 10);
      FormatNatValue(n / 10);
    }
  }

  lemma {:induction false} DigitsValuePositive(s: string)
    requires |s| >= 1 && AllDigits(s) && s[0] != '0'
    ensures DigitsValue(s) > 0
    decreases |s|
  {
    if |s| > 1 {
      DigitsValuePositive(s[..|s| - 1]);
    }
  }

  /** A digit string without a leading zero is the rendering of its value. */
  lemma {:induction false} FormatNatOfDigits(s: string)
    requires |s| >= 1 && AllDigits(s) && (s[0] != '0' || s == "0")
    ensures FormatNat(DigitsValue(s)) == s
    decreases |s|
  {
    if |s| > 1 {
      var init := s[..|s| - 1];
      DigitsValuePositive(init);
      FormatNatOfDigits(init);
      var n := DigitsValue(s);
      assert n / 10 == DigitsValue(init) && n % 10 == DigitValue(s[|s| - 1]);
      assert s == init + [s[|s| - 1]];
    }
  }

  /** A canonical decimal string is the rendering of what it parses to. */
  lemma CanonicalRoundTrip(s: string)
    requires IsCanonical(s)
    ensures ParseDecimal(s).Some? && FormatInt(ParseDecimal(s).value) == s
  {
    if s[0] == '-' {
      var digits := s[1..];
      DigitsValuePositive(digits);
      FormatNatOfDigits(digits);
      assert s == "-" + digits;
    } else {
      FormatNatOfDigits(s);
    }
  }

  /** FormatInt is a bijection between the integers and the canonical strings. */
  lemma FormatIntCharacterization(x: int, s: string)
    ensures FormatInt(x) == s <==> IsCanonical(s) && ParseDecimal(s) == Some(x)
  {
    if IsCanonical(s) && ParseDecimal(s) == Some(x) {
      CanonicalRoundTrip(s);
    }
  }

  /** Distinct integers render as distinct strings. */
  lemma FormatIntInjective(x: int, y: int)
    ensures FormatInt(x) == FormatInt(y) <==> x == y
  {
  }
}
