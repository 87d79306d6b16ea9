/**
 * Decimal numerals: the rendering Rust's `{}` formatting gives an unsigned
 * integer (digits only, no sign, no padding, no leading zeros), and the
 * reading of a digit string back into the number it denotes.
 */
module Decimal {

  predicate IsDigit(c: char) {
    '0' <= c <= '9'
  }

  predicate AllDigits(s: string) {
    forall i :: 0 <= i < |s| ==> IsDigit(s[i])
  }

  /** A numeral as the formatter writes it: at least one digit, and a leading '0' only in "0" itself. */
  predicate IsCanonical(s: string) {
    |s| > 0 && AllDigits(s) && (s[0] == '0' ==> |s| == 1)
  }

  function DigitValue(c: char): (d: nat)
    requires IsDigit(c)
    ensures d < 10
  {
    c as int - '0' as int
  }

  function DigitChar(d: nat): (c: char)
    requires d < 10
    ensures IsDigit(c) && DigitValue(c) == d
    ensures (c == '0') == (d == 0)
  {
    ('0' as int + d) as char
  }

  /** The number a string of digits denotes, most significant digit first. */
  function Value(s: string): nat
    requires AllDigits(s)
    decreases |s|
  {
    if s == [] then 0 else Value(s[..|s| - 1]) * 10 + DigitValue(s[|s| - 1])
  }

  /** The decimal rendering of `n`: canonical, and starting with '0' only for zero. */
  function DecimalString(n: nat): (s: string)
    ensures IsCanonical(s)
    ensures (s[0] == '0') == (n == 0)
    decreases n
  {
    if n < 10 then [DigitChar(n)] else DecimalString(n / 10) + [DigitChar(n % 10)]
  }

  /** Reading the rendering back gives the number that was rendered. */
  lemma {:induction false} ValueOfDecimalString(n: nat)
    ensures Value(DecimalString(n)) == n
    decreases n
  {
    if n >= 10 {
      var p := DecimalString(n / 10);
      var s := DecimalString(n);
      assert s == p + [DigitChar(n % 10)];
      assert s[..|s| - 1] == p;
      ValueOfDecimalString(n / 10);
    }
  }

  /** A numeral that does not start with '0' denotes a positive number. */
  lemma {:induction false} ValuePositive(s: string)
    requires |s| > 0 && AllDigits(s) && s[0] != '0'
    ensures Value(s) > 0
    decreases |s|
  {
    if |s| > 1 {
      var p := s[..|s| - 1];
      assert p[0] == s[0];
      ValuePositive(p);
    }
  }

  /** Every canonical numeral is the rendering of the number it denotes. */
  lemma {:induction false} DecimalStringOfValue(s: string)
    requires IsCanonical(s)
    ensures DecimalString(Value(s)) == s
    decreases |s|
  {
    var p := s[..|s| - 1];
    var c := s[|s| - 1];
    assert DigitChar(DigitValue(c)) == c;
    if |s| == 1 {
      assert p == [];
    } else {
      assert p[0] == s[0];
      ValuePositive(p);
      DecimalStringOfValue(p);
      var n := Value(s);
      assert n / 10 == Value(p) && n % 10 == DigitValue(c);
      assert s == p + [c];
    }
  }

  /** Distinct numbers have distinct renderings. */
  lemma DecimalStringInjective(m: nat, n: nat)
    ensures DecimalString(m) == DecimalString(n) <==> m == n
  {
    ValueOfDecimalString(m);
    ValueOfDecimalString(n);
  }

  /** The number of digits of every number below 1000. */
  lemma DecimalStringLength(n: nat)
    requires n < 1000
    ensures |DecimalString(n)| == if n < 10 then 1 else if n < 100 then 2 else 3
  {
    if n >= 10 {
      assert |DecimalString(n)| == |DecimalString(n / 10)| + 1;
      if n >= 100 {
        assert |DecimalString(n / 10)| == |DecimalString(n / 10 / 10)| + 1;
      }
    }
  }
}
