/** Decimal numerals of natural numbers, as Python's `str()` writes them for a
    non-negative `int`, and the inverse reading of a string of digits. */
module Numerals {

  predicate IsDigit(c: char) {
    '0' <= c <= '9'
  }

  predicate AllDigits(s: string) {
    forall i :: 0 <= i < |s| ==> IsDigit(s[i])
  }

  /** The numeric value of a digit character. */
  function DigitValue(c: char): (d: nat)
    requires IsDigit(c)
    ensures d < 10
  {
    (c as int) - ('0' as int)
  }

  /** The character that writes the digit `d`. */
  function DigitChar(d: nat): (c: char)
    requires d < 10
    ensures IsDigit(c) && DigitValue(c) == d
  {
    (('0' as int) + d) as char
  }

  /** `str(n)` for `n >= 0`: the shortest decimal numeral, without sign and
      without leading zeros. */
  function DecimalString(n: nat): (s: string)
    ensures |s| >= 1 && AllDigits(s)
    ensures s[0] == '0' ==> n == 0
  {
    if n < 10 then [DigitChar(n)] else DecimalString(n / 10) + [DigitChar(n % 10)]
  }

  /** Reads a string of decimal digits as a number; leading zeros are allowed
      and the empty string reads as 0. */
  function ParseDecimal(s: string): nat
    requires AllDigits(s)
  {
    if s == [] then 0 else 10 * ParseDecimal(s[..|s| - 1]) + DigitValue(s[|s| - 1])
  }

  /** Reading back what `str` wrote gives the number again. */
  lemma {:induction false} ParseDecimalString(n: nat)
    ensures ParseDecimal(DecimalString(n)) == n
  {
    var s := DecimalString(n);
    if n >= 10 {
      ParseDecimalString(n / 10);
      assert s[..|s| - 1] == DecimalString(n / 10);
    }
  }

  /** The number of characters `str` writes: one below 10, two from 10 to 99,
      at least three from 100 on. */
  lemma DecimalStringLength(n: nat)
    ensures n < 10 ==> |DecimalString(n)| == 1
    ensures 10 <= n < 100 ==> |DecimalString(n)| == 2
    ensures 100 <= n ==> |DecimalString(n)| >= 3
  {
  }

  /** The digits `str` writes for a number below 100. */
  lemma DecimalStringDigits(n: nat)
    ensures n < 10 ==> DecimalString(n) == [DigitChar(n)]
    ensures 10 <= n < 100 ==> DecimalString(n) == [DigitChar(n / 10), DigitChar(n % 10)]
  {
  }

  /** Zeros written in front of a numeral do not change its value. */
  lemma {:induction false} ParseLeadingZeros(z: string, s: string)
    requires forall i :: 0 <= i < |z| ==> z[i] == '0'
    requires AllDigits(s)
    ensures AllDigits(z + s) && ParseDecimal(z + s) == ParseDecimal(s)
  {
    if s == [] {
      assert z + s == z;
      ZerosReadAsZero(z);
    } else {
      var t := s[..|s| - 1];
      assert (z + s)[..|z + s| - 1] == z + t;
      ParseLeadingZeros(z, t);
    }
  }

  lemma {:induction false} ZerosReadAsZero(z: string)
    requires forall i :: 0 <= i < |z| ==> z[i] == '0'
    ensures AllDigits(z) && ParseDecimal(z) == 0
  {
    if z != [] {
      ZerosReadAsZero(z[..|z| - 1]);
    }
  }
}
