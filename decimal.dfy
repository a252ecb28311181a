/**
 * The decimal numeral of a non-negative integer, and the reading of such a
 * numeral back. For n up to 2^53 this is what a JavaScript template literal
 * prints (`${n}`); every number the app prints is at most 99999. Larger
 * numbers print differently in JavaScript (`${1e21}` is "1e+21") and are
 * not what `DecimalString` describes.
 */
module Decimal {

  predicate IsDigits(s: string) {
    forall i :: 0 <= i < |s| ==> '0' <= s[i] <= '9'
  }

  function DigitChar(d: nat): (c: char)
    requires d < 10
    ensures '0' <= c <= '9'
    ensures c as int - '0' as int == d
  {
    ('0' as int + d) as char
  }

  /** The shortest decimal numeral of `n`: `${n}` for n up to 2^53. */
  function DecimalString(n: nat): (s: string)
    ensures |s| >= 1 && IsDigits(s)
    ensures (s[0] == '0') <==> n == 0
    decreases n
  {
    if n < 10 then [DigitChar(n)] else DecimalString(n / 10) + [DigitChar(n % 10)]
  }

  /** The number a string of decimal digits denotes. */
  function DecimalValue(s: string): nat
    requires IsDigits(s)
  {
    if s == [] then 0
    else 10 * DecimalValue(s[..|s| - 1]) + (s[|s| - 1] as int - '0' as int)
  }

  function Pow10(k: nat): (p: nat)
    ensures p >= 1
  {
    if k == 0 then 1 else 10 * Pow10(k - 1)
  }

  /** Reading the printed numeral gives the number back. */
  lemma {:induction false} DecimalRoundTrip(n: nat)
    ensures DecimalValue(DecimalString(n)) == n
  {
    if n >= 10 {
      DecimalRoundTrip(n / 10);
      var s := DecimalString(n);
      assert s[..|s| - 1] == DecimalString(n / 10);
    }
  }

  /** Distinct numbers print as distinct numerals. */
  lemma DecimalStringInjective(m: nat, n: nat)
    requires DecimalString(m) == DecimalString(n)
    ensures m == n
  {
    DecimalRoundTrip(m);
    DecimalRoundTrip(n);
  }

  /** A number with k+1 digits prints as k+1 characters. */
  lemma {:induction false} DecimalLength(n: nat, k: nat)
    requires Pow10(k) <= n < Pow10(k + 1)
    ensures |DecimalString(n)| == k + 1
  {
    if k > 0 {
      DecimalLength(n / 10, k - 1);
    }
  }
}
