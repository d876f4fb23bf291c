/** The text of numbers and booleans: `n.toString()`, `b.toString()`. */
module Decimal {

  const Digits: string := "0123456789"

  predicate IsDigit(c: char)
  {
    '0' <= c <= '9'
  }

  /** Number::toString for a non-negative safe integer (section 6.1.6.1.20
      of ECMA-262): its decimal digits, without sign or leading zeros. */
  function NumberText(n: nat): (r: string)
    ensures |r| >= 1 && forall i :: 0 <= i < |r| ==> IsDigit(r[i])
    ensures r[0] == '0' ==> n == 0
  {
    if n < 10 then [Digits[n]]
    else NumberText(n / 10) + [Digits[n % 10]]
  }

  /** The value of a string of decimal digits. */
  function DigitsValue(s: string): nat
    requires forall i :: 0 <= i < |s| ==> IsDigit(s[i])
  {
    if s == [] then 0
    else
      assert IsDigit(s[|s| - 1]);
      DigitsValue(s[..|s| - 1]) * 10 + (s[|s| - 1] as int - '0' as int)
  }

  /** Reading the text back gives the number. */
  lemma {:induction false} NumberTextRoundTrip(n: nat)
    ensures DigitsValue(NumberText(n)) == n
  {
    if n >= 10 {
      var s := NumberText(n);
      assert s[..|s| - 1] == NumberText(n / 10);
      NumberTextRoundTrip(n / 10);
    }
  }

  /** Boolean::toString: `"true"` or `"false"`. */
  function BoolText(b: bool): string
  {
    if b then "true" else "false"
  }
}
