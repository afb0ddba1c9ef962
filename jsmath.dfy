/** The two pieces of JavaScript number handling the screens rely on, stated on
    exact integers: `Math.round` applied to a quotient, and the decimal text a
    positive whole number is shown as. */
module JsMath {

  /** `Math.round(p / q)`: the nearest integer to p/q, a half rounded up. */
  function RoundDiv(p: int, q: int): (r: int)
    requires q > 0
    ensures (2 * q) * r <= 2 * p + q < (2 * q) * r + 2 * q
  {
    (2 * p + q) / (2 * q)
  }

  /** Any integer within half a unit of p/q (the upper half excluded) is the rounded value. */
  lemma RoundDivUnique(p: int, q: int, r: int)
    requires q > 0
    requires (2 * q) * r <= 2 * p + q < (2 * q) * r + 2 * q
    ensures RoundDiv(p, q) == r
  {
    var d := RoundDiv(p, q);
    if d < r {
      MulMonotone(d + 1, r, 2 * q);
    } else if d > r {
      MulMonotone(r + 1, d, 2 * q);
    }
  }

  lemma MulMonotone(a: int, b: int, c: int)
    requires a <= b && c >= 0
    ensures a * c <= b * c
  {
  }

  /** The character of a decimal digit. */
  function DigitChar(d: nat): (c: char)
    requires d < 10
    ensures '0' <= c <= '9' && (c as int) - ('0' as int) == d
  {
    (('0' as int) + d) as char
  }

  predicate IsDigits(s: string) {
    forall i :: 0 <= i < |s| ==> '0' <= s[i] <= '9'
  }

  /** The text `${n}` of a whole number: its decimal digits, no leading zero. */
  function DecimalString(n: nat): (s: string)
    ensures |s| >= 1 && IsDigits(s)
    ensures n > 0 ==> s[0] != '0'
    decreases n
  {
    if n < 10 then [DigitChar(n)] else DecimalString(n / 10) + [DigitChar(n % 10)]
  }

  /** Reads a string of decimal digits back as a number. */
  function ParseDecimal(s: string): nat
    requires IsDigits(s)
    decreases |s|
  {
    if s == [] then 0
    else ParseDecimal(s[..|s| - 1]) * 10 + ((s[|s| - 1] as int) - ('0' as int))
  }

  /** The decimal text of a number reads back as that number. */
  lemma {:induction false} ParseDecimalString(n: nat)
    ensures ParseDecimal(DecimalString(n)) == n
    decreases n
  {
    var s := DecimalString(n);
    if n >= 10 {
      ParseDecimalString(n / 10);
      assert s[..|s| - 1] == DecimalString(n / 10);
    }
  }

  /** Distinct numbers are shown as distinct texts. */
  lemma DecimalStringInjective(m: nat, n: nat)
    requires DecimalString(m) == DecimalString(n)
    ensures m == n
  {
    ParseDecimalString(m);
    ParseDecimalString(n);
  }
}
