/** Numbers as the decimal strings that ids are built from. */
module Decimals {
  const DIGITS := "0123456789"

  function Decimal(n: nat): (s: string)
    ensures |s| > 0
    ensures forall c :: c in s ==> c in DIGITS
  {
    if n < 10 then [DIGITS[n]] else Decimal(n / 10) + [DIGITS[n % 10]]
  }

  lemma DigitInjective(i: nat, j: nat)
    requires i < 10 && j < 10 && DIGITS[i] == DIGITS[j]
    ensures i == j
  {
  }

  /** A decimal is the decimal of its tens, if there are any, and a last digit. */
  lemma LastDigit(n: nat)
    ensures Decimal(n) == (if n < 10 then "" else Decimal(n / 10)) + [DIGITS[n % 10]]
  {
  }

  /** The last digits agree, and so does what is before them. */
  lemma SplitEqual(a: string, c: char, b: string, d: char)
    requires a + [c] == b + [d]
    ensures a == b && c == d
  {
    assert (a + [c])[..|a|] == a && (b + [d])[..|b|] == b && |a| == |b|;
    assert (a + [c])[|a|] == c && (b + [d])[|b|] == d;
  }

  /** Different numbers have different decimals. */
  lemma {:induction false} DecimalInjective(m: nat, n: nat)
    requires Decimal(m) == Decimal(n)
    ensures m == n
    decreases m
  {
    LastDigit(m);
    LastDigit(n);
    hide Decimal;
    var tens, others := if m < 10 then "" else Decimal(m / 10), if n < 10 then "" else Decimal(n / 10);
    SplitEqual(tens, DIGITS[m % 10], others, DIGITS[n % 10]);
    DigitInjective(m % 10, n % 10);
    if m >= 10 && n >= 10 { DecimalInjective(m / 10, n / 10); }
  }
}
