/** Natural numbers as decimal text. */
module Numerals {
  function Digit(d: nat): char
    requires d < 10
  {
    ['0', '1', '2', '3', '4', '5', '6', '7', '8', '9'][d]
  }

  predicate IsDigit(c: char) { '0' <= c <= '9' }

  function DigitValue(c: char): (d: nat)
    requires IsDigit(c)
    ensures d < 10
  {
    (c - '0') as nat
  }

  predicate AllDigits(s: string) { forall c :: c in s ==> IsDigit(c) }

  /** n::text */
  function Shown(n: nat): string {
    if n < 10 then [Digit(n)] else Shown(n / 10) + [Digit(n % 10)]
  }

  /** s::int */
  function Value(s: string): nat
    requires AllDigits(s)
  {
    if s == "" then 0 else 10 * Value(s[..|s| - 1]) + DigitValue(s[|s| - 1])
  }

  lemma DigitBack(d: nat)
    requires d < 10
    ensures IsDigit(Digit(d)) && DigitValue(Digit(d)) == d
  {
  }

  lemma {:induction false} ShownBack(n: nat)
    ensures AllDigits(Shown(n)) && Shown(n) != "" && Value(Shown(n)) == n
  {
    if n >= 10 {
      var front := Shown(n / 10);
      ShownBack(n / 10);
      DigitBack(n % 10);
      assert Shown(n)[..|Shown(n)| - 1] == front;
    } else {
      DigitBack(n);
      assert Shown(n)[..0] == "";
    }
  }

  function Power(k: nat): (p: nat)
    ensures p >= 1
  {
    if k == 0 then 1 else 10 * Power(k - 1)
  }

  lemma {:induction false} ValueBound(s: string)
    requires AllDigits(s)
    ensures Value(s) < Power(|s|)
  {
    if s != "" {
      ValueBound(s[..|s| - 1]);
    }
  }

  // As many digits as its size asks.
  lemma {:induction false} ShownLength(n: nat, k: nat)
    requires n < Power(k) && k > 0
    ensures |Shown(n)| <= k
  {
    if n >= 10 {
      ShownLength(n / 10, k - 1);
    }
  }

  lemma {:induction false} ShownAtLeast(n: nat, k: nat)
    requires n >= Power(k)
    ensures |Shown(n)| > k
  {
    if k > 0 {
      ShownAtLeast(n / 10, k - 1);
    }
  }
}
