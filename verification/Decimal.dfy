/** Decimal numerals of natural numbers: printing, value and length. */
module Decimal {
  predicate IsDigit(c: char) { '0' <= c <= '9' }
  function DigitOf(c: char): int { c as int - '0' as int }

  predicate AllDigits(s: string) { forall i :: 0 <= i < |s| ==> IsDigit(s[i]) }

  /** The number a string of digits denotes, leading zeros allowed. */
  function Value(s: string): int {
    if s == "" then 0 else 10 * Value(s[..|s|-1]) + DigitOf(s[|s|-1])
  }

  lemma {:induction false} ValueBounds(s: string)
    requires AllDigits(s)
    ensures Value(s) >= 0 && (|s| <= 2 ==> Value(s) <= 99) && (|s| <= 1 ==> Value(s) <= 9)
  {
    if s != "" {
      var front := s[..|s|-1];
      ValueBounds(front);
      if front != "" { ValueBounds(front[..|front|-1]); }
    }
  }

  lemma ValueAppend(s: string, c: char)
    ensures Value(s + [c]) == 10 * Value(s) + DigitOf(c)
  {
    assert (s + [c])[..|s|] == s;
  }

  lemma {:induction false} ValuePrefix(s: string, k: nat)
    requires AllDigits(s) && k <= |s|
    ensures Value(s[..k]) <= Value(s)
  {
    if k < |s| {
      ValueBounds(s[..|s|-1]);
      ValuePrefix(s[..|s|-1], k);
      assert s[..|s|-1][..k] == s[..k];
    } else {
      assert s[..k] == s;
    }
  }

  /** The decimal digits std::to_string prints. */
  function Digits(n: nat): string {
    if n < 10 then [('0' as int + n) as char] else Digits(n / 10) + [('0' as int + n % 10) as char]
  }

  lemma {:induction false} DigitsValue(n: nat)
    ensures AllDigits(Digits(n)) && Value(Digits(n)) == n && |Digits(n)| >= 1
  {
    if n >= 10 {
      DigitsValue(n / 10);
      var s := Digits(n);
      assert s[..|s|-1] == Digits(n / 10);
    } else {
      assert Digits(n)[..0] == "";
    }
  }

  lemma {:induction false} DigitsLength(n: nat, k: nat)
    ensures |Digits(n)| <= k + 1 <==> n < Power10(k + 1)
  {
    if n >= 10 {
      if k > 0 { DigitsLength(n / 10, k - 1); }
    } else {
      Power10Positive(k);
    }
  }

  function Power10(k: nat): nat { if k == 0 then 1 else 10 * Power10(k - 1) }

  lemma {:induction false} Power10Positive(k: nat)
    ensures Power10(k) >= 1
  {
    if k > 0 { Power10Positive(k - 1); }
  }
}
