/** Decimal numerals, as the program puts them into names. */
module Numerals {

  function Digit(d: nat): char
    requires d < 10
    ensures '0' <= Digit(d) <= '9'
  {
    ('0' as int + d) as char
  }

  function Digits(n: nat): (s: string)
    ensures s != "" && forall c | c in s :: '0' <= c <= '9'
  {
    if n < 10 then [Digit(n)] else Digits(n / 10) + [Digit(n % 10)]
  }

  /** Different numbers are written differently. */
  lemma {:induction false} DigitsInjective(a: nat, b: nat)
    requires Digits(a) == Digits(b)
    ensures a == b
  {
    var s, t := Digits(a), Digits(b);
    assert s[|s| - 1] == Digit(a % 10) && t[|t| - 1] == Digit(b % 10);
    if a >= 10 && b >= 10 {
      assert s[..|s| - 1] == Digits(a / 10) && t[..|t| - 1] == Digits(b / 10);
      DigitsInjective(a / 10, b / 10);
    }
  }

  lemma {:induction false} DigitsShort(n: nat, k: nat)
    requires k > 0 && n < Power(k)
    ensures |Digits(n)| <= k
  {
    if n >= 10 {
      DigitsShort(n / 10, k - 1);
    }
  }

  function Power(k: nat): nat {
    if k == 0 then 1 else 10 * Power(k - 1)
  }

  /** A hyphen before the number keeps it readable from the end, whatever stands in front. */
  lemma SuffixInjective(p: string, a: nat, q: string, b: nat)
    requires p + "-" + Digits(a) == q + "-" + Digits(b)
    ensures a == b
  {
    hide Digits;
    var s, t := p + "-" + Digits(a), q + "-" + Digits(b);
    var i, j := |p|, |q|;
    assert s[i] == '-' && t[j] == '-';
    assert s[i + 1..] == Digits(a) && t[j + 1..] == Digits(b);
    assert forall x | i < x < |s| :: s[x] == Digits(a)[x - i - 1] && s[x] in Digits(a);
    assert forall x | j < x < |t| :: t[x] == Digits(b)[x - j - 1] && t[x] in Digits(b);
    assert i == j;
    DigitsInjective(a, b);
  }
}
