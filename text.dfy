/** Python's `f"{n}"` for an integer: its decimal digits, with a leading
    minus sign when negative, and the reading back that shows the text
    determines the number. */
module Text {

  function Digit(d: nat): (c: char)
    requires d < 10
    ensures '0' <= c <= '9'
  {
    "0123456789"[d]
  }

  function DigitValue(c: char): (d: nat)
    requires '0' <= c <= '9'
    ensures d < 10
  {
    (c as int - '0' as int) as nat
  }

  lemma DigitRoundTrip(d: nat)
    requires d < 10
    ensures DigitValue(Digit(d)) == d
  {
  }

  /** The decimal digits of `n`, most significant first, no leading zeros. */
  function NatText(n: nat): (s: string)
    ensures |s| > 0 && '0' <= s[0] <= '9'
  {
    if n < 10 then [Digit(n)] else NatText(n / 10) + [Digit(n % 10)]
  }

  predicate AllDigits(s: string)
  {
    forall i :: 0 <= i < |s| ==> '0' <= s[i] <= '9'
  }

  /** Reads a string of digits as a number. */
  function ParseNat(s: string): nat
    requires AllDigits(s)
  {
    if s == [] then 0 else 10 * ParseNat(s[..|s| - 1]) + DigitValue(s[|s| - 1])
  }

  lemma {:induction false} NatTextDigits(n: nat)
    ensures AllDigits(NatText(n))
  {
    if n >= 10 {
      NatTextDigits(n / 10);
    }
  }

  lemma {:induction false} ParseNatText(n: nat)
    ensures AllDigits(NatText(n)) && ParseNat(NatText(n)) == n
  {
    NatTextDigits(n);
    var s := NatText(n);
    if n < 10 {
      assert s[..0] == [];
      DigitRoundTrip(n);
    } else {
      ParseNatText(n / 10);
      assert s[..|s| - 1] == NatText(n / 10);
      DigitRoundTrip(n % 10);
    }
  }

  /** `f"{n}"`. */
  function IntText(n: int): (s: string)
    ensures |s| > 0
    ensures s[0] == '-' <==> n < 0
  {
    if n < 0 then "-" + NatText(-n) else NatText(n)
  }

  lemma NatTextInjective(a: nat, b: nat)
    requires NatText(a) == NatText(b)
    ensures a == b
  {
    ParseNatText(a);
    ParseNatText(b);
  }

  /** Different numbers print differently. */
  lemma IntTextInjective(a: int, b: int)
    requires IntText(a) == IntText(b)
    ensures a == b
  {
    if a < 0 && b < 0 {
      assert IntText(a)[1..] == NatText(-a);
      assert IntText(b)[1..] == NatText(-b);
      NatTextInjective(-a, -b);
    } else if a >= 0 && b >= 0 {
      NatTextInjective(a, b);
    }
  }

  /** `f"{n}%"`. */
  function PercentText(n: int): (s: string)
    ensures |s| > 1 && s[|s| - 1] == '%'
  {
    IntText(n) + "%"
  }

  lemma PercentTextInjective(a: int, b: int)
    requires PercentText(a) == PercentText(b)
    ensures a == b
  {
    assert PercentText(a)[..|PercentText(a)| - 1] == IntText(a);
    assert PercentText(b)[..|PercentText(b)| - 1] == IntText(b);
    IntTextInjective(a, b);
  }

  /** Different integers print different percentages. */
  lemma PercentTextDistinct(a: int, b: int)
    requires a != b
    ensures PercentText(a) != PercentText(b)
  {
    if PercentText(a) == PercentText(b) {
      PercentTextInjective(a, b);
    }
  }
}
