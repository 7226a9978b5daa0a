/** Exact real arithmetic shared by the lesson pages: whole powers, sums of
    series, and the two Python conversions the pages apply to money and
    time — `int(x)` (truncation toward zero) and `round(x)` (ties to even). */
module Numeric {

  /** `x ** n` for a whole exponent. */
  function Pow(x: real, n: nat): real
  {
    if n == 0 then 1.0 else x * Pow(x, n - 1)
  }

  lemma {:induction false} PowPositive(x: real, n: nat)
    requires x > 0.0
    ensures Pow(x, n) > 0.0
  {
    if n > 0 {
      PowPositive(x, n - 1);
    }
  }

  lemma {:induction false} PowAtLeastOne(x: real, n: nat)
    requires x >= 1.0
    ensures Pow(x, n) >= 1.0
  {
    if n > 0 {
      PowAtLeastOne(x, n - 1);
    }
  }

  /** Growth factors of at least one never shrink a power as the exponent grows. */
  lemma {:induction false} PowMonotone(x: real, m: nat, n: nat)
    requires x >= 1.0 && m <= n
    ensures Pow(x, m) <= Pow(x, n)
  {
    if m < n {
      PowMonotone(x, m, n - 1);
      PowAtLeastOne(x, n - 1);
    }
  }

  /** A larger non-negative base gives a larger power. */
  lemma {:induction false} PowBaseMonotone(x: real, y: real, n: nat)
    requires 0.0 <= x <= y
    ensures 0.0 <= Pow(x, n) <= Pow(y, n)
  {
    if n > 0 {
      PowBaseMonotone(x, y, n - 1);
      var a, b := Pow(x, n - 1), Pow(y, n - 1);
      assert x * a <= y * a by {
        assert y * a - x * a == (y - x) * a;
      }
      assert y * a <= y * b by {
        assert y * b - y * a == y * (b - a);
      }
    }
  }

  lemma {:induction false} PowOne(n: nat)
    ensures Pow(1.0, n) == 1.0
  {
    if n > 0 {
      PowOne(n - 1);
    }
  }

  /** Sum of a series, added from the front (Python's `sum`). */
  function Sum(s: seq<real>): real
  {
    if s == [] then 0.0 else s[0] + Sum(s[1..])
  }

  lemma {:induction false} SumAppend(s: seq<real>, t: seq<real>)
    ensures Sum(s + t) == Sum(s) + Sum(t)
  {
    if s == [] {
      assert s + t == t;
    } else {
      assert (s + t)[1..] == s[1..] + t;
      SumAppend(s[1..], t);
    }
  }

  /** Adding up smaller terms gives a smaller sum. */
  lemma {:induction false} SumMonotone(a: seq<real>, b: seq<real>)
    requires |a| == |b| && forall i :: 0 <= i < |a| ==> a[i] <= b[i]
    ensures Sum(a) <= Sum(b)
  {
    if a != [] {
      SumMonotone(a[1..], b[1..]);
    }
  }

  lemma SumSingleton(x: real)
    ensures Sum([x]) == x
  {
    assert [x][1..] == [];
  }

  /** Python's `int(x)` on a float: the integer part, truncated toward zero. */
  function Trunc(x: real): (r: int)
    ensures x >= 0.0 ==> 0 <= r && r as real <= x < r as real + 1.0
    ensures x < 0.0 ==> r <= 0 && r as real - 1.0 < x <= r as real
  {
    if x >= 0.0 then x.Floor else -((-x).Floor)
  }

  /** Python's `round(x)`: the nearest integer, and on a tie the even one. */
  function RoundHalfEven(x: real): (r: int)
    ensures x - 0.5 <= r as real <= x + 0.5
    ensures (r as real == x - 0.5 || r as real == x + 0.5) ==> r % 2 == 0
  {
    var f := x.Floor;
    var d := x - f as real;
    if d < 0.5 then f
    else if d > 0.5 then f + 1
    else if f % 2 == 0 then f
    else f + 1
  }

  /** The two properties of `RoundHalfEven` determine it: any integer within
      one half of `x`, and even on a tie, is the rounded value. */
  lemma RoundHalfEvenUnique(x: real, r: int)
    requires x - 0.5 <= r as real <= x + 0.5
    requires (r as real == x - 0.5 || r as real == x + 0.5) ==> r % 2 == 0
    ensures RoundHalfEven(x) == r
  {
  }

  /** Adding an even whole number commutes with rounding half to even. */
  lemma RoundHalfEvenShift(x: real, k: int)
    ensures RoundHalfEven(x + (2 * k) as real) == RoundHalfEven(x) + 2 * k
  {
    var r := RoundHalfEven(x);
    assert (r + 2 * k) % 2 == r % 2;
    RoundHalfEvenUnique(x + (2 * k) as real, r + 2 * k);
  }

  /** `10 ** digits`, the scale of the last decimal place kept by `round`. */
  function Scale(digits: nat): (p: real)
    ensures p >= 1.0
  {
    if digits == 0 then 1.0 else 10.0 * Scale(digits - 1)
  }

  /** Python's `round(x, digits)` taken on the exact value of `x`. */
  function RoundTo(x: real, digits: nat): (r: real)
    ensures -0.5 <= (r - x) * Scale(digits) <= 0.5
  {
    RoundHalfEven(x * Scale(digits)) as real / Scale(digits)
  }
}
