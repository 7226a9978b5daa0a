/** The balance recurrence behind every savings and investment simulator:
    a balance that earns a rate per period and then receives a fixed
    contribution, `saldo = saldo * (1 + taxa) + aporte`, and what follows
    from it — the closed form the pages display, the special cases without
    interest or without contributions, growth and monotonicity. */
module Growth {
  import opened Numeric

  /** The balance after `n` periods, starting from `v0`, with rate `r` per
      period and contribution `p` at the end of each period. */
  function Balance(v0: real, r: real, p: real, n: nat): real
  {
    if n == 0 then v0 else Balance(v0, r, p, n - 1) * (1.0 + r) + p
  }

  /** The factor `(1 + r) ** n` by which `n` periods at a non-negative
      rate `r` multiply an amount; never below one. */
  function Compound(r: real, n: nat): (f: real)
    requires r >= 0.0
    ensures f >= 1.0
  {
    PowAtLeastOne(1.0 + r, n);
    Pow(1.0 + r, n)
  }

  /** At a positive rate the factor grows strictly with every period. */
  lemma CompoundStrict(t: real, m: nat, n: nat)
    requires t > 0.0 && m < n
    ensures Compound(t, m) < Compound(t, n)
  {
    PowMonotone(1.0 + t, m + 1, n);
    var c := Compound(t, m);
    assert Compound(t, m + 1) == (1.0 + t) * c;
    assert (1.0 + t) * c - c == t * c;
  }

  /** One more period, from a balance already known. */
  lemma BalanceNext(v0: real, r: real, p: real, n: nat, b: real)
    requires b == Balance(v0, r, p, n)
    ensures Balance(v0, r, p, n + 1) == b * (1.0 + r) + p
  {
  }

  /** Without interest the balance grows linearly. */
  lemma {:induction false} BalanceZeroRate(v0: real, p: real, n: nat)
    ensures Balance(v0, 0.0, p, n) == v0 + n as real * p
  {
    if n > 0 {
      BalanceZeroRate(v0, p, n - 1);
    }
  }

  /** Without contributions the balance is the compounded start. */
  lemma {:induction false} BalanceNoContribution(v0: real, r: real, n: nat)
    ensures Balance(v0, r, 0.0, n) == v0 * Pow(1.0 + r, n)
  {
    if n > 0 {
      BalanceNoContribution(v0, r, n - 1);
    }
  }

  /** The closed form `V0 (1+r)^n + P ((1+r)^n - 1) / r`, multiplied through
      by `r` so that it holds for every rate. */
  lemma {:induction false} BalanceClosedForm(v0: real, r: real, p: real, n: nat)
    ensures Balance(v0, r, p, n) * r == v0 * r * Pow(1.0 + r, n) + p * (Pow(1.0 + r, n) - 1.0)
  {
    if n > 0 {
      BalanceClosedForm(v0, r, p, n - 1);
      var b, q := Balance(v0, r, p, n - 1), Pow(1.0 + r, n - 1);
      ClosedFormStep(b, v0, r, p, q, Balance(v0, r, p, n), Pow(1.0 + r, n));
    }
  }

  /** One step of the closed form, as plain algebra: if it holds for a
      balance `b` and factor `q`, it holds for the balance `b1` and factor
      `q1` one period later. */
  lemma ClosedFormStep(b: real, v0: real, r: real, p: real, q: real, b1: real, q1: real)
    requires b * r == v0 * r * q + p * (q - 1.0)
    requires b1 == b * (1.0 + r) + p && q1 == (1.0 + r) * q
    ensures b1 * r == v0 * r * q1 + p * (q1 - 1.0)
  {
    calc {
      b1 * r;
      (b * (1.0 + r) + p) * r;
      (b * r) * (1.0 + r) + p * r;
      (v0 * r * q + p * (q - 1.0)) * (1.0 + r) + p * r;
      v0 * r * ((1.0 + r) * q) + p * ((1.0 + r) * q - 1.0);
      v0 * r * q1 + p * (q1 - 1.0);
    }
  }

  /** The displayed formula, for a positive rate. */
  lemma DisplayedFormula(v0: real, r: real, p: real, n: nat)
    requires r > 0.0
    ensures Balance(v0, r, p, n) == v0 * Pow(1.0 + r, n) + p * (Pow(1.0 + r, n) - 1.0) / r
  {
    BalanceClosedForm(v0, r, p, n);
    var q := Pow(1.0 + r, n);
    DivideByRate(Balance(v0, r, p, n), r, v0 * q, p * (q - 1.0));
  }

  /** Dividing the closed form through by a positive rate. */
  lemma DivideByRate(b: real, r: real, x: real, y: real)
    requires r > 0.0 && b * r == x * r + y
    ensures b == x + y / r
  {
    assert y / r * r == y;
    assert (b - x - y / r) * r == 0.0;
  }

  /** With non-negative start, rate and contributions, every period adds at
      least the contribution, so after `n` periods the balance is at least
      the start plus `n` contributions. */
  lemma {:induction false} BalanceAtLeastLinear(v0: real, r: real, p: real, n: nat)
    requires v0 >= 0.0 && r >= 0.0 && p >= 0.0
    ensures Balance(v0, r, p, n) >= v0 + n as real * p
  {
    if n > 0 {
      BalanceAtLeastLinear(v0, r, p, n - 1);
      var b := Balance(v0, r, p, n - 1);
      ProductNonNegative(b, r);
      assert Balance(v0, r, p, n) == b + b * r + p;
    }
  }

  /** One period raises the balance by at least the contribution. */
  lemma BalanceStep(v0: real, r: real, p: real, n: nat)
    requires v0 >= 0.0 && r >= 0.0 && p >= 0.0
    ensures Balance(v0, r, p, n + 1) >= Balance(v0, r, p, n) + p
  {
    BalanceAtLeastLinear(v0, r, p, n);
    var b := Balance(v0, r, p, n);
    ProductNonNegative(b, r);
    assert Balance(v0, r, p, n + 1) == b + b * r + p;
  }

  /** The interest on a non-negative balance at a non-negative rate. */
  lemma ProductNonNegative(b: real, r: real)
    requires b >= 0.0 && r >= 0.0
    ensures b * r >= 0.0
  {
  }

  /** The balance never falls as periods pass. */
  lemma {:induction false} BalanceMonotone(v0: real, r: real, p: real, m: nat, n: nat)
    requires v0 >= 0.0 && r >= 0.0 && p >= 0.0 && m <= n
    ensures Balance(v0, r, p, m) <= Balance(v0, r, p, n)
  {
    if m < n {
      BalanceMonotone(v0, r, p, m, n - 1);
      BalanceStep(v0, r, p, n - 1);
    }
  }

  /** Contributing more never ends with less. */
  lemma {:induction false} BalanceMonotoneInContribution(v0: real, r: real, p: real, q: real, n: nat)
    requires r >= 0.0 && p <= q
    ensures Balance(v0, r, p, n) <= Balance(v0, r, q, n)
  {
    if n > 0 {
      BalanceMonotoneInContribution(v0, r, p, q, n - 1);
      ScaleMonotone(Balance(v0, r, p, n - 1), Balance(v0, r, q, n - 1), 1.0 + r);
    }
  }

  /** A higher rate never ends with less, when nothing is negative. */
  lemma {:induction false} BalanceMonotoneInRate(v0: real, r: real, s: real, p: real, n: nat)
    requires v0 >= 0.0 && p >= 0.0 && 0.0 <= r <= s
    ensures Balance(v0, r, p, n) <= Balance(v0, s, p, n)
  {
    if n > 0 {
      BalanceMonotoneInRate(v0, r, s, p, n - 1);
      BalanceAtLeastLinear(v0, r, p, n - 1);
      RateStep(Balance(v0, r, p, n - 1), Balance(v0, s, p, n - 1), r, s, p);
    }
  }

  /** Scaling by a non-negative factor keeps the order. */
  lemma ScaleMonotone(a: real, b: real, c: real)
    requires a <= b && c >= 0.0
    ensures a * c <= b * c
  {
    ProductNonNegative(b - a, c);
  }

  /** One period, as plain algebra: a smaller non-negative balance at a
      smaller rate ends no higher than a larger one at a larger rate. */
  lemma RateStep(a: real, b: real, r: real, s: real, p: real)
    requires 0.0 <= a <= b && 0.0 <= r <= s
    ensures a * (1.0 + r) + p <= b * (1.0 + s) + p
  {
    assert a * (1.0 + r) <= a * (1.0 + s);
    assert a * (1.0 + s) <= b * (1.0 + s);
  }

  /** Running `m` periods and then `n` more from where they left off is
      running `m + n` periods. */
  lemma {:induction false} BalanceConcat(v0: real, r: real, p: real, m: nat, n: nat)
    ensures Balance(Balance(v0, r, p, m), r, p, n) == Balance(v0, r, p, m + n)
  {
    if n > 0 {
      BalanceConcat(v0, r, p, m, n - 1);
    }
  }

  /** Compounding `k` periods at a per-period rate whose `k`-th power is
      the yearly factor, `n` years long, is compounding `n` years at the
      yearly factor. */
  lemma {:induction false} PowMul(x: real, k: nat, n: nat)
    ensures Pow(x, k * n) == Pow(Pow(x, k), n)
  {
    if n > 0 {
      var j := k * (n - 1);
      assert k * n == k + j;
      calc {
        Pow(x, k * n);
        Pow(x, k + j);
        { PowAdd(x, k, j); }
        Pow(x, k) * Pow(x, j);
        { PowMul(x, k, n - 1); }
        Pow(x, k) * Pow(Pow(x, k), n - 1);
      }
    }
  }

  lemma {:induction false} PowAdd(x: real, a: nat, b: nat)
    ensures Pow(x, a + b) == Pow(x, a) * Pow(x, b)
  {
    if a > 0 {
      PowAdd(x, a - 1, b);
    }
  }

  /** What one period earns on the balance it starts from: the increase of
      the balance less the contribution. */
  lemma InterestOfPeriod(v0: real, r: real, p: real, n: nat)
    ensures Balance(v0, r, p, n + 1) - Balance(v0, r, p, n) - p == Balance(v0, r, p, n) * r
  {
  }
}
