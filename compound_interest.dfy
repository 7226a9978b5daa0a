/** The compound interest simulator: a starting capital, a contribution at
    every period (weekly, monthly or yearly) and a yearly return converted
    to a per-period rate; the table of balances, the year each period falls
    in, and the interest earned per period and per year. */
module CompoundInterest {
  import opened Numeric
  import opened Growth

  datatype Periodicity = Semanal | Mensal | Anual

  /** `freq_map`: periods per year. */
  function PeriodsPerYear(periodo: Periodicity): (n: nat)
    ensures n >= 1
  {
    match periodo
    case Semanal => 52
    case Mensal => 12
    case Anual => 1
  }

  /** `taxa` is the per-period rate of a yearly return of `rendimento`
      percent over `n` periods a year: `(1 + rendimento/100) ** (1/n) - 1`,
      stated by the power it inverts. */
  predicate IsPeriodRate(taxa: real, rendimento: real, n: nat)
  {
    taxa >= 0.0 && Pow(1.0 + taxa, n) == 1.0 + rendimento / 100.0
  }

  /** The year period `k` (counted from 0) falls in: `(Período - 1) // n + 1`. */
  function Year(k: nat, n: nat): nat
    requires n >= 1
  {
    k / n + 1
  }

  lemma MulMonotone(a: nat, b: nat, n: nat)
    requires a <= b
    ensures a * n <= b * n
  {
    assert b * n == a * n + (b - a) * n;
  }

  /** The years run from 1 to `anos`, and year `y + 1` holds exactly the
      periods from `y * n` up to `(y + 1) * n`: `n` periods each. */
  lemma YearOfPeriod(k: nat, n: nat, anos: nat, y: nat)
    requires n >= 1 && k < anos * n
    ensures 1 <= Year(k, n) <= anos
    ensures Year(k, n) == y + 1 <==> y * n <= k < (y + 1) * n
  {
    var q := k / n;
    assert q * n <= k < (q + 1) * n by {
      assert k == q * n + k % n;
      assert (q + 1) * n == q * n + n;
    }
    if q >= anos {
      MulMonotone(anos, q, n);
    }
    if q < y {
      MulMonotone(q + 1, y, n);
    } else if q > y {
      MulMonotone(y + 1, q, n);
    }
  }

  datatype Row = Row(periodo: nat, valor: real, ano: nat)

  /** `simular_juros_compostos`: one row per period, with the balance after
      that period and its year. */
  method Simulate(valorInicial: real, aporte: real, anos: nat, rendimento: real, periodo: Periodicity, taxa: real)
    returns (rows: seq<Row>)
    requires IsPeriodRate(taxa, rendimento, PeriodsPerYear(periodo))
    ensures |rows| == anos * PeriodsPerYear(periodo)
    ensures forall k :: 0 <= k < |rows| ==>
      rows[k] == Row(k + 1, Balance(valorInicial, taxa, aporte, k + 1), Year(k, PeriodsPerYear(periodo)))
    ensures valorInicial >= 0.0 && aporte >= 0.0 ==>
      forall k :: 0 <= k < |rows| - 1 ==> rows[k].valor <= rows[k + 1].valor
  {
    var n := PeriodsPerYear(periodo);
    var total := anos * n;
    rows := [];
    var saldo := valorInicial;
    for i := 1 to total + 1
      invariant |rows| == i - 1
      invariant saldo == Balance(valorInicial, taxa, aporte, i - 1)
      invariant forall k :: 0 <= k < |rows| ==> rows[k] == Row(k + 1, Balance(valorInicial, taxa, aporte, k + 1), Year(k, n))
    {
      BalanceNext(valorInicial, taxa, aporte, i - 1, saldo);
      saldo := saldo * (1.0 + taxa) + aporte;
      rows := rows + [Row(i, saldo, Year(i - 1, n))];
    }
    if valorInicial >= 0.0 && aporte >= 0.0 {
      forall k | 0 <= k < |rows| - 1
        ensures rows[k].valor <= rows[k + 1].valor
      {
        BalanceStep(valorInicial, taxa, aporte, k + 1);
      }
    }
  }

  /** Without contributions the final balance is the capital compounded
      yearly: the per-period rate compounds to the yearly return. */
  lemma FinalWithoutContributions(valorInicial: real, anos: nat, rendimento: real, n: nat, taxa: real)
    requires IsPeriodRate(taxa, rendimento, n)
    ensures Balance(valorInicial, taxa, 0.0, anos * n) == valorInicial * Pow(1.0 + rendimento / 100.0, anos)
  {
    BalanceNoContribution(valorInicial, taxa, anos * n);
    PowMul(1.0 + taxa, n, anos);
  }

  /** The final balance is the formula the page displays,
      `V0 (1+r)^n + P ((1+r)^n - 1) / r`, for a positive rate; without
      interest it is the capital plus the contributions. */
  lemma FinalIsDisplayedFormula(valorInicial: real, aporte: real, taxa: real, periodos: nat)
    ensures taxa > 0.0 ==>
      Balance(valorInicial, taxa, aporte, periodos)
        == valorInicial * Pow(1.0 + taxa, periodos) + aporte * (Pow(1.0 + taxa, periodos) - 1.0) / taxa
    ensures taxa == 0.0 ==> Balance(valorInicial, taxa, aporte, periodos) == valorInicial + periodos as real * aporte
  {
    if taxa > 0.0 {
      DisplayedFormula(valorInicial, taxa, aporte, periodos);
    } else if taxa == 0.0 {
      BalanceZeroRate(valorInicial, aporte, periodos);
    }
  }

  // ---------------------------------------------------------------------
  // The interest column

  function Values(rows: seq<Row>): (vals: seq<real>)
    ensures |vals| == |rows| && forall k :: 0 <= k < |rows| ==> vals[k] == rows[k].valor
  {
    seq(|rows|, k requires 0 <= k < |rows| => rows[k].valor)
  }

  /** The increase of each value over the one before it, less the
      contribution, the first taken over `start`. */
  function Increments(start: real, vals: seq<real>, aporte: real): (col: seq<real>)
    ensures |col| == |vals|
  {
    seq(|vals|, k requires 0 <= k < |vals| => vals[k] - (if k == 0 then start else vals[k - 1]) - aporte)
  }

  /** The page's column, `diff() - aporte` with the first row set to
      `valor - aporte`: the increments over 0. */
  function InterestAsWritten(vals: seq<real>, aporte: real): seq<real>
  {
    Increments(0.0, vals, aporte)
  }

  /** The interest actually earned each period: the increments over the
      starting capital. */
  function InterestEarned(valorInicial: real, vals: seq<real>, aporte: real): seq<real>
  {
    Increments(valorInicial, vals, aporte)
  }

  lemma IncrementsPrefix(start: real, vals: seq<real>, aporte: real, n: nat)
    requires n < |vals|
    ensures Increments(start, vals[..n + 1], aporte)
      == Increments(start, vals[..n], aporte) + [vals[n] - (if n == 0 then start else vals[n - 1]) - aporte]
  {
    var a, b := Increments(start, vals[..n + 1], aporte),
      Increments(start, vals[..n], aporte) + [vals[n] - (if n == 0 then start else vals[n - 1]) - aporte];
    assert |a| == |b|;
    forall k | 0 <= k < |a|
      ensures a[k] == b[k]
    {
    }
  }

  /** The increments telescope: they add up to the last value less the
      start and all the contributions. */
  lemma {:induction false} IncrementsSum(start: real, vals: seq<real>, aporte: real, n: nat)
    requires 0 < n <= |vals|
    ensures Sum(Increments(start, vals[..n], aporte)) == vals[n - 1] - start - n as real * aporte
  {
    IncrementsPrefix(start, vals, aporte, n - 1);
    SumAppend(Increments(start, vals[..n - 1], aporte), [vals[n - 1] - (if n == 1 then start else vals[n - 2]) - aporte]);
    SumSingleton(vals[n - 1] - (if n == 1 then start else vals[n - 2]) - aporte);
    if n > 1 {
      IncrementsSum(start, vals, aporte, n - 1);
    } else {
      assert vals[..0] == [];
    }
  }

  /** The increments over a whole series. */
  lemma IncrementsTotal(start: real, vals: seq<real>, aporte: real)
    requires |vals| > 0
    ensures Sum(Increments(start, vals, aporte)) == vals[|vals| - 1] - start - |vals| as real * aporte
  {
    IncrementsSum(start, vals, aporte, |vals|);
    assert vals[..|vals|] == vals;
  }

  /** The column the page shows adds up to the final balance less all the
      contributions, so its total counts the starting capital as interest:
      its first entry is the capital plus the interest earned, and every
      later entry is the interest earned. */
  lemma InterestAsWrittenTotal(rows: seq<Row>, valorInicial: real, aporte: real)
    requires |rows| > 0
    ensures Sum(InterestAsWritten(Values(rows), aporte)) == rows[|rows| - 1].valor - |rows| as real * aporte
    ensures InterestAsWritten(Values(rows), aporte)[0] == valorInicial + InterestEarned(valorInicial, Values(rows), aporte)[0]
    ensures forall k :: 1 <= k < |rows| ==> InterestAsWritten(Values(rows), aporte)[k] == InterestEarned(valorInicial, Values(rows), aporte)[k]
  {
    IncrementsTotal(0.0, Values(rows), aporte);
  }

  /** The interest earned adds up to the final balance less the capital and
      the contributions. */
  lemma InterestEarnedTotal(rows: seq<Row>, valorInicial: real, aporte: real)
    requires |rows| > 0
    ensures Sum(InterestEarned(valorInicial, Values(rows), aporte))
      == rows[|rows| - 1].valor - valorInicial - |rows| as real * aporte
  {
    IncrementsTotal(valorInicial, Values(rows), aporte);
  }

  /** Each entry of the interest earned is the interest on the balance the
      period started from. */
  lemma InterestEarnedAt(rows: seq<Row>, valorInicial: real, aporte: real, taxa: real, k: nat)
    requires k < |rows| && rows[k].valor == Balance(valorInicial, taxa, aporte, k + 1)
    requires k > 0 ==> rows[k - 1].valor == Balance(valorInicial, taxa, aporte, k)
    ensures InterestEarned(valorInicial, Values(rows), aporte)[k] == Balance(valorInicial, taxa, aporte, k) * taxa
  {
    InterestOfPeriod(valorInicial, taxa, aporte, k);
  }

  /** A capital of 1000 at no interest and no contributions for one year of
      yearly periods: the page's first interest row reads 1000, though
      nothing was earned. */
  lemma InterestAsWrittenCountsCapital()
    ensures var rows := [Row(1, Balance(1000.0, 0.0, 0.0, 1), 1)];
      && InterestAsWritten(Values(rows), 0.0)[0] == 1000.0
      && InterestEarned(1000.0, Values(rows), 0.0)[0] == 0.0
  {
  }

  // ---------------------------------------------------------------------
  // Interest per year

  lemma MulSucc(a: nat, n: nat)
    ensures (a + 1) * n == a * n + n
  {
  }

  /** `groupby("Ano").sum()`: the sums of the column over each year's `n`
      periods, in year order. */
  function YearlySums(col: seq<real>, n: nat, anos: nat): (sums: seq<real>)
    requires |col| == anos * n
    ensures |sums| == anos
  {
    if anos == 0 then []
    else
      MulSucc(anos - 1, n);
      [Sum(col[..n])] + YearlySums(col[n..], n, anos - 1)
  }

  /** The entry for year `y + 1` is the sum over that year's periods. */
  lemma {:induction false} YearlySumAt(col: seq<real>, n: nat, anos: nat, y: nat)
    requires |col| == anos * n && y < anos
    ensures y * n <= (y + 1) * n <= |col|
    ensures YearlySums(col, n, anos)[y] == Sum(col[y * n..(y + 1) * n])
  {
    MulSucc(y, n);
    MulMonotone(y + 1, anos, n);
    if y > 0 {
      assert YearlySums(col, n, anos)[y] == Sum(col[y * n..(y + 1) * n]) by {
        MulSucc(anos - 1, n);
        YearlySumAt(col[n..], n, anos - 1, y - 1);
        MulSucc(y - 1, n);
        SliceShift(col, n, (y - 1) * n, y * n);
      }
    }
  }

  lemma SliceShift<T>(s: seq<T>, d: nat, lo: nat, hi: nat)
    requires d <= |s| && lo <= hi <= |s| - d
    ensures s[d..][lo..hi] == s[lo + d..hi + d]
  {
  }

  /** Grouping by year loses nothing: the yearly sums add up to the whole
      column. */
  lemma {:induction false} YearlySumsTotal(col: seq<real>, n: nat, anos: nat)
    requires |col| == anos * n
    ensures Sum(YearlySums(col, n, anos)) == Sum(col)
  {
    if anos == 0 {
      assert col == [];
    } else {
      MulSucc(anos - 1, n);
      YearlySumsTotal(col[n..], n, anos - 1);
      SumAppend([Sum(col[..n])], YearlySums(col[n..], n, anos - 1));
      SumSingleton(Sum(col[..n]));
      assert col == col[..n] + col[n..];
      SumAppend(col[..n], col[n..]);
    }
  }
}
