/** "Time is money": a fixed monthly saving earning a yearly return, the
    balance it reaches, what starting five years earlier would have
    reached, and the interest earned month by month and year by year. */
module TimeIsMoney {
  import opened Numeric
  import opened Growth
  import opened CompoundInterest

  /** `simular_poupanca`: the balance after each month, starting from
      nothing, with `taxa` the monthly rate of a yearly return of
      `rendimento` percent. */
  method Simulate(valorMensal: real, anos: nat, rendimento: real, taxa: real) returns (vals: seq<real>)
    requires IsPeriodRate(taxa, rendimento, 12)
    ensures |vals| == anos * 12
    ensures forall k :: 0 <= k < |vals| ==> vals[k] == Balance(0.0, taxa, valorMensal, k + 1)
    ensures |vals| > 0 ==> vals[0] == valorMensal
    ensures taxa == 0.0 ==> forall k :: 0 <= k < |vals| ==> vals[k] == valorMensal * (k + 1) as real
  {
    var meses := anos * 12;
    vals := [];
    var saldo := 0.0;
    for mes := 1 to meses + 1
      invariant |vals| == mes - 1
      invariant saldo == Balance(0.0, taxa, valorMensal, mes - 1)
      invariant forall k :: 0 <= k < |vals| ==> vals[k] == Balance(0.0, taxa, valorMensal, k + 1)
    {
      BalanceNext(0.0, taxa, valorMensal, mes - 1, saldo);
      saldo := saldo * (1.0 + taxa) + valorMensal;
      vals := vals + [saldo];
    }
    if taxa == 0.0 {
      forall k | 0 <= k < |vals|
        ensures vals[k] == valorMensal * (k + 1) as real
      {
        BalanceZeroRate(0.0, valorMensal, k + 1);
      }
    }
  }

  /** Saving longer never ends with less: the longer simulation runs through
      the same balances first. */
  lemma StartingEarlier(valorMensal: real, taxa: real, anos: nat, mais: nat)
    requires valorMensal >= 0.0 && taxa >= 0.0 && anos >= 1
    ensures Balance(0.0, taxa, valorMensal, anos * 12) <= Balance(0.0, taxa, valorMensal, (anos + mais) * 12)
  {
    BalanceMonotone(0.0, taxa, valorMensal, anos * 12, (anos + mais) * 12);
  }

  /** With nothing saved beforehand the page's interest column is the
      interest earned: nothing in the first month, then the interest on the
      balance the month starts from. */
  lemma MonthlyInterest(vals: seq<real>, valorMensal: real, taxa: real)
    requires forall k :: 0 <= k < |vals| ==> vals[k] == Balance(0.0, taxa, valorMensal, k + 1)
    ensures InterestAsWritten(vals, valorMensal) == InterestEarned(0.0, vals, valorMensal)
    ensures |vals| > 0 ==> InterestAsWritten(vals, valorMensal)[0] == 0.0
  {
    if |vals| > 0 {
      InterestAt(vals, valorMensal, taxa, 0);
    }
  }

  /** Month `k + 1` earns the interest on the balance it starts from. */

  lemma InterestAt(vals: seq<real>, valorMensal: real, taxa: real, k: nat)
    requires k < |vals|
    requires vals[k] == Balance(0.0, taxa, valorMensal, k + 1)
    requires k > 0 ==> vals[k - 1] == Balance(0.0, taxa, valorMensal, k)
    ensures InterestAsWritten(vals, valorMensal)[k] == Balance(0.0, taxa, valorMensal, k) * taxa
  {
    InterestOfPeriod(0.0, taxa, valorMensal, k);
    var prev := if k == 0 then 0.0 else vals[k - 1];
    assert prev == Balance(0.0, taxa, valorMensal, k);
    assert InterestAsWritten(vals, valorMensal)[k] == vals[k] - prev - valorMensal;
  }

  lemma MulMonotoneReal(a: real, b: real, t: real)
    requires a <= b && t >= 0.0
    ensures a * t <= b * t
  {
    assert b * t - a * t == (b - a) * t;
  }

  /** A month earns at least as much interest as the same month a year
      earlier. */
  lemma InterestGrowsAt(vals: seq<real>, valorMensal: real, taxa: real, k: nat)
    requires valorMensal >= 0.0 && taxa >= 0.0 && k + 12 < |vals|
    requires forall j :: 0 <= j < |vals| ==> vals[j] == Balance(0.0, taxa, valorMensal, j + 1)
    ensures InterestAsWritten(vals, valorMensal)[k] <= InterestAsWritten(vals, valorMensal)[k + 12]
  {
    InterestAt(vals, valorMensal, taxa, k);
    InterestAt(vals, valorMensal, taxa, k + 12);
    BalanceMonotone(0.0, taxa, valorMensal, k, k + 12);
    MulMonotoneReal(Balance(0.0, taxa, valorMensal, k), Balance(0.0, taxa, valorMensal, k + 12), taxa);
  }

  /** With a non-negative rate and saving, every year earns at least as much
      interest as the year before it. */
  lemma YearlyInterestGrows(vals: seq<real>, valorMensal: real, taxa: real, anos: nat, y: nat)
    requires valorMensal >= 0.0 && taxa >= 0.0
    requires |vals| == anos * 12 && y + 1 < anos
    requires forall k :: 0 <= k < |vals| ==> vals[k] == Balance(0.0, taxa, valorMensal, k + 1)
    ensures YearlySums(InterestAsWritten(vals, valorMensal), 12, anos)[y]
      <= YearlySums(InterestAsWritten(vals, valorMensal), 12, anos)[y + 1]
  {
    var col := InterestAsWritten(vals, valorMensal);
    var sums := YearlySums(col, 12, anos);
    assert sums[y] == Sum(col[y * 12..(y + 1) * 12]) by {
      YearlySumAt(col, 12, anos, y);
    }
    assert sums[y + 1] == Sum(col[(y + 1) * 12..(y + 2) * 12]) by {
      YearlySumAt(col, 12, anos, y + 1);
    }
    YearAfterYear(vals, valorMensal, taxa, y);
  }

  /** The interest column over one year's twelve months adds up to no more
      than over the next year's. */
  lemma YearAfterYear(vals: seq<real>, valorMensal: real, taxa: real, y: nat)
    requires valorMensal >= 0.0 && taxa >= 0.0 && (y + 2) * 12 <= |vals|
    requires forall k :: 0 <= k < |vals| ==> vals[k] == Balance(0.0, taxa, valorMensal, k + 1)
    ensures Sum(InterestAsWritten(vals, valorMensal)[y * 12..(y + 1) * 12])
      <= Sum(InterestAsWritten(vals, valorMensal)[(y + 1) * 12..(y + 2) * 12])
  {
    var col := InterestAsWritten(vals, valorMensal);
    var a, b := col[y * 12..(y + 1) * 12], col[(y + 1) * 12..(y + 2) * 12];
    forall i | 0 <= i < 12
      ensures a[i] <= b[i]
    {
      InterestGrowsAt(vals, valorMensal, taxa, y * 12 + i);
    }
    SumMonotone(a, b);
  }

  /** What the page reports: the final balance, the one five years earlier
      would have reached, the interest per year, and the interest of the
      first year, of the fifth when there is one, and of the last. */
  datatype Report = Report(
    finalAtual: real, finalMaisCedo: real, jurosPorAno: seq<real>,
    juros1: real, juros5: Option<real>, jurosUltimo: real)

  datatype Option<T> = None | Some(value: T)

  /** One run of the page, with the sliders' ranges. */
  method Run(valorMensal: real, anos: nat, rendimento: real, taxa: real) returns (r: Report)
    requires valorMensal >= 10.0 && 1 <= anos <= 40 && 0.0 <= rendimento <= 15.0
    requires IsPeriodRate(taxa, rendimento, 12)
    ensures r.finalAtual == Balance(0.0, taxa, valorMensal, anos * 12)
    ensures r.finalMaisCedo == Balance(0.0, taxa, valorMensal, (anos + 5) * 12)
    ensures r.finalAtual <= r.finalMaisCedo
    ensures |r.jurosPorAno| == anos
    ensures Sum(r.jurosPorAno) == r.finalAtual - (anos * 12) as real * valorMensal
    ensures r.juros1 == r.jurosPorAno[0] && r.jurosUltimo == r.jurosPorAno[anos - 1]
    ensures r.juros5.Some? <==> anos >= 5
    ensures r.juros5.Some? ==> r.juros5.value == r.jurosPorAno[4]
    ensures forall y :: 0 <= y < anos - 1 ==> r.jurosPorAno[y] <= r.jurosPorAno[y + 1]
  {
    var atual := Simulate(valorMensal, anos, rendimento, taxa);
    var maisCedo := Simulate(valorMensal, anos + 5, rendimento, taxa);
    StartingEarlier(valorMensal, taxa, anos, 5);
    var col := InterestAsWritten(atual, valorMensal);
    var porAno := YearlySums(col, 12, anos);
    assert Sum(porAno) == atual[|atual| - 1] - (anos * 12) as real * valorMensal by {
      YearlySumsTotal(col, 12, anos);
      IncrementsTotal(0.0, atual, valorMensal);
    }
    assert forall y :: 0 <= y < anos - 1 ==> porAno[y] <= porAno[y + 1] by {
      forall y | 0 <= y < anos - 1
        ensures porAno[y] <= porAno[y + 1]
      {
        YearlyInterestGrows(atual, valorMensal, taxa, anos, y);
      }
    }
    r := Report(atual[|atual| - 1], maisCedo[|maisCedo| - 1], porAno,
                porAno[0], if anos >= 5 then Some(porAno[4]) else None, porAno[anos - 1]);
  }
}
