/** Investing in the future: a table of asset classes with their average
    yearly return, and the growth of a one-off investment in the chosen
    class over a number of years, shown month by month. */
module InvestFuture {
  import opened Numeric
  import opened Growth
  import opened CompoundInterest

  datatype Investment = Investment(ativo: string, rendimento: real, risco: string)

  /** `INVESTIMENTOS`: name, average yearly return in percent, risk. */
  const Investments: seq<Investment> := [
    Investment("Poupança", 1.5, "Muito baixo"),
    Investment("Obrigações", 2.5, "Baixo"),
    Investment("Fundos Mistos", 4.0, "Médio"),
    Investment("Ações", 6.0, "Alto"),
    Investment("Imobiliário", 5.0, "Médio")
  ]

  /** The names the page offers, which are the table's rows. */
  predicate Offered(ativo: string)
  {
    exists i :: 0 <= i < |Investments| && Investments[i].ativo == ativo
  }

  /** Looking the choice up from the first row on. */
  function FirstRow(ativo: string, from: nat): (i: nat)
    requires from <= |Investments|
    requires exists j :: from <= j < |Investments| && Investments[j].ativo == ativo
    ensures from <= i < |Investments| && Investments[i].ativo == ativo
    ensures forall j :: from <= j < i ==> Investments[j].ativo != ativo
    decreases |Investments| - from
  {
    if Investments[from].ativo == ativo then from else FirstRow(ativo, from + 1)
  }

  /** The rows' names are pairwise different, so a choice matches one row. */
  lemma NamesUnique(i: nat, j: nat)
    requires i < |Investments| && j < |Investments| && Investments[i].ativo == Investments[j].ativo
    ensures i == j
  {
    var names := seq(|Investments|, k requires 0 <= k < |Investments| => Investments[k].ativo);
    assert names == ["Poupança", "Obrigações", "Fundos Mistos", "Ações", "Imobiliário"];
  }

  /** The return of the chosen asset: the one on the row that carries its
      name. */
  function RateOf(ativo: string): (r: real)
    requires Offered(ativo)
    ensures forall i :: 0 <= i < |Investments| && Investments[i].ativo == ativo ==> r == Investments[i].rendimento
    ensures 0.0 < r <= 6.0
  {
    var i := FirstRow(ativo, 0);
    forall j | 0 <= j < |Investments| && Investments[j].ativo == ativo
      ensures j == i
    {
      NamesUnique(i, j);
    }
    Investments[i].rendimento
  }

  /** `simular_crescimento` as written: `meses` entries, every one of them
      the value after the whole horizon, because the comprehension does not
      use its loop variable. */
  function GrowthAsWritten(valorInicial: real, anos: nat, rendimento: real): (vals: seq<real>)
    requires rendimento >= 0.0
    ensures |vals| == anos * 12
  {
    seq(anos * 12, _ => valorInicial * Compound(rendimento / 100.0, anos))
  }

  /** The series as written is flat: every month shows the final value,
      which is at least the investment. */
  lemma GrowthAsWrittenFlat(valorInicial: real, anos: nat, rendimento: real)
    requires rendimento >= 0.0 && valorInicial >= 0.0 && anos >= 1
    ensures forall k :: 0 <= k < anos * 12 ==>
      GrowthAsWritten(valorInicial, anos, rendimento)[k] == GrowthAsWritten(valorInicial, anos, rendimento)[anos * 12 - 1]
    ensures GrowthAsWritten(valorInicial, anos, rendimento)[0] >= valorInicial
  {
    var f := Compound(rendimento / 100.0, anos);
    assert valorInicial * f - valorInicial == valorInicial * (f - 1.0);
  }

  /** The month-by-month growth the series means to hold: month `k + 1`
      holds the investment compounded `k + 1` months at the monthly rate
      `taxa` of the yearly return. */
  function MonthlyGrowth(valorInicial: real, anos: nat, taxa: real): (vals: seq<real>)
    requires taxa >= 0.0
    ensures |vals| == anos * 12
    ensures forall k :: 0 <= k < anos * 12 ==> vals[k] == valorInicial * Compound(taxa, k + 1)
  {
    seq(anos * 12, k requires 0 <= k < anos * 12 => valorInicial * Compound(taxa, k + 1))
  }

  /** Both series end on the same final value, the one the page reports. */
  lemma SameFinalValue(valorInicial: real, anos: nat, rendimento: real, taxa: real)
    requires rendimento >= 0.0 && anos >= 1 && IsPeriodRate(taxa, rendimento, 12)
    ensures MonthlyGrowth(valorInicial, anos, taxa)[anos * 12 - 1] == GrowthAsWritten(valorInicial, anos, rendimento)[anos * 12 - 1]
  {
    PowMul(1.0 + taxa, 12, anos);
  }

  /** The intended series never falls, for a non-negative investment. */
  lemma GrowthNonDecreasing(valorInicial: real, anos: nat, taxa: real, j: nat, k: nat)
    requires valorInicial >= 0.0 && taxa >= 0.0 && j <= k < anos * 12
    ensures MonthlyGrowth(valorInicial, anos, taxa)[j] <= MonthlyGrowth(valorInicial, anos, taxa)[k]
  {
    PowMonotone(1.0 + taxa, j + 1, k + 1);
    var a, b := Compound(taxa, j + 1), Compound(taxa, k + 1);
    assert valorInicial * b - valorInicial * a == valorInicial * (b - a);
  }

  /** With a positive return and a positive investment, the series as
      written shows the final value already in the first month, while the
      investment has then grown only one month. */
  lemma FlatSeriesOverstatesFirstMonth(valorInicial: real, anos: nat, rendimento: real, taxa: real)
    requires valorInicial > 0.0 && rendimento > 0.0 && anos >= 1 && IsPeriodRate(taxa, rendimento, 12)
    ensures MonthlyGrowth(valorInicial, anos, taxa)[0] < GrowthAsWritten(valorInicial, anos, rendimento)[0]
  {
    if taxa == 0.0 {
      PowOne(12);
    }
    SameFinalValue(valorInicial, anos, rendimento, taxa);
    CompoundStrict(taxa, 1, anos * 12);
    var a, b := Compound(taxa, 1), Compound(taxa, anos * 12);
    assert valorInicial * b - valorInicial * a == valorInicial * (b - a);
  }

  /** What the page computes for a choice: the return looked up, the series
      `simular_crescimento` returns and the final value read from its last
      row. The series is the flat one as written; the page shows only its
      last row, and that row is the last month of the month-by-month growth
      at the monthly rate `taxa`. */
  datatype Simulation = Simulation(rendimento: real, valores: seq<real>, finalValor: real)

  function Run(ativo: string, valorInicial: real, anos: nat, taxa: real): (s: Simulation)
    requires Offered(ativo) && valorInicial >= 100.0 && 1 <= anos <= 40
    requires IsPeriodRate(taxa, RateOf(ativo), 12)
    ensures s.rendimento >= 0.0 && s.valores == GrowthAsWritten(valorInicial, anos, s.rendimento)
    ensures s.rendimento > 0.0 && s.finalValor == valorInicial * Compound(s.rendimento / 100.0, anos) >= valorInicial
    ensures s.finalValor == MonthlyGrowth(valorInicial, anos, taxa)[anos * 12 - 1]
    ensures forall i :: 0 <= i < |Investments| && Investments[i].ativo == ativo ==> s.rendimento == Investments[i].rendimento
  {
    var rendimento := RateOf(ativo);
    var valores := GrowthAsWritten(valorInicial, anos, rendimento);
    SameFinalValue(valorInicial, anos, rendimento, taxa);
    GrowthAsWrittenFlat(valorInicial, anos, rendimento);
    Simulation(rendimento, valores, valores[anos * 12 - 1])
  }
}
