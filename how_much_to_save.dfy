/** How much to save: without interest, the monthly saving that reaches a
    price in a number of years, or the time a monthly saving takes to reach
    it, written as years and months, with the accumulated amount month by
    month. */
module HowMuchToSave {
  import opened Numeric
  import opened Text

  /** `calcular_poupanca_mensal`: the price spread over the months. */
  function MonthlySaving(objetivo: real, anos: nat): (p: real)
    requires anos >= 1
    ensures p * (anos * 12) as real == objetivo
  {
    objetivo / (anos * 12) as real
  }

  /** `calcular_tempo`: the years, possibly fractional, a saving takes. */
  function TimeYears(objetivo: real, poupancaMensal: real): (anos: real)
    requires poupancaMensal > 0.0
    ensures anos * 12.0 * poupancaMensal == objetivo
    ensures anos * 12.0 == objetivo / poupancaMensal
    ensures objetivo >= 0.0 ==> anos >= 0.0
  {
    objetivo / poupancaMensal / 12.0
  }

  /** Saving the computed amount takes exactly the chosen years. */
  lemma TimeOfMonthlySaving(objetivo: real, anos: nat)
    requires objetivo > 0.0 && anos >= 1
    ensures MonthlySaving(objetivo, anos) > 0.0
    ensures TimeYears(objetivo, MonthlySaving(objetivo, anos)) == anos as real
  {
    var p := MonthlySaving(objetivo, anos);
    var t := TimeYears(objetivo, p);
    assert t * 12.0 * p == (anos as real) * 12.0 * p;
  }

  /** And the other way round: when a saving takes a whole number of years,
      that number of years asks for that saving. */
  lemma MonthlySavingOfTime(objetivo: real, poupancaMensal: real, anos: nat)
    requires poupancaMensal > 0.0 && anos >= 1 && TimeYears(objetivo, poupancaMensal) == anos as real
    ensures MonthlySaving(objetivo, anos) == poupancaMensal
  {
    var p := MonthlySaving(objetivo, anos);
    assert p * (anos * 12) as real == poupancaMensal * (anos * 12) as real;
  }

  // ---------------------------------------------------------------------
  // Years and months

  /** A duration as the page words it. */
  datatype Duration = Months(meses: int) | Years(anos: int) | YearsMonths(anos: int, meses: int)

  /** `formatar_tempo` as written: whole years by truncation, then the
      rounded twelfths of the rest, which may round up to 12. */
  function TimeLabelAsWritten(anosFloat: real): (l: Duration)
    requires anosFloat >= 0.0
    ensures l.Months? <==> Trunc(anosFloat) == 0
    ensures l.Years? <==> Trunc(anosFloat) != 0 && RoundHalfEven((anosFloat - Trunc(anosFloat) as real) * 12.0) == 0
    ensures !l.Months? ==> l.anos == Trunc(anosFloat) >= 1
    ensures !l.Years? ==> 0 <= l.meses <= 12 && l.meses == RoundHalfEven((anosFloat - Trunc(anosFloat) as real) * 12.0)
  {
    var anos := Trunc(anosFloat);
    var meses := RoundHalfEven((anosFloat - anos as real) * 12.0);
    if anos == 0 then Months(meses)
    else if meses == 0 then Years(anos)
    else YearsMonths(anos, meses)
  }

  /** The words: "{m} meses", "{a} anos" or "{a} anos e {m} meses". */
  function Render(l: Duration): string
  {
    match l
    case Months(m) => IntText(m) + " meses"
    case Years(a) => IntText(a) + " anos"
    case YearsMonths(a, m) => IntText(a) + " anos e " + IntText(m) + " meses"
  }

  function FormatTimeAsWritten(anosFloat: real): string
    requires anosFloat >= 0.0
  {
    Render(TimeLabelAsWritten(anosFloat))
  }

  /** Just under a year, 0.99 years, reads as twelve months. */
  lemma TwelveMonths()
    ensures TimeLabelAsWritten(0.99) == Months(12)
    ensures FormatTimeAsWritten(0.99) == "12 meses"
  {
    assert Trunc(0.99) == 0;
    RoundHalfEvenUnique(0.99 * 12.0, 12);
    assert NatText(12) == NatText(1) + [Digit(2)];
  }

  /** A duration of less than a month reads "0 meses". */
  lemma UnderHalfAMonth(anosFloat: real)
    requires 0.0 <= anosFloat < 1.0 / 24.0
    ensures TimeLabelAsWritten(anosFloat) == Months(0)
  {
    RoundHalfEvenUnique(anosFloat * 12.0, 0);
  }

  /** The label with the month count normalised: the duration rounded to
      whole months, then split into years and months below twelve. */
  function TimeLabel(anosFloat: real): (l: Duration)
    requires anosFloat >= 0.0
    ensures !l.Years? ==> 0 <= l.meses < 12
    ensures !l.Months? ==> l.anos >= 1
    ensures l.Months? && l.meses == 0 ==> anosFloat * 12.0 <= 0.5
    ensures InMonths(l) == RoundHalfEven(anosFloat * 12.0)
  {
    var total := RoundHalfEven(anosFloat * 12.0);
    var anos, meses := total / 12, total % 12;
    if anos == 0 then Months(meses)
    else if meses == 0 then Years(anos)
    else YearsMonths(anos, meses)
  }

  /** The years and months of a label, as months. */
  function InMonths(l: Duration): int
  {
    match l
    case Months(m) => m
    case Years(a) => 12 * a
    case YearsMonths(a, m) => 12 * a + m
  }

  /** The normalised label stands for the duration rounded to the nearest
      month, as the page's does; it differs from the page's only where the
      page shows twelve months, which it carries into one more year. */
  lemma TimeLabelNormalises(anosFloat: real)
    requires anosFloat >= 0.0
    ensures InMonths(TimeLabel(anosFloat)) == InMonths(TimeLabelAsWritten(anosFloat)) == RoundHalfEven(anosFloat * 12.0)
    ensures (TimeLabelAsWritten(anosFloat).Years? || TimeLabelAsWritten(anosFloat).meses < 12)
      ==> TimeLabel(anosFloat) == TimeLabelAsWritten(anosFloat)
  {
    var a := Trunc(anosFloat);
    var m := RoundHalfEven((anosFloat - a as real) * 12.0);
    assert anosFloat * 12.0 == (anosFloat - a as real) * 12.0 + (2 * (6 * a)) as real;
    RoundHalfEvenShift((anosFloat - a as real) * 12.0, 6 * a);
    var total := RoundHalfEven(anosFloat * 12.0);
    assert total == m + 12 * a;
    assert 0 <= m <= 12;
    if m < 12 {
      assert total / 12 == a && total % 12 == m;
    } else {
      assert total / 12 == a + 1 && total % 12 == 0;
    }
  }

  // ---------------------------------------------------------------------
  // The accumulated amount

  /** `gerar_crescimento`: one entry per whole month of the horizon, month
      `i` holding `i` savings. */
  function Accumulation(poupancaMensal: real, anos: real): (vals: seq<real>)
    requires anos >= 0.0
    ensures |vals| == Trunc(anos * 12.0)
    ensures forall i :: 0 <= i < |vals| ==> vals[i] == poupancaMensal * (i + 1) as real
  {
    seq(Trunc(anos * 12.0), i requires 0 <= i < Trunc(anos * 12.0) => poupancaMensal * (i + 1) as real)
  }

  /** Saving the computed amount for the chosen years ends exactly at the
      price. */
  lemma AccumulationReachesPrice(objetivo: real, anos: nat)
    requires anos >= 1
    ensures Trunc(anos as real * 12.0) == anos * 12
    ensures Accumulation(MonthlySaving(objetivo, anos), anos as real)[anos * 12 - 1] == objetivo
  {
  }

  function Last(vals: seq<real>): real
    requires |vals| > 0
  {
    vals[|vals| - 1]
  }

  /** `n` whole savings fall short of a total by less than one saving
      when `n` is the whole part of the total over the saving. */
  lemma WholeSavings(objetivo: real, poupancaMensal: real, n: int)
    requires poupancaMensal > 0.0
    requires (n as real) <= objetivo / poupancaMensal < (n as real) + 1.0
    ensures poupancaMensal * (n as real) <= objetivo < poupancaMensal * (n as real) + poupancaMensal
  {
    SavingsBelow(objetivo, poupancaMensal, n as real);
    SavingsAbove(objetivo, poupancaMensal, n as real);
  }

  lemma SavingsBelow(objetivo: real, poupancaMensal: real, m: real)
    requires poupancaMensal > 0.0 && m <= objetivo / poupancaMensal
    ensures poupancaMensal * m <= objetivo
  {
    var x := objetivo / poupancaMensal;
    assert x * poupancaMensal - m * poupancaMensal == (x - m) * poupancaMensal;
    assert objetivo == x * poupancaMensal;
  }

  lemma ScaleStrict(a: real, b: real, c: real)
    requires a < b && c > 0.0
    ensures a * c < b * c
  {
    assert b * c - a * c == (b - a) * c;
  }

  lemma SavingsAbove(objetivo: real, poupancaMensal: real, m: real)
    requires poupancaMensal > 0.0 && objetivo / poupancaMensal < m + 1.0
    ensures objetivo < poupancaMensal * m + poupancaMensal
  {
    ScaleStrict(objetivo / poupancaMensal, m + 1.0, poupancaMensal);
    assert objetivo == (objetivo / poupancaMensal) * poupancaMensal;
    assert (m + 1.0) * poupancaMensal == poupancaMensal * m + poupancaMensal;
  }

  lemma AtLeastOneSaving(objetivo: real, poupancaMensal: real)
    requires objetivo >= poupancaMensal > 0.0
    ensures objetivo / poupancaMensal >= 1.0
  {
    var x := objetivo / poupancaMensal;
    assert (x - 1.0) * poupancaMensal == objetivo - poupancaMensal;
  }

  /** Saving a given amount for the computed time ends within one saving of
      the price, short of it by less than a month's saving. */
  lemma AccumulationNearPrice(objetivo: real, poupancaMensal: real)
    requires objetivo >= poupancaMensal > 0.0
    ensures |Accumulation(poupancaMensal, TimeYears(objetivo, poupancaMensal))| >= 1
    ensures Last(Accumulation(poupancaMensal, TimeYears(objetivo, poupancaMensal))) <= objetivo
    ensures objetivo < Last(Accumulation(poupancaMensal, TimeYears(objetivo, poupancaMensal))) + poupancaMensal
  {
    var t := TimeYears(objetivo, poupancaMensal);
    var x := objetivo / poupancaMensal;
    assert t * 12.0 == x;
    AtLeastOneSaving(objetivo, poupancaMensal);
    var n := Trunc(x);
    WholeSavings(objetivo, poupancaMensal, n);
    var vals := Accumulation(poupancaMensal, t);
    assert |vals| == n;
    assert Last(vals) == vals[n - 1] == poupancaMensal * (n as real);
  }

  // ---------------------------------------------------------------------
  // The page

  datatype View =
    | SavingView(poupancaMensal: real, valores: seq<real>)
    | TimeView(anos: real, tempo: string, valores: seq<real>)

  /** The first mode: the saving for the chosen years, and the amount
      saved month by month, which ends at the price. */
  function SavingMode(preco: real, anos: nat): (v: View)
    requires 1 <= anos
    ensures v.SavingView? && v.poupancaMensal * (anos * 12) as real == preco
    ensures |v.valores| == anos * 12 && v.valores[anos * 12 - 1] == preco
  {
    var p := MonthlySaving(preco, anos);
    AccumulationReachesPrice(preco, anos);
    SavingView(p, Accumulation(p, anos as real))
  }

  /** The second mode: the time the saving takes, written with the
      normalised label, which stands for the number of monthly savings the
      price needs, rounded; and the amount saved month by month, whose last
      month falls short of the price by less than one saving. */
  function TimeMode(preco: real, poupancaMensal: real): (v: View)
    requires preco >= 0.0 && poupancaMensal > 0.0
    ensures v.TimeView? && v.anos == TimeYears(preco, poupancaMensal) >= 0.0
    ensures v.tempo == Render(TimeLabel(v.anos))
    ensures InMonths(TimeLabel(v.anos)) == RoundHalfEven(preco / poupancaMensal)
    ensures v.valores == Accumulation(poupancaMensal, v.anos)
    ensures preco >= poupancaMensal ==> |v.valores| >= 1 && Last(v.valores) <= preco < Last(v.valores) + poupancaMensal
  {
    var t := TimeYears(preco, poupancaMensal);
    var vals := Accumulation(poupancaMensal, t);
    assert preco >= poupancaMensal ==> |vals| >= 1 && Last(vals) <= preco < Last(vals) + poupancaMensal by {
      if preco >= poupancaMensal {
        AccumulationNearPrice(preco, poupancaMensal);
      }
    }
    TimeView(t, Render(TimeLabel(t)), vals)
  }
}
