/** Invested versus kept money under inflation: the same starting amount
    either earns a monthly return or stays as it is, and both are also shown
    in today's money, deflated by the inflation accumulated month by month. */
module InvestVsInflation {
  import opened Numeric
  import opened Growth
  import opened CompoundInterest

  /** The four monthly columns of the page. */
  datatype Series = Series(
    investido: seq<real>, guardado: seq<real>,
    realInvestido: seq<real>, realGuardado: seq<real>)

  /** `simular_investimento`, with `rm` and `im` the monthly rates of the
      yearly return and inflation. */
  method Simulate(valorInicial: real, anos: nat, rendimento: real, inflacao: real, rm: real, im: real)
    returns (s: Series)
    requires IsPeriodRate(rm, rendimento, 12) && IsPeriodRate(im, inflacao, 12)
    ensures |s.investido| == |s.guardado| == |s.realInvestido| == |s.realGuardado| == anos * 12
    ensures forall k :: 0 <= k < anos * 12 ==>
      && s.investido[k] == valorInicial * Compound(rm, k + 1)
      && s.guardado[k] == valorInicial
      && s.realInvestido[k] == s.investido[k] / Compound(im, k + 1)
      && s.realGuardado[k] == valorInicial / Compound(im, k + 1)
  {
    var meses := anos * 12;
    var investido, guardado, realInvestido, realGuardado := [], [], [], [];
    var valorInvestido, valorGuardado := valorInicial, valorInicial;
    for mes := 1 to meses + 1
      invariant |investido| == |guardado| == |realInvestido| == |realGuardado| == mes - 1
      invariant valorInvestido == valorInicial * Compound(rm, mes - 1) && valorGuardado == valorInicial
      invariant forall k :: 0 <= k < mes - 1 ==>
        && investido[k] == valorInicial * Compound(rm, k + 1)
        && guardado[k] == valorInicial
        && realInvestido[k] == investido[k] / Compound(im, k + 1)
        && realGuardado[k] == valorInicial / Compound(im, k + 1)
    {
      valorInvestido := valorInvestido * (1.0 + rm);
      PowPositive(1.0 + im, mes);
      var deflator := Compound(im, mes);
      investido := investido + [valorInvestido];
      guardado := guardado + [valorGuardado];
      realInvestido := realInvestido + [valorInvestido / deflator];
      realGuardado := realGuardado + [valorGuardado / deflator];
    }
    s := Series(investido, guardado, realInvestido, realGuardado);
  }

  /** After `anos` years the invested amount is the start compounded by the
      yearly return, and the kept amount is worth the start deflated by the
      yearly inflation. */
  lemma FinalValues(valorInicial: real, anos: nat, rendimento: real, inflacao: real, rm: real, im: real)
    requires rendimento >= 0.0 && inflacao >= 0.0
    requires IsPeriodRate(rm, rendimento, 12) && IsPeriodRate(im, inflacao, 12)
    ensures valorInicial * Compound(rm, anos * 12) == valorInicial * Compound(rendimento / 100.0, anos)
    ensures valorInicial / Compound(im, anos * 12) == valorInicial / Compound(inflacao / 100.0, anos)
  {
    PowMul(1.0 + rm, 12, anos);
    PowMul(1.0 + im, 12, anos);
  }

  /** Deflating by a non-negative inflation never raises a value. */
  lemma RealNotAboveNominal(v: real, im: real, m: nat)
    requires v >= 0.0 && im >= 0.0
    ensures v / Compound(im, m) <= v
  {
    PowAtLeastOne(1.0 + im, m);
    var d := Compound(im, m);
    assert v / d * d == v;
    assert v / d * 1.0 <= v / d * d;
  }

  lemma DivideByMore(v: real, d: real, e: real)
    requires v >= 0.0 && 0.0 < d <= e
    ensures v / e <= v / d
  {
    assert v / d - v / e == v * (e - d) / (d * e);
  }

  /** Kept money loses purchasing power month after month. */
  lemma HeldRealNonIncreasing(v: real, im: real, m: nat)
    requires v >= 0.0 && im >= 0.0
    ensures v / Compound(im, m + 1) <= v / Compound(im, m)
  {
    var d := Compound(im, m);
    assert Compound(im, m + 1) == (1.0 + im) * d;
    DivideByMore(v, d, Compound(im, m + 1));
  }

  /** With a non-negative return, investing never leaves less than keeping,
      nominally or in today's money. */
  lemma InvestedAtLeastHeld(v: real, rm: real, im: real, m: nat)
    requires v >= 0.0 && rm >= 0.0 && im >= 0.0
    ensures v * Compound(rm, m) >= v
    ensures v * Compound(rm, m) / Compound(im, m) >= v / Compound(im, m)
  {
    PowAtLeastOne(1.0 + rm, m);
    PowAtLeastOne(1.0 + im, m);
    var g, d := Compound(rm, m), Compound(im, m);
    assert v * g - v == v * (g - 1.0);
    assert v * g / d - v / d == (v * g - v) / d;
  }

  /** When the return is at least the inflation, the invested money keeps
      at least its starting purchasing power. */
  lemma ReturnBeatsInflation(v: real, rm: real, im: real, m: nat)
    requires v >= 0.0 && rm >= im >= 0.0
    ensures v * Compound(rm, m) / Compound(im, m) >= v
  {
    PowBaseMonotone(1.0 + im, 1.0 + rm, m);
    PowAtLeastOne(1.0 + im, m);
    var g, d := Compound(rm, m), Compound(im, m);
    assert v * g >= v * d by {
      assert v * g - v * d == v * (g - d);
    }
    assert v * d / d == v;
    assert v * g / d - v * d / d == (v * g - v * d) / d;
  }
}
