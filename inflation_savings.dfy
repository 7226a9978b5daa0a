/** Inflation and savings: the price of a goal after some years of
    inflation, and the monthly saving needed to reach it with and without
    counting the inflation, each with the amount saved month by month. */
module InflationSavings {
  import opened Numeric
  import opened Growth
  import opened HowMuchToSave

  /** `valor_futuro_inflacao`: the value after `anos` years of inflation at
      `taxaInflacao` percent a year. */
  function FutureValue(valorAtual: real, taxaInflacao: real, anos: nat): (v: real)
    requires taxaInflacao >= 0.0
    ensures taxaInflacao == 0.0 || anos == 0 ==> v == valorAtual
    ensures valorAtual >= 0.0 ==> v >= valorAtual
    ensures valorAtual > 0.0 && taxaInflacao > 0.0 && anos >= 1 ==> v > valorAtual
  {
    var f := Compound(taxaInflacao / 100.0, anos);
    InflationFactor(taxaInflacao, anos);
    assert valorAtual * f - valorAtual == valorAtual * (f - 1.0);
    valorAtual * f
  }

  /** The inflation factor is one without inflation or without time, and
      above one otherwise. */
  lemma InflationFactor(taxaInflacao: real, anos: nat)
    requires taxaInflacao >= 0.0
    ensures taxaInflacao == 0.0 || anos == 0 ==> Compound(taxaInflacao / 100.0, anos) == 1.0
    ensures taxaInflacao > 0.0 && anos >= 1 ==> Compound(taxaInflacao / 100.0, anos) > 1.0
  {
    if taxaInflacao == 0.0 {
      PowOne(anos);
    }
    if taxaInflacao > 0.0 && anos >= 1 {
      CompoundStrict(taxaInflacao / 100.0, 0, anos);
    }
  }

  /** The longer the wait, the higher the price. */
  lemma FutureValueGrows(valorAtual: real, taxaInflacao: real, anos: nat, mais: nat)
    requires valorAtual >= 0.0 && taxaInflacao >= 0.0
    ensures FutureValue(valorAtual, taxaInflacao, anos) <= FutureValue(valorAtual, taxaInflacao, anos + mais)
  {
    PowMonotone(1.0 + taxaInflacao / 100.0, anos, anos + mais);
    var a, b := Compound(taxaInflacao / 100.0, anos), Compound(taxaInflacao / 100.0, anos + mais);
    assert valorAtual * b - valorAtual * a == valorAtual * (b - a);
  }

  /** `calcular_poupanca_mensal_com_inflacao`: the saving and the future
      price it aims at. */
  datatype WithInflation = WithInflation(poupanca: real, objetivoFuturo: real)

  function MonthlySavingWithInflation(objetivo: real, anos: nat, taxaInflacao: real): (w: WithInflation)
    requires anos >= 1 && taxaInflacao >= 0.0
    ensures w.objetivoFuturo == FutureValue(objetivo, taxaInflacao, anos)
    ensures w.poupanca * (anos * 12) as real == w.objetivoFuturo
  {
    var futuro := FutureValue(objetivo, taxaInflacao, anos);
    WithInflation(MonthlySaving(futuro, anos), futuro)
  }

  /** Counting inflation never asks for less, and asks for more exactly when
      there is inflation, for a positive price. */
  lemma InflationCostsMore(objetivo: real, anos: nat, taxaInflacao: real)
    requires objetivo > 0.0 && anos >= 1 && taxaInflacao >= 0.0
    ensures MonthlySavingWithInflation(objetivo, anos, taxaInflacao).poupanca >= MonthlySaving(objetivo, anos)
    ensures MonthlySavingWithInflation(objetivo, anos, taxaInflacao).poupanca == MonthlySaving(objetivo, anos)
      <==> taxaInflacao == 0.0
  {
    var com, sem := MonthlySavingWithInflation(objetivo, anos, taxaInflacao).poupanca, MonthlySaving(objetivo, anos);
    var meses := (anos * 12) as real;
    var futuro := FutureValue(objetivo, taxaInflacao, anos);
    assert com * meses - sem * meses == futuro - objetivo;
    assert (com - sem) * meses == futuro - objetivo;
  }

  lemma CostsMoreWhenPositive(objetivo: real, anos: nat, taxaInflacao: real)
    requires objetivo >= 0.0 && anos >= 1 && taxaInflacao >= 0.0
    ensures MonthlySavingWithInflation(objetivo, anos, taxaInflacao).poupanca >= MonthlySaving(objetivo, anos)
  {
    if objetivo > 0.0 {
      InflationCostsMore(objetivo, anos, taxaInflacao);
    } else {
      InflationFactor(taxaInflacao, anos);
    }
  }

  /** What the page shows: both savings, the future price and both
      accumulated series. */
  datatype Report = Report(
    poupancaSem: real, poupancaCom: real, objetivoFuturo: real,
    valoresSem: seq<real>, valoresCom: seq<real>)

  /** One run, with the sliders' ranges: the saving with inflation is the
      one that reaches the future price, more than the plain one exactly when
      there is inflation; each series has one entry per month and ends at its
      own target. */
  function Run(preco: real, anos: nat, inflacao: real): (r: Report)
    requires preco >= 0.0 && 1 <= anos <= 30 && 0.0 <= inflacao <= 10.0
    ensures r.poupancaSem == MonthlySaving(preco, anos)
    ensures r.poupancaCom == MonthlySaving(r.objetivoFuturo, anos) >= r.poupancaSem
    ensures preco > 0.0 ==> (r.poupancaCom == r.poupancaSem <==> inflacao == 0.0)
    ensures r.objetivoFuturo == FutureValue(preco, inflacao, anos) >= preco
    ensures |r.valoresSem| == |r.valoresCom| == anos * 12
    ensures r.valoresSem[anos * 12 - 1] == preco && r.valoresCom[anos * 12 - 1] == r.objetivoFuturo
  {
    var sem := MonthlySaving(preco, anos);
    var com := MonthlySavingWithInflation(preco, anos, inflacao);
    AccumulationReachesPrice(preco, anos);
    AccumulationReachesPrice(com.objetivoFuturo, anos);
    CostsMoreWhenPositive(preco, anos, inflacao);
    assert preco > 0.0 ==> (com.poupanca == sem <==> inflacao == 0.0) by {
      if preco > 0.0 {
        InflationCostsMore(preco, anos, inflacao);
      }
    }
    Report(sem, com.poupanca, com.objetivoFuturo,
           Accumulation(sem, anos as real), Accumulation(com.poupanca, anos as real))
  }
}
