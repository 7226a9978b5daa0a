/** The budget challenge: a random monthly budget for João, drawn once per
    session, a calculator that splits the money the learner enters into
    needs, wants and savings with their percentages, and three questions
    about the budget. */
module BudgetChallenge {
  import opened Numeric
  import opened Session

  /** `random.randrange(lo, hi, step)` can return `x`. */
  predicate InRange(x: int, lo: int, hi: int, step: nat)
    requires step > 0
  {
    lo <= x < hi && (x - lo) % step == 0
  }

  /** The raw draws of `gerar_cenario`; the rent is drawn whole and halved,
      since João shares it. */
  predicate ValidDraws(salario: int, rendaTotal: int, alimentacao: int, eletricaAgua: int, ginasio: int, jantar: int)
  {
    && InRange(salario, 800, 4001, 50)
    && InRange(rendaTotal, 600, 1201, 50)
    && InRange(alimentacao, 150, 401, 10)
    && InRange(eletricaAgua, 30, 71, 5)
    && InRange(ginasio, 20, 51, 5)
    && InRange(jantar, 10, 41, 5)
  }

  const CarPayment := 300
  const TransitPass := 40

  /** `gerar_cenario`, with the random draws as inputs: the salary lies in
      `800..4000`, the rent share in `300..600` in steps of 25, and the car
      and the transit pass are fixed. */
  function GenerateScenario(salario: int, rendaTotal: int, alimentacao: int, eletricaAgua: int, ginasio: int, jantar: int): (c: Scenario)
    requires ValidDraws(salario, rendaTotal, alimentacao, eletricaAgua, ginasio, jantar)
    ensures 800 <= c.salario <= 4000 && c.salario % 50 == 0
    ensures 300.0 <= c.renda <= 600.0 && c.renda * 2.0 == rendaTotal as real
    ensures 150 <= c.alimentacao <= 400 && 30 <= c.eletricaAgua <= 70
    ensures 20 <= c.ginasio <= 50 && 10 <= c.jantar <= 40
    ensures c.carro == 300 && c.transporte == 40
  {
    Scenario(salario, rendaTotal as real / 2.0, alimentacao, eletricaAgua, ginasio, jantar, CarPayment, TransitPass)
  }

  /** Every scenario `gerar_cenario` can return. */
  ghost predicate IsScenario(c: Scenario)
  {
    exists rendaTotal ::
      && ValidDraws(c.salario, rendaTotal, c.alimentacao, c.eletricaAgua, c.ginasio, c.jantar)
      && c == GenerateScenario(c.salario, rendaTotal, c.alimentacao, c.eletricaAgua, c.ginasio, c.jantar)
  }

  /** The key the scenario is kept under. */
  const ScenarioKey := "cenario"

  /** The start of `run`: draw a scenario only when the session holds none,
      then unpack the stored one; a value of another shape under the key
      cannot be unpacked into eight figures and makes the page fail. */
  method LoadScenario(s: SessionState, draw: Scenario) returns (c: Scenario, ok: bool)
    modifies s
    ensures s.store == if ScenarioKey in old(s.store) then old(s.store)
                       else old(s.store)[ScenarioKey := ScenarioValue(draw)]
    ensures ok <==> s.store[ScenarioKey].ScenarioValue?
    ensures ok ==> c == s.store[ScenarioKey].scenario
    ensures ScenarioKey !in old(s.store) ==> ok && c == draw
  {
    if ScenarioKey !in s.store {
      s.store := s.store[ScenarioKey := ScenarioValue(draw)];
    }
    var stored := s.store[ScenarioKey];
    if stored.ScenarioValue? {
      c, ok := stored.scenario, true;
    } else {
      c, ok := draw, false;
    }
  }

  /** Once stored, the scenario stays: a second load returns the first. */
  method LoadTwice(s: SessionState, first: Scenario, second: Scenario) returns (c1: Scenario, c2: Scenario)
    requires ScenarioKey !in s.store
    modifies s
    ensures c1 == first && c2 == first
    ensures s.store == old(s.store)[ScenarioKey := ScenarioValue(first)]
  {
    var ok1, ok2;
    c1, ok1 := LoadScenario(s, first);
    c2, ok2 := LoadScenario(s, second);
  }

  /** The share of `parte` in `total`, in percent, before rounding. */
  function Share(parte: real, total: real): real
    requires total != 0.0
  {
    parte / total * 100.0
  }

  /** The three unrounded shares add up to a hundred. */
  lemma SharesAddUp(necessidades: real, desejos: real, poupanca: real)
    requires necessidades + desejos + poupanca != 0.0
    ensures var t := necessidades + desejos + poupanca;
      Share(necessidades, t) + Share(desejos, t) + Share(poupanca, t) == 100.0
  {
    var t := necessidades + desejos + poupanca;
    assert Share(necessidades, t) + Share(desejos, t) + Share(poupanca, t) == (necessidades + desejos + poupanca) / t * 100.0;
  }

  /** `calcular_distribuicao`: the total and the shares rounded to one
      decimal; a zero total makes the divisions fail. */
  datatype Distribution =
    | DivisionByZero
    | Split(valores: seq<real>, percentuais: seq<real>, poupancaPct: real, valorTotal: real)

  function Distribute(necessidades: real, desejos: real, poupanca: real): (d: Distribution)
    ensures d.DivisionByZero? <==> necessidades + desejos + poupanca == 0.0
    ensures d.Split? ==>
      && d.valorTotal == necessidades + desejos + poupanca
      && d.valores == [necessidades, desejos, poupanca]
      && |d.percentuais| == 3
      && d.poupancaPct == d.percentuais[2]
      && (forall i :: 0 <= i < 3 ==> -0.05 <= d.percentuais[i] - Share(d.valores[i], d.valorTotal) <= 0.05)
      && 99.85 <= d.percentuais[0] + d.percentuais[1] + d.percentuais[2] <= 100.15
  {
    var total := necessidades + desejos + poupanca;
    if total == 0.0 then DivisionByZero
    else
      var pcts := [RoundTo(Share(necessidades, total), 1), RoundTo(Share(desejos, total), 1), RoundTo(Share(poupanca, total), 1)];
      SharesAddUp(necessidades, desejos, poupanca);
      Split([necessidades, desejos, poupanca], pcts, pcts[2], total)
  }

  /** The calculator's savings are what the salary leaves after needs and
      wants, so the total it divides by is the salary entered. */
  lemma TotalIsSalary(salarioVal: real, necessidadesVal: real, desejosVal: real)
    ensures var d := Distribute(necessidadesVal, desejosVal, salarioVal - (necessidadesVal + desejosVal));
      d.Split? <==> salarioVal != 0.0
    ensures var d := Distribute(necessidadesVal, desejosVal, salarioVal - (necessidadesVal + desejosVal));
      d.Split? ==> d.valorTotal == salarioVal
  {
  }

  /** The feedback a check button gives: nothing until pressed. */
  datatype Verdict = NotChecked | Right | Wrong

  /** Question 1: the saving from taking the bus instead of buying the car. */
  function ExtraSaving(c: Scenario): int
  {
    c.carro - c.transporte
  }

  function CheckExtraSaving(pressed: bool, resposta1: real, c: Scenario): (v: Verdict)
    requires IsScenario(c)
    ensures v == NotChecked <==> !pressed
    ensures v == Right <==> pressed && resposta1 == 260.0
  {
    if !pressed then NotChecked
    else if resposta1 == ExtraSaving(c) as real then Right
    else Wrong
  }

  /** Question 2: the savings rate after spending twenty euros less on
      leisure, rounded to one decimal. */
  function NewSavingsRate(poupancaVal: real, valorTotal: real): real
    requires valorTotal != 0.0
  {
    RoundTo((poupancaVal + 20.0) / valorTotal * 100.0, 1)
  }

  /** The new rate is the old one plus twenty euros' share of the total. */
  lemma NewRateAddsTwenty(poupancaVal: real, valorTotal: real)
    requires valorTotal != 0.0
    ensures (poupancaVal + 20.0) / valorTotal * 100.0 == Share(poupancaVal, valorTotal) + Share(20.0, valorTotal)
  {
  }

  function CheckNewRate(pressed: bool, resposta2: real, poupancaVal: real, valorTotal: real): (v: Verdict)
    requires valorTotal != 0.0
    ensures v == NotChecked <==> !pressed
    ensures v == Right <==> pressed && RoundTo(resposta2, 1) == NewSavingsRate(poupancaVal, valorTotal)
    ensures v == Right ==> -0.1 <= resposta2 - (poupancaVal + 20.0) / valorTotal * 100.0 <= 0.1
  {
    if !pressed then NotChecked
    else if RoundTo(resposta2, 1) == NewSavingsRate(poupancaVal, valorTotal) then
      SameRounding(resposta2, (poupancaVal + 20.0) / valorTotal * 100.0);
      Right
    else Wrong
  }

  /** Two numbers with the same rounding to one decimal are at most a tenth
      apart. */
  lemma SameRounding(x: real, y: real)
    requires RoundTo(x, 1) == RoundTo(y, 1)
    ensures -0.1 <= x - y <= 0.1
  {
    var r := RoundTo(x, 1);
    assert Scale(1) == 10.0;
    assert -0.05 <= r - x <= 0.05;
    assert -0.05 <= r - y <= 0.05;
  }

  /** Question 3: the three strategies and the one that is accepted. */
  const Strategies := ["Aumentar salário", "Reduzir gastos com desejos e lazer", "Reduzir gastos essenciais"]
  const BestStrategy := "Reduzir gastos com desejos e lazer"

  function CheckStrategy(pressed: bool, resposta3: string): (v: Verdict)
    ensures v == NotChecked <==> !pressed
    ensures v == Right <==> pressed && resposta3 == Strategies[1]
    ensures pressed && resposta3 in Strategies ==> (v == Right <==> resposta3 == Strategies[1])
  {
    if !pressed then NotChecked
    else if resposta3 == BestStrategy then Right
    else Wrong
  }

  /** Exactly one of the offered strategies is accepted. */
  lemma OneBestStrategy()
    ensures forall i :: 0 <= i < |Strategies| ==> (CheckStrategy(true, Strategies[i]) == Right <==> i == 1)
  {
    assert Strategies[0] != BestStrategy;
    assert Strategies[2] != BestStrategy;
  }

  /** What the page shows below the scenario: the distribution and the
      three checks, or nothing, when the distribution fails before any
      question is drawn. */
  datatype Answers =
    | PageFailed
    | Answered(poupancaVal: real, distribuicao: Distribution, q1: Verdict, q2: Verdict, q3: Verdict)

  /** The calculator and the three checks for one set of inputs from a
      drawn scenario; a zero salary makes the total zero, and the division
      fails before the questions. */
  function Respond(c: Scenario, salarioVal: real, necessidadesVal: real, desejosVal: real,
                   pressed1: bool, resposta1: real, pressed2: bool, resposta2: real,
                   pressed3: bool, resposta3: string): (a: Answers)
    requires IsScenario(c)
    ensures a.PageFailed? <==> salarioVal == 0.0
    ensures a.Answered? ==>
      && a.poupancaVal == salarioVal - (necessidadesVal + desejosVal)
      && a.distribuicao.Split? && a.distribuicao.valorTotal == salarioVal
      && a.distribuicao.valores == [necessidadesVal, desejosVal, a.poupancaVal]
      && (a.q1 == NotChecked <==> !pressed1) && (a.q2 == NotChecked <==> !pressed2) && (a.q3 == NotChecked <==> !pressed3)
      && (a.q1 == Right <==> pressed1 && resposta1 == 260.0)
      && (a.q2 == Right <==> pressed2 && RoundTo(resposta2, 1) == NewSavingsRate(a.poupancaVal, salarioVal))
      && (a.q3 == Right <==> pressed3 && resposta3 == BestStrategy)
  {
    var poupancaVal := salarioVal - (necessidadesVal + desejosVal);
    var d := Distribute(necessidadesVal, desejosVal, poupancaVal);
    TotalIsSalary(salarioVal, necessidadesVal, desejosVal);
    if d.DivisionByZero? then PageFailed
    else
      Answered(poupancaVal, d, CheckExtraSaving(pressed1, resposta1, c),
               CheckNewRate(pressed2, resposta2, poupancaVal, d.valorTotal), CheckStrategy(pressed3, resposta3))
  }
}
