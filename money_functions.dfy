/** The three functions of money, one tab each: a medium of exchange (how
    many chickens buy a bicycle), a store of value (savings after some
    months) and a measure of value (which of two prices is higher). */
module MoneyFunctions {
  import opened Growth

  /** The barter tab's answer: a count of chickens, or the warning asking for
      a valid chicken price. */
  datatype Barter = AskForValidPrice | Chickens(galinhas: real)

  function BarterChickens(precoGalinha: real, precoBicicleta: real): (b: Barter)
    ensures b.Chickens? <==> precoGalinha > 0.0
    ensures b.Chickens? ==> b.galinhas * precoGalinha == precoBicicleta
    ensures b.Chickens? && precoBicicleta >= 0.0 ==> b.galinhas >= 0.0
  {
    if precoGalinha > 0.0 then Chickens(precoBicicleta / precoGalinha) else AskForValidPrice
  }

  /** Dearer chickens mean fewer of them for the same bicycle. */
  lemma DearerChickensFewer(galinha: real, galinhaCara: real, precoBicicleta: real)
    requires 0.0 < galinha <= galinhaCara && precoBicicleta >= 0.0
    ensures BarterChickens(galinhaCara, precoBicicleta).galinhas <= BarterChickens(galinha, precoBicicleta).galinhas
  {
    var n, m := BarterChickens(galinha, precoBicicleta).galinhas, BarterChickens(galinhaCara, precoBicicleta).galinhas;
    assert m >= 0.0;
    assert (n - m) * galinha == m * (galinhaCara - galinha);
    PositiveFactor(n - m, galinha);
  }

  lemma PositiveFactor(x: real, y: real)
    requires y > 0.0 && x * y >= 0.0
    ensures x >= 0.0
  {
    assert x == (x * y) / y;
  }

  /** The savings tab: the start plus the same amount each month, no
      interest. */
  function SavingsTotal(poupancaInicial: real, poupancaMensal: real, meses: nat): (total: real)
    ensures poupancaMensal >= 0.0 ==> total >= poupancaInicial
    ensures total == Balance(poupancaInicial, 0.0, poupancaMensal, meses)
  {
    BalanceZeroRate(poupancaInicial, poupancaMensal, meses);
    poupancaInicial + poupancaMensal * meses as real
  }

  /** Saving for longer never ends with less. */
  lemma LongerSavesMore(poupancaInicial: real, poupancaMensal: real, meses: nat, mais: nat)
    requires poupancaMensal >= 0.0
    ensures SavingsTotal(poupancaInicial, poupancaMensal, meses) <= SavingsTotal(poupancaInicial, poupancaMensal, meses + mais)
  {
    assert poupancaMensal * (meses + mais) as real == poupancaMensal * meses as real + poupancaMensal * mais as real;
  }

  /** The measuring tab's three messages. */
  datatype Comparison = FirstDearer | SecondDearer | SamePrice

  function ComparePrices(preco1: real, preco2: real): (c: Comparison)
    ensures c == FirstDearer <==> preco1 > preco2
    ensures c == SecondDearer <==> preco1 < preco2
    ensures c == SamePrice <==> preco1 == preco2
  {
    if preco1 > preco2 then FirstDearer
    else if preco1 < preco2 then SecondDearer
    else SamePrice
  }

  /** Swapping the two products swaps the message. */
  lemma CompareSwapped(preco1: real, preco2: real)
    ensures ComparePrices(preco1, preco2) == FirstDearer <==> ComparePrices(preco2, preco1) == SecondDearer
    ensures ComparePrices(preco1, preco2) == SamePrice <==> ComparePrices(preco2, preco1) == SamePrice
  {
  }
}
