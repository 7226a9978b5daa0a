/** The currency converter: five currencies with fixed rates against the
    euro; an amount is converted by passing through the euro, and a table
    shows it in every currency rounded to cents. */
module Currency {
  import opened Numeric

  datatype Coin = Euro | Dollar | Pound | Yen | SwissFranc

  /** The currencies in the order of the dictionary, hence of the select
      boxes and of the table. */
  const Coins: seq<Coin> := [Euro, Dollar, Pound, Yen, SwissFranc]

  /** The label the select boxes show. */
  function Label(c: Coin): string
  {
    match c
    case Euro => "Euro (€)"
    case Dollar => "Dólar ($)"
    case Pound => "Libra (£)"
    case Yen => "Iene (¥)"
    case SwissFranc => "Franco Suíço (CHF)"
  }

  /** Units of the currency per euro; all positive, so dividing by a rate is
      always defined. */
  function Rate(c: Coin): (r: real)
    ensures r > 0.0
    ensures c == Euro <==> r == 1.0
  {
    match c
    case Euro => 1.0
    case Dollar => 1.10
    case Pound => 0.88
    case Yen => 145.0
    case SwissFranc => 0.97
  }

  /** Where a currency sits in the list. */
  function Position(c: Coin): (i: nat)
    ensures i < |Coins| && Coins[i] == c
  {
    match c
    case Euro => 0
    case Dollar => 1
    case Pound => 2
    case Yen => 3
    case SwissFranc => 4
  }

  /** No currency is listed twice and labels tell them apart. */
  lemma CoinsListed()
    ensures forall i, j :: 0 <= i < j < |Coins| ==> Coins[i] != Coins[j] && Label(Coins[i]) != Label(Coins[j])
  {
  }

  /** The amount in euros. */
  function ToEuro(valor: real, origem: Coin): real
  {
    valor / Rate(origem)
  }

  /** The conversion shown in the success message. */
  function Convert(valor: real, origem: Coin, destino: Coin): (r: real)
    ensures origem == destino ==> r == valor
    ensures valor >= 0.0 ==> r >= 0.0
    ensures r * Rate(origem) == valor * Rate(destino)
  {
    var e := ToEuro(valor, origem);
    assert e * Rate(origem) == valor;
    e * Rate(destino)
  }

  /** Converting there and back returns the amount. */
  lemma RoundTrip(valor: real, origem: Coin, destino: Coin)
    ensures Convert(Convert(valor, origem, destino), destino, origem) == valor
  {
    var x := Convert(valor, origem, destino);
    var y := Convert(x, destino, origem);
    assert y * Rate(destino) == x * Rate(origem);
    assert x * Rate(origem) == valor * Rate(destino);
    assert (y - valor) * Rate(destino) == 0.0;
  }

  /** Passing through a third currency changes nothing. */
  lemma ThroughAnother(valor: real, origem: Coin, meio: Coin, destino: Coin)
    ensures Convert(Convert(valor, origem, meio), meio, destino) == Convert(valor, origem, destino)
  {
    var x := Convert(valor, origem, meio);
    var y := Convert(x, meio, destino);
    var z := Convert(valor, origem, destino);
    assert y * Rate(meio) == x * Rate(destino);
    assert x * Rate(origem) == valor * Rate(meio);
    assert y * Rate(meio) * Rate(origem) == valor * Rate(meio) * Rate(destino);
    assert z * Rate(origem) == valor * Rate(destino);
    assert (y - z) * Rate(origem) * Rate(meio) == 0.0;
  }

  /** The equivalents table: every currency in order with the amount rounded
      to two decimals, each within half a cent of the exact conversion. */
  function Table(valor: real, origem: Coin): (t: seq<(Coin, real)>)
    ensures |t| == |Coins|
    ensures forall i :: 0 <= i < |t| ==> t[i].0 == Coins[i]
    ensures forall i :: 0 <= i < |t| ==> -0.005 <= t[i].1 - Convert(valor, origem, Coins[i]) <= 0.005
  {
    seq(|Coins|, i requires 0 <= i < |Coins| => (Coins[i], RoundTo(ToEuro(valor, origem) * Rate(Coins[i]), 2)))
  }

  /** The table's row for the original currency shows the amount entered,
      to the cent. */
  lemma TableShowsOrigin(valor: real, origem: Coin)
    ensures Table(valor, origem)[Position(origem)].0 == origem
    ensures -0.005 <= Table(valor, origem)[Position(origem)].1 - valor <= 0.005
  {
  }
}
