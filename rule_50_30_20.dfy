/** The 50/30/20 page: the learner picks the share for needs and for wants;
    savings get what is left of the hundred percent, a four-level message
    judges that share, and the money is split accordingly. */
module Rule503020 {

  /** The savings share left by the two chosen shares. With both sliders in
      `0..100` it lies in `-100..100`. */
  function SavingsPct(necessidadesPct: int, desejosPct: int): (p: int)
    ensures necessidadesPct + desejosPct + p == 100
    ensures 0 <= necessidadesPct <= 100 && 0 <= desejosPct <= 100 ==> -100 <= p <= 100
  {
    100 - necessidadesPct - desejosPct
  }

  /** The message shown about the savings share. */
  datatype Tier = Negative | Low | Moderate | Adequate

  /** The message chain, first matching branch wins. */
  function TierOf(poupancaPct: int): (t: Tier)
    ensures t == Negative <==> poupancaPct < 0
    ensures t == Low <==> 0 <= poupancaPct < 10
    ensures t == Moderate <==> 10 <= poupancaPct < 20
    ensures t == Adequate <==> poupancaPct >= 20
  {
    if poupancaPct < 0 then Negative
    else if poupancaPct < 10 then Low
    else if 10 <= poupancaPct < 20 then Moderate
    else Adequate
  }

  /** The levels in order, worst first. */
  function Rank(t: Tier): nat
  {
    match t
    case Negative => 0
    case Low => 1
    case Moderate => 2
    case Adequate => 3
  }

  /** Saving a larger share never earns a worse message. */
  lemma TierMonotone(p: int, q: int)
    requires p <= q
    ensures Rank(TierOf(p)) <= Rank(TierOf(q))
  {
  }

  /** The suggested split itself (fifty, thirty, twenty) earns the best
      message, and so does any split that keeps at least a fifth. */
  lemma SuggestedSplitIsAdequate(necessidadesPct: int, desejosPct: int)
    requires necessidadesPct + desejosPct <= 80
    ensures TierOf(SavingsPct(necessidadesPct, desejosPct)) == Adequate
  {
  }

  /** The amounts for needs, wants and savings: each the total times its
      share. They always add up to the total, and the savings amount is
      negative exactly when the savings share is. */
  function Amounts(valorTotal: real, necessidadesPct: int, desejosPct: int): (v: seq<real>)
    ensures |v| == 3
    ensures v[0] + v[1] + v[2] == valorTotal
    ensures valorTotal > 0.0 ==> (v[2] < 0.0 <==> SavingsPct(necessidadesPct, desejosPct) < 0)
    ensures valorTotal > 0.0 ==> (v[2] == 0.0 <==> SavingsPct(necessidadesPct, desejosPct) == 0)
  {
    var p := SavingsPct(necessidadesPct, desejosPct);
    var v := [valorTotal * necessidadesPct as real / 100.0,
              valorTotal * desejosPct as real / 100.0,
              valorTotal * p as real / 100.0];
    assert v[0] + v[1] + v[2] == valorTotal * (necessidadesPct + desejosPct + p) as real / 100.0;
    v
  }

  /** What the page shows for one setting of its inputs. */
  datatype Page = Page(poupancaPct: int, tier: Tier, valores: seq<real>)

  /** One run, with the input ranges of the page (a total of at least ten
      euros, both sliders within `0..100`). */
  function Run(valorTotal: real, necessidadesPct: int, desejosPct: int): (pg: Page)
    requires valorTotal >= 10.0
    requires 0 <= necessidadesPct <= 100 && 0 <= desejosPct <= 100
    ensures -100 <= pg.poupancaPct <= 100
    ensures necessidadesPct + desejosPct + pg.poupancaPct == 100
    ensures |pg.valores| == 3 && pg.valores[0] + pg.valores[1] + pg.valores[2] == valorTotal
    ensures pg.tier == Negative <==> pg.valores[2] < 0.0
    ensures pg.tier == TierOf(pg.poupancaPct)
  {
    var p := SavingsPct(necessidadesPct, desejosPct);
    Page(p, TierOf(p), Amounts(valorTotal, necessidadesPct, desejosPct))
  }
}
