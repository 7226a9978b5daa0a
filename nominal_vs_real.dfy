/** Nominal versus real value: money invested at a yearly return, year by
    year, and the same amounts expressed in today's money by dividing out
    the inflation accumulated by then. */
module NominalVsReal {
  import opened Numeric
  import opened Growth

  /** `compound_interest`: the principal after `years` of yearly
      compounding. */
  function CompoundValue(principal: real, annualRate: real, years: nat): (v: real)
    requires annualRate >= 0.0
    ensures years == 0 ==> v == principal
    ensures principal >= 0.0 ==> v >= principal
  {
    var f := Compound(annualRate, years);
    assert principal * f - principal == principal * (f - 1.0);
    principal * f
  }

  /** The two yearly series, for years `0..years`. */
  datatype Series = Series(investNominal: seq<real>, investReal: seq<real>)

  /** The page's calculation; the rates come in as percentages and are
      divided by 100 first. */
  function Simulate(initial: real, inflationPct: real, investmentPct: real, years: nat): (s: Series)
    requires inflationPct >= 0.0 && investmentPct >= 0.0
    ensures |s.investNominal| == |s.investReal| == years + 1
    ensures forall y :: 0 <= y <= years ==>
      && s.investNominal[y] == CompoundValue(initial, investmentPct / 100.0, y)
      && s.investReal[y] == s.investNominal[y] / Compound(inflationPct / 100.0, y)
  {
    var inflation, investment := inflationPct / 100.0, investmentPct / 100.0;
    var nominal := seq(years + 1, y requires 0 <= y <= years => CompoundValue(initial, investment, y));
    Series(nominal, seq(years + 1, y requires 0 <= y <= years => nominal[y] / Compound(inflation, y)))
  }

  /** Year 0 shows the initial amount in both series. */
  lemma StartsAtInitial(initial: real, inflationPct: real, investmentPct: real, years: nat)
    requires inflationPct >= 0.0 && investmentPct >= 0.0
    ensures Simulate(initial, inflationPct, investmentPct, years).investNominal[0] == initial
    ensures Simulate(initial, inflationPct, investmentPct, years).investReal[0] == initial
  {
    assert Compound(inflationPct / 100.0, 0) == 1.0;
  }

  /** The nominal series never falls for a non-negative amount. */
  lemma NominalNonDecreasing(initial: real, rate: real, y: nat)
    requires initial >= 0.0 && rate >= 0.0
    ensures CompoundValue(initial, rate, y) <= CompoundValue(initial, rate, y + 1)
  {
    var c := Compound(rate, y);
    assert Compound(rate, y + 1) == (1.0 + rate) * c;
    assert initial * ((1.0 + rate) * c) - initial * c == rate * (initial * c);
    assert initial * c >= 0.0;
  }

  /** Deflating never raises a non-negative amount. */
  lemma RealNotAboveNominal(v: real, inflation: real, y: nat)
    requires v >= 0.0 && inflation >= 0.0
    ensures v / Compound(inflation, y) <= v
  {
    var d := Compound(inflation, y);
    assert v - v / d == v * (d - 1.0) / d;
  }

  lemma {:induction false} PowQuotient(a: real, b: real, y: nat)
    requires b > 0.0
    ensures Pow(b, y) > 0.0 && Pow(a, y) / Pow(b, y) == Pow(a / b, y)
  {
    PowPositive(b, y);
    if y > 0 {
      PowQuotient(a, b, y - 1);
      QuotientOfProducts(a, b, Pow(a, y - 1), Pow(b, y - 1));
    }
  }

  /** A quotient of products is the product of the quotients. */
  lemma QuotientOfProducts(a: real, b: real, p: real, q: real)
    requires b > 0.0 && q > 0.0
    ensures (a * p) / (b * q) == (a / b) * (p / q)
  {
    assert (a / b) * (p / q) * (b * q) == (a / b * b) * (p / q * q);
  }

  /** In today's money the investment grows by the ratio of the two
      factors each year: it keeps its value exactly when the return matches
      the inflation, and grows when the return is higher. */
  lemma RealGrowth(initial: real, investment: real, inflation: real, y: nat)
    requires investment >= 0.0 && inflation >= 0.0
    ensures CompoundValue(initial, investment, y) / Compound(inflation, y)
      == initial * Pow((1.0 + investment) / (1.0 + inflation), y)
    ensures investment == inflation ==> CompoundValue(initial, investment, y) / Compound(inflation, y) == initial
    ensures investment >= inflation && initial >= 0.0 ==> CompoundValue(initial, investment, y) / Compound(inflation, y) >= initial
  {
    PowQuotient(1.0 + investment, 1.0 + inflation, y);
    var g, d := Compound(investment, y), Compound(inflation, y);
    assert initial * g / d == initial * (g / d);
    var q := (1.0 + investment) / (1.0 + inflation);
    if investment == inflation {
      assert q == 1.0;
      PowOne(y);
    }
    if investment >= inflation {
      assert q >= 1.0;
      PowAtLeastOne(q, y);
      if initial >= 0.0 {
        assert initial * Pow(q, y) - initial == initial * (Pow(q, y) - 1.0);
      }
    }
  }
}
