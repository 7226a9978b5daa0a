/** Price versus value: the learner names a product's price and how much
    they would be willing to pay, and the page judges the price in three
    levels, allowing twenty percent above the willingness. */
module PriceVsValue {

  datatype Verdict = FairPrice | SlightlyAbove | AboveWillingness

  /** The verdict depends only on the price and the willingness to pay; the
      perceived value from one to ten is only quoted in the message. */
  function Evaluate(preco: real, disposto: real): (v: Verdict)
    ensures v == FairPrice <==> preco <= disposto
    ensures v == SlightlyAbove <==> disposto < preco <= disposto * 1.2
    ensures v == AboveWillingness <==> preco > disposto && preco > disposto * 1.2
  {
    if preco <= disposto then FairPrice
    else if preco <= disposto * 1.2 then SlightlyAbove
    else AboveWillingness
  }

  function Rank(v: Verdict): nat
  {
    match v
    case FairPrice => 0
    case SlightlyAbove => 1
    case AboveWillingness => 2
  }

  /** A higher price never gets a better verdict. */
  lemma DearerNeverBetter(preco: real, precoMaior: real, disposto: real)
    requires preco <= precoMaior
    ensures Rank(Evaluate(preco, disposto)) <= Rank(Evaluate(precoMaior, disposto))
  {
  }

  /** Being willing to pay more never gets a worse verdict. */
  lemma WillingMoreNeverWorse(preco: real, disposto: real, dispostoMaior: real)
    requires disposto <= dispostoMaior
    ensures Rank(Evaluate(preco, dispostoMaior)) <= Rank(Evaluate(preco, disposto))
  {
  }

  /** With a willingness of zero, any positive price is above it. */
  lemma NothingWilling(preco: real)
    requires preco > 0.0
    ensures Evaluate(preco, 0.0) == AboveWillingness
  {
  }

  /** The middle verdict needs a positive willingness: twenty percent of
      nothing leaves no room. */
  lemma SlightlyAboveNeedsWillingness(preco: real, disposto: real)
    requires Evaluate(preco, disposto) == SlightlyAbove
    ensures disposto > 0.0 && preco - disposto <= disposto * 0.2
  {
  }
}
