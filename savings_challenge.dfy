/** The savings challenge: how many months of saving, with interest, it
    takes to reach a goal. The simulation adds one month at a time until the
    balance reaches the goal, and gives up after 600 months with a warning;
    the month count is then shown as whole years and remaining months. */
module SavingsChallenge {
  import opened Growth

  /** The month cap: fifty years. */
  const MaxMonths := 600

  datatype Outcome = Outcome(historico: seq<real>, meses: nat, warning: bool, anos: nat, mesesRestantes: nat)

  /** The saving loop: one month at a time until the goal is reached, or
      until the month count passes the cap. `taxa` is the monthly rate
      already divided by 100. */
  method Accumulate(objetivo: real, saldoInicial: real, poupancaMensal: real, taxa: real)
    returns (historico: seq<real>, meses: nat, warning: bool)
    ensures |historico| == meses + 1 && meses <= MaxMonths + 1
    ensures forall k :: 0 <= k <= meses ==> historico[k] == Balance(saldoInicial, taxa, poupancaMensal, k)
    ensures forall k :: 0 <= k < meses ==> historico[k] < objetivo
    ensures warning <==> meses == MaxMonths + 1
    ensures !warning ==> historico[meses] >= objetivo
  {
    meses := 0;
    var saldo := saldoInicial;
    historico := [saldo];
    warning := false;
    while saldo < objetivo
      invariant meses <= MaxMonths && !warning
      invariant |historico| == meses + 1
      invariant forall k :: 0 <= k <= meses ==> historico[k] == Balance(saldoInicial, taxa, poupancaMensal, k)
      invariant saldo == historico[meses]
      invariant forall k :: 0 <= k < meses ==> historico[k] < objetivo
      decreases MaxMonths + 1 - meses
    {
      BalanceNext(saldoInicial, taxa, poupancaMensal, meses, saldo);
      saldo := saldo * (1.0 + taxa) + poupancaMensal;
      historico := historico + [saldo];
      meses := meses + 1;
      if meses > MaxMonths {
        warning := true;
        break;
      }
    }
  }

  /** One simulation, with the month count split into years and months.
      The inputs' lower bounds are those of the page's number fields. */
  method Simulate(objetivo: real, saldoInicial: real, poupancaMensal: real, taxa: real) returns (o: Outcome)
    requires objetivo >= 1.0 && saldoInicial >= 0.0 && poupancaMensal >= 1.0 && taxa >= 0.0
    ensures |o.historico| == o.meses + 1 && o.meses <= MaxMonths + 1
    ensures forall k :: 0 <= k <= o.meses ==> o.historico[k] == Balance(saldoInicial, taxa, poupancaMensal, k)
    ensures o.warning <==> o.meses == MaxMonths + 1
    ensures !o.warning ==> FirstReach(objetivo, saldoInicial, taxa, poupancaMensal, o.meses)
    ensures saldoInicial >= objetivo ==> o.meses == 0
    ensures objetivo <= saldoInicial + MaxMonths as real * poupancaMensal ==> !o.warning
    ensures o.anos * 12 + o.mesesRestantes == o.meses && o.mesesRestantes < 12
  {
    var historico, meses, warning := Accumulate(objetivo, saldoInicial, poupancaMensal, taxa);
    if warning {
      BalanceAtLeastLinear(saldoInicial, taxa, poupancaMensal, MaxMonths);
      assert historico[MaxMonths] < objetivo;
    }
    assert historico[0] == Balance(saldoInicial, taxa, poupancaMensal, 0);
    o := Outcome(historico, meses, warning, meses / 12, meses % 12);
  }

  /** The first month at which the balance reaches the goal, as a
      specification: a month count is the one the simulation reports
      exactly when it reaches the goal and no earlier one does. */
  predicate FirstReach(objetivo: real, v0: real, r: real, p: real, n: nat)
  {
    && Balance(v0, r, p, n) >= objetivo
    && forall k :: 0 <= k < n ==> Balance(v0, r, p, k) < objetivo
  }

  /** Saving more each month never takes longer: whatever month reaches the
      goal with the smaller saving, the larger saving has reached it by then. */
  lemma SavingMoreIsNoSlower(objetivo: real, v0: real, r: real, p: real, q: real, n: nat, m: nat)
    requires r >= 0.0 && p <= q
    requires FirstReach(objetivo, v0, r, p, n) && FirstReach(objetivo, v0, r, q, m)
    ensures m <= n
  {
    if n < m {
      BalanceMonotoneInContribution(v0, r, p, q, n);
    }
  }
}
