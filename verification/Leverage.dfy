/** The month loop of the leveraged portfolio (simulation/lombard.py). */
module Leverage {
  import opened Wrappers

  /** Market value of the portfolio, outstanding loan, and loan bought back in margin calls. */
  datatype Lever = Lever(portfolio: real, principal: real, buyback: real)

  /** A margin call pays the loan down to this much below the ceiling. */
  const CUSHION := 0.05

  function Threshold(maxLtv: real): real {
    maxLtv - CUSHION
  }

  function Min(a: real, b: real): real {
    if a <= b then a else b
  }

  function Max(a: real, b: real): real {
    if a >= b then a else b
  }

  function Grown(portfolio: real, r: real): real {
    portfolio * r
  }

  predicate ExceedsLtv(principal: real, value: real, ltv: real)
    requires value > 0.0
  {
    principal / value > ltv
  }

  /** Restoring the bought-back loan would leave the loan-to-value below the original one. */
  predicate Recouped(principal: real, value: real, buyback: real, ltv: real)
    requires value > 0.0 && buyback > 0.0
  {
    (principal + buyback) / (value + buyback) < ltv
  }

  predicate MarginCalled(s: Lever, value: real, maxLtv: real) {
    value <= 0.0 || ExceedsLtv(s.principal, value, maxLtv)
  }

  /** What has to be sold and paid back to bring the loan down to the share `t` of the portfolio. */
  function PaydownTo(principal: real, value: real, t: real): real
    requires t != 1.0
  {
    Min(Min(Max((principal - t * value) / (1.0 - t), 0.0), principal), value)
  }

  function Paydown(principal: real, value: real, maxLtv: real): real
    requires maxLtv != 1.0 + CUSHION
  {
    PaydownTo(principal, value, Threshold(maxLtv))
  }

  /** One month: the portfolio grows by `r`, then the loan is called, restored or kept. */
  function Month(s: Lever, r: real, ltv: real, maxLtv: real): Lever
    requires maxLtv != 1.0 + CUSHION
  {
    var value := Grown(s.portfolio, r);
    if value <= 0.0 then Lever(0.0, 0.0, s.buyback + s.principal)
    else if ExceedsLtv(s.principal, value, maxLtv) then
      var p := Paydown(s.principal, value, maxLtv);
      Lever(value - p, s.principal - p, s.buyback + p)
    else if s.buyback > 0.0 && Recouped(s.principal, value, s.buyback, ltv) then
      Lever(value + s.buyback, s.principal + s.buyback, 0.0)
    else s.(portfolio := value)
  }

  function Opening(equity: real, ltv: real): Lever
    requires ltv != 1.0
  {
    var loan := equity * ltv / (1.0 - ltv);
    Lever(equity + loan, loan, 0.0)
  }

  /** `states` is what the loan and the portfolio go through, one state more than months. */
  ghost predicate Trace(states: seq<Lever>, rs: seq<real>, ltv: real, maxLtv: real)
    requires maxLtv != 1.0 + CUSHION
  {
    && |states| == |rs| + 1
    && forall j, k | 0 <= j < k < |states| && k == j + 1 :: states[k] == Month(states[j], rs[j], ltv, maxLtv)
  }

  predicate CalledAt(s: Lever, r: real, maxLtv: real) {
    MarginCalled(s, Grown(s.portfolio, r), maxLtv)
  }

  function MonthlyInterest(principal: real, rate: real, spread: real): real {
    principal * ((rate + spread) / 12.0)
  }

  /** `paid[n]` is the interest paid in cash over the first `n` months. */
  ghost predicate Accrued(paid: seq<real>, states: seq<Lever>, rates: seq<real>, spread: real) {
    && |paid| == |states| == |rates| + 1 && paid[0] == 0.0
    && forall j, k | 0 <= j < k < |paid| && k == j + 1 ::
         paid[k] == paid[j] + MonthlyInterest(states[j].principal, rates[j], spread)
  }

  /** The chart's figures for one month: market value, and loan plus interest so far. */
  ghost predicate Reported(capital: real, liability: real, s: Lever, paid: real) {
    capital == s.portfolio && liability == s.principal + paid
  }

  lemma TraceGrows(states: seq<Lever>, rs: seq<real>, ltv: real, maxLtv: real, r: real)
    requires maxLtv != 1.0 + CUSHION && Trace(states, rs, ltv, maxLtv)
    ensures Trace(states + [Month(states[|rs|], r, ltv, maxLtv)], rs + [r], ltv, maxLtv)
  {
    var next := Month(states[|rs|], r, ltv, maxLtv);
    var states', rs' := states + [next], rs + [r];
    forall j, k | 0 <= j < k < |states'| && k == j + 1
      ensures states'[k] == Month(states'[j], rs'[j], ltv, maxLtv)
    {
      if k < |states| {
        assert states[k] == Month(states[j], rs[j], ltv, maxLtv);
      }
    }
  }

  lemma AccruedGrows(paid: seq<real>, states: seq<Lever>, rates: seq<real>, spread: real, next: Lever, rate: real)
    requires Accrued(paid, states, rates, spread)
    ensures Accrued(paid + [paid[|rates|] + MonthlyInterest(states[|rates|].principal, rate, spread)],
                    states + [next], rates + [rate], spread)
  {
    var due := MonthlyInterest(states[|rates|].principal, rate, spread);
    var paid', states', rates' := paid + [paid[|rates|] + due], states + [next], rates + [rate];
    forall j, k | 0 <= j < k < |paid'| && k == j + 1
      ensures paid'[k] == paid'[j] + MonthlyInterest(states'[j].principal, rates'[j], spread)
    {
      if k < |paid| {
        assert paid[k] == paid[j] + MonthlyInterest(states[j].principal, rates[j], spread);
      }
    }
  }

  /** The loan bookkeeping of one month. */
  method Settle(s: Lever, r: real, ltv: real, maxLtv: real)
    returns (value: real, principal: real, buyback: real, called: bool)
    requires maxLtv != 1.0 + CUSHION
    ensures Lever(value, principal, buyback) == Month(s, r, ltv, maxLtv)
    ensures called == MarginCalled(s, Grown(s.portfolio, r), maxLtv)
    ensures principal + buyback == s.principal + s.buyback
    ensures value - principal == if Grown(s.portfolio, r) <= 0.0 then 0.0 else Grown(s.portfolio, r) - s.principal
  {
    value, principal, buyback, called := Grown(s.portfolio, r), s.principal, s.buyback, false;
    if value <= 0.0 {
      buyback := buyback + principal;
      principal := 0.0;
      value := 0.0;
      called := true;
    } else if ExceedsLtv(principal, value, maxLtv) {
      var paydown := Paydown(principal, value, maxLtv);
      value := value - paydown;
      principal := principal - paydown;
      buyback := buyback + paydown;
      called := true;
    } else if buyback > 0.0 {
      if Recouped(principal, value, buyback, ltv) {
        value := value + buyback;
        principal := principal + buyback;
        buyback := 0.0;
      }
    }
  }

  datatype Result = Mismatch | Paths(capital: seq<real>, liability: seq<real>, calls: seq<nat>)

  /**
   The loop of `compare_portfolios`: capital and liability follow the monthly rule, and
   `calls` lists, in order, exactly the months with a margin call.
   */
  method LeveragedPaths(rs: seq<real>, rates: seq<real>, years: int, ltv: real, spread: real,
                        equity: real, maxLtv: real)
    returns (r: Result, ghost states: seq<Lever>, ghost paid: seq<real>)
    requires ltv != 1.0 && maxLtv != 1.0 + CUSHION
    ensures r.Mismatch? <==> |rates| != 12 * years || |rs| != 12 * years
    ensures r.Paths? ==>
              && Trace(states, rs, ltv, maxLtv) && states[0] == Opening(equity, ltv)
              && Accrued(paid, states, rates, spread)
              && |r.capital| == |r.liability| == |states|
              && forall n | 0 <= n < |states| :: Reported(r.capital[n], r.liability[n], states[n], paid[n])
    ensures r.Paths? ==>
              && (forall i, j | 0 <= i < j < |r.calls| :: r.calls[i] < r.calls[j])
              && (forall n | 0 <= n < |rs| :: n in r.calls <==> CalledAt(states[n], rs[n], maxLtv))
              && (forall n <- r.calls :: n < |rs|)
  {
    states, paid := [], [];
    if |rates| != 12 * years || |rs| != 12 * years {
      return Mismatch, states, paid;
    }
    var principal := equity * ltv / (1.0 - ltv);
    var capital, liability := [equity + principal], [principal];
    var calls: seq<nat> := [];
    var interest, buyback := 0.0, 0.0;
    states, paid := [Lever(capital[0], principal, buyback)], [interest];
    for m := 0 to |rs|
      invariant |capital| == |liability| == m + 1
      invariant Trace(states, rs[..m], ltv, maxLtv) && states[0] == Opening(equity, ltv)
      invariant Accrued(paid, states, rates[..m], spread)
      invariant states[m] == Lever(capital[m], principal, buyback) && paid[m] == interest
      invariant forall n | 0 <= n <= m :: Reported(capital[n], liability[n], states[n], paid[n])
      invariant forall i, j | 0 <= i < j < |calls| :: calls[i] < calls[j]
      invariant forall i | 0 <= i < |calls| :: calls[i] < m
      invariant forall n | 0 <= n < m :: n in calls <==> CalledAt(states[n], rs[n], maxLtv)
    {
      TraceGrows(states, rs[..m], ltv, maxLtv, rs[m]);
      AccruedGrows(paid, states, rates[..m], spread, Month(states[m], rs[m], ltv, maxLtv), rates[m]);
      assert rs[..m + 1] == rs[..m] + [rs[m]] && rates[..m + 1] == rates[..m] + [rates[m]];
      var value, called;
      interest := interest + MonthlyInterest(principal, rates[m], spread);
      value, principal, buyback, called := Settle(Lever(capital[m], principal, buyback), rs[m], ltv, maxLtv);
      if called {
        calls := calls + [m];
      }
      assert Reported(value, principal + interest, Lever(value, principal, buyback), interest);
      capital := capital + [value];
      liability := liability + [principal + interest];
      states, paid := states + [Lever(value, principal, buyback)], paid + [interest];
    }
    assert rs[..|rs|] == rs && rates[..|rates|] == rates;
    return Paths(capital, liability, calls), states, paid;
  }
}
