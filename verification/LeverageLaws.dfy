/** What margin calls, restores and wipe-outs do over every run of the leverage loop. */
module LeverageLaws {
  import opened Leverage

  ghost predicate Solid(s: Lever) {
    s.portfolio >= 0.0 && s.principal >= 0.0 && s.buyback >= 0.0
  }

  function Equity(s: Lever): real {
    s.portfolio - s.principal
  }

  /** The threshold a margin call aims at is a proper loan-to-value. */
  ghost predicate SaneCeiling(maxLtv: real) {
    0.0 <= Threshold(maxLtv) < 1.0
  }

  /** Nothing is left, or the loan is at most the ceiling's share of the portfolio. */
  ghost predicate Capped(s: Lever, maxLtv: real) {
    s.portfolio == 0.0 || s.principal <= maxLtv * s.portfolio
  }

  // -------------------------------------------------------------------- one month

  lemma RatioAbove(a: real, b: real, c: real)
    requires b > 0.0
    ensures a / b > c <==> a > c * b
    ensures a / b < c <==> a < c * b
  {
  }

  /** The unclamped paydown `x` of a loan above the threshold `t`. */
  lemma PaydownBounds(l: real, p: real, t: real, x: real)
    requires 0.0 <= t < 1.0 && p > 0.0 && l > t * p && x == (l - t * p) / (1.0 - t)
    ensures x > 0.0 && x * (1.0 - t) == l - t * p
    ensures l <= p ==> x <= l && x <= p
    ensures l >= p ==> x >= p
    ensures l - x == t * (p - x)
    ensures l < p ==> x < p
  {
    assert x * (1.0 - t) == l - t * p;
    assert (p - x) * (1.0 - t) == p - l;
    assert (l - x) * (1.0 - t) == t * (p - l) == (t * (p - x)) * (1.0 - t);
    Cancel(l - x, t * (p - x), 1.0 - t);
  }

  lemma Cancel(a: real, b: real, c: real)
    requires c != 0.0 && a * c == b * c
    ensures a == b
  {
  }

  lemma NonNegative(x: real, c: real, y: real)
    requires c > 0.0 && x * c == y >= 0.0
    ensures x >= 0.0
  {
  }

  /**
   A margin call on a solvent portfolio lands exactly on the threshold; on an
   overindebted one it takes everything.
   */
  lemma {:induction false} MarginCallLands(principal: real, value: real, maxLtv: real)
    requires SaneCeiling(maxLtv) && principal >= 0.0 && value > 0.0
    requires ExceedsLtv(principal, value, maxLtv)
    ensures var p := Paydown(principal, value, maxLtv);
      && 0.0 <= p <= principal && p <= value
      && (value - p > 0.0 <==> principal < value)
      && (principal < value ==> principal - p == (maxLtv - 0.05) * (value - p))
  {
    var t, p := Threshold(maxLtv), Paydown(principal, value, maxLtv);
    AboveThreshold(principal, value, maxLtv, t);
    PaydownLands(principal, value, t);
    SameProduct(t, maxLtv - 0.05, value - p);
  }

  lemma SameProduct(a: real, b: real, c: real)
    requires a == b
    ensures a * c == b * c
  {
  }

  lemma AboveThreshold(principal: real, value: real, maxLtv: real, t: real)
    requires value > 0.0 && ExceedsLtv(principal, value, maxLtv) && t == Threshold(maxLtv)
    ensures principal > t * value
  {
    RatioAbove(principal, value, maxLtv);
    Strictly(t, maxLtv, value);
  }

  /** The paydown clamped to the loan and to the value. */
  lemma PaydownLands(principal: real, value: real, t: real)
    requires 0.0 <= t < 1.0 && principal >= 0.0 && value > 0.0 && principal > t * value
    ensures var p := PaydownTo(principal, value, t);
      && 0.0 <= p <= principal && p <= value
      && (value - p > 0.0 <==> principal < value)
      && (principal < value ==> principal - p == t * (value - p))
  {
    PaydownBounds(principal, value, t, (principal - t * value) / (1.0 - t));
  }

  lemma MonthStaysSolid(s: Lever, r: real, ltv: real, maxLtv: real)
    requires SaneCeiling(maxLtv) && Solid(s)
    ensures Solid(Month(s, r, ltv, maxLtv))
    ensures var s' := Month(s, r, ltv, maxLtv); s'.principal + s'.buyback == s.principal + s.buyback
  {
    var value := Grown(s.portfolio, r);
    if value > 0.0 && ExceedsLtv(s.principal, value, maxLtv) {
      MarginCallLands(s.principal, value, maxLtv);
    }
  }

  /** Only a wipe-out moves equity other than by the market: it writes the loan off. */
  lemma MonthMovesEquity(s: Lever, r: real, ltv: real, maxLtv: real)
    requires maxLtv != 1.0 + CUSHION
    ensures var value := Grown(s.portfolio, r);
      Equity(Month(s, r, ltv, maxLtv)) == if value <= 0.0 then 0.0 else value - s.principal
  {
  }

  lemma CalledIsCapped(s: Lever, value: real, maxLtv: real)
    requires SaneCeiling(maxLtv) && Solid(s) && value > 0.0 && ExceedsLtv(s.principal, value, maxLtv)
    ensures var p := Paydown(s.principal, value, maxLtv);
      value - p == 0.0 || s.principal - p <= maxLtv * (value - p)
  {
    MarginCallLands(s.principal, value, maxLtv);
    Scaled(Threshold(maxLtv), maxLtv, value - Paydown(s.principal, value, maxLtv));
  }

  lemma RestoredIsCapped(s: Lever, value: real, ltv: real, maxLtv: real)
    requires value > 0.0 && s.buyback > 0.0 && Recouped(s.principal, value, s.buyback, ltv) && ltv <= maxLtv
    ensures s.principal + s.buyback <= maxLtv * (value + s.buyback)
  {
    RatioAbove(s.principal + s.buyback, value + s.buyback, ltv);
    Scaled(ltv, maxLtv, value + s.buyback);
  }

  lemma MonthIsCapped(s: Lever, r: real, ltv: real, maxLtv: real)
    requires SaneCeiling(maxLtv) && Solid(s) && ltv <= maxLtv
    ensures Capped(Month(s, r, ltv, maxLtv), maxLtv)
  {
    var value := Grown(s.portfolio, r);
    if value > 0.0 {
      if ExceedsLtv(s.principal, value, maxLtv) {
        CalledIsCapped(s, value, maxLtv);
      } else if s.buyback > 0.0 && Recouped(s.principal, value, s.buyback, ltv) {
        RestoredIsCapped(s, value, ltv, maxLtv);
      } else {
        RatioAbove(s.principal, value, maxLtv);
        assert Month(s, r, ltv, maxLtv) == s.(portfolio := value);
      }
    }
  }

  lemma Scaled(a: real, b: real, c: real)
    requires a <= b && c >= 0.0
    ensures a * c <= b * c
  {
  }

  lemma Strictly(a: real, b: real, c: real)
    requires a < b && c > 0.0
    ensures a * c < b * c
  {
  }

  // -------------------------------------------------------------------- every run

  /** Principal and bought-back loan together never change, and nothing goes negative. */
  lemma {:induction false} LoanIsConserved(states: seq<Lever>, rs: seq<real>, ltv: real, maxLtv: real, n: nat)
    requires SaneCeiling(maxLtv) && Trace(states, rs, ltv, maxLtv) && Solid(states[0]) && n < |states|
    ensures Solid(states[n])
    ensures states[n].principal + states[n].buyback == states[0].principal + states[0].buyback
  {
    if n > 0 {
      LoanIsConserved(states, rs, ltv, maxLtv, n - 1);
      MonthStaysSolid(states[n - 1], rs[n - 1], ltv, maxLtv);
      assert states[n] == Month(states[n - 1], rs[n - 1], ltv, maxLtv);
    }
  }

  /** After every month the loan-to-value is within the ceiling or the portfolio is gone. */
  lemma {:induction false} LoanToValueIsCapped(states: seq<Lever>, rs: seq<real>, ltv: real, maxLtv: real, n: nat)
    requires SaneCeiling(maxLtv) && ltv <= maxLtv
    requires Trace(states, rs, ltv, maxLtv) && Solid(states[0]) && 0 < n < |states|
    ensures Capped(states[n], maxLtv)
  {
    LoanIsConserved(states, rs, ltv, maxLtv, n - 1);
    assert states[n] == Month(states[n - 1], rs[n - 1], ltv, maxLtv);
    MonthIsCapped(states[n - 1], rs[n - 1], ltv, maxLtv);
  }

  // ---------------------------------------------------------- when the ceiling fails

  /** The states a run goes through, the opening first. */
  function Path(s: Lever, rs: seq<real>, ltv: real, maxLtv: real): (states: seq<Lever>)
    requires maxLtv != 1.0 + CUSHION
    ensures |states| == |rs| + 1 && states[0] == s
    decreases |rs|
  {
    if rs == [] then [s] else [s] + Path(Month(s, rs[0], ltv, maxLtv), rs[1..], ltv, maxLtv)
  }

  lemma {:induction false} PathIsTrace(s: Lever, rs: seq<real>, ltv: real, maxLtv: real)
    requires maxLtv != 1.0 + CUSHION
    ensures Trace(Path(s, rs, ltv, maxLtv), rs, ltv, maxLtv)
    decreases |rs|
  {
    if rs != [] {
      var next := Month(s, rs[0], ltv, maxLtv);
      var states, rest := Path(s, rs, ltv, maxLtv), Path(next, rs[1..], ltv, maxLtv);
      PathIsTrace(next, rs[1..], ltv, maxLtv);
      forall j, k | 0 <= j < k < |states| && k == j + 1
        ensures states[k] == Month(states[j], rs[j], ltv, maxLtv)
      {
        if j > 0 {
          assert states[k] == rest[k - 1] && states[j] == rest[j - 1] && rs[j] == rs[1..][j - 1];
        }
      }
    }
  }

  /** The first month of a run above the ceiling, in a flat market, is a margin call. */
  lemma FirstCall(o: Lever, ltv: real, maxLtv: real) returns (s: Lever, paid: real)
    requires SaneCeiling(maxLtv) && maxLtv < ltv < 1.0
    requires o.portfolio > 0.0 && o.principal == ltv * o.portfolio && o.principal >= 0.0 && o.buyback == 0.0
    ensures s == Month(o, 1.0, ltv, maxLtv) == Lever(o.portfolio - paid, o.principal - paid, paid) && paid > 0.0
    ensures s.principal == Threshold(maxLtv) * s.portfolio && s.portfolio > 0.0
  {
    LoanBetween(o.principal, o.portfolio, ltv, maxLtv);
    MarginCallLands(o.principal, o.portfolio, maxLtv);
    paid := Paydown(o.principal, o.portfolio, maxLtv);
    CallPays(o.principal, o.portfolio, paid, maxLtv);
    s := Month(o, 1.0, ltv, maxLtv);
    FlatCall(o, ltv, maxLtv);
    assert s.portfolio == o.portfolio - paid;
  }

  /** A loan between the ceiling's share of a portfolio and all of it. */
  lemma LoanBetween(loan: real, value: real, ltv: real, maxLtv: real)
    requires value > 0.0 && loan == ltv * value && maxLtv < ltv < 1.0
    ensures maxLtv * value < loan < value && ExceedsLtv(loan, value, maxLtv)
  {
    Strictly(maxLtv, ltv, value);
    Strictly(ltv, 1.0, value);
    RatioAbove(loan, value, maxLtv);
  }

  lemma FlatCall(s: Lever, ltv: real, maxLtv: real)
    requires maxLtv != 1.0 + CUSHION && s.portfolio > 0.0 && ExceedsLtv(s.principal, s.portfolio, maxLtv)
    ensures var p := Paydown(s.principal, s.portfolio, maxLtv);
      Month(s, 1.0, ltv, maxLtv) == Lever(s.portfolio - p, s.principal - p, s.buyback + p)
  {
    assert Grown(s.portfolio, 1.0) == s.portfolio;
  }

  lemma CallPays(principal: real, value: real, paid: real, maxLtv: real)
    requires SaneCeiling(maxLtv) && value > 0.0 && principal > maxLtv * value && 0.0 <= paid
    requires principal - paid == Threshold(maxLtv) * (value - paid)
    ensures paid > 0.0
  {
    var t := Threshold(maxLtv);
    assert maxLtv * value == t * value + CUSHION * value;
    assert t * (value - paid) == t * value - t * paid;
    assert principal > t * value + CUSHION * value && CUSHION * value > 0.0;
    assert paid - t * paid > 0.0;
  }

  lemma SplitRatio(loan: real, mid: real) returns (whole: real)
    requires mid > 0.0
    ensures whole * mid == loan
  {
    whole := loan / mid;
  }

  /** A rise that brings the restored loan between the ceiling and the original ratio. */
  lemma Rise(portfolio: real, paid: real, loan: real, ltv: real, maxLtv: real) returns (r: real, value: real)
    requires 0.0 <= maxLtv < ltv && portfolio > 0.0 && paid > 0.0 && loan == ltv * (portfolio + paid)
    ensures r > 1.0 && value == Grown(portfolio, r) && value > portfolio
    ensures maxLtv * (value + paid) < loan < ltv * (value + paid)
  {
    var mid := (ltv + maxLtv) / 2.0;
    var whole := SplitRatio(loan, mid);
    if whole <= portfolio + paid {
      Scaled(whole, portfolio + paid, mid);
      Strictly(mid, ltv, portfolio + paid);
      assert false;
    }
    value := whole - paid;
    r := value / portfolio;
    assert r * portfolio == value;
    if r <= 1.0 {
      Scaled(r, 1.0, portfolio);
    }
    Strictly(maxLtv, mid, whole);
    Strictly(mid, ltv, whole);
  }

  /** A month in which the bought-back loan is restored. */
  lemma Restores(s: Lever, r: real, ltv: real, maxLtv: real)
    requires maxLtv != 1.0 + CUSHION && Grown(s.portfolio, r) > 0.0 && s.buyback > 0.0
    requires s.principal <= maxLtv * Grown(s.portfolio, r)
    requires s.principal + s.buyback < ltv * (Grown(s.portfolio, r) + s.buyback)
    ensures Month(s, r, ltv, maxLtv) == Lever(Grown(s.portfolio, r) + s.buyback, s.principal + s.buyback, 0.0)
  {
    RatioAbove(s.principal, Grown(s.portfolio, r), maxLtv);
    RatioAbove(s.principal + s.buyback, Grown(s.portfolio, r) + s.buyback, ltv);
  }

  /** A loan on the threshold of a portfolio is under the ceiling of one worth more. */
  lemma UnderCeiling(loan: real, portfolio: real, value: real, maxLtv: real)
    requires SaneCeiling(maxLtv) && 0.0 < portfolio <= value && loan == Threshold(maxLtv) * portfolio
    ensures loan <= maxLtv * value
  {
    Scaled(Threshold(maxLtv), maxLtv, portfolio);
    Scaled(portfolio, value, maxLtv);
  }

  lemma {:induction false} RestoreOvershoots(s: Lever, ltv: real, maxLtv: real) returns (r: real)
    requires SaneCeiling(maxLtv) && maxLtv < ltv && s.portfolio > 0.0 && s.buyback > 0.0
    requires s.principal == Threshold(maxLtv) * s.portfolio
    requires s.principal + s.buyback == ltv * (s.portfolio + s.buyback)
    ensures r > 1.0 && !Capped(Month(s, r, ltv, maxLtv), maxLtv)
  {
    var value;
    r, value := Rise(s.portfolio, s.buyback, s.principal + s.buyback, ltv, maxLtv);
    UnderCeiling(s.principal, s.portfolio, value, maxLtv);
    Restores(s, r, ltv, maxLtv);
  }

  /** Above the ceiling two months are enough: a margin call, and a rise that restores the loan. */
  lemma {:induction false} SecondMonthOvershoots(equity: real, ltv: real, maxLtv: real) returns (r: real)
    requires equity > 0.0 && SaneCeiling(maxLtv) && maxLtv < ltv < 1.0
    ensures r > 1.0
    ensures !Capped(Month(Month(Opening(equity, ltv), 1.0, ltv, maxLtv), r, ltv, maxLtv), maxLtv)
  {
    var o := Opening(equity, ltv);
    OpeningHasLtv(equity, ltv);
    var s, paid := FirstCall(o, ltv, maxLtv);
    assert s.portfolio + s.buyback == o.portfolio && s.principal + s.buyback == o.principal;
    r := RestoreOvershoots(s, ltv, maxLtv);
  }

  /** A run of whole years in which every month's growth factor is positive. */
  ghost predicate Simulated(states: seq<Lever>, rs: seq<real>, years: nat, equity: real, ltv: real, maxLtv: real)
    requires ltv != 1.0 && maxLtv != 1.0 + CUSHION
  {
    && |rs| == 12 * years && (forall m | 0 <= m < |rs| :: rs[m] > 0.0)
    && Trace(states, rs, ltv, maxLtv) && states[0] == Opening(equity, ltv)
  }

  ghost predicate AlwaysCapped(states: seq<Lever>, maxLtv: real) {
    forall n | 0 < n < |states| :: Capped(states[n], maxLtv)
  }

  /**
   Every simulation of that many years keeps the ceiling after every month exactly when
   the original loan-to-value is not above it.
   */
  lemma {:induction false} CeilingHoldsIffLtvBelow(equity: real, ltv: real, maxLtv: real, years: nat)
    requires equity > 0.0 && 0.0 <= ltv < 1.0 && SaneCeiling(maxLtv) && years > 0
    ensures (forall states, rs :: Simulated(states, rs, years, equity, ltv, maxLtv) ==> AlwaysCapped(states, maxLtv))
            <==> ltv <= maxLtv
  {
    if ltv <= maxLtv {
      OpeningHasLtv(equity, ltv);
      forall states, rs | Simulated(states, rs, years, equity, ltv, maxLtv) ensures AlwaysCapped(states, maxLtv) {
        forall n | 0 < n < |states| ensures Capped(states[n], maxLtv) {
          LoanToValueIsCapped(states, rs, ltv, maxLtv, n);
        }
      }
    } else {
      var states, rs := RunAboveCeiling(equity, ltv, maxLtv, years);
    }
  }

  lemma {:induction false} RunAboveCeiling(equity: real, ltv: real, maxLtv: real, years: nat)
    returns (states: seq<Lever>, rs: seq<real>)
    requires equity > 0.0 && SaneCeiling(maxLtv) && maxLtv < ltv < 1.0 && years > 0
    ensures Simulated(states, rs, years, equity, ltv, maxLtv) && !AlwaysCapped(states, maxLtv)
  {
    var r := SecondMonthOvershoots(equity, ltv, maxLtv);
    rs := [1.0, r] + seq(12 * years - 2, i => 1.0);
    states := Path(Opening(equity, ltv), rs, ltv, maxLtv);
    PathIsTrace(Opening(equity, ltv), rs, ltv, maxLtv);
    assert states[1] == Month(states[0], rs[0], ltv, maxLtv);
    assert states[2] == Month(states[1], rs[1], ltv, maxLtv);
    assert !Capped(states[2], maxLtv);
  }

  /**
   A portfolio at zero stays there, the whole loan counts as bought back from the next
   month on, and every later month is reported as a margin call.
   */
  lemma {:induction false} ZeroIsAbsorbing(states: seq<Lever>, rs: seq<real>, ltv: real, maxLtv: real, n: nat, m: nat)
    requires SaneCeiling(maxLtv) && Trace(states, rs, ltv, maxLtv) && Solid(states[0])
    requires n < m < |states| && states[n].portfolio == 0.0
    ensures states[m] == Lever(0.0, 0.0, states[0].principal + states[0].buyback)
    ensures CalledAt(states[m - 1], rs[m - 1], maxLtv)
  {
    LoanIsConserved(states, rs, ltv, maxLtv, m - 1);
    assert states[m] == Month(states[m - 1], rs[m - 1], ltv, maxLtv);
    if n < m - 1 {
      ZeroIsAbsorbing(states, rs, ltv, maxLtv, n, m - 1);
    }
    assert Grown(0.0, rs[m - 1]) == 0.0;
  }

  function Gain(s: Lever, r: real): real {
    Grown(s.portfolio, r) - s.portfolio
  }

  /** The loss a wipe-out leaves with the lender. */
  function WrittenOff(s: Lever, r: real): real {
    if Grown(s.portfolio, r) <= 0.0 then s.principal - Grown(s.portfolio, r) else 0.0
  }

  function Ledger(states: seq<Lever>, rs: seq<real>, n: nat): real
    requires n <= |rs| && n <= |states|
  {
    if n == 0 then 0.0
    else Ledger(states, rs, n - 1) + Gain(states[n - 1], rs[n - 1]) + WrittenOff(states[n - 1], rs[n - 1])
  }

  /**
   Equity is conserved over whole runs: margin calls and restores never change it, so it
   is the opening equity plus every month's market gain plus what wipe-outs wrote off.
   */
  lemma {:induction false} EquityLedger(states: seq<Lever>, rs: seq<real>, ltv: real, maxLtv: real, n: nat)
    requires maxLtv != 1.0 + CUSHION && Trace(states, rs, ltv, maxLtv) && n < |states|
    ensures Equity(states[n]) == Equity(states[0]) + Ledger(states, rs, n)
  {
    if n > 0 {
      EquityLedger(states, rs, ltv, maxLtv, n - 1);
      assert states[n] == Month(states[n - 1], rs[n - 1], ltv, maxLtv);
      MonthMovesEquity(states[n - 1], rs[n - 1], ltv, maxLtv);
    }
  }

  /** The opening loan is the requested share of the opening portfolio. */
  lemma OpeningHasLtv(equity: real, ltv: real)
    requires equity >= 0.0 && 0.0 <= ltv < 1.0
    ensures var s := Opening(equity, ltv);
      Solid(s) && s.principal == ltv * s.portfolio && Equity(s) == equity
  {
    var loan := equity * ltv / (1.0 - ltv);
    assert loan * (1.0 - ltv) == equity * ltv;
    assert equity * ltv >= 0.0;
    NonNegative(loan, 1.0 - ltv, equity * ltv);
  }

  // ----------------------------------------------------------------------- interest

  /** From month `m` on the loan and the rate stay the same for `n` months. */
  ghost predicate Steady(states: seq<Lever>, rates: seq<real>, loan: real, rate: real, m: nat, n: nat) {
    m + n < |states| && m + n <= |rates|
    && forall i | m <= i < m + n :: states[i].principal == loan && rates[i] == rate
  }

  lemma {:induction false} SteadyInterest(paid: seq<real>, states: seq<Lever>, rates: seq<real>, spread: real,
                                          loan: real, rate: real, m: nat, n: nat)
    requires Accrued(paid, states, rates, spread) && Steady(states, rates, loan, rate, m, n)
    ensures paid[m + n] - paid[m] == (n as real) * (loan * (rate + spread) / 12.0)
  {
    if n > 0 {
      SteadyInterest(paid, states, rates, spread, loan, rate, m, n - 1);
      assert paid[m + n] == paid[m + n - 1] + MonthlyInterest(states[m + n - 1].principal, rates[m + n - 1], spread);
      OneMonthMore(n, loan * (rate + spread) / 12.0);
    }
  }

  lemma OneMonthMore(n: nat, x: real)
    requires n > 0
    ensures (n as real) * x == ((n - 1) as real) * x + x
  {
    assert n as real == (n - 1) as real + 1.0;
  }

  /** A year with the same loan, before and after, adds a year's interest on it to the reported liability. */
  lemma {:induction false} YearOfInterest(liability: seq<real>, capital: seq<real>, paid: seq<real>, states: seq<Lever>,
                                          rates: seq<real>, spread: real, loan: real, rate: real, m: nat)
    requires Accrued(paid, states, rates, spread) && Steady(states, rates, loan, rate, m, 12)
    requires states[m + 12].principal == loan && |liability| == |capital| == |states|
    requires forall n | 0 <= n < |states| :: Reported(capital[n], liability[n], states[n], paid[n])
    ensures liability[m + 12] - liability[m] == loan * (rate + spread)
    ensures capital[m] == states[m].portfolio
  {
    SteadyInterest(paid, states, rates, spread, loan, rate, m, 12);
    assert Reported(capital[m], liability[m], states[m], paid[m]);
    assert Reported(capital[m + 12], liability[m + 12], states[m + 12], paid[m + 12]);
    assert 12 as real == 12.0;
  }
}
