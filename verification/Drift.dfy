/** Drifting and rebalanced portfolio weights (simulation/lombard.py). */
module Drift {
  import opened Scalars
  import opened Wrappers

  // ------------------------------------------------------------------ arithmetic

  function SumOf(s: seq<real>, n: nat): real
    requires n <= |s|
  {
    if n == 0 then 0.0 else SumOf(s, n - 1) + s[n - 1]
  }

  function Sum(s: seq<real>): real {
    SumOf(s, |s|)
  }

  function ProductOf(s: seq<real>, n: nat): real
    requires n <= |s|
  {
    if n == 0 then 1.0 else Times(ProductOf(s, n - 1), s[n - 1])
  }

  /** The product of the first `n` entries. */
  function Product(s: seq<real>, n: nat): real
    requires n <= |s|
  {
    ProductOf(s, n)
  }

  /** The scalar product of the first `n` entries. */
  function DotOf(a: seq<real>, b: seq<real>, n: nat): real
    requires n <= |a| && n <= |b|
  {
    if n == 0 then 0.0 else DotOf(a, b, n - 1) + a[n - 1] * b[n - 1]
  }

  function Dot(a: seq<real>, b: seq<real>): real
    requires |a| == |b|
  {
    DotOf(a, b, |a|)
  }

  // ------------------------------------------------------------------- buy and hold

  /** What one unit of an asset bought at the start of month `from` is worth at `to`. */
  function Growth(row: seq<real>, from: nat, to: nat): real
    requires from <= to <= |row|
  {
    if from == to then 1.0 else Growth(row, from, to - 1) * row[to - 1]
  }

  ghost predicate Rectangular(series: seq<seq<real>>, months: nat) {
    forall row <- series :: |row| == months
  }

  ghost predicate Positive(series: seq<seq<real>>) {
    forall row <- series :: forall r <- row :: r > 0.0
  }

  /** The target allocation bought at `from` and left alone until `to`, asset by asset. */
  function Held(series: seq<seq<real>>, targets: seq<real>, from: nat, to: nat): (h: seq<real>)
    requires |targets| == |series| && from <= to && forall row <- series :: to <= |row|
    ensures |h| == |series|
  {
    seq(|series|, i requires 0 <= i < |series| =>
      assert series[i] in series; targets[i] * Growth(series[i], from, to))
  }

  /** The value of one unit of the portfolio bought at `from` and left alone until `to`. */
  function HeldValue(series: seq<seq<real>>, targets: seq<real>, from: nat, to: nat): real
    requires |targets| == |series| && from <= to && forall row <- series :: to <= |row|
  {
    Sum(Held(series, targets, from, to))
  }

  /** The end of the rebalance block that starts at `from`; no rebalancing when `every` is 0. */
  function BlockEnd(from: nat, months: nat, every: int): (end: nat)
    requires from < months
    ensures from < end <= months
  {
    if every == 0 || from + Step(every) > months then months else from + Step(every)
  }

  /** One buy-and-hold factor per rebalance block, multiplied up to the horizon. */
  function BlockwiseGrowth(series: seq<seq<real>>, targets: seq<real>, from: nat, months: nat, every: int): real
    requires |targets| == |series| && from <= months && Rectangular(series, months)
    decreases months - from
  {
    if from == months then 1.0
    else
      var end := BlockEnd(from, months, every);
      Times(HeldValue(series, targets, from, end), BlockwiseGrowth(series, targets, end, months, every))
  }

  function Step(every: int): nat {
    if every < 0 then -every else every
  }

  /** The last rebalance date at or before the start of month `m`. */
  function BlockStart(m: nat, every: int): (start: nat)
    ensures start <= m
  {
    if every == 0 then 0 else m - m % Step(every)
  }

  function Column(series: seq<seq<real>>, m: nat): (c: seq<real>)
    requires forall row <- series :: m < |row|
    ensures |c| == |series|
  {
    seq(|series|, i requires 0 <= i < |series| => assert series[i] in series; series[i][m])
  }

  ghost predicate Targets(targets: seq<real>) {
    (forall t <- targets :: t >= 0.0) && Sum(targets) == 1.0
  }

  lemma {:induction false} GrowthPositive(row: seq<real>, from: nat, to: nat)
    requires from <= to <= |row| && forall r <- row :: r > 0.0
    ensures Growth(row, from, to) > 0.0
  {
    if from < to {
      GrowthPositive(row, from, to - 1);
      assert row[to - 1] in row;
    }
  }

  lemma {:induction false} SumSign(s: seq<real>, t: seq<real>, n: nat)
    requires n <= |s| == |t|
    requires forall i | 0 <= i < |s| :: s[i] >= 0.0 && t[i] >= 0.0 && (s[i] > 0.0 ==> t[i] > 0.0)
    ensures SumOf(s, n) >= 0.0 && SumOf(t, n) >= 0.0 && (SumOf(s, n) > 0.0 ==> SumOf(t, n) > 0.0)
  {
    if n > 0 {
      SumSign(s, t, n - 1);
    }
  }

  lemma HeldPositive(series: seq<seq<real>>, targets: seq<real>, from: nat, to: nat)
    requires |targets| == |series| && from <= to && forall row <- series :: to <= |row|
    requires Positive(series) && Targets(targets)
    ensures HeldValue(series, targets, from, to) > 0.0
    ensures forall h <- Held(series, targets, from, to) :: h >= 0.0
  {
    var held := Held(series, targets, from, to);
    forall i | 0 <= i < |series|
      ensures targets[i] >= 0.0 && held[i] >= 0.0 && (targets[i] > 0.0 ==> held[i] > 0.0)
    {
      assert series[i] in series && targets[i] in targets;
      GrowthPositive(series[i], from, to);
    }
    SumSign(targets, held, |series|);
  }

  lemma NothingHeldYet(series: seq<seq<real>>, targets: seq<real>, at: nat)
    requires |targets| == |series| && forall row <- series :: at <= |row|
    ensures Held(series, targets, at, at) == targets
  {
  }

  /** A month adds the value-weighted returns of what is held. */
  lemma HeldAdvances(series: seq<seq<real>>, targets: seq<real>, from: nat, m: nat)
    requires |targets| == |series| && from <= m && forall row <- series :: m < |row|
    ensures HeldValue(series, targets, from, m + 1)
         == Dot(Held(series, targets, from, m), Column(series, m))
    ensures forall i | 0 <= i < |series| ::
              Held(series, targets, from, m + 1)[i] == Held(series, targets, from, m)[i] * Column(series, m)[i]
  {
    var now, next, col := Held(series, targets, from, m), Held(series, targets, from, m + 1), Column(series, m);
    forall i | 0 <= i < |series| ensures next[i] == now[i] * col[i] {
      assert series[i] in series;
    }
    SumIsDot(next, now, col, |series|);
  }

  lemma {:induction false} SumIsDot(s: seq<real>, a: seq<real>, b: seq<real>, n: nat)
    requires n <= |s| == |a| == |b| && forall i | 0 <= i < n :: s[i] == a[i] * b[i]
    ensures SumOf(s, n) == DotOf(a, b, n)
  {
    if n > 0 {
      SumIsDot(s, a, b, n - 1);
    }
  }

  // --------------------------------------------------------------- rebalance dates

  lemma MultiplesApart(a: int, b: int, step: nat)
    requires a > b
    ensures a * step >= b * step + step
  {
    assert (a - b - 1) * step >= 0;
    assert a * step == b * step + step + (a - b - 1) * step;
  }

  lemma UniqueRemainder(x: int, step: nat, q: int, r: nat)
    requires r < step && x == q * step + r
    ensures x % step == r
  {
    var q', r' := x / step, x % step;
    assert x == q' * step + r';
    if q > q' {
      MultiplesApart(q, q', step);
    } else if q < q' {
      MultiplesApart(q', q, step);
    }
  }

  /** Dividing by a negative number of months finds the same dates. */
  lemma SignIgnored(x: int, every: int)
    requires every != 0
    ensures x % every == x % Step(every)
  {
    if every < 0 {
      var q := x / every;
      assert x == q * every + x % every;
      assert q * every == (-q) * Step(every);
      UniqueRemainder(x, Step(every), -q, x % every);
    }
  }

  lemma RemainderFrom(b: nat, d: nat, step: nat)
    requires step > 0 && b % step == 0
    ensures (b + d) % step == d % step
  {
    var p, q := b / step, d / step;
    assert b == p * step && d == q * step + d % step;
    assert p * step + q * step == (p + q) * step;
    UniqueRemainder(b + d, step, p + q, d % step);
  }

  /** The next month either rebalances, and starts a block, or stays in the same one. */
  lemma BlockStartAdvances(m: nat, every: int)
    requires every != 0
    ensures BlockStart(m + 1, every) == if (m + 1) % every == 0 then m + 1 else BlockStart(m, every)
  {
    var step := Step(every);
    SignIgnored(m + 1, every);
    var b := BlockStart(m, every);
    assert m == m / step * step + m % step;
    UniqueRemainder(b, step, m / step, 0);
    RemainderFrom(b, m - b + 1, step);
    if m - b + 1 < step {
      UniqueRemainder(m - b + 1, step, 0, m - b + 1);
    } else {
      UniqueRemainder(m - b + 1, step, 1, 0);
    }
  }

  /** A month belongs to the block starting at `b` until that block's end. */
  lemma BlockHolds(b: nat, m: nat, months: nat, every: int)
    requires b <= m < months && BlockStart(b, every) == b && m < BlockEnd(b, months, every)
    ensures BlockStart(m, every) == b
  {
    if every != 0 {
      RemainderFrom(b, m - b, Step(every));
      UniqueRemainder(m - b, Step(every), 0, m - b);
    }
  }

  lemma BlockEndStarts(b: nat, months: nat, every: int)
    requires b < months && BlockStart(b, every) == b && BlockEnd(b, months, every) < months
    ensures BlockStart(BlockEnd(b, months, every), every) == BlockEnd(b, months, every)
  {
    var step := Step(every);
    RemainderFrom(b, step, step);
    UniqueRemainder(step, step, 1, 0);
  }

  // ------------------------------------------------------------------ the month loop

  function Normalized(weights: seq<real>): (targets: seq<real>)
    requires Sum(weights) != 0.0
    ensures |targets| == |weights|
  {
    seq(|weights|, i requires 0 <= i < |weights| => weights[i] / Sum(weights))
  }

  lemma DividedScales(w: real, total: real)
    requires total > 0.0 && w >= 0.0
    ensures w / total == (1.0 / total) * w && w / total >= 0.0
  {
  }

  lemma {:induction false} DividedSum(weights: seq<real>, t: seq<real>, total: real, n: nat)
    requires n <= |t| == |weights| && total > 0.0
    requires forall i | 0 <= i < |weights| :: t[i] == weights[i] / total
    ensures SumOf(t, n) == SumOf(weights, n) / total
  {
    if n > 0 {
      DividedSum(weights, t, total, n - 1);
    }
  }

  lemma NormalizedAreTargets(weights: seq<real>)
    requires Sum(weights) > 0.0 && forall w <- weights :: w >= 0.0
    ensures Targets(Normalized(weights))
  {
    var t, total := Normalized(weights), Sum(weights);
    DividedSum(weights, t, total, |t|);
    forall i | 0 <= i < |t| ensures t[i] >= 0.0 {
      assert weights[i] in weights;
      DividedScales(weights[i], total);
    }
  }

  /** Growing `value` by `factor` makes it `value'`. */
  ghost predicate Grows(factor: real, value: real, value': real) {
    Times(factor, value) == value'
  }

  /** The shares of a holding in its value. */
  ghost predicate Shares(weights: seq<real>, held: seq<real>, value: real) {
    |weights| == |held| && forall i | 0 <= i < |held| :: Grows(weights[i], value, held[i])
  }

  lemma ShareSign(w: real, value: real, held: real)
    requires value > 0.0 && w * value == held && held >= 0.0
    ensures w >= 0.0 && (held > 0.0 ==> w > 0.0)
  {
  }

  lemma CancelFactor(x: real, c: real)
    requires c != 0.0 && c == c * x
    ensures x == 1.0
  {
  }

  lemma {:induction false} ScaledSum(weights: seq<real>, held: seq<real>, value: real, n: nat)
    returns (w: real, h: real)
    requires n <= |held| && Shares(weights, held, value)
    ensures w == SumOf(weights, n) && h == SumOf(held, n) && h == value * w
  {
    if n == 0 {
      w, h := 0.0, 0.0;
    } else {
      w, h := ScaledSum(weights, held, value, n - 1);
      w, h := w + weights[n - 1], h + held[n - 1];
    }
  }

  lemma SharesSumToOne(weights: seq<real>, held: seq<real>, value: real)
    requires Shares(weights, held, value) && value > 0.0 && value == Sum(held)
    ensures Sum(weights) == 1.0
  {
    var w, h := ScaledSum(weights, held, value, |held|);
    CancelFactor(w, value);
  }

  lemma ScaledProduct(w: real, value: real, held: real, r: real, dot: real, dot': real)
    requires w * value == held && dot * value == dot'
    ensures (dot + w * r) * value == dot' + held * r
  {
    assert (w * r) * value == (w * value) * r;
  }

  lemma {:induction false} ScaledDot(weights: seq<real>, held: seq<real>, value: real, col: seq<real>, n: nat)
    returns (w: real, h: real)
    requires n <= |held| == |col| && Shares(weights, held, value)
    ensures w == DotOf(weights, col, n) && h == DotOf(held, col, n) && w * value == h
  {
    if n == 0 {
      w, h := 0.0, 0.0;
    } else {
      w, h := ScaledDot(weights, held, value, col, n - 1);
      ScaledProduct(weights[n - 1], value, held[n - 1], col[n - 1], w, h);
      w, h := w + weights[n - 1] * col[n - 1], h + held[n - 1] * col[n - 1];
    }
  }

  /** The blended return of the shares is the growth of the holding. */
  lemma BlendIsGrowth(weights: seq<real>, held: seq<real>, value: real, col: seq<real>, value': real)
    returns (growth: real)
    requires Shares(weights, held, value) && |col| == |held|
    requires value > 0.0 && value' > 0.0 && value' == Dot(held, col)
    ensures growth == Dot(weights, col) && Grows(growth, value, value') && growth > 0.0
  {
    var h;
    growth, h := ScaledDot(weights, held, value, col, |held|);
    ShareSign(growth, value, value');
  }

  lemma ShareMoves(growth: real, value: real, value': real, w: real, r: real, held: real)
    requires growth > 0.0 && growth * value == value' && w * value == held
    ensures (w * r / growth) * value' == held * r
  {
    var next := w * r / growth;
    assert next * growth == w * r;
    assert next * (growth * value) == (next * growth) * value;
    assert (w * r) * value == (w * value) * r;
  }

  lemma SharesMove(weights: seq<real>, held: seq<real>, value: real, col: seq<real>, growth: real,
                   next: seq<real>, held': seq<real>, value': real)
    requires Shares(weights, held, value) && |col| == |held'| == |held| == |next|
    requires growth > 0.0 && Grows(growth, value, value')
    requires forall i | 0 <= i < |held| :: held'[i] == held[i] * col[i] && next[i] == weights[i] * col[i] / growth
    ensures Shares(next, held', value')
  {
    forall i | 0 <= i < |held'| ensures Grows(next[i], value', held'[i]) {
      ShareMoves(growth, value, value', weights[i], col[i], held[i]);
    }
  }

  /** Buying the targets makes them the shares held. */
  lemma TargetsAreShares(series: seq<seq<real>>, targets: seq<real>, at: nat)
    requires |targets| == |series| && Targets(targets) && forall row <- series :: at <= |row|
    ensures Shares(targets, Held(series, targets, at, at), HeldValue(series, targets, at, at))
  {
    NothingHeldYet(series, targets, at);
  }

  /** `growth` is what month `m` does to the holding since the last rebalance. */
  ghost predicate MonthFollows(series: seq<seq<real>>, targets: seq<real>, every: int, m: nat, growth: real)
    requires |targets| == |series| && forall row <- series :: m < |row|
  {
    Grows(growth, HeldValue(series, targets, BlockStart(m, every), m),
          HeldValue(series, targets, BlockStart(m, every), m + 1))
  }

  /** Month by month, the returns are those of the holding since the last rebalance. */
  ghost predicate Drifting(series: seq<seq<real>>, targets: seq<real>, every: int, returned: seq<real>)
    requires |targets| == |series| && Rectangular(series, |returned|)
  {
    forall m: nat | m < |returned| :: MonthFollows(series, targets, every, m, returned[m])
  }

  /** `weights` are the shares, before month `m`, of what the last rebalance bought. */
  ghost predicate SharesAt(series: seq<seq<real>>, targets: seq<real>, every: int, m: nat, weights: seq<real>)
    requires |targets| == |series| && forall row <- series :: m <= |row|
  {
    Shares(weights, Held(series, targets, BlockStart(m, every), m), HeldValue(series, targets, BlockStart(m, every), m))
  }

  function Drifted(weights: seq<real>, returned: seq<real>, growth: real): (next: seq<real>)
    requires |weights| == |returned| && growth != 0.0
    ensures |next| == |weights|
  {
    seq(|weights|, i requires 0 <= i < |weights| => weights[i] * returned[i] / growth)
  }

  lemma MonthDrifts(series: seq<seq<real>>, targets: seq<real>, from: nat, m: nat, weights: seq<real>)
    requires |targets| == |series| && from <= m && forall row <- series :: m < |row|
    requires Positive(series) && Targets(targets) 
      && Shares(weights, Held(series, targets, from, m), HeldValue(series, targets, from, m))
    ensures Sum(weights) == 1.0
    ensures var growth := Dot(weights, Column(series, m));
      && growth > 0.0
      && Grows(growth, HeldValue(series, targets, from, m), HeldValue(series, targets, from, m + 1))
      && Shares(Drifted(weights, Column(series, m), growth), Held(series, targets, from, m + 1),
                HeldValue(series, targets, from, m + 1))
  {
    var held, held', col := Held(series, targets, from, m), Held(series, targets, from, m + 1), Column(series, m);
    HeldAdvances(series, targets, from, m);
    HeldPositive(series, targets, from, m);
    HeldPositive(series, targets, from, m + 1);
    var value, value' := HeldValue(series, targets, from, m), HeldValue(series, targets, from, m + 1);
    SharesSumToOne(weights, held, value);
    var growth := BlendIsGrowth(weights, held, value, col, value');
    SharesMove(weights, held, value, col, growth, Drifted(weights, col, growth), held', value');
  }

  /** Month `m` starts with those shares, which sum to 1, and returns their growth. */
  ghost predicate MonthExplained(series: seq<seq<real>>, targets: seq<real>, every: int, m: nat,
                                 weights: seq<real>, growth: real)
    requires |targets| == |series| && forall row <- series :: m < |row|
  {
    && SharesAt(series, targets, every, m, weights) && Sum(weights) == 1.0
    && MonthFollows(series, targets, every, m, growth)
  }

  predicate RebalancesAfter(m: nat, every: int) {
    every != 0 && (m + 1) % every == 0
  }

  /** One turn of the loop, the rebalance included. */
  lemma MonthKeepsShares(series: seq<seq<real>>, targets: seq<real>, every: int, m: nat, weights: seq<real>)
    requires |targets| == |series| && forall row <- series :: m < |row|
    requires Positive(series) && Targets(targets) && SharesAt(series, targets, every, m, weights)
    ensures var growth := Dot(weights, Column(series, m));
      && growth > 0.0 && MonthExplained(series, targets, every, m, weights, growth)
      && SharesAt(series, targets, every, m + 1,
                  if RebalancesAfter(m, every) then targets
                  else Drifted(weights, Column(series, m), growth))
  {
    MonthDrifts(series, targets, BlockStart(m, every), m, weights);
    if every != 0 {
      BlockStartAdvances(m, every);
    }
    if RebalancesAfter(m, every) {
      TargetsAreShares(series, targets, m + 1);
    }
  }

  // ---------------------------------------------------------------- the whole horizon

  lemma Compound(before: real, value: real, product: real, r: real, value': real)
    requires Grows(before, value, product) && Grows(r, value, value')
    ensures Grows(before, value', Times(product, r))
  {
    assert product * r == before * (r * value);
  }

  lemma {:induction false} BlockCompounds(series: seq<seq<real>>, targets: seq<real>, every: int,
                                          returned: seq<real>, from: nat, to: nat)
    returns (before: real, value: real, product: real)
    requires |targets| == |series| && Rectangular(series, |returned|)
    requires Targets(targets) && Drifting(series, targets, every, returned)
    requires from < |returned| && BlockStart(from, every) == from
    requires from <= to <= BlockEnd(from, |returned|, every)
    ensures before == ProductOf(returned, from) && value == HeldValue(series, targets, from, to)
    ensures product == ProductOf(returned, to) && Grows(before, value, product)
  {
    if from == to {
      NothingHeldYet(series, targets, from);
      before, value, product := ProductOf(returned, from), 1.0, ProductOf(returned, from);
    } else {
      before, value, product := BlockCompounds(series, targets, every, returned, from, to - 1);
      BlockHolds(from, to - 1, |returned|, every);
      var value' := HeldValue(series, targets, from, to);
      Compound(before, value, product, returned[to - 1], value');
      value, product := value', Times(product, returned[to - 1]);
    }
  }

  lemma Regroup(before: real, value: real, middle: real, rest: real, all: real)
    requires Grows(before, value, middle) && Grows(middle, rest, all)
    ensures Grows(before, Times(value, rest), all)
  {
  }

  lemma {:induction false} BlocksCompound(series: seq<seq<real>>, targets: seq<real>, every: int,
                                          returned: seq<real>, from: nat)
    returns (before: real, rest: real)
    requires |targets| == |series| && Rectangular(series, |returned|)
    requires Targets(targets) && Drifting(series, targets, every, returned)
    requires from <= |returned| && (from < |returned| ==> BlockStart(from, every) == from)
    ensures before == ProductOf(returned, from)
    ensures rest == BlockwiseGrowth(series, targets, from, |returned|, every)
    ensures Grows(before, rest, Product(returned, |returned|))
    decreases |returned| - from
  {
    if from == |returned| {
      before, rest := ProductOf(returned, from), 1.0;
    } else {
      var end := BlockEnd(from, |returned|, every);
      if end < |returned| {
        BlockEndStarts(from, |returned|, every);
      }
      var value, middle, later;
      before, value, middle := BlockCompounds(series, targets, every, returned, from, end);
      middle, later := BlocksCompound(series, targets, every, returned, end);
      Regroup(before, value, middle, later, Product(returned, |returned|));
      rest := Times(value, later);
    }
  }

  /**
   The drift loop is block-wise buy-and-hold: its returns compound to one
   `sum of target * growth` factor per rebalance block, a single one without rebalancing.
   */
  lemma {:induction false} DriftIsBlockwiseBuyAndHold(series: seq<seq<real>>, targets: seq<real>, every: int,
                                                      returned: seq<real>)
    requires |targets| == |series| && Rectangular(series, |returned|)
    requires Targets(targets) && Drifting(series, targets, every, returned)
    ensures Product(returned, |returned|) == BlockwiseGrowth(series, targets, 0, |returned|, every)
    ensures every == 0 && returned != [] ==>
              Product(returned, |returned|) == HeldValue(series, targets, 0, |returned|)
  {
    var before, rest := BlocksCompound(series, targets, every, returned, 0);
    if every == 0 && returned != [] {
      var b, value, product := BlockCompounds(series, targets, every, returned, 0, |returned|);
    }
  }

  ghost predicate Explained(series: seq<seq<real>>, targets: seq<real>, every: int, before: seq<seq<real>>,
                            returned: seq<real>)
    requires |targets| == |series| && forall row <- series :: |returned| <= |row|
  {
    |before| == |returned|
    && forall m: nat | m < |returned| :: MonthExplained(series, targets, every, m, before[m], returned[m])
  }

  lemma {:induction false} ExplainedNext(series: seq<seq<real>>, targets: seq<real>, every: int, before: seq<seq<real>>,
                                         returned: seq<real>, weights: seq<real>, growth: real)
    requires |targets| == |series| && forall row <- series :: |returned| < |row|
    requires Explained(series, targets, every, before, returned)
    requires MonthExplained(series, targets, every, |returned|, weights, growth)
    ensures Explained(series, targets, every, before + [weights], returned + [growth])
  {
  }

  /** The loop after some months: what is held now, what was held before each month, and the returns. */
  ghost predicate MonthsDone(series: seq<seq<real>>, targets: seq<real>, every: int, weights: seq<real>,
                             before: seq<seq<real>>, returned: seq<real>)
    requires |targets| == |series| && forall row <- series :: |returned| <= |row|
  {
    SharesAt(series, targets, every, |returned|, weights) && Explained(series, targets, every, before, returned)
  }

  lemma {:induction false} MonthAdds(series: seq<seq<real>>, targets: seq<real>, every: int, weights: seq<real>,
                                     before: seq<seq<real>>, returned: seq<real>, growth: real, next: seq<real>)
    requires |targets| == |series| && forall row <- series :: |returned| < |row|
    requires Explained(series, targets, every, before, returned)
    requires MonthExplained(series, targets, every, |returned|, weights, growth)
    requires SharesAt(series, targets, every, |returned| + 1, next)
    ensures MonthsDone(series, targets, every, next, before + [weights], returned + [growth])
  {
    ExplainedNext(series, targets, every, before, returned, weights, growth);
    assert |returned + [growth]| == |returned| + 1;
  }

  /** One month: the weights drift, and are reset to the targets at a rebalance date. */
  method DriftMonth(series: seq<seq<real>>, targets: seq<real>, every: int, month: nat, weights: seq<real>,
                    ghost before: seq<seq<real>>, ghost returned: seq<real>)
    returns (growth: real, next: seq<real>)
    requires |targets| == |series| && Positive(series) && Targets(targets) && forall row <- series :: month < |row|
    requires |returned| == month && MonthsDone(series, targets, every, weights, before, returned)
    ensures MonthsDone(series, targets, every, next, before + [weights], returned + [growth])
  {
    MonthKeepsShares(series, targets, every, month, weights);
    var monthReturns := Column(series, month);
    growth := Dot(weights, monthReturns);
    next := Drifted(weights, monthReturns, growth);
    if RebalancesAfter(month, every) {
      next := targets;
    }
    MonthAdds(series, targets, every, weights, before, returned, growth, next);
  }

  /** The month loop. */
  method DriftMonths(series: seq<seq<real>>, targets: seq<real>, every: int, months: nat)
    returns (returned: seq<real>, ghost before: seq<seq<real>>)
    requires |targets| == |series| && Positive(series) && Rectangular(series, months) && Targets(targets)
    ensures |returned| == months && Explained(series, targets, every, before, returned)
  {
    before := [];
    var current := targets;
    var portfolioReturns := new real[months];
    TargetsAreShares(series, targets, 0);
    for month := 0 to months
      invariant MonthsDone(series, targets, every, current, before, portfolioReturns[..month])
    {
      ghost var done := portfolioReturns[..month];
      var growth, next := DriftMonth(series, targets, every, month, current, before, done);
      portfolioReturns[month] := growth;
      assert portfolioReturns[..month + 1] == done + [growth];
      before, current := before + [current], next;
    }
    returned := portfolioReturns[..];
    assert portfolioReturns[..months] == returned;
  }

  /** The targets are the weights in the same proportions. */
  ghost predicate InProportion(targets: seq<real>, weights: seq<real>) {
    |targets| == |weights| && forall i | 0 <= i < |weights| :: Times(targets[i], Sum(weights)) == weights[i]
  }

  lemma NormalizedInProportion(weights: seq<real>)
    requires Sum(weights) > 0.0
    ensures InProportion(Normalized(weights), weights)
  {
    forall i | 0 <= i < |weights| ensures Times(Normalized(weights)[i], Sum(weights)) == weights[i] {
      DividedBack(weights[i], Sum(weights));
    }
  }

  lemma DividedBack(w: real, total: real)
    requires total != 0.0
    ensures Times(w / total, total) == w
  {
  }

  lemma GrowthOfOne(row: seq<real>)
    requires |row| > 0
    ensures Growth(row, 0, 0) == 1.0 && Growth(row, 0, 1) == row[0]
  {
  }

  lemma {:induction false} FirstHeld(series: seq<seq<real>>, targets: seq<real>, n: nat)
    requires n <= |targets| == |series| && forall row <- series :: 0 < |row|
    ensures SumOf(Held(series, targets, 0, 0), n) == SumOf(targets, n)
    ensures SumOf(Held(series, targets, 0, 1), n) == DotOf(targets, Column(series, 0), n)
  {
    if n > 0 {
      FirstHeld(series, targets, n - 1);
      assert series[n - 1] in series;
      GrowthOfOne(series[n - 1]);
    }
  }

  lemma {:induction false} DotInProportion(targets: seq<real>, weights: seq<real>, c: seq<real>, n: nat)
    requires InProportion(targets, weights) && n <= |weights| == |c|
    ensures Times(DotOf(targets, c, n), Sum(weights)) == DotOf(weights, c, n)
  {
    if n > 0 {
      DotInProportion(targets, weights, c, n - 1);
      OneTerm(DotOf(targets, c, n - 1), targets[n - 1], c[n - 1], Sum(weights), weights[n - 1]);
    } else {
      assert Times(0.0, Sum(weights)) == 0.0;
    }
  }

  lemma OneTerm(dot: real, t: real, c: real, total: real, w: real)
    requires Times(t, total) == w
    ensures Times(dot + t * c, total) == Times(dot, total) + w * c
  {
    assert (t * c) * total == (t * total) * c;
  }

  /** The first month returns the given weights' mean of the first factors. */
  lemma FirstMonth(series: seq<seq<real>>, targets: seq<real>, weights: seq<real>, every: int, growth: real)
    requires |weights| == |series| && forall row <- series :: 0 < |row|
    requires InProportion(targets, weights) && Targets(targets)
    requires MonthFollows(series, targets, every, 0, growth)
    ensures Times(growth, Sum(weights)) == Dot(weights, Column(series, 0))
  {
    FirstHeld(series, targets, |series|);
    DotInProportion(targets, weights, Column(series, 0), |series|);
    assert HeldValue(series, targets, 0, 0) == 1.0
           && HeldValue(series, targets, 0, 1) == Dot(targets, Column(series, 0));
    assert BlockStart(0, every) == 0 && Times(growth, 1.0) == growth;
  }

  /**
   `_weighted_monthly_returns`: stacking fails on series of different lengths.  Otherwise
   the weights held before each month are the shares of the targets bought at the last
   rebalance date and left alone since, and the month's return is the growth of exactly
   that holding.
   */
  method WeightedMonthlyReturns(series: seq<seq<real>>, weights: seq<real>, every: int)
    returns (r: Option<seq<real>>, ghost targets: seq<real>, ghost before: seq<seq<real>>)
    requires |weights| == |series| && Positive(series)
    requires series != [] ==> Sum(weights) > 0.0 && forall w <- weights :: w >= 0.0
    ensures r.None? <==> series == [] || !Rectangular(series, |series[0]|)
    ensures r.Some? ==> InProportion(targets, weights) && Sum(targets) == 1.0
    ensures r.Some? ==>
              && |r.value| == |series[0]| == |before|
              && forall m: nat | m < |before| ::
                   MonthExplained(series, targets, every, m, before[m], r.value[m])
    ensures r.Some? ==>
              Product(r.value, |r.value|) == BlockwiseGrowth(series, targets, 0, |r.value|, every)
    ensures r.Some? && |series[0]| > 0 ==> Times(r.value[0], Sum(weights)) == Dot(weights, Column(series, 0))
  {
    if series == [] || exists row <- series :: |row| != |series[0]| {
      return None, [], [];
    }
    NormalizedAreTargets(weights);
    NormalizedInProportion(weights);
    targets := Normalized(weights);
    var returned;
    returned, before := DriftMonths(series, Normalized(weights), every, |series[0]|);
    DriftIsBlockwiseBuyAndHold(series, targets, every, returned);
    if |series[0]| > 0 {
      assert MonthExplained(series, targets, every, 0, before[0], returned[0]);
      FirstMonth(series, targets, weights, every, returned[0]);
    }
    r := Some(returned);
  }
}
