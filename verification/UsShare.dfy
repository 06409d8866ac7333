/** The chart of the US share within developed markets (portfolio/regional_portfolio.py), beside the regional wedges. */
module UsShare {
  import opened Wrappers
  import opened OrderedDict
  import opened Scalars
  import opened Positions
  import opened GeoSplit
  import opened GeoWedges

  /** Every position's US share weighted by its whole value, not by its developed part. */
  function UsPoints(ps: seq<Position>): real {
    if ps == [] then 0.0 else Times(ps[0].value, ps[0].usavn) + UsPoints(ps[1..])
  }

  /** What the chart shows as the US share: two dot products, divided. */
  method UsWithinDeveloped(regional: seq<Position>, regionalValue: real) returns (us: real)
    requires regionalValue == Value(regional)
    ensures us == if Value(regional) > 0.0 then Ratio(UsPoints(regional), Developed(regional)) else 0.0
  {
    var points, developed := 0.0, 0.0;
    if regionalValue > 0.0 {
      for i := 0 to |regional|
        invariant points + UsPoints(regional[i..]) == UsPoints(regional)
        invariant developed + Developed(regional[i..]) == Developed(regional)
      {
        assert regional[i..][0] == regional[i] && regional[i..][1..] == regional[i + 1..];
        points := points + Times(regional[i].value, regional[i].usavn);
        developed := developed + Times(regional[i].value, regional[i].dmem);
      }
    }
    us := if developed > 0.0 then points / developed else 0.0;
  }

  /** The position puts the same into the chart as into the regional wedges. */
  predicate Plain(p: Position) {
    p.value == 0.0 || p.usavn == 0.0 || p.dmem == 1.0
  }

  lemma OnePosition(p: Position)
    requires p.value >= 0.0 && 0.0 <= p.dmem <= 1.0 && 0.0 <= p.usavn <= 1.0
    ensures Times(p.value, p.usavn) >= Times(p.value, Times(p.dmem, p.usavn))
    ensures Times(p.value, p.usavn) == Times(p.value, Times(p.dmem, p.usavn)) <==> Plain(p)
  {
    Excess(p.value, p.dmem, p.usavn, Times(p.value, p.usavn), Times(p.value, Times(p.dmem, p.usavn)));
  }

  lemma Excess(v: real, d: real, u: real, points: real, amount: real)
    requires v >= 0.0 && d <= 1.0 && u >= 0.0 && points == Times(v, u) && amount == Times(v, Times(d, u))
    ensures points >= amount
    ensures points == amount <==> v == 0.0 || u == 0.0 || d == 1.0
  {
    assert points == v * u >= 0.0;
    assert amount == points * d;
    assert points == 0.0 <==> v == 0.0 || u == 0.0;
    Shrinks(points, d);
  }

  lemma Shrinks(x: real, d: real)
    requires x >= 0.0 && d <= 1.0
    ensures x * d <= x
    ensures x * d == x <==> x == 0.0 || d == 1.0
  {
    assert x - x * d == x * (1.0 - d);
  }

  lemma {:induction false} PointsExceed(ps: seq<Position>)
    requires Proper(ps)
    ensures UsPoints(ps) >= UnitedStates(ps)
    ensures UsPoints(ps) == UnitedStates(ps) <==> forall i :: 0 <= i < |ps| ==> Plain(ps[i])
  {
    if ps != [] {
      PointsExceed(ps[1..]);
      OnePosition(ps[0]);
      if forall i :: 0 <= i < |ps| ==> Plain(ps[i]) {
        forall i | 0 <= i < |ps[1..]| ensures Plain(ps[1..][i]) {
          assert ps[1..][i] == ps[i + 1];
        }
      }
      if Plain(ps[0]) && forall i :: 0 <= i < |ps[1..]| ==> Plain(ps[1..][i]) {
        forall i | 0 <= i < |ps| ensures Plain(ps[i]) {
          assert i > 0 ==> ps[i] == ps[1..][i - 1];
        }
      }
    }
  }

  lemma RatiosCompare(a: real, b: real, whole: real)
    requires whole > 0.0
    ensures a / whole >= b / whole <==> a >= b
    ensures a / whole == b / whole <==> a == b
  {
  }

  /** The chart never shows less than the US share of the regional wedges, and shows exactly that just when
      nothing is developed, or every position is worth nothing, holds nothing in the US, or is wholly developed. */
  lemma {:induction false} ChartAgreesIff(ps: seq<Position>)
    requires Proper(ps)
    ensures var shown, wedges := Ratio(UsPoints(ps), Developed(ps)), Ratio(AbsoluteAmounts(ps).us, Developed(ps));
            && shown >= wedges
            && (shown == wedges <==> Developed(ps) == 0.0 || forall i :: 0 <= i < |ps| ==> Plain(ps[i]))
  {
    AmountsNest(ps);
    PointsExceed(ps);
    if Developed(ps) > 0.0 {
      RatiosCompare(UsPoints(ps), UnitedStates(ps), Developed(ps));
    }
  }

  /** One position, half in the United States and half in emerging markets: the chart shows 200 percent. */
  lemma {:induction false} ChartExceedsWhole()
    ensures var ps := [Position(1.0, [], 0.5, 1.0, None)];
            && Proper(ps) && Ratio(UsPoints(ps), Developed(ps)) == 2.0
            && Ratio(AbsoluteAmounts(ps).us, Developed(ps)) == 1.0
  {
    var p := Position(1.0, [], 0.5, 1.0, None);
    assert [p][1..] == [] && UsPoints([]) == Developed([]) == UnitedStates([]) == 0.0;
    assert Times(1.0, 1.0) == 1.0 && Times(1.0, 0.5) == 0.5 && Times(0.5, 1.0) == 0.5;
  }
}
