/** A position as the portfolio's aggregations see it (portfolio/portfolio.py). */
module Positions {
  import opened Wrappers
  import opened OrderedDict

  /** Its value, its sector rows in percent, its developed share and the US share within that, and its label. */
  datatype Position = Position(value: real, sectors: seq<Entry>, dmem: real, usavn: real, shortName: Option<string>)

  function Value(ps: seq<Position>): real {
    if ps == [] then 0.0 else ps[0].value + Value(ps[1..])
  }

  lemma {:induction false} ValueOfSum(a: seq<Position>, b: seq<Position>)
    ensures Value(a + b) == Value(a) + Value(b)
  {
    if a == [] {
      assert a + b == b;
    } else {
      assert (a + b)[1..] == a[1..] + b;
      ValueOfSum(a[1..], b);
    }
  }
}
