/** Runs of operations on a store, seen from outside. */
module Runs {
  /** What a caller sees of a run: after each operation the store and the answer. */
  function Observed<S, O, A>(s: S, ops: seq<O>, apply: (S, O) -> (S, A)): seq<(S, A)>
    decreases |ops|
  {
    if ops == [] then []
    else
      var seen := apply(s, ops[0]);
      [seen] + Observed(seen.0, ops[1..], apply)
  }

  /** One more operation seen. */
  lemma {:induction false} NextSeen<S, O, A>(s: S, ops: seq<O>, apply: (S, O) -> (S, A), n: nat, trace: seq<(S, A)>)
    requires n < |ops|
    ensures var seen := apply(s, ops[n]);
            trace + Observed(s, ops[n..], apply) == trace + [seen] + Observed(seen.0, ops[n + 1..], apply)
  {
    var seen := apply(s, ops[n]);
    assert ops[n..][0] == ops[n] && ops[n..][1..] == ops[n + 1..];
    var rest := Observed(seen.0, ops[n + 1..], apply);
    assert trace + ([seen] + rest) == trace + [seen] + rest;
  }

  lemma {:induction false} ObservedLength<S, O, A>(s: S, ops: seq<O>, apply: (S, O) -> (S, A))
    ensures |Observed(s, ops, apply)| == |ops|
    decreases |ops|
  {
    if ops != [] {
      ObservedLength(apply(s, ops[0]).0, ops[1..], apply);
    }
  }

  /** The store after a run. */
  function Final<S, O, A>(s: S, ops: seq<O>, apply: (S, O) -> (S, A)): S
    decreases |ops|
  {
    if ops == [] then s else Final(apply(s, ops[0]).0, ops[1..], apply)
  }
}
