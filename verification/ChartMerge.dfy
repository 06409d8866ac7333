/** Merging two pie charts (visual/plot/chart_merge.py). */
module ChartMerge {
  import opened Wrappers
  import opened OrderedDict
  import opened Scalars

  datatype Factor = Factor(value: real, unit: string)
  datatype Chart = Chart(data: Dict, title: Option<string>, factor: Option<Factor>)

  /** The two weights of a weighted merge; `None` for plain addition. */
  datatype Weights = Weights(left: real, right: real)

  function WeightOf(c: Chart): real {
    if c.factor.Some? then c.factor.value.value else Total(c.data)
  }

  /** `merge_weights` */
  function MergeWeights(a: Chart, b: Chart): Option<Weights> {
    if a.factor.None? && b.factor.None? then None
    else if a.factor.Some? && b.factor.Some? && a.factor.value.unit != b.factor.value.unit then None
    else Some(Weights(WeightOf(a), WeightOf(b)))
  }

  /** `merge_factor` */
  function MergeFactor(a: Chart, b: Chart): Option<Factor> {
    var w := MergeWeights(a, b);
    if w.None? then None
    else Some(Factor(w.value.left + w.value.right,
                     if a.factor.Some? then a.factor.value.unit
                     else if b.factor.Some? then b.factor.value.unit
                     else ""))
  }

  /** The keys of the second dictionary that the first one lacks. */
  function NewKeys(a: Dict, b: Dict): seq<string> {
    if b == [] then [] else (if Has(a, b[0].key) then [] else [b[0].key]) + NewKeys(a, b[1..])
  }

  function KeysOf(d: Dict): seq<string> {
    if d == [] then [] else [d[0].key] + KeysOf(d[1..])
  }

  function Weighted(a: Dict, b: Dict, w: Weights, k: string): real
    requires w.left + w.right != 0.0
  {
    (Times(Get(a, k), w.left) + Times(Get(b, k), w.right)) / (w.left + w.right)
  }

  function WeightedAll(a: Dict, b: Dict, w: Weights, keys: seq<string>): Dict
    requires w.left + w.right != 0.0
  {
    if keys == [] then [] else [Entry(keys[0], Weighted(a, b, w, keys[0]))] + WeightedAll(a, b, w, keys[1..])
  }

  /** The merged wedges; `None` where the division by the total weight raises. */
  function MergeData(a: Dict, b: Dict, w: Option<Weights>): Option<Dict> {
    if w.None? then Some(Fill(a, b))
    else if a == [] && b == [] then Some([])
    else if w.value.left + w.value.right == 0.0 then None
    else Some(WeightedAll(a, b, w.value, KeysOf(a) + NewKeys(a, b)))
  }

  /** `[t for t in titles if t]` joined with `" + "`. */
  function JoinTitles(a: Option<string>, b: Option<string>): Option<string> {
    if a.Some? && a.value != "" then
      if b.Some? && b.value != "" then Some(a.value + " + " + b.value) else a
    else if b.Some? && b.value != "" then b else None
  }

  /** `merge_charts` */
  function MergeCharts(a: Chart, b: Chart): Option<Chart> {
    var data := MergeData(a.data, b.data, MergeWeights(a, b));
    if data.None? then None else Some(Chart(data.value, JoinTitles(a.title, b.title), MergeFactor(a, b)))
  }

  // ------------------------------------------------------------------ as scaled filling

  lemma {:induction false} SharesAdd(l: real, r: real, x: real, y: real)
    requires l + r != 0.0
    ensures (Times(x, l) + Times(y, r)) / (l + r) == Times(Part(l, l + r), x) + Times(Part(r, l + r), y)
  {
    var t := l + r;
    assert (x * l + y * r) / t == (x * l) / t + (y * r) / t;
    assert (x * l) / t == (l / t) * x && (y * r) / t == (r / t) * y;
  }

  lemma {:induction false} KeysAt(d: Dict)
    ensures |KeysOf(d)| == |d| && forall i :: 0 <= i < |d| ==> KeysOf(d)[i] == d[i].key
  {
    if d != [] {
      KeysAt(d[1..]);
    }
  }

  lemma {:induction false} KeysOfSum(a: Dict, b: Dict)
    ensures KeysOf(a + b) == KeysOf(a) + KeysOf(b)
  {
    if a == [] {
      assert a + b == b;
    } else {
      assert (a + b)[1..] == a[1..] + b;
      KeysOfSum(a[1..], b);
    }
  }

  /** A bump keeps the keys in place and adds a new one at the end. */
  lemma {:induction false} BumpOrder(d: Dict, k: string, w: real)
    ensures KeysOf(Bump(d, k, w)) == KeysOf(d) + (if Has(d, k) then [] else [k])
  {
    if d != [] {
      HasHead(d, k);
      if d[0].key == k {
        assert Bump(d, k, w)[1..] == d[1..];
      } else {
        BumpOrder(d[1..], k, w);
        assert Bump(d, k, w)[1..] == Bump(d[1..], k, w);
      }
    } else {
      assert [Entry(k, w)][1..] == [] && KeysOf([]) == [];
    }
  }

  lemma {:induction false} NewKeysGrow(a: Dict, k: string, w: real, b: Dict)
    requires Distinct(a) && !Has(b, k)
    ensures NewKeys(Bump(a, k, w), b) == NewKeys(a, b)
  {
    if b != [] {
      HasHead(b, k);
      BumpKeys(a, k, w);
      NewKeysGrow(a, k, w, b[1..]);
    }
  }

  lemma {:induction false} SplitKeys(a: seq<string>, b: seq<string>, c: seq<string>)
    ensures (a + b) + c == a + (b + c)
  {
  }

  /** Filling keeps the left keys in order and appends the keys that are only on the right. */
  lemma {:induction false} FillOrder(a: Dict, b: Dict)
    requires Distinct(a) && Distinct(b)
    ensures KeysOf(Fill(a, b)) == KeysOf(a) + NewKeys(a, b)
    decreases |b|
  {
    if b != [] {
      var k, w := b[0].key, b[0].val;
      assert !Has(b[1..], k);
      BumpOrder(a, k, w);
      BumpKeys(a, k, w);
      FillOrder(Bump(a, k, w), b[1..]);
      NewKeysGrow(a, k, w, b[1..]);
      SplitKeys(KeysOf(a), if Has(a, k) then [] else [k], NewKeys(a, b[1..]));
    }
  }

  lemma {:induction false} ScaleKeysOf(d: Dict, c: real)
    ensures KeysOf(Scale(d, c)) == KeysOf(d)
    ensures Distinct(d) ==> Distinct(Scale(d, c))
    ensures forall k :: Has(Scale(d, c), k) <==> Has(d, k)
  {
    KeysAt(d);
    KeysAt(Scale(d, c));
    forall k ensures Has(Scale(d, c), k) <==> Has(d, k) {
      if Has(d, k) {
        var i :| 0 <= i < |d| && d[i].key == k;
        assert Scale(d, c)[i].key == k;
      }
    }
  }

  lemma {:induction false} SameNewKeys(a: Dict, a': Dict, b: Dict, b': Dict)
    requires KeysOf(b) == KeysOf(b') && forall k :: Has(a, k) <==> Has(a', k)
    ensures NewKeys(a, b) == NewKeys(a', b')
    decreases |b|
  {
    KeysAt(b);
    KeysAt(b');
    if b != [] {
      assert b[0].key == KeysOf(b)[0] == b'[0].key;
      assert KeysOf(b)[1..] == KeysOf(b[1..]) && KeysOf(b')[1..] == KeysOf(b'[1..]);
      SameNewKeys(a, a', b[1..], b'[1..]);
    }
  }

  /** A dictionary is its keys and what it says about them. */
  lemma {:induction false} DictFromKeys(d: Dict, a: Dict, b: Dict, w: Weights)
    requires Distinct(d) && w.left + w.right != 0.0
    requires forall k :: Get(d, k) == Weighted(a, b, w, k)
    ensures WeightedAll(a, b, w, KeysOf(d)) == d
  {
    WeightedKeys(d, d, a, b, w, 0);
  }

  lemma {:induction false} WeightedKeys(d: Dict, rest: Dict, a: Dict, b: Dict, w: Weights, n: nat)
    requires Distinct(d) && w.left + w.right != 0.0 && n <= |d| && rest == d[n..]
    requires forall k :: Get(d, k) == Weighted(a, b, w, k)
    ensures WeightedAll(a, b, w, KeysOf(rest)) == rest
    decreases |d| - n
  {
    if rest != [] {
      GetAt(d, n);
      assert KeysOf(rest)[1..] == KeysOf(rest[1..]);
      WeightedKeys(d, rest[1..], a, b, w, n + 1);
      assert rest == [rest[0]] + rest[1..];
    }
  }

  /** The weighted merge mixes the two sides in proportion. */
  lemma {:induction false} WeightedIsMix(a: Dict, b: Dict, w: Weights)
    requires Distinct(a) && Distinct(b) && w.left + w.right != 0.0
    ensures WeightedAll(a, b, w, KeysOf(a) + NewKeys(a, b))
            == Mix(a, w.left, b, w.right)
  {
    var l, r := Part(w.left, w.left + w.right), Part(w.right, w.left + w.right);
    var merged := Fill(Scale(a, l), Scale(b, r));
    ScaleKeysOf(a, l);
    ScaleKeysOf(b, r);
    FillDistinct(Scale(a, l), Scale(b, r));
    FillOrder(Scale(a, l), Scale(b, r));
    SameNewKeys(Scale(a, l), a, Scale(b, r), b);
    forall k ensures Get(merged, k) == Weighted(a, b, w, k) {
      FillGet(Scale(a, l), Scale(b, r), k);
      DictSum(Scale(b, r), k);
      ScaleGet(a, l, k);
      ScaleGet(b, r, k);
      SharesAdd(w.left, w.right, Get(a, k), Get(b, k));
    }
    DictFromKeys(merged, a, b, w);
  }

  // ---------------------------------------------------------------------------- laws

  predicate SameUnit(a: Chart, b: Chart) {
    a.factor.Some? && b.factor.Some? && a.factor.value.unit == b.factor.value.unit
  }

  /** A label's absolute amount: its fraction of the chart's value. */
  function Amount(c: Chart, k: string): real
    requires c.factor.Some?
  {
    Times(Get(c.data, k), c.factor.value.value)
  }

  lemma {:induction false} MergedChart(a: Chart, b: Chart)
    requires SameUnit(a, b) && Distinct(a.data) && Distinct(b.data)
    requires a.factor.value.value + b.factor.value.value != 0.0
    ensures var total := a.factor.value.value + b.factor.value.value;
            MergeCharts(a, b) == Some(Chart(Mix(a.data, a.factor.value.value, b.data, b.factor.value.value),
                                            JoinTitles(a.title, b.title), Some(Factor(total, a.factor.value.unit))))
    ensures Distinct(MergeCharts(a, b).value.data)
  {
    var total := a.factor.value.value + b.factor.value.value;
    WeightedIsMix(a.data, b.data, Weights(a.factor.value.value, b.factor.value.value));
    MixDistinct(a.data, a.factor.value.value, b.data, b.factor.value.value);
    if a.data == [] && b.data == [] {
      assert Scale(a.data, Part(a.factor.value.value, total)) == [];
    }
  }

  /** A merge keeps every label's absolute amount. */
  lemma {:induction false} MergeKeepsAmounts(a: Chart, b: Chart, k: string)
    requires SameUnit(a, b) && Distinct(a.data) && Distinct(b.data)
    requires a.factor.value.value + b.factor.value.value != 0.0
    ensures MergeCharts(a, b).Some? && MergeCharts(a, b).value.factor.Some?
    ensures Amount(MergeCharts(a, b).value, k) == Amount(a, k) + Amount(b, k)
  {
    var l, r := a.factor.value.value, b.factor.value.value;
    MergedChart(a, b);
    ScaleKeysOf(b.data, Part(r, l + r));
    FillGet(Scale(a.data, Part(l, l + r)), Scale(b.data, Part(r, l + r)), k);
    DictSum(Scale(b.data, Part(r, l + r)), k);
    ScaleGet(a.data, Part(l, l + r), k);
    ScaleGet(b.data, Part(r, l + r), k);
    ShareRestores(l, r, Get(a.data, k), Get(b.data, k));
  }

  lemma {:induction false} ShareRestores(l: real, r: real, x: real, y: real)
    requires l + r != 0.0
    ensures Times(Times(Part(l, l + r), x) + Times(Part(r, l + r), y), l + r) == Times(x, l) + Times(y, r)
  {
    SharesAdd(l, r, x, y);
  }

  lemma {:induction false} TitlesAssociate(a: Option<string>, b: Option<string>, c: Option<string>)
    ensures JoinTitles(JoinTitles(a, b), c) == JoinTitles(a, JoinTitles(b, c))
  {
    if a.Some? && b.Some? && c.Some? {
      assert (a.value + " + " + b.value) + " + " + c.value == a.value + " + " + (b.value + " + " + c.value);
    }
  }

  /** Merging charts of one unit is associative: wedges, their order, title and factor. */
  lemma {:induction false} MergeAssociates(a: Chart, b: Chart, c: Chart)
    requires SameUnit(a, b) && SameUnit(b, c) && Distinct(a.data) && Distinct(b.data) && Distinct(c.data)
    requires a.factor.value.value + b.factor.value.value != 0.0 && b.factor.value.value + c.factor.value.value != 0.0
    requires a.factor.value.value + b.factor.value.value + c.factor.value.value != 0.0
    ensures MergeCharts(a, b).Some? && MergeCharts(b, c).Some?
    ensures MergeCharts(MergeCharts(a, b).value, c) == MergeCharts(a, MergeCharts(b, c).value)
    ensures MergeCharts(MergeCharts(a, b).value, c).Some?
  {
    MergedChart(a, b);
    MergedChart(b, c);
    MergedChart(MergeCharts(a, b).value, c);
    MergedChart(a, MergeCharts(b, c).value);
    MixAssociates(a.data, a.factor.value.value, b.data, b.factor.value.value, c.data, c.factor.value.value);
    TitlesAssociate(a.title, b.title, c.title);
  }

  /** So is merging charts without factors. */
  lemma {:induction false} PlainMergeAssociates(a: Chart, b: Chart, c: Chart)
    requires a.factor.None? && b.factor.None? && c.factor.None? && Distinct(a.data) && Distinct(b.data)
    ensures MergeCharts(a, b).Some? && MergeCharts(b, c).Some?
    ensures MergeCharts(MergeCharts(a, b).value, c) == MergeCharts(a, MergeCharts(b, c).value)
  {
    FillOfFill(a.data, b.data, c.data);
    TitlesAssociate(a.title, b.title, c.title);
  }

  // ---------------------------------------------------------------------- every merge

  predicate Shown(title: Option<string>) {
    title.Some? && title.value != ""
  }

  /** Titles that are there are joined, left one first; one alone stays. */
  lemma TitlesJoin(a: Option<string>, b: Option<string>)
    ensures Shown(a) && Shown(b) ==> JoinTitles(a, b) == Some(a.value + " + " + b.value)
    ensures Shown(a) && !Shown(b) ==> JoinTitles(a, b) == a
    ensures !Shown(a) && Shown(b) ==> JoinTitles(a, b) == b
    ensures !Shown(a) && !Shown(b) ==> JoinTitles(a, b) == None
  {
  }

  /** Charts are merged additively when neither has a factor or their units differ. */
  predicate Additive(a: Chart, b: Chart) {
    || (a.factor == None && b.factor == None)
    || (a.factor.Some? && b.factor.Some? && a.factor.value.unit != b.factor.value.unit)
  }

  /** What a chart weighs in a merge: its factor's value, or the sum of its wedges without one. */
  predicate Weighs(c: Chart, w: real) {
    w == if c.factor.Some? then c.factor.value.value else Total(c.data)
  }

  /** Additively every wedge is the sum of both sides, and there is no factor. */
  lemma {:induction false} AdditiveMerge(a: Chart, b: Chart, k: string)
    requires Additive(a, b) && Distinct(b.data)
    ensures MergeCharts(a, b).Some? && MergeCharts(a, b).value.factor == None
    ensures Get(MergeCharts(a, b).value.data, k) == Get(a.data, k) + Get(b.data, k)
  {
    FillGet(a.data, b.data, k);
    DictSum(b.data, k);
  }

  /** Otherwise the merge has the sum of the weights under the unit that is given; it raises exactly when the
      weights cancel out and there is something to divide. */
  lemma {:induction false} WeightedFactor(a: Chart, b: Chart, l: real, r: real)
    requires !Additive(a, b) && Weighs(a, l) && Weighs(b, r)
    ensures MergeWeights(a, b) == Some(Weights(l, r))
    ensures MergeCharts(a, b).None? <==> l + r == 0.0 && (a.data != [] || b.data != [])
    ensures MergeCharts(a, b).Some? ==>
              MergeCharts(a, b).value.factor
              == Some(Factor(l + r, if a.factor.Some? then a.factor.value.unit else b.factor.value.unit))
  {
  }

  /** And every wedge is the weighted mean of both sides. */
  lemma {:induction false} WeightedMerge(a: Chart, b: Chart, l: real, r: real, k: string)
    requires !Additive(a, b) && Distinct(a.data) && Distinct(b.data) && Weighs(a, l) && Weighs(b, r) && l + r != 0.0
    ensures MergeCharts(a, b).Some?
    ensures Times(Get(MergeCharts(a, b).value.data, k), l + r) == Times(Get(a.data, k), l) + Times(Get(b.data, k), r)
  {
    WeightedFactor(a, b, l, r);
    if a.data == [] && b.data == [] {
      assert Times(0.0, l) == 0.0 && Times(0.0, r) == 0.0 && Times(0.0, l + r) == 0.0;
    } else {
      WeightedIsMix(a.data, b.data, Weights(l, r));
      MixGets(a.data, l, b.data, r, k);
    }
  }

  lemma {:induction false} MixGets(a: Dict, l: real, b: Dict, r: real, k: string)
    requires l + r != 0.0 && Distinct(b)
    ensures Times(Get(Mix(a, l, b, r), k), l + r) == Times(Get(a, k), l) + Times(Get(b, k), r)
  {
    FillGet(Scale(a, Part(l, l + r)), Scale(b, Part(r, l + r)), k);
    ScaleKeepsDistinct(b, Part(r, l + r));
    DictSum(Scale(b, Part(r, l + r)), k);
    ScaleGet(a, Part(l, l + r), k);
    ScaleGet(b, Part(r, l + r), k);
    ShareRestores(l, r, Get(a, k), Get(b, k));
  }
}
