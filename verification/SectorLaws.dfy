/** When merging two portfolios' sectors is aggregating their positions together. */
module SectorLaws {
  import opened Wrappers
  import opened OrderedDict
  import opened Scalars
  import opened Positions
  import opened Sectors

  // ---------------------------------------------------------------------- scalars

  lemma {:induction false} WeightedMean(wa: real, wb: real, c: real)
    requires wa + wb == 1.0
    ensures Times(wa, c) + Times(wb, c) == c
  {
    assert (wa + wb) * c == c;
  }

  lemma {:induction false} ReciprocalCancels(c: real)
    requires c != 0.0
    ensures Times(1.0 / c, c) == 1.0
  {
  }

  // ------------------------------------------------------------- scaled dictionaries

  lemma {:induction false} ScaleSwap(d: seq<Entry>, a: real, b: real)
    ensures Scale(Scale(d, a), b) == Scale(Scale(d, b), a)
  {
    ScaleTwice(d, b, a, Times(a, b));
    ScaleTwice(d, a, b, Times(a, b));
  }

  lemma {:induction false} ScaleOfSum(a: seq<Entry>, b: seq<Entry>, c: real)
    ensures Scale(a + b, c) == Scale(a, c) + Scale(b, c)
  {
  }

  lemma {:induction false} NormalizeScales(d: Dict)
    requires Total(d) > 0.0
    ensures Normalize(d) == Scale(d, 1.0 / Total(d))
    ensures Total(Normalize(d)) == 1.0
  {
    ScaleOne(d);
    ScaleTotal(d, 1.0 / Total(d));
    ReciprocalCancels(Total(d));
  }

  lemma {:induction false} FillFromEmpty(into: Dict, es: seq<Entry>)
    requires Distinct(into)
    ensures Fill(into, Fill([], es)) == Fill(into, es)
  {
    FillOfFill(into, [], es);
    assert Fill(into, []) == into;
  }

  lemma {:induction false} FillEmptyWithDict(d: Dict)
    requires Distinct(d)
    ensures Fill([], d) == d
  {
    assert [] + d == d;
    FillAppends([], d);
  }

  // ------------------------------------------------------------------- contributions

  lemma {:induction false} ContributionsOfSum(a: seq<Position>, b: seq<Position>, total: real)
    requires total != 0.0
    ensures Contributions(a + b, total) == Contributions(a, total) + Contributions(b, total)
  {
    if a == [] {
      assert a + b == b;
    } else {
      assert (a + b)[1..] == a[1..] + b;
      ContributionsOfSum(a[1..], b, total);
    }
  }

  lemma {:induction false} ContributionsRescale(ps: seq<Position>, own: real, total: real)
    requires own != 0.0 && total != 0.0
    ensures Contributions(ps, total) == Scale(Contributions(ps, own), Part(own, total))
  {
    if ps != [] {
      var u, rest, f := UnitEntries(ps[0]), Contributions(ps[1..], own), Part(own, total);
      PartOfPart(ps[0].value, own, total);
      ScaleTwice(u, f, Part(ps[0].value, own), Part(ps[0].value, total));
      ContributionsRescale(ps[1..], own, total);
      ScaleOfSum(Scale(u, Part(ps[0].value, own)), rest, f);
    }
  }

  lemma {:induction false} RawDistinct(ps: seq<Position>)
    requires Value(ps) > 0.0
    ensures Distinct(Raw(ps))
  {
    FillDistinct([], Contributions(ps, Value(ps)));
  }

  lemma {:induction false} RescaledRaw(ps: seq<Position>, total: real)
    requires Value(ps) > 0.0 && total > 0.0
    ensures Fill([], Contributions(ps, total)) == Scale(Raw(ps), Part(Value(ps), total))
  {
    ContributionsRescale(ps, Value(ps), total);
    ScaleFill([], Contributions(ps, Value(ps)), Part(Value(ps), total));
  }

  lemma {:induction false} PositiveParts(a: real, b: real)
    requires a > 0.0 && b > 0.0
    ensures Part(a, a + b) > 0.0 && Part(b, a + b) > 0.0
  {
  }

  /** The two sides' parts of their joint value. */
  predicate Sides(a: seq<Position>, b: seq<Position>, wa: real, wb: real) {
    Value(a) > 0.0 && Value(b) > 0.0
    && wa == Part(Value(a), Value(a) + Value(b)) && wb == Part(Value(b), Value(a) + Value(b))
  }

  lemma {:induction false} SidesOf(a: seq<Position>, b: seq<Position>) returns (wa: real, wb: real)
    requires Value(a) > 0.0 && Value(b) > 0.0
    ensures Sides(a, b, wa, wb) && wa > 0.0 && wb > 0.0 && wa + wb == 1.0
  {
    wa, wb := Part(Value(a), Value(a) + Value(b)), Part(Value(b), Value(a) + Value(b));
    PartsOfWhole(Value(a), Value(b));
    PositiveParts(Value(a), Value(b));
  }

  /** What the positions of two portfolios add up to before normalisation. */
  lemma {:induction false} RawOfSum(a: seq<Position>, b: seq<Position>, wa: real, wb: real)
    requires Sides(a, b, wa, wb)
    ensures Value(a + b) == Value(a) + Value(b)
    ensures Raw(a + b) == Fill(Scale(Raw(a), wa), Scale(Raw(b), wb))
  {
    ValueOfSum(a, b);
    FilledOfSum(a, b, Value(a) + Value(b), wa, wb);
  }

  lemma {:induction false} FilledOfSum(a: seq<Position>, b: seq<Position>, total: real, wa: real, wb: real)
    requires Value(a) > 0.0 && Value(b) > 0.0 && total > 0.0
    requires wa == Part(Value(a), total) && wb == Part(Value(b), total)
    ensures Fill([], Contributions(a + b, total)) == Fill(Scale(Raw(a), wa), Scale(Raw(b), wb))
  {
    var ca, cb := Contributions(a, total), Contributions(b, total);
    ContributionsOfSum(a, b, total);
    FillSplit([], ca, cb);
    RescaledRaw(a, total);
    RescaledRaw(b, total);
    RawDistinct(a);
    ScaleKeepsDistinct(Raw(a), wa);
    FillFromEmpty(Scale(Raw(a), wa), cb);
  }

  lemma {:induction false} MergeOfSides(left: Dict, leftValue: real, right: Dict, rightValue: real)
    requires leftValue + rightValue > 0.0 && Distinct(left)
    ensures var total := leftValue + rightValue;
            Merge(left, leftValue, right, rightValue)
            == Normalize(Fill(Scale(left, Part(leftValue, total)), Scale(right, Part(rightValue, total))))
  {
    var total := leftValue + rightValue;
    ScaleKeepsDistinct(left, Part(leftValue, total));
    FillEmptyWithDict(Scale(left, Part(leftValue, total)));
  }

  lemma {:induction false} MixedTotal(left: Dict, wl: real, right: Dict, wr: real)
    ensures Total(Fill(Scale(left, wl), Scale(right, wr))) == Times(wl, Total(left)) + Times(wr, Total(right))
  {
    FillTotal(Scale(left, wl), Scale(right, wr));
    ScaleTotal(left, wl);
    ScaleTotal(right, wr);
  }

  lemma {:induction false} MixedGet(left: Dict, wl: real, right: Dict, wr: real, k: string)
    requires Distinct(right)
    ensures Get(Fill(Scale(left, wl), Scale(right, wr)), k) == Times(wl, Get(left, k)) + Times(wr, Get(right, k))
  {
    FillGet(Scale(left, wl), Scale(right, wr), k);
    ScaleGet(left, wl, k);
    ScaleSumFor(right, wr, k);
    DictSum(right, k);
  }

  // ------------------------------------------------------------------- homomorphism

  /** How much of a portfolio's value its sector rows account for: 1 when they all sum to 100. */
  function Coverage(ps: seq<Position>): real
    requires Value(ps) > 0.0
  {
    Total(Raw(ps))
  }

  /** With equal coverage, `A + B` has exactly the sectors of the positions of A and B together,
      names in the same order. */
  lemma {:induction false} MergeIsConcatenation(a: seq<Position>, b: seq<Position>)
    requires Value(a) > 0.0 && Value(b) > 0.0
    requires Coverage(a) == Coverage(b) > 0.0
    ensures Merge(SectorsOf(a), Value(a), SectorsOf(b), Value(b)) == SectorsOf(a + b)
  {
    var wa, wb := SidesOf(a, b);
    var c := Coverage(a);
    JointlyScaled(a, b, wa, wb, c);
    CommonScale(Raw(a), Raw(b), wa, wb, 1.0 / c);
    SectorsNormalized(a);
    SectorsNormalized(b);
    NormalizeScales(Raw(a));
    NormalizeScales(Raw(b));
    MergeOfNormalized(SectorsOf(a), Value(a), SectorsOf(b), Value(b));
  }

  lemma {:induction false} JointlyScaled(a: seq<Position>, b: seq<Position>, wa: real, wb: real, c: real)
    requires Sides(a, b, wa, wb) && wa + wb == 1.0 && Coverage(a) == c && Coverage(b) == c && c > 0.0
    ensures SectorsOf(a + b) == Scale(Fill(Scale(Raw(a), wa), Scale(Raw(b), wb)), 1.0 / c)
  {
    RawOfSum(a, b, wa, wb);
    EvenTotal(Raw(a), Raw(b), wa, wb, c);
    NormalizeBy(Raw(a + b), c);
  }

  lemma {:induction false} EvenTotal(d: Dict, e: Dict, wa: real, wb: real, c: real)
    requires wa + wb == 1.0 && Total(d) == c && Total(e) == c
    ensures Total(Fill(Scale(d, wa), Scale(e, wb))) == c
  {
    MixedTotal(d, wa, e, wb);
    WeightedMean(wa, wb, c);
  }

  lemma {:induction false} NormalizeBy(d: Dict, c: real)
    requires Total(d) == c && c > 0.0
    ensures Normalize(d) == Scale(d, 1.0 / c)
  {
    NormalizeScales(d);
  }

  /** A common factor may be taken out of a mix. */
  lemma {:induction false} CommonScale(a: Dict, b: Dict, wa: real, wb: real, f: real)
    ensures Fill(Scale(Scale(a, f), wa), Scale(Scale(b, f), wb)) == Scale(Fill(Scale(a, wa), Scale(b, wb)), f)
  {
    ScaleSwap(a, f, wa);
    ScaleSwap(b, f, wb);
    ScaleFill(Scale(a, wa), Scale(b, wb), f);
  }

  ghost predicate SameSectors(d: Dict, e: Dict) {
    forall k: string :: Get(d, k) == Get(e, k)
  }

  lemma {:induction false} Unscaled(c: real, raw: real, mix: real)
    requires c > 0.0
    ensures Times(1.0 / c, raw) == mix <==> raw == Times(c, mix)
  {
    assert c * (1.0 / c * raw) == raw;
  }

  lemma {:induction false} GapFactors(wa: real, wb: real, ca: real, cb: real, x: real, y: real, c: real, mix: real,
                                      raw: real)
    requires wa + wb == 1.0
    requires c == Times(wa, ca) + Times(wb, cb) && mix == Times(wa, x) + Times(wb, y)
    requires raw == Times(wa, Times(ca, x)) + Times(wb, Times(cb, y))
    ensures Times(c, mix) - raw == Times(Times(wa, wb), Times(cb - ca, x - y))
  {
    assert c - ca == wb * (cb - ca) && c - cb == wa * (ca - cb);
    assert c * mix - raw == (c - ca) * (wa * x) + (c - cb) * (wb * y);
  }

  lemma {:induction false} ProductVanishes(wa: real, wb: real, u: real, v: real)
    requires wa > 0.0 && wb > 0.0
    ensures Times(Times(wa, wb), Times(u, v)) == 0.0 <==> u == 0.0 || v == 0.0
  {
    assert wa * wb > 0.0;
    if u != 0.0 && v != 0.0 {
      assert u * v != 0.0;
    }
  }

  /** The gap between mixing normalised fractions and normalising the mix. */
  lemma {:induction false} MixGap(wa: real, wb: real, ca: real, cb: real, x: real, y: real, c: real, mix: real,
                                  raw: real)
    requires wa > 0.0 && wb > 0.0 && wa + wb == 1.0 && c > 0.0
    requires c == Times(wa, ca) + Times(wb, cb) && mix == Times(wa, x) + Times(wb, y)
    requires raw == Times(wa, Times(ca, x)) + Times(wb, Times(cb, y))
    ensures Times(1.0 / c, raw) == mix <==> ca == cb || x == y
  {
    Unscaled(c, raw, mix);
    GapFactors(wa, wb, ca, cb, x, y, c, mix, raw);
    ProductVanishes(wa, wb, cb - ca, x - y);
  }

  lemma {:induction false} NormalizedGet(d: Dict, k: string)
    requires Total(d) > 0.0
    ensures Get(d, k) == Times(Total(d), Get(Normalize(d), k))
    ensures Get(Normalize(d), k) == Times(1.0 / Total(d), Get(d, k))
  {
    NormalizeScales(d);
    ScaleGet(d, 1.0 / Total(d), k);
  }

  /** Two sides that are normalised and worth something merge without a further rescale. */
  lemma {:induction false} MergeOfNormalized(left: Dict, leftValue: real, right: Dict, rightValue: real)
    requires leftValue > 0.0 && rightValue > 0.0
    requires Distinct(left) && Total(left) == 1.0 && Total(right) == 1.0
    ensures var total := leftValue + rightValue;
            Merge(left, leftValue, right, rightValue)
            == Fill(Scale(left, Part(leftValue, total)), Scale(right, Part(rightValue, total)))
    ensures Total(Merge(left, leftValue, right, rightValue)) == 1.0
  {
    var total := leftValue + rightValue;
    MergeOfSides(left, leftValue, right, rightValue);
    PartsOfWhole(leftValue, rightValue);
    MixedTotal(left, Part(leftValue, total), right, Part(rightValue, total));
    WeightedMean(Part(leftValue, total), Part(rightValue, total), 1.0);
  }

  lemma {:induction false} SectorsNormalized(ps: seq<Position>)
    requires Value(ps) > 0.0 && Coverage(ps) > 0.0
    ensures Distinct(SectorsOf(ps)) && Total(SectorsOf(ps)) == 1.0
  {
    RawDistinct(ps);
    NormalizeScales(Raw(ps));
    ScaleKeepsDistinct(Raw(ps), 1.0 / Coverage(ps));
  }

  lemma {:induction false} MergedFraction(a: seq<Position>, b: seq<Position>, k: string, wa: real, wb: real)
    returns (mix: real)
    requires Sides(a, b, wa, wb) && Coverage(a) > 0.0 && Coverage(b) > 0.0
    ensures mix == Times(wa, Get(SectorsOf(a), k)) + Times(wb, Get(SectorsOf(b), k))
    ensures Get(Merge(SectorsOf(a), Value(a), SectorsOf(b), Value(b)), k) == mix
  {
    SectorsNormalized(a);
    SectorsNormalized(b);
    MergeOfNormalized(SectorsOf(a), Value(a), SectorsOf(b), Value(b));
    MixedGet(SectorsOf(a), wa, SectorsOf(b), wb, k);
    mix := Times(wa, Get(SectorsOf(a), k)) + Times(wb, Get(SectorsOf(b), k));
  }

  lemma {:induction false} MeanPositive(wa: real, ca: real, wb: real, cb: real)
    requires wa > 0.0 && ca > 0.0 && wb > 0.0 && cb > 0.0
    ensures Times(wa, ca) + Times(wb, cb) > 0.0
  {
    assert wa * ca > 0.0 && wb * cb > 0.0;
  }

  lemma {:induction false} JointCoverage(a: seq<Position>, b: seq<Position>, wa: real, wb: real) returns (c: real)
    requires Sides(a, b, wa, wb) && wa > 0.0 && wb > 0.0 && Coverage(a) > 0.0 && Coverage(b) > 0.0
    ensures c == Times(wa, Coverage(a)) + Times(wb, Coverage(b)) && c > 0.0
    ensures Value(a + b) > 0.0 && Total(Raw(a + b)) == c
    ensures Raw(a + b) == Fill(Scale(Raw(a), wa), Scale(Raw(b), wb))
  {
    c := Times(wa, Coverage(a)) + Times(wb, Coverage(b));
    MeanPositive(wa, Coverage(a), wb, Coverage(b));
    RawOfSum(a, b, wa, wb);
    MixedTotal(Raw(a), wa, Raw(b), wb);
  }

  lemma {:induction false} ConcatenatedFraction(a: seq<Position>, b: seq<Position>, k: string, wa: real, wb: real)
    returns (c: real, raw: real)
    requires Sides(a, b, wa, wb) && wa > 0.0 && wb > 0.0 && Coverage(a) > 0.0 && Coverage(b) > 0.0
    ensures c == Times(wa, Coverage(a)) + Times(wb, Coverage(b)) && c > 0.0
    ensures raw
            == Times(wa, Times(Coverage(a), Get(SectorsOf(a), k))) + Times(wb, Times(Coverage(b), Get(SectorsOf(b), k)))
    ensures Get(SectorsOf(a + b), k) == Times(1.0 / c, raw)
  {
    c := JointCoverage(a, b, wa, wb);
    raw := RawFraction(a, b, k, wa, wb);
    NormalizedGet(Raw(a + b), k);
  }

  lemma {:induction false} RawFraction(a: seq<Position>, b: seq<Position>, k: string, wa: real, wb: real)
    returns (raw: real)
    requires Value(a) > 0.0 && Value(b) > 0.0 && Coverage(a) > 0.0 && Coverage(b) > 0.0
    ensures raw == Get(Fill(Scale(Raw(a), wa), Scale(Raw(b), wb)), k)
    ensures raw
            == Times(wa, Times(Coverage(a), Get(SectorsOf(a), k))) + Times(wb, Times(Coverage(b), Get(SectorsOf(b), k)))
  {
    raw := Times(wa, Get(Raw(a), k)) + Times(wb, Get(Raw(b), k));
    RawDistinct(b);
    MixedGet(Raw(a), wa, Raw(b), wb, k);
    NormalizedGet(Raw(a), k);
    NormalizedGet(Raw(b), k);
  }

  lemma {:induction false} FractionAgreesIff(a: seq<Position>, b: seq<Position>, k: string)
    requires Value(a) > 0.0 && Value(b) > 0.0 && Coverage(a) > 0.0 && Coverage(b) > 0.0
    ensures Get(Merge(SectorsOf(a), Value(a), SectorsOf(b), Value(b)), k) == Get(SectorsOf(a + b), k)
            <==> Coverage(a) == Coverage(b) || Get(SectorsOf(a), k) == Get(SectorsOf(b), k)
  {
    var wa, wb := SidesOf(a, b);
    var ca, cb, x, y := Coverage(a), Coverage(b), Get(SectorsOf(a), k), Get(SectorsOf(b), k);
    var mix := MergedFraction(a, b, k, wa, wb);
    var c, raw := ConcatenatedFraction(a, b, k, wa, wb);
    MixGap(wa, wb, ca, cb, x, y, c, mix, raw);
  }

  /** Merging equals aggregating together exactly when both sides are equally covered by their
      rows, or have the same sectors anyway. */
  lemma {:induction false} MergeAgreesIff(a: seq<Position>, b: seq<Position>)
    requires Value(a) > 0.0 && Value(b) > 0.0 && Coverage(a) > 0.0 && Coverage(b) > 0.0
    ensures SameSectors(Merge(SectorsOf(a), Value(a), SectorsOf(b), Value(b)), SectorsOf(a + b))
            <==> Coverage(a) == Coverage(b) || SameSectors(SectorsOf(a), SectorsOf(b))
  {
    var merged, together, sa, sb :=
      Merge(SectorsOf(a), Value(a), SectorsOf(b), Value(b)), SectorsOf(a + b), SectorsOf(a), SectorsOf(b);
    forall k: string
      ensures Get(merged, k) == Get(together, k) <==> Coverage(a) == Coverage(b) || Get(sa, k) == Get(sb, k)
    {
      FractionAgreesIff(a, b, k);
    }
  }

  lemma {:induction false} SingleRow(name: string, pct: real)
    ensures var ps := [Position(100.0, [Entry(name, pct)], 0.0, 0.0, None)];
            Value(ps) == 100.0 && Raw(ps) == [Entry(name, Times(PERCENT, pct))] && Coverage(ps) == Times(PERCENT, pct)
  {
    var ps := [Position(100.0, [Entry(name, pct)], 0.0, 0.0, None)];
    assert ps[1..] == [];
    var u := UnitEntries(ps[0]);
    assert u == [Entry(name, Times(PERCENT, pct))];
    ScaleOne(u);
    assert Value(ps) == 100.0;
    assert Contributions(ps, Value(ps)) == Scale(u, 1.0) + [] == u;
    FillEmptyWithDict(u);
    assert u[1..] == [] && Total(u) == Times(PERCENT, pct);
    assert Raw(ps) == Fill([], Contributions(ps, Value(ps))) == u;
  }

  /** A partial table is kept as it is, so a portfolio holding one merges differently. */
  lemma {:induction false} UnequalCoverageDiffers(a: seq<Position>, b: seq<Position>)
    requires a == [Position(100.0, [Entry("Energy", 90.0)], 0.0, 0.0, None)]
    requires b == [Position(100.0, [Entry("Health", 100.0)], 0.0, 0.0, None)]
    ensures !SameSectors(Merge(SectorsOf(a), Value(a), SectorsOf(b), Value(b)), SectorsOf(a + b))
  {
    SingleRow("Energy", 90.0);
    SingleRow("Health", 100.0);
    MergeAgreesIff(a, b);
    NormalizedGet(Raw(a), "Energy");
    assert "Energy" != "Health" by {
      assert "Energy"[0] != "Health"[0];
    }
    assert Get(SectorsOf(a), "Energy") > 0.0 == Get(SectorsOf(b), "Energy");
    assert !SameSectors(SectorsOf(a), SectorsOf(b));
    assert Coverage(a) < Coverage(b);
  }

  // ---------------------------------------------------------------- fully split rows

  predicate NonNegative(ps: seq<Position>) {
    forall i :: 0 <= i < |ps| ==> ps[i].value >= 0.0
  }

  /** Every position either has no sector rows or rows that sum to 100. */
  predicate FullySplit(ps: seq<Position>) {
    forall i :: 0 <= i < |ps| ==> Total(UnitEntries(ps[i])) == 1.0
  }

  lemma {:induction false} ContributionsTotal(ps: seq<Position>, total: real)
    requires total != 0.0 && FullySplit(ps)
    ensures Total(Contributions(ps, total)) == Part(Value(ps), total)
  {
    if ps != [] {
      var share := Part(ps[0].value, total);
      forall i | 0 <= i < |ps[1..]| ensures Total(UnitEntries(ps[1..][i])) == 1.0 {
        assert ps[1..][i] == ps[i + 1];
      }
      ContributionsTotal(ps[1..], total);
      ScaleTotal(UnitEntries(ps[0]), share);
      TotalOfSum(Scale(UnitEntries(ps[0]), share), Contributions(ps[1..], total));
      PartSum(ps[0].value, Value(ps[1..]), total);
    }
  }

  lemma {:induction false} PartSum(a: real, b: real, total: real)
    requires total != 0.0
    ensures Part(a + b, total) == Part(a, total) + Part(b, total)
    ensures Times(Part(a, total), 1.0) == Part(a, total)
  {
  }

  lemma {:induction false} FullCoverage(ps: seq<Position>)
    requires Value(ps) > 0.0 && FullySplit(ps)
    ensures Coverage(ps) == 1.0
  {
    ContributionsTotal(ps, Value(ps));
    FillTotal([], Contributions(ps, Value(ps)));
    WholePart(Value(ps));
  }

  /** Positions worth nothing put nothing anywhere. */
  lemma {:induction false} WorthlessContributes(ps: seq<Position>, total: real, k: string)
    requires total != 0.0 && NonNegative(ps) && Value(ps) == 0.0
    ensures SumFor(Contributions(ps, total), k) == 0.0 && Total(Contributions(ps, total)) == 0.0
  {
    if ps != [] {
      NonNegativeValue(ps[1..]);
      WorthlessContributes(ps[1..], total, k);
      assert Part(ps[0].value, total) == 0.0;
      var mine := Scale(UnitEntries(ps[0]), 0.0);
      ScaleSumFor(UnitEntries(ps[0]), 0.0, k);
      ScaleTotal(UnitEntries(ps[0]), 0.0);
      SumForOfSum(mine, Contributions(ps[1..], total), k);
      TotalOfSum(mine, Contributions(ps[1..], total));
    }
  }

  lemma {:induction false} NonNegativeValue(ps: seq<Position>)
    requires NonNegative(ps)
    ensures Value(ps) >= 0.0
  {
    if ps != [] {
      NonNegativeValue(ps[1..]);
    }
  }

  lemma {:induction false} NormalizeSame(d: Dict, e: Dict)
    requires SameSectors(d, e) && Total(d) == Total(e)
    ensures SameSectors(Normalize(d), Normalize(e))
  {
    if Total(d) > 0.0 {
      forall k: string ensures Get(Normalize(d), k) == Get(Normalize(e), k) {
        NormalizedGet(d, k);
        NormalizedGet(e, k);
      }
    }
  }

  /** Contributions that add up alike give the same sectors, whatever their order. */
  lemma {:induction false} SameSumsSameSectors(es: seq<Entry>, fs: seq<Entry>)
    requires forall k: string :: SumFor(es, k) == SumFor(fs, k)
    requires Total(es) == Total(fs)
    ensures SameSectors(Normalize(Fill([], es)), Normalize(Fill([], fs)))
  {
    forall k: string ensures Get(Fill([], es), k) == Get(Fill([], fs), k) {
      FillGet([], es, k);
      FillGet([], fs, k);
    }
    FillTotal([], es);
    FillTotal([], fs);
    NormalizeSame(Fill([], es), Fill([], fs));
  }

  lemma {:induction false} BlankEntries(es: seq<Entry>, blank: seq<Entry>)
    requires forall k: string :: SumFor(blank, k) == 0.0
    requires Total(blank) == 0.0
    ensures SameSectors(Normalize(Fill([], es + blank)), Normalize(Fill([], es)))
    ensures SameSectors(Normalize(Fill([], blank + es)), Normalize(Fill([], es)))
  {
    forall k: string ensures SumFor(es + blank, k) == SumFor(es, k) == SumFor(blank + es, k) {
      SumForOfSum(es, blank, k);
      SumForOfSum(blank, es, k);
    }
    TotalOfSum(es, blank);
    TotalOfSum(blank, es);
    SameSumsSameSectors(es + blank, es);
    SameSumsSameSectors(blank + es, es);
  }

  lemma {:induction false} WorthlessBlank(ps: seq<Position>, total: real)
    requires total != 0.0 && NonNegative(ps) && Value(ps) == 0.0
    ensures forall k: string :: SumFor(Contributions(ps, total), k) == 0.0
    ensures Total(Contributions(ps, total)) == 0.0
  {
    forall k: string ensures SumFor(Contributions(ps, total), k) == 0.0 {
      WorthlessContributes(ps, total, k);
    }
    WorthlessContributes(ps, total, "");
  }

  lemma {:induction false} SectorsFrom(ps: seq<Position>, es: seq<Entry>)
    requires Value(ps) > 0.0 && Contributions(ps, Value(ps)) == es
    ensures SectorsOf(ps) == Normalize(Fill([], es))
  {
  }

  /** A side worth nothing adds nothing on the right. */
  lemma {:induction false} WorthlessRight(a: seq<Position>, b: seq<Position>)
    requires Value(a) > 0.0 && NonNegative(b) && Value(b) == 0.0
    ensures SameSectors(SectorsOf(a + b), SectorsOf(a))
  {
    var total := Value(a);
    var ca, cb := Contributions(a, total), Contributions(b, total);
    ValueOfSum(a, b);
    ContributionsOfSum(a, b, total);
    WorthlessBlank(b, total);
    BlankEntries(ca, cb);
    SectorsFrom(a, ca);
    SectorsFrom(a + b, ca + cb);
  }

  /** Nor on the left. */
  lemma {:induction false} WorthlessLeft(a: seq<Position>, b: seq<Position>)
    requires Value(a) > 0.0 && NonNegative(b) && Value(b) == 0.0
    ensures SameSectors(SectorsOf(b + a), SectorsOf(a))
  {
    var total := Value(a);
    var ca, cb := Contributions(a, total), Contributions(b, total);
    ValueOfSum(b, a);
    ContributionsOfSum(b, a, total);
    WorthlessBlank(b, total);
    BlankEntries(ca, cb);
    SectorsFrom(a, ca);
    SectorsFrom(b + a, cb + ca);
  }

  lemma {:induction false} NothingOnTheRight(d: Dict, value: real)
    requires value > 0.0 && Distinct(d) && Total(d) == 1.0
    ensures Merge(d, value, [], 0.0) == d
  {
    MergeOfSides(d, value, [], 0.0);
    WholeAndNothing(d, value);
    assert Fill(d, []) == d && Normalize(d) == d;
  }

  /** Beside a side worth nothing the other one has the whole weight. */
  lemma {:induction false} WholeAndNothing(d: Dict, value: real)
    requires value > 0.0
    ensures Scale(d, Part(value, value + 0.0)) == d && Scale([], Part(0.0, value + 0.0)) == []
    ensures 0.0 + value == value + 0.0
  {
    WholePart(value);
    ScaleOne(d);
  }

  lemma {:induction false} NothingOnTheLeft(d: Dict, value: real)
    requires value > 0.0 && Distinct(d) && Total(d) == 1.0
    ensures Merge([], 0.0, d, value) == d
  {
    MergeOfSides([], 0.0, d, value);
    WholeAndNothing(d, value);
    FillEmptyWithDict(d);
    assert Normalize(d) == d;
  }

  /** `A + B` has the sectors of the positions of A and B together. */
  lemma {:induction false} PlusIsConcatenation(a: seq<Position>, b: seq<Position>)
    requires NonNegative(a) && NonNegative(b) && FullySplit(a) && FullySplit(b)
    ensures SameSectors(Merge(SectorsOf(a), Value(a), SectorsOf(b), Value(b)), SectorsOf(a + b))
  {
    NonNegativeValue(a);
    NonNegativeValue(b);
    ValueOfSum(a, b);
    if Value(a) > 0.0 {
      FullCoverage(a);
      SectorsNormalized(a);
    }
    if Value(b) > 0.0 {
      FullCoverage(b);
      SectorsNormalized(b);
    }
    if Value(a) > 0.0 && Value(b) > 0.0 {
      MergeIsConcatenation(a, b);
    } else if Value(a) > 0.0 {
      WorthlessRight(a, b);
      NothingOnTheRight(SectorsOf(a), Value(a));
    } else if Value(b) > 0.0 {
      WorthlessLeft(b, a);
      NothingOnTheLeft(SectorsOf(b), Value(b));
    }
  }

  // ------------------------------------------------------------------- associativity

  datatype Sheet = Sheet(value: real, sectors: Dict)

  /** `Portfolio.__add__`, values and sectors. */
  function Plus(x: Sheet, y: Sheet): Sheet {
    Sheet(x.value + y.value, Merge(x.sectors, x.value, y.sectors, y.value))
  }

  /** What construction and addition keep when no value is negative: the fractions of a portfolio
      worth something sum to exactly 1, and one worth nothing has none. */
  predicate Sound(x: Sheet) {
    && x.value >= 0.0
    && Distinct(x.sectors)
    && (if x.value > 0.0 then Total(x.sectors) == 1.0 else x.sectors == [])
  }

  lemma {:induction false} BuiltSound(ps: seq<Position>)
    requires NonNegative(ps) && (Value(ps) > 0.0 ==> Coverage(ps) > 0.0)
    ensures Sound(Sheet(Value(ps), SectorsOf(ps)))
  {
    NonNegativeValue(ps);
    if Value(ps) > 0.0 {
      SectorsNormalized(ps);
    }
  }

  lemma {:induction false} PlusPositive(x: Sheet, y: Sheet)
    requires Sound(x) && Sound(y) && x.value > 0.0 && y.value > 0.0
    ensures Sound(Plus(x, y)) && Plus(x, y) == Sheet(x.value + y.value, Mix(x.sectors, x.value, y.sectors, y.value))
  {
    MergeOfNormalized(x.sectors, x.value, y.sectors, y.value);
    MixDistinct(x.sectors, x.value, y.sectors, y.value);
  }

  lemma {:induction false} EmptyMerge()
    ensures Merge([], 0.0, [], 0.0) == []
  {
    assert Scale([], Ratio(0.0, 0.0)) == [];
    assert Fill(Fill([], []), []) == [];
  }

  lemma {:induction false} RightUnit(x: Sheet, y: Sheet)
    requires Sound(x) && Sound(y) && y.value == 0.0
    ensures Plus(x, y) == x
  {
    if x.value > 0.0 {
      NothingOnTheRight(x.sectors, x.value);
    } else {
      EmptyMerge();
    }
  }

  lemma {:induction false} LeftUnit(x: Sheet, y: Sheet)
    requires Sound(x) && Sound(y) && x.value == 0.0
    ensures Plus(x, y) == y
  {
    if y.value > 0.0 {
      NothingOnTheLeft(y.sectors, y.value);
    } else {
      EmptyMerge();
    }
  }

  /** Adding keeps fractions summing to exactly 1; a portfolio worth nothing is the unit. */
  lemma {:induction false} PlusSound(x: Sheet, y: Sheet)
    requires Sound(x) && Sound(y)
    ensures Sound(Plus(x, y))
    ensures x.value == 0.0 ==> Plus(x, y) == y
    ensures y.value == 0.0 ==> Plus(x, y) == x
  {
    if y.value == 0.0 {
      RightUnit(x, y);
    }
    if x.value == 0.0 {
      LeftUnit(x, y);
    }
    if x.value > 0.0 && y.value > 0.0 {
      PlusPositive(x, y);
    }
  }

  lemma {:induction false} PositivesAssociate(x: Sheet, y: Sheet, z: Sheet)
    requires Sound(x) && Sound(y) && Sound(z)
    requires x.value > 0.0 && y.value > 0.0 && z.value > 0.0
    ensures Plus(Plus(x, y), z) == Plus(x, Plus(y, z))
  {
    PlusPositive(x, y);
    PlusPositive(y, z);
    PlusPositive(Plus(x, y), z);
    PlusPositive(x, Plus(y, z));
    MixAssociates(x.sectors, x.value, y.sectors, y.value, z.sectors, z.value);
  }

  /** Adding portfolios is associative, down to the order of the names, and an empty portfolio
      is its unit. */
  lemma {:induction false} PlusAssociative(x: Sheet, y: Sheet, z: Sheet)
    requires Sound(x) && Sound(y) && Sound(z)
    ensures Plus(Plus(x, y), z) == Plus(x, Plus(y, z))
  {
    PlusSound(x, y);
    PlusSound(y, z);
    if x.value > 0.0 && y.value > 0.0 && z.value > 0.0 {
      PositivesAssociate(x, y, z);
    } else if x.value > 0.0 && y.value > 0.0 {
      PlusSound(Plus(x, y), z);
    } else {
      PlusSound(x, Plus(y, z));
    }
  }
}
