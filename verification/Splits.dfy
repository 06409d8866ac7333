/** Cleaning split rows and their trip through the cache (position/position.py, storage/records.py). */
module Splits {
  import opened Wrappers
  import opened OrderedDict
  import opened Scalars

  // ------------------------------------------------------------------------ cleaning

  /** A negative weight small enough to be vendor noise. */
  predicate Dust(w: real) {
    -0.5 < w < 0.0
  }

  function Cleaned(rows: seq<Entry>): seq<Entry> {
    if rows == [] then [] else (if Dust(rows[0].val) then [] else [rows[0]]) + Cleaned(rows[1..])
  }

  /** Totals from 99 to 102 are rescaled to exactly 100. */
  predicate InBand(total: real) {
    99.0 <= total <= 102.0
  }

  function Normalized(rows: seq<Entry>): seq<Entry> {
    var kept := Cleaned(rows);
    if InBand(Total(kept)) then Scale(kept, 100.0 / Total(kept)) else kept
  }

  lemma {:induction false} CleanedNext(rows: seq<Entry>, n: nat)
    requires n < |rows|
    ensures Cleaned(rows[..n + 1]) == Cleaned(rows[..n]) + (if Dust(rows[n].val) then [] else [rows[n]])
  {
    assert rows[..n + 1] == rows[..n] + [rows[n]] && [rows[n]][1..] == [];
    CleanedSplit(rows[..n], [rows[n]]);
  }

  lemma {:induction false} CleanedSplit(a: seq<Entry>, b: seq<Entry>)
    ensures Cleaned(a + b) == Cleaned(a) + Cleaned(b)
  {
    if a == [] {
      assert a + b == b;
    } else {
      assert (a + b)[1..] == a[1..] + b;
      CleanedSplit(a[1..], b);
    }
  }

  /** `normalize_split_rows` */
  method NormalizeSplitRows(rows: seq<Entry>) returns (r: seq<Entry>)
    ensures r == Normalized(rows)
  {
    if rows == [] {
      return rows;
    }
    var filtered: seq<Entry>, negativeHit := [], false;
    for i := 0 to |rows|
      invariant filtered == Cleaned(rows[..i])
      invariant !negativeHit ==> filtered == rows[..i]
    {
      CleanedNext(rows, i);
      if Dust(rows[i].val) {
        negativeHit := true;
      } else {
        filtered := filtered + [rows[i]];
      }
    }
    assert rows[..|rows|] == rows;
    var total := Total(filtered);
    if total <= 0.0 || total < 99.0 || total > 102.0 {
      return if negativeHit then filtered else rows;
    }
    if total == 100.0 {
      ScaleOne(filtered);
      return if negativeHit then filtered else rows;
    }
    return Scale(filtered, 100.0 / total);
  }

  // ----------------------------------------------------------------------- the cache

  /** `rows_to_fractions`: a later row of the same name replaces an earlier one. */
  function RowsToFractions(rows: seq<Entry>): Dict {
    PutAll([], Scale(rows, 0.01))
  }

  /** `fractions_to_rows` and `_cached_countries_to_rows` */
  function FractionsToRows(fractions: Dict): seq<Entry> {
    Scale(fractions, 100.0)
  }

  predicate Plausible(w: real) {
    -0.05 <= w <= 1.05
  }

  function Clamp(w: real): real {
    if w < 0.0 then 0.0 else if w > 1.0 then 1.0 else w
  }

  function Clamped(d: Dict): (r: Dict)
    ensures |r| == |d|
    ensures forall i :: 0 <= i < |d| ==> r[i] == Entry(d[i].key, Clamp(d[i].val))
  {
    if d == [] then [] else [Entry(d[0].key, Clamp(d[0].val))] + Clamped(d[1..])
  }

  /** Whether a split is complete enough to be snapped to 1. */
  predicate NearlyWhole(total: real) {
    0.95 <= total <= 1.05
  }

  function Snapped(d: Dict): Dict {
    if NearlyWhole(Total(d)) then Scale(d, 1.0 / Total(d)) else d
  }

  /** What the cache stores for a split; `None` when it rejects it. */
  function Coerced(d: Dict): Option<Dict> {
    if forall i :: 0 <= i < |d| ==> Plausible(d[i].val) then Some(Snapped(Clamped(d))) else None
  }

  lemma {:induction false} PutNext(d: Dict, i: nat)
    requires Distinct(d) && i < |d|
    ensures Put(Clamped(d)[..i], Entry(d[i].key, Clamp(d[i].val))) == Clamped(d)[..i + 1]
  {
    PutNew(Clamped(d)[..i], Entry(d[i].key, Clamp(d[i].val)));
  }

  /** `CacheEntry._coerce_split` */
  method CoerceSplit(value: Dict) returns (r: Option<Dict>)
    requires Distinct(value)
    ensures r == Coerced(value)
  {
    var out: Dict := [];
    for i := 0 to |value|
      invariant forall j :: 0 <= j < i ==> Plausible(value[j].val)
      invariant out == Clamped(value)[..i]
    {
      var w := value[i].val;
      if w < -0.05 || w > 1.05 {
        return None;
      }
      PutNext(value, i);
      out := Put(out, Entry(value[i].key, Clamp(w)));
    }
    assert out == Clamped(value);
    var total := Total(out);
    var off := if total >= 1.0 then total - 1.0 else 1.0 - total;
    if out != [] && total > 0.0 && off <= 0.05 {
      out := Scale(out, 1.0 / total);
    }
    return Some(out);
  }

  // -------------------------------------------------------------------------- the trip

  /** What a position shows for split rows: cleaned, stored as fractions, read back and cleaned
      again; `None` when the cache rejects them. */
  function Trip(rows: seq<Entry>): Option<seq<Entry>> {
    var stored := Coerced(RowsToFractions(rows));
    if stored.None? then None else Some(Normalized(FractionsToRows(stored.value)))
  }

  predicate Percentages(rows: seq<Entry>) {
    forall i :: 0 <= i < |rows| ==> 0.0 <= rows[i].val <= 100.0
  }

  predicate Fractions(d: Dict) {
    forall i :: 0 <= i < |d| ==> 0.0 <= d[i].val <= 1.0
  }

  lemma {:induction false} NothingToClean(rows: seq<Entry>)
    requires forall i :: 0 <= i < |rows| ==> !Dust(rows[i].val)
    ensures Cleaned(rows) == rows
  {
    if rows != [] {
      NothingToClean(rows[1..]);
    }
  }

  lemma {:induction false} NothingToClamp(d: Dict)
    requires Fractions(d)
    ensures Clamped(d) == d
  {
  }

  lemma {:induction false} TotalCovers(d: seq<Entry>, i: nat)
    requires NonNegativeEntries(d) && i < |d|
    ensures Total(d) >= d[i].val
  {
    if i > 0 {
      TotalCovers(d[1..], i - 1);
    } else {
      TotalNonNegative(d[1..]);
    }
  }

  lemma {:induction false} TotalNonNegative(d: seq<Entry>)
    requires NonNegativeEntries(d)
    ensures Total(d) >= 0.0
  {
    if d != [] {
      TotalNonNegative(d[1..]);
    }
  }

  lemma ShareOfTotal(w: real, total: real)
    requires 0.0 <= w <= total && total > 0.0
    ensures 0.0 <= Times(1.0 / total, w) <= 1.0
  {
    assert w / total <= total / total;
  }

  /** A snapped split still consists of fractions and sums to 1. */
  lemma {:induction false} SnappedFractions(d: Dict)
    requires Fractions(d) && NearlyWhole(Total(d))
    ensures Fractions(Snapped(d)) && Total(Snapped(d)) == 1.0
  {
    var total := Total(d);
    forall i | 0 <= i < |d| ensures 0.0 <= Snapped(d)[i].val <= 1.0 {
      TotalCovers(d, i);
      ShareOfTotal(d[i].val, total);
    }
    ScaleTotal(d, 1.0 / total);
    assert Times(1.0 / total, total) == 1.0;
  }

  /** Storing again what is stored changes nothing, so every later merge of the row keeps it. */
  lemma {:induction false} CoercedIsStable(d: Dict)
    requires Coerced(d).Some?
    ensures Coerced(Coerced(d).value) == Coerced(d)
  {
    var c := Clamped(d);
    if NearlyWhole(Total(c)) {
      SnappedFractions(c);
      NothingToClamp(Snapped(c));
      ScaleOne(Snapped(c));
    } else {
      NothingToClamp(c);
    }
  }

  lemma {:induction false} ScaledPercentages(rows: seq<Entry>)
    requires Percentages(rows)
    ensures Fractions(Scale(rows, 0.01))
  {
    forall i | 0 <= i < |rows| ensures 0.0 <= Scale(rows, 0.01)[i].val <= 1.0 {
      assert Times(0.01, rows[i].val) == 0.01 * rows[i].val;
    }
  }

  lemma {:induction false} ScaledNonNegative(rows: seq<Entry>, k: real)
    requires NonNegativeEntries(rows) && k >= 0.0
    ensures NonNegativeEntries(Scale(rows, k))
  {
    forall i | 0 <= i < |rows| ensures Scale(rows, k)[i].val >= 0.0 {
      NonNegativeProduct(k, rows[i].val);
    }
  }

  lemma NonNegativeProduct(k: real, w: real)
    requires k >= 0.0 && w >= 0.0
    ensures Times(k, w) >= 0.0
  {
  }

  /** Normalising non-negative rows only rescales them. */
  lemma {:induction false} NormalizedRescales(rows: seq<Entry>) returns (k: real)
    requires NonNegativeEntries(rows)
    ensures k > 0.0 && Normalized(rows) == Scale(rows, k)
  {
    NothingToClean(rows);
    ScaleOne(rows);
    k := if InBand(Total(rows)) then 100.0 / Total(rows) else 1.0;
  }

  lemma {:induction false} FractionsOfRows(rows: seq<Entry>)
    requires Distinct(rows)
    ensures RowsToFractions(rows) == Scale(rows, 0.01)
  {
    PutAllNew([], Scale(rows, 0.01));
    assert [] + Scale(rows, 0.01) == Scale(rows, 0.01);
  }

  /** The factor by which the cache rescales a split. */
  function SnapFactor(total: real): (k: real)
    ensures k > 0.0
  {
    if NearlyWhole(total) then 1.0 / total else 1.0
  }

  /** The weights that the cache accepts, in percent. */
  predicate Storable(rows: seq<Entry>) {
    forall i :: 0 <= i < |rows| ==> -5.0 <= rows[i].val <= 105.0
  }

  /** The cache rejects rows exactly when one of them lies outside -5 to 105. */
  lemma {:induction false} TripRejectsIff(rows: seq<Entry>)
    requires Distinct(rows)
    ensures Trip(rows).None? <==> exists i :: 0 <= i < |rows| && !(-5.0 <= rows[i].val <= 105.0)
  {
    var f := Scale(rows, 0.01);
    FractionsOfRows(rows);
    forall i | 0 <= i < |rows| ensures Plausible(f[i].val) <==> -5.0 <= rows[i].val <= 105.0 {
      assert Times(0.01, rows[i].val) == 0.01 * rows[i].val;
    }
  }

  lemma {:induction false} ClampedFractions(d: Dict)
    ensures Fractions(Clamped(d)) && NonNegativeEntries(Clamped(d))
  {
  }

  /** Accepted rows come back clamped to 0 and 100 and otherwise only rescaled. */
  lemma {:induction false} TripClamps(rows: seq<Entry>) returns (k: real)
    requires Distinct(rows) && Storable(rows)
    ensures k > 0.0 && Trip(rows) == Some(Scale(Clamped(Scale(rows, 0.01)), k))
  {
    var c := Clamped(Scale(rows, 0.01));
    var snap := SnapFactor(Total(c));
    TripRejectsIff(rows);
    FractionsOfRows(rows);
    ClampedFractions(Scale(rows, 0.01));
    ScaleOne(c);
    assert Coerced(RowsToFractions(rows)) == Some(Scale(c, snap));
    ScaleTwice(c, 100.0, snap, Times(100.0, snap));
    assert Times(100.0, snap) > 0.0;
    ScaledNonNegative(c, Times(100.0, snap));
    var again := NormalizedRescales(Scale(c, Times(100.0, snap)));
    k := Times(again, Times(100.0, snap));
    ScaleTwice(c, again, Times(100.0, snap), k);
  }

  predicate OneLevel(rows: seq<Entry>, w: real) {
    forall i :: 0 <= i < |rows| ==> rows[i].val == 0.0 || rows[i].val == w
  }

  /** Every weight is within 0 to 100, or all that are not 0 are the same one above 100. */
  ghost predicate ClampsEvenly(rows: seq<Entry>) {
    Percentages(rows) || exists w :: 100.0 < w <= 105.0 && OneLevel(rows, w)
  }

  /** The trip only multiplies all the weights by one positive factor. */
  ghost predicate KeepsProportions(rows: seq<Entry>) {
    exists k :: k > 0.0 && Trip(rows) == Some(Scale(rows, k))
  }

  lemma {:induction false} ClampsTo(rows: seq<Entry>, c: real)
    requires forall i :: 0 <= i < |rows| ==> Clamp(Times(0.01, rows[i].val)) == Times(c, rows[i].val)
    ensures Clamped(Scale(rows, 0.01)) == Scale(rows, c)
  {
  }

  lemma LevelClamps(w: real, v: real)
    requires w > 100.0 && (v == 0.0 || v == w)
    ensures Clamp(Times(0.01, v)) == Times(1.0 / w, v)
  {
    assert Times(0.01, v) == 0.01 * v && Times(1.0 / w, 0.0) == 0.0 && Times(1.0 / w, w) == 1.0;
  }

  lemma {:induction false} EvenClampRescales(rows: seq<Entry>) returns (c: real)
    requires ClampsEvenly(rows)
    ensures c > 0.0 && Clamped(Scale(rows, 0.01)) == Scale(rows, c)
  {
    if Percentages(rows) {
      c := 0.01;
      ScaledPercentages(rows);
      NothingToClamp(Scale(rows, 0.01));
    } else {
      var w :| 100.0 < w <= 105.0 && OneLevel(rows, w);
      c := 1.0 / w;
      forall i | 0 <= i < |rows| ensures Clamp(Times(0.01, rows[i].val)) == Times(c, rows[i].val) {
        LevelClamps(w, rows[i].val);
      }
      ClampsTo(rows, c);
    }
  }

  lemma EvenRowsStorable(rows: seq<Entry>)
    requires ClampsEvenly(rows)
    ensures Storable(rows)
  {
  }

  /** What one weight that is clamped and scaled by `g`, but comes out scaled by `k`, says of both factors. */
  predicate TwoFactors(w: real, g: real, k: real) {
    && w >= 0.0
    && (0.0 < w <= 100.0 ==> g == k * 100.0)
    && (w > 100.0 ==> g == k * w)
  }

  lemma OneWeight(w: real, g: real, k: real)
    requires g > 0.0 && k > 0.0 && Times(g, Clamp(Times(0.01, w))) == Times(k, w)
    ensures TwoFactors(w, g, k)
  {
    assert Times(0.01, w) == 0.01 * w;
    if w < 0.0 {
      assert Times(g, 0.0) == 0.0;
      NegativeProduct(k, w);
    } else if 0.0 < w <= 100.0 {
      SameFactor(g, k, w);
    }
  }

  lemma NegativeProduct(k: real, w: real)
    requires k > 0.0 && w < 0.0
    ensures Times(k, w) < 0.0
  {
  }

  lemma SameFactor(g: real, k: real, w: real)
    requires w != 0.0 && Times(g, 0.01 * w) == Times(k, w)
    ensures g == k * 100.0
  {
    assert (g * 0.01 - k) * w == 0.0;
  }

  lemma SameWeight(v: real, w: real, g: real, k: real)
    requires k > 0.0 && w > 100.0 && TwoFactors(v, g, k) && TwoFactors(w, g, k)
    ensures v == 0.0 || v == w
  {
    if v != 0.0 {
      var u := if v <= 100.0 then 100.0 else v;
      assert (u - w) * k == 0.0;
    }
  }

  lemma {:induction false} EveryWeight(rows: seq<Entry>, g: real, k: real)
    requires g > 0.0 && k > 0.0 && Scale(Clamped(Scale(rows, 0.01)), g) == Scale(rows, k)
    ensures forall i :: 0 <= i < |rows| ==> TwoFactors(rows[i].val, g, k)
  {
    var c := Clamped(Scale(rows, 0.01));
    forall i | 0 <= i < |rows| ensures TwoFactors(rows[i].val, g, k) {
      assert Scale(c, g)[i] == Scale(rows, k)[i];
      OneWeight(rows[i].val, g, k);
    }
  }

  lemma {:induction false} ProportionsNeedEvenClamp(rows: seq<Entry>, g: real, k: real)
    requires Storable(rows) && g > 0.0 && k > 0.0 && Scale(Clamped(Scale(rows, 0.01)), g) == Scale(rows, k)
    ensures ClampsEvenly(rows)
  {
    EveryWeight(rows, g, k);
    if !Percentages(rows) {
      var m :| 0 <= m < |rows| && rows[m].val > 100.0;
      forall i | 0 <= i < |rows| ensures rows[i].val == 0.0 || rows[i].val == rows[m].val {
        SameWeight(rows[i].val, rows[m].val, g, k);
      }
      assert OneLevel(rows, rows[m].val);
    }
  }

  /** Accepted rows come back in the same proportions, even where the cache rescales a total that the
      position itself left alone, exactly when the clamp is even. */
  lemma {:induction false} TripKeepsProportionsIff(rows: seq<Entry>)
    requires Distinct(rows)
    ensures KeepsProportions(rows) <==> ClampsEvenly(rows)
  {
    TripRejectsIff(rows);
    if ClampsEvenly(rows) {
      EvenRowsStorable(rows);
      var g := TripClamps(rows);
      var c := EvenClampRescales(rows);
      ScaleTwice(rows, g, c, Times(g, c));
      assert Times(g, c) > 0.0;
      assert Trip(rows) == Some(Scale(rows, Times(g, c)));
    }
    if KeepsProportions(rows) {
      var k :| k > 0.0 && Trip(rows) == Some(Scale(rows, k));
      var g := TripClamps(rows);
      ProportionsNeedEvenClamp(rows, g, k);
    }
  }

  lemma {:induction false} WholeTrip(n: seq<Entry>)
    requires Distinct(n) && Percentages(n) && Total(n) == 100.0
    ensures Trip(n) == Some(n)
  {
    FractionsOfRows(n);
    ScaledPercentages(n);
    NothingToClamp(Scale(n, 0.01));
    ScaleTotal(n, 0.01);
    assert Times(0.01, 100.0) == 1.0;
    ScaleOne(Scale(n, 0.01));
    ScaleTwice(n, 100.0, 0.01, 1.0);
    ScaleOne(n);
    NothingToClean(n);
  }

  /** Rows whose total lies in the band come back from the cache unchanged. */
  lemma {:induction false} TripIsIdentity(rows: seq<Entry>)
    requires Distinct(rows) && NonNegativeEntries(rows) && InBand(Total(rows))
    ensures Trip(Normalized(rows)) == Some(Normalized(rows))
  {
    var n, k := Normalized(rows), 100.0 / Total(rows);
    NothingToClean(rows);
    assert n == Scale(rows, k);
    ScaleTotal(rows, k);
    assert Times(k, Total(rows)) == 100.0;
    ScaledNonNegative(rows, k);
    forall i | 0 <= i < |n| ensures n[i].val <= 100.0 {
      TotalCovers(n, i);
    }
    WholeTrip(n);
  }

  // -------------------------------------------------------------------- what cleaning does

  /** A row is dropped exactly when its weight lies between -0.5 and 0; the rows before and after a place are
      cleaned on their own, so the others stay in order. */
  lemma {:induction false} CleaningDropsDust(e: Entry, a: seq<Entry>, b: seq<Entry>)
    ensures Cleaned([e]) == if -0.5 < e.val < 0.0 then [] else [e]
    ensures Cleaned([]) == [] && Cleaned(a + b) == Cleaned(a) + Cleaned(b)
  {
    assert [e][1..] == [] && [e] + [] == [e];
    CleanedSplit(a, b);
  }

  /** Rows whose cleaned total lies between 99 and 102 are all scaled so that they sum to 100; others are only
      cleaned. */
  lemma {:induction false} NormalizingRescales(rows: seq<Entry>)
    ensures 99.0 <= Total(Cleaned(rows)) <= 102.0 ==>
              Total(Normalized(rows)) == 100.0 && exists k :: k > 0.0 && Normalized(rows) == Scale(Cleaned(rows), k)
    ensures !(99.0 <= Total(Cleaned(rows)) <= 102.0) ==> Normalized(rows) == Cleaned(rows)
  {
    var kept := Cleaned(rows);
    if 99.0 <= Total(kept) <= 102.0 {
      ScaleTotal(kept, 100.0 / Total(kept));
      assert Times(100.0 / Total(kept), Total(kept)) == 100.0;
      assert Normalized(rows) == Scale(kept, 100.0 / Total(kept));
    }
  }

  /** An accepted split is clamped to 0 and 1, and then scaled to sum to 1 when it is within 0.05 of that. */
  lemma {:induction false} CoercingSnaps(d: Dict)
    requires Coerced(d).Some?
    ensures var c := Clamped(d);
            && (forall i :: 0 <= i < |d| ==>
                  && c[i].key == d[i].key
                  && c[i].val == if d[i].val < 0.0 then 0.0 else if d[i].val > 1.0 then 1.0 else d[i].val)
            && (0.95 <= Total(c) <= 1.05 ==>
                  Total(Coerced(d).value) == 1.0 && exists k :: k > 0.0 && Coerced(d).value == Scale(c, k))
            && (!(0.95 <= Total(c) <= 1.05) ==> Coerced(d).value == c)
  {
    var c := Clamped(d);
    if 0.95 <= Total(c) <= 1.05 {
      ScaleTotal(c, 1.0 / Total(c));
      assert Times(1.0 / Total(c), Total(c)) == 1.0;
      assert Coerced(d).value == Scale(c, 1.0 / Total(c));
    }
  }

  lemma {:induction false} PutGets(d: Dict, e: Entry, k: string)
    ensures Get(Put(d, e), k) == if e.key == k then e.val else Get(d, k)
    ensures Has(Put(d, e), k) <==> Has(d, k) || e.key == k
  {
    if d != [] {
      HasHead(d, k);
      if d[0].key == e.key {
        HasHead([e] + d[1..], k);
        assert ([e] + d[1..])[1..] == d[1..];
      } else {
        PutGets(d[1..], e, k);
        HasHead([d[0]] + Put(d[1..], e), k);
        assert ([d[0]] + Put(d[1..], e))[1..] == Put(d[1..], e);
      }
    } else {
      HasHead([e], k);
      assert [e][1..] == [];
    }
  }

  /** Of two rows of one name the later one counts, as a hundredth of its percentage. */
  lemma {:induction false} LaterRowCounts(rows: seq<Entry>, e: Entry, k: string)
    ensures Get(RowsToFractions(rows + [e]), k)
            == if e.key == k then e.val / 100.0 else Get(RowsToFractions(rows), k)
    ensures Has(RowsToFractions(rows + [e]), k) <==> Has(RowsToFractions(rows), k) || e.key == k
  {
    var one := Scale([e], 0.01);
    assert Scale(rows + [e], 0.01) == Scale(rows, 0.01) + one;
    PutAllOfSum([], Scale(rows, 0.01), one);
    var before := PutAll([], Scale(rows, 0.01));
    assert one[1..] == [] && PutAll(before, one) == Put(before, one[0]);
    assert one[0] == Entry(e.key, Times(0.01, e.val)) && Times(0.01, e.val) == e.val / 100.0;
    PutGets(before, one[0], k);
  }
}
