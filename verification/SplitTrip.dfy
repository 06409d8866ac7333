/** What survives when country rows go through the cache. */
module SplitTrip {
  import opened Wrappers
  import opened OrderedDict
  import opened Scalars
  import opened Splits
  import opened Markets

  /** The rows read back have the shares of the clamped ones, whatever the cache rescales. */
  lemma {:induction false} TripShares(rows: seq<Entry>, lists: Lists, dmemOther: Option<real>, stored: Option<real>)
    requires Distinct(rows) && Storable(rows)
    ensures var c := Clamped(Scale(rows, 0.01));
            && Trip(rows).Some? && |Trip(rows).value| == |rows|
            && Dmem(Trip(rows).value, lists, dmemOther, stored) == Dmem(c, lists, dmemOther, stored)
            && Usavn(Trip(rows).value, lists, dmemOther, stored) == Usavn(c, lists, dmemOther, stored)
  {
    var k := TripClamps(rows);
    SharesScale(Clamped(Scale(rows, 0.01)), k, lists, dmemOther, stored);
  }

  /** The shares computed from rows read back from the cache are those of the live rows. */
  lemma {:induction false} TripKeepsShares(live: seq<Entry>, lists: Lists, dmemOther: Option<real>,
                                           stored: Option<real>)
    requires Distinct(Normalized(live)) && ClampsEvenly(Normalized(live))
    ensures Trip(Normalized(live)).Some?
    ensures Dmem(Trip(Normalized(live)).value, lists, dmemOther, stored)
            == Dmem(Normalized(live), lists, dmemOther, stored)
    ensures Usavn(Trip(Normalized(live)).value, lists, dmemOther, stored)
            == Usavn(Normalized(live), lists, dmemOther, stored)
  {
    var n := Normalized(live);
    TripKeepsProportionsIff(n);
    var k :| k > 0.0 && Trip(n) == Some(Scale(n, k));
    SharesScale(n, k, lists, dmemOther, stored);
  }

  // ----------------------------------------------------------------- exactly when they do

  /** Both give the same developed and US share under every classification of the countries. */
  ghost predicate SameShares(a: seq<Entry>, b: seq<Entry>) {
    forall lists, dmemOther, stored | Agree(lists) && ProperPart(dmemOther) ::
      && Dmem(a, lists, dmemOther, stored) == Dmem(b, lists, dmemOther, stored)
      && Usavn(a, lists, dmemOther, stored) == Usavn(b, lists, dmemOther, stored)
  }

  predicate NothingPositive(rows: seq<Entry>) {
    forall i :: 0 <= i < |rows| ==> rows[i].val <= 0.0
  }

  /** Everything but the United States and one more country is emerging. */
  function Just(q: string): Lists {
    Lists({US, q}, {})
  }

  lemma {:induction false} JustCounts(rows: seq<Entry>, q: string)
    ensures Developed(rows, Just(q), Some(0.0)) == SumFor(rows, US) + if q == US then 0.0 else SumFor(rows, q)
  {
    if rows != [] {
      JustCounts(rows[1..], q);
      assert Times(1.0, rows[0].val) == rows[0].val && Times(0.0, rows[0].val) == 0.0;
    }
  }

  lemma RatioOfSum(a: real, b: real, whole: real)
    ensures Ratio(a + b, whole) == Ratio(a, whole) + Ratio(b, whole)
  {
  }

  /** So every country has the same share of the total. */
  lemma {:induction false} SameShareEach(a: seq<Entry>, b: seq<Entry>, q: string)
    requires SameShares(a, b) && a != [] && b != []
    ensures Ratio(SumFor(a, q), Total(a)) == Ratio(SumFor(b, q), Total(b))
  {
    JustCounts(a, US);
    JustCounts(b, US);
    JustCounts(a, q);
    JustCounts(b, q);
    assert Agree(Just(US)) && Agree(Just(q));
    assert Dmem(a, Just(US), Some(0.0), None) == Dmem(b, Just(US), Some(0.0), None);
    assert Dmem(a, Just(q), Some(0.0), None) == Dmem(b, Just(q), Some(0.0), None);
    RatioOfSum(SumFor(a, US), SumFor(a, q), Total(a));
    RatioOfSum(SumFor(b, US), SumFor(b, q), Total(b));
  }

  lemma {:induction false} OwnSum(rows: seq<Entry>, i: nat)
    requires Distinct(rows) && i < |rows|
    ensures SumFor(rows, rows[i].key) == rows[i].val
  {
    DictSum(rows, rows[i].key);
    GetAt(rows, i);
  }

  lemma {:induction false} SameShareAt(a: seq<Entry>, b: seq<Entry>, i: nat)
    requires SameShares(a, b) && Distinct(a) && Distinct(b) && |a| == |b| && i < |a| && a[i].key == b[i].key
    ensures Ratio(a[i].val, Total(a)) == Ratio(b[i].val, Total(b))
  {
    OwnSum(a, i);
    OwnSum(b, i);
    SameShareEach(a, b, a[i].key);
  }

  lemma Proportion(x: real, t: real, y: real, u: real, k: real)
    requires t > 0.0 && u > 0.0 && Ratio(x, t) == Ratio(y, u) && k == u / t
    ensures y == Times(k, x)
  {
    assert (x / t) * u == y;
    assert k * x == (x / t) * u;
  }

  /** Rows that share the total alike are in proportion. */
  lemma {:induction false} SharesGiveFactor(a: seq<Entry>, b: seq<Entry>) returns (k: real)
    requires SameShares(a, b) && Distinct(a) && Distinct(b) && |a| == |b| && Total(b) > 0.0
    requires forall i :: 0 <= i < |a| ==> a[i].key == b[i].key
    requires exists i :: 0 <= i < |b| && b[i].val > 0.0
    ensures k > 0.0 && b == Scale(a, k)
  {
    var m :| 0 <= m < |b| && b[m].val > 0.0;
    PositiveTotal(a, b, m);
    k := FactorOf(Total(a), Total(b));
    forall i | 0 <= i < |a| ensures b[i].val == Times(k, a[i].val) {
      SameShareAt(a, b, i);
      Proportion(a[i].val, Total(a), b[i].val, Total(b), k);
    }
    ScaledTo(a, b, k);
  }

  lemma {:induction false} PositiveTotal(a: seq<Entry>, b: seq<Entry>, m: nat)
    requires SameShares(a, b) && Distinct(a) && Distinct(b) && |a| == |b| && m < |a| && a[m].key == b[m].key
    requires Total(b) > 0.0 && b[m].val > 0.0
    ensures Total(a) > 0.0
  {
    SameShareAt(a, b, m);
    PositiveRatio(b[m].val, Total(b));
  }

  lemma PositiveRatio(x: real, whole: real)
    requires x > 0.0 && whole > 0.0
    ensures Ratio(x, whole) > 0.0
  {
  }

  lemma FactorOf(t: real, u: real) returns (k: real)
    requires t > 0.0 && u > 0.0
    ensures k > 0.0 && k == u / t
  {
    k := u / t;
  }

  lemma {:induction false} ScaledTo(a: seq<Entry>, b: seq<Entry>, k: real)
    requires |a| == |b|
    requires forall i :: 0 <= i < |a| ==> a[i].key == b[i].key && b[i].val == Times(k, a[i].val)
    ensures b == Scale(a, k)
  {
  }

  lemma {:induction false} NothingDeveloped(rows: seq<Entry>, lists: Lists, dmemOther: Option<real>)
    requires NothingPositive(rows) && ProperPart(dmemOther)
    ensures Total(rows) <= 0.0 && Developed(rows, lists, dmemOther) <= 0.0
  {
    if rows != [] {
      NothingDeveloped(rows[1..], lists, dmemOther);
      assert Times(DevelopedPart(rows[0].key, lists, dmemOther), rows[0].val) <= 0.0;
    }
  }

  lemma {:induction false} NothingShared(a: seq<Entry>, b: seq<Entry>)
    requires NothingPositive(a) && NothingPositive(b) && |a| == |b|
    ensures SameShares(a, b)
  {
    forall lists, dmemOther, stored | Agree(lists) && ProperPart(dmemOther)
      ensures Dmem(a, lists, dmemOther, stored) == Dmem(b, lists, dmemOther, stored)
      ensures Usavn(a, lists, dmemOther, stored) == Usavn(b, lists, dmemOther, stored)
    {
      NothingDeveloped(a, lists, dmemOther);
      NothingDeveloped(b, lists, dmemOther);
    }
  }

  lemma {:induction false} PositiveStays(rows: seq<Entry>, m: nat, k: real)
    requires m < |rows| && rows[m].val > 0.0 && k > 0.0
    ensures var b := Scale(Clamped(Scale(rows, 0.01)), k); b[m].val > 0.0 && Total(b) > 0.0
  {
    var c := Clamped(Scale(rows, 0.01));
    ClampedFractions(Scale(rows, 0.01));
    assert Times(0.01, rows[m].val) > 0.0;
    assert c[m].val > 0.0 && Times(k, c[m].val) > 0.0;
    ScaledNonNegative(c, k);
    TotalCovers(Scale(c, k), m);
  }

  lemma {:induction false} ClampedNothing(rows: seq<Entry>, k: real)
    requires NothingPositive(rows)
    ensures NothingPositive(Scale(Clamped(Scale(rows, 0.01)), k))
  {
    var c := Clamped(Scale(rows, 0.01));
    forall i | 0 <= i < |rows| ensures Scale(c, k)[i].val <= 0.0 {
      assert Times(0.01, rows[i].val) <= 0.0 && c[i].val == 0.0;
      assert Times(k, 0.0) == 0.0;
    }
  }

  lemma {:induction false} SharesKeepProportions(rows: seq<Entry>, back: seq<Entry>, m: nat)
    requires Distinct(rows) && Trip(rows) == Some(back) && SameShares(rows, back)
    requires |back| == |rows| && Distinct(back) && forall i :: 0 <= i < |rows| ==> rows[i].key == back[i].key
    requires m < |rows| && back[m].val > 0.0 && Total(back) > 0.0
    ensures KeepsProportions(rows)
  {
    var factor := SharesGiveFactor(rows, back);
    assert Trip(rows) == Some(Scale(rows, factor));
  }

  lemma {:induction false} SharesNeedEvenClamp(rows: seq<Entry>, k: real)
    requires Distinct(rows) && Storable(rows) && !NothingPositive(rows) && k > 0.0
    requires Trip(rows) == Some(Scale(Clamped(Scale(rows, 0.01)), k)) && SameShares(rows, Trip(rows).value)
    ensures KeepsProportions(rows)
  {
    var m :| 0 <= m < |rows| && rows[m].val > 0.0;
    PositiveStays(rows, m, k);
    ScaleKeepsDistinct(rows, 0.01);
    ScaleKeepsDistinct(Clamped(Scale(rows, 0.01)), k);
    SharesKeepProportions(rows, Trip(rows).value, m);
  }

  /** The shares survive the cache exactly when the clamp is even, or no weight is positive at all. */
  lemma {:induction false} SharesSurviveIff(rows: seq<Entry>)
    requires Distinct(rows) && Storable(rows)
    ensures Trip(rows).Some?
    ensures SameShares(rows, Trip(rows).value) <==> ClampsEvenly(rows) || NothingPositive(rows)
  {
    var k := TripClamps(rows);
    if ClampsEvenly(rows) {
      TripKeepsProportionsIff(rows);
      EvenKeepsShares(rows);
    } else if NothingPositive(rows) {
      ClampedNothing(rows, k);
      NothingShared(rows, Trip(rows).value);
    } else if SameShares(rows, Trip(rows).value) {
      SharesNeedEvenClamp(rows, k);
      TripKeepsProportionsIff(rows);
    }
  }

  lemma {:induction false} EvenKeepsShares(rows: seq<Entry>)
    requires KeepsProportions(rows)
    ensures SameShares(rows, Trip(rows).value)
  {
    var k :| k > 0.0 && Trip(rows) == Some(Scale(rows, k));
    forall lists, dmemOther, stored | Agree(lists) && ProperPart(dmemOther)
      ensures Dmem(rows, lists, dmemOther, stored) == Dmem(Trip(rows).value, lists, dmemOther, stored)
      ensures Usavn(rows, lists, dmemOther, stored) == Usavn(Trip(rows).value, lists, dmemOther, stored)
    {
      SharesScale(rows, k, lists, dmemOther, stored);
    }
  }

  // ----------------------------------------------------------------- two inputs that differ

  lemma {:induction false} OneRow(a: Entry, lists: Lists)
    ensures Total([a]) == a.val && Developed([a], lists, None) == Times(DevelopedPart(a.key, lists, None), a.val)
  {
    assert [a][1..] == [] && Total([]) == 0.0 && Developed([], lists, None) == 0.0;
  }

  lemma {:induction false} TwoRows(a: Entry, b: Entry, lists: Lists)
    requires a.key in lists.developed && b.key in lists.emerging && b.key !in lists.developed
    ensures Total([a, b]) == a.val + b.val && Developed([a, b], lists, None) == a.val
  {
    assert [a, b] == [a] + [b];
    OneRow(a, lists);
    OneRow(b, lists);
    TotalOfSum([a], [b]);
    DevelopedOfSum([a], [b], lists, None);
    assert Times(1.0, a.val) == a.val && Times(0.0, b.val) == 0.0;
  }

  /** A weight above 100 is clamped by the cache, which then shifts the shares: 104 percent in the
      United States beside 1 percent in China. */
  lemma {:induction false} ClampedWeightShiftsShares(lists: Lists)
    requires Agree(lists) && "China" in lists.emerging && "China" !in lists.developed
    ensures var live := [Entry(US, 104.0), Entry("China", 1.0)];
            && Normalized(live) == live && Trip(live).Some?
            && Dmem(live, lists, None, None) == 104.0 / 105.0
            && Dmem(Trip(live).value, lists, None, None) == 100.0 / 101.0
  {
    var live := [Entry(US, 104.0), Entry("China", 1.0)];
    assert US[0] != "China"[0];
    TwoRows(live[0], live[1], lists);
    NothingToClean(live);
    var c := [Entry(US, 1.0), Entry("China", 0.01)];
    assert Clamped(Scale(live, 0.01)) == c;
    TwoRows(c[0], c[1], lists);
    TripShares(live, lists, None, None);
  }

  lemma {:induction false} ThreeRows(a: Entry, b: Entry, c: Entry, lists: Lists)
    requires a.key in lists.developed && b.key in lists.emerging && b.key !in lists.developed
             && c.key in lists.developed
    ensures Total([a, b, c]) == a.val + b.val + c.val && Developed([a, b, c], lists, None) == a.val + c.val
  {
    assert [a, b, c] == [a, b] + [c];
    TwoRows(a, b, lists);
    OneRow(c, lists);
    TotalOfSum([a, b], [c]);
    DevelopedOfSum([a, b], [c], lists, None);
    assert Times(1.0, c.val) == c.val;
  }

  lemma {:induction false} FullRowsStay(rows: seq<Entry>)
    requires Total(rows) == 100.0 && forall i :: 0 <= i < |rows| ==> !Dust(rows[i].val)
    ensures Normalized(rows) == rows
  {
    NothingToClean(rows);
    ScaleOne(rows);
  }

  lemma {:induction false} ClampedThree(a: Entry, b: Entry, c: Entry)
    requires 0.0 <= a.val <= 100.0 && 0.0 <= b.val <= 100.0 && c.val < 0.0
    ensures Clamped(Scale([a, b, c], 0.01))
            == [Entry(a.key, 0.01 * a.val), Entry(b.key, 0.01 * b.val), Entry(c.key, 0.0)]
  {
    var rows := [a, b, c];
    assert Times(0.01, a.val) == 0.01 * a.val && Times(0.01, b.val) == 0.01 * b.val
           && Times(0.01, c.val) == 0.01 * c.val;
    var f := Scale(rows, 0.01);
    assert rows[0] == a && rows[1] == b && rows[2] == c;
    assert f[0].val == 0.01 * a.val && f[1].val == 0.01 * b.val && f[2].val == 0.01 * c.val;
  }

  /** A negative weight that is no dust stays among the live rows, but the cache sets it to 0: 60 percent in
      the United States, 43 in China and -3 in Japan. */
  lemma {:induction false} NegativeWeightShiftsShares(lists: Lists)
    requires Agree(lists) && "China" in lists.emerging && "China" !in lists.developed && "Japan" in lists.developed
    ensures var live := [Entry(US, 60.0), Entry("China", 43.0), Entry("Japan", -3.0)];
            && Normalized(live) == live && Trip(live).Some?
            && Dmem(live, lists, None, None) == 57.0 / 100.0
            && Dmem(Trip(live).value, lists, None, None) == 60.0 / 103.0
  {
    assert US[0] != "China"[0] && US[0] != "Japan"[0] && "China"[0] != "Japan"[0];
    NegativeThird(Entry(US, 60.0), Entry("China", 43.0), Entry("Japan", -3.0), lists);
  }

  lemma {:induction false} NegativeThird(a: Entry, b: Entry, c: Entry, lists: Lists)
    requires a.key in lists.developed && b.key in lists.emerging && b.key !in lists.developed
             && c.key in lists.developed
    requires a.key != b.key && a.key != c.key && b.key != c.key && a.val == 60.0 && b.val == 43.0 && c.val == -3.0
    ensures var live := [a, b, c];
            && Normalized(live) == live && Trip(live).Some?
            && Dmem(live, lists, None, None) == 57.0 / 100.0
            && Dmem(Trip(live).value, lists, None, None) == 60.0 / 103.0
  {
    var live := [a, b, c];
    ThreeRows(a, b, c, lists);
    FullRowsStay(live);
    ClampedThree(a, b, c);
    ThreeRows(Entry(a.key, 0.6), Entry(b.key, 0.43), Entry(c.key, 0.0), lists);
    TripShares(live, lists, None, None);
  }
}
