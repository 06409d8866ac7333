/** The wedges of the sector chart (`_filter_sector_wedges`, portfolio/portfolio.py). */
module SectorChart {
  import opened OrderedDict
  import opened Sectors

  const MIN_WEIGHT := 0.02
  const MAX_WEDGES := 25

  // ------------------------------------------------------------------ stable ranking

  predicate Descending(s: seq<Entry>) {
    forall i, j :: 0 <= i < j < |s| ==> s[i].val >= s[j].val
  }

  /** Before the first entry that is no larger. */
  function Place(e: Entry, s: seq<Entry>): seq<Entry> {
    if s == [] || e.val >= s[0].val then [e] + s else [s[0]] + Place(e, s[1..])
  }

  /** `sorted(items, key=lambda item: -item[1])` */
  function Ranked(s: seq<Entry>): seq<Entry> {
    if s == [] then [] else Place(s[0], Ranked(s[1..]))
  }

  /** The entries of one weight, in order. */
  function Weighing(s: seq<Entry>, w: real): seq<Entry> {
    if s == [] then [] else (if s[0].val == w then [s[0]] else []) + Weighing(s[1..], w)
  }

  lemma {:induction false} PlaceKeeps(e: Entry, s: seq<Entry>)
    ensures multiset(Place(e, s)) == multiset(s) + multiset{e}
  {
    if s != [] && e.val < s[0].val {
      PlaceKeeps(e, s[1..]);
      assert s == [s[0]] + s[1..];
    }
  }

  lemma {:induction false} PlaceTotal(e: Entry, s: seq<Entry>)
    ensures Total(Place(e, s)) == e.val + Total(s)
  {
    if s == [] || e.val >= s[0].val {
      assert ([e] + s)[1..] == s;
    } else {
      PlaceTotal(e, s[1..]);
      assert Place(e, s)[1..] == Place(e, s[1..]);
    }
  }

  lemma {:induction false} PlaceDescends(e: Entry, s: seq<Entry>)
    requires Descending(s)
    ensures Descending(Place(e, s))
  {
    if s != [] && e.val < s[0].val {
      PlaceDescends(e, s[1..]);
      PlaceKeeps(e, s[1..]);
      var rest := Place(e, s[1..]);
      forall i | 0 <= i < |rest| ensures rest[i].val <= s[0].val {
        assert rest[i] in multiset(s[1..]) + multiset{e};
      }
    }
  }

  lemma {:induction false} PlaceStable(e: Entry, s: seq<Entry>, w: real)
    requires Descending(s)
    ensures Weighing(Place(e, s), w) == (if e.val == w then [e] else []) + Weighing(s, w)
  {
    if s == [] || e.val >= s[0].val {
      assert ([e] + s)[1..] == s;
    } else {
      PlaceStable(e, s[1..], w);
      assert Place(e, s)[1..] == Place(e, s[1..]);
      if e.val == w {
        assert s[0].val != w;
      }
    }
  }

  /** The ranking is the stable descending sort. */
  lemma {:induction false} RankedIsStableSort(s: seq<Entry>)
    ensures Descending(Ranked(s)) && multiset(Ranked(s)) == multiset(s)
    ensures forall w :: Weighing(Ranked(s), w) == Weighing(s, w)
    ensures Total(Ranked(s)) == Total(s)
  {
    if s != [] {
      RankedIsStableSort(s[1..]);
      PlaceDescends(s[0], Ranked(s[1..]));
      PlaceKeeps(s[0], Ranked(s[1..]));
      PlaceTotal(s[0], Ranked(s[1..]));
      assert s == [s[0]] + s[1..];
      forall w ensures Weighing(Ranked(s), w) == Weighing(s, w) {
        PlaceStable(s[0], Ranked(s[1..]), w);
      }
    }
  }

  lemma {:induction false} RankedMembers(s: seq<Entry>, e: Entry)
    ensures e in Ranked(s) <==> e in s
  {
    RankedIsStableSort(s);
    assert e in multiset(Ranked(s)) <==> e in multiset(s);
  }

  // -------------------------------------------------------------------------- wedges

  function Top(d: Dict): seq<Entry> {
    if |Ranked(d)| <= MAX_WEDGES then Ranked(d) else Ranked(d)[..MAX_WEDGES]
  }

  function AtLeast(s: seq<Entry>, floor: real): (r: seq<Entry>)
    ensures |r| <= |s|
  {
    if s == [] then [] else (if s[0].val >= floor then [s[0]] else []) + AtLeast(s[1..], floor)
  }

  /** The wedges that keep their own name. */
  function Kept(d: Dict): seq<Entry> {
    AtLeast(Top(d), MIN_WEIGHT)
  }

  /** The mass that loses its name. */
  function Dropped(d: Dict): real {
    Total(d) - Total(Kept(d))
  }

  function Wedges(d: Dict): Dict {
    if Dropped(d) > 0.0 then Bump(Kept(d), OTHER, Dropped(d)) else Kept(d)
  }

  lemma {:induction false} AtLeastMembers(s: seq<Entry>, floor: real)
    ensures forall e :: e in AtLeast(s, floor) <==> e in s && e.val >= floor
  {
    if s != [] {
      AtLeastMembers(s[1..], floor);
    }
  }

  lemma {:induction false} AtLeastNext(s: seq<Entry>, n: nat, floor: real)
    requires n < |s|
    ensures AtLeast(s[..n + 1], floor) == AtLeast(s[..n], floor) + (if s[n].val >= floor then [s[n]] else [])
  {
    AtLeastSplit(s[..n], [s[n]], floor);
    assert s[..n + 1] == s[..n] + [s[n]] && [s[n]][1..] == [];
  }

  lemma {:induction false} AtLeastSplit(a: seq<Entry>, b: seq<Entry>, floor: real)
    ensures AtLeast(a + b, floor) == AtLeast(a, floor) + AtLeast(b, floor)
  {
    if a == [] {
      assert a + b == b;
    } else {
      assert (a + b)[1..] == a[1..] + b;
      AtLeastSplit(a[1..], b, floor);
      var x, y := AtLeast(a[1..], floor), AtLeast(b, floor);
      assert [a[0]] + (x + y) == ([a[0]] + x) + y && [] + (x + y) == ([] + x) + y;
    }
  }

  lemma {:induction false} PlaceDistinct(e: Entry, s: seq<Entry>)
    requires Distinct(s) && !Has(s, e.key)
    ensures Distinct(Place(e, s))
    ensures forall k :: Has(Place(e, s), k) <==> Has(s, k) || k == e.key
  {
    var r := Place(e, s);
    if s == [] || e.val >= s[0].val {
      assert r[0] == e && r[1..] == s;
    } else {
      HasHead(s, e.key);
      PlaceDistinct(e, s[1..]);
      assert r[0] == s[0] && r[1..] == Place(e, s[1..]);
      forall k ensures Has(s, k) <==> k == s[0].key || Has(s[1..], k) {
        HasHead(s, k);
      }
      assert !Has(s[1..], s[0].key);
      DistinctCons(s[0], r[1..]);
    }
    forall k ensures Has(r, k) <==> r[0].key == k || Has(r[1..], k) {
      HasHead(r, k);
    }
  }

  lemma {:induction false} RankedDistinct(s: seq<Entry>)
    requires Distinct(s)
    ensures Distinct(Ranked(s))
    ensures forall k :: Has(Ranked(s), k) <==> Has(s, k)
  {
    if s != [] {
      RankedDistinct(s[1..]);
      assert !Has(s[1..], s[0].key);
      PlaceDistinct(s[0], Ranked(s[1..]));
      forall k ensures Has(s, k) <==> k == s[0].key || Has(s[1..], k) {
        HasHead(s, k);
      }
    }
  }

  lemma {:induction false} AtLeastDistinct(s: seq<Entry>, floor: real)
    requires Distinct(s)
    ensures Distinct(AtLeast(s, floor))
  {
    if s != [] {
      AtLeastDistinct(s[1..], floor);
      AtLeastMembers(s[1..], floor);
      forall e | e in AtLeast(s[1..], floor) ensures e.key != s[0].key {
        assert e in s[1..];
      }
    }
  }

  lemma {:induction false} KeepNext(head: seq<Entry>, i: nat)
    requires i < |head| && Distinct(head)
    ensures var kept, e := AtLeast(head[..i], MIN_WEIGHT), head[i];
            var next := AtLeast(head[..i + 1], MIN_WEIGHT);
            && next == (if e.val >= MIN_WEIGHT then Bump(kept, e.key, e.val) else kept)
            && Total(next) == Total(kept) + (if e.val >= MIN_WEIGHT then e.val else 0.0)
  {
    var kept, e := AtLeast(head[..i], MIN_WEIGHT), head[i];
    AtLeastNext(head, i, MIN_WEIGHT);
    if e.val >= MIN_WEIGHT {
      forall j | 0 <= j < |kept| ensures kept[j].key != e.key {
        AtLeastMembers(head[..i], MIN_WEIGHT);
        assert kept[j] in head[..i];
      }
      BumpNewKey(kept, e.key, e.val);
      BumpTotal(kept, e.key, e.val);
    }
  }

  lemma {:induction false} TopSplits(d: Dict)
    requires Distinct(d)
    ensures |Top(d)| <= |Ranked(d)| && Distinct(Top(d))
    ensures Total(Top(d)) + Total(Ranked(d)[|Top(d)|..]) == Total(d)
  {
    RankedDistinct(d);
    RankedIsStableSort(d);
    var tail := Ranked(d)[|Top(d)|..];
    assert Top(d) + tail == Ranked(d);
    TotalOfSum(Top(d), tail);
  }

  /** `_filter_sector_wedges` */
  method FilterSectorWedges(sectors: Dict) returns (kept: Dict)
    requires Distinct(sectors)
    ensures kept == Wedges(sectors)
  {
    var ranked, head := Ranked(sectors), Top(sectors);
    TopSplits(sectors);
    var tail := ranked[|head|..];
    kept := [];
    var dropped := Total(tail);
    for i := 0 to |head|
      invariant kept == AtLeast(head[..i], MIN_WEIGHT)
      invariant dropped + Total(kept) == Total(tail) + Total(head[..i])
    {
      KeepNext(head, i);
      TotalNext(head, i);
      if head[i].val >= MIN_WEIGHT {
        kept := Bump(kept, head[i].key, head[i].val);
      } else {
        dropped := dropped + head[i].val;
      }
    }
    assert head[..|head|] == head;
    if dropped > 0.0 {
      kept := Bump(kept, OTHER, dropped);
    }
  }

  lemma {:induction false} TotalNext(s: seq<Entry>, n: nat)
    requires n < |s|
    ensures Total(s[..n + 1]) == Total(s[..n]) + s[n].val
  {
    assert s[..n + 1] == s[..n] + [s[n]] && [s[n]][1..] == [];
    TotalOfSum(s[..n], [s[n]]);
  }

  // ------------------------------------------------------------------------ promises

  lemma {:induction false} LeftOutMass(s: seq<Entry>, floor: real)
    requires NonNegativeEntries(s)
    ensures Total(AtLeast(s, floor)) <= Total(s) && Total(s) >= 0.0
  {
    if s != [] {
      LeftOutMass(s[1..], floor);
      if s[0].val >= floor {
        assert AtLeast(s, floor)[1..] == AtLeast(s[1..], floor);
      } else {
        assert AtLeast(s, floor) == AtLeast(s[1..], floor) && s[0].val >= 0.0;
      }
    }
  }

  /** Folding keeps the whole mass exactly when what is folded away is not negative. */
  lemma {:induction false} WedgesKeepMassIff(d: Dict)
    ensures Total(Wedges(d)) == Total(d) <==> Dropped(d) >= 0.0
  {
    BumpTotal(Kept(d), OTHER, Dropped(d));
  }

  lemma {:induction false} WedgesKeepMass(d: Dict)
    requires Distinct(d) && NonNegativeEntries(d)
    ensures Total(Wedges(d)) == Total(d)
  {
    var tail := Ranked(d)[|Top(d)|..];
    forall i | 0 <= i < |Ranked(d)| ensures Ranked(d)[i].val >= 0.0 {
      RankedMembers(d, Ranked(d)[i]);
    }
    assert forall i :: 0 <= i < |tail| ==> tail[i] == Ranked(d)[|Top(d)| + i];
    TopSplits(d);
    LeftOutMass(Top(d), MIN_WEIGHT);
    LeftOutMass(tail, MIN_WEIGHT);
    WedgesKeepMassIff(d);
  }

  /** At most 25 named wedges and "Other"; a named wedge is one of the sectors, with its own
      fraction, which is at least 2 percent. */
  lemma {:induction false} WedgesAreSectors(d: Dict)
    requires Distinct(d)
    ensures |Wedges(d)| <= 26 && Distinct(Wedges(d))
    ensures forall e :: e in Wedges(d) && e.key != "Other" ==> e in d && e.val >= 0.02
  {
    RankedDistinct(d);
    AtLeastDistinct(Top(d), MIN_WEIGHT);
    AtLeastMembers(Top(d), MIN_WEIGHT);
    forall e | e in Kept(d) ensures e in d {
      assert e in Ranked(d);
      RankedMembers(d, e);
    }
    BumpKeys(Kept(d), OTHER, Dropped(d));
    OtherEntries(Kept(d), OTHER, Dropped(d));
  }

  lemma {:induction false} OtherEntries(d: Dict, k: string, w: real)
    ensures forall e :: e in Bump(d, k, w) && e.key != k ==> e in d
  {
    if d != [] && d[0].key != k {
      OtherEntries(d[1..], k, w);
    }
  }

  /** A sector of at least 2 percent loses its name only to 25 wedges no smaller than it. */
  lemma {:induction false} LargestAreKept(d: Dict, e: Entry)
    requires e in d && e.val >= 0.02 && e !in Kept(d)
    ensures |Kept(d)| == 25
    ensures forall f :: f in Kept(d) ==> f.val >= e.val
  {
    var ranked := Ranked(d);
    RankedMembers(d, e);
    var i :| 0 <= i < |Ranked(d)| && Ranked(d)[i] == e;
    AtLeastMembers(Top(d), MIN_WEIGHT);
    NotInTop(d, i);
    AllAtLeast(Top(d), MIN_WEIGHT);
  }

  lemma {:induction false} NotInTop(d: Dict, i: nat)
    requires i < |Ranked(d)| && Ranked(d)[i] !in Top(d) && Ranked(d)[i].val >= MIN_WEIGHT
    ensures |Top(d)| == MAX_WEDGES
    ensures forall j :: 0 <= j < |Top(d)| ==> Top(d)[j].val >= Ranked(d)[i].val >= MIN_WEIGHT
  {
    RankedIsStableSort(d);
    forall j | 0 <= j < |Top(d)| ensures Top(d)[j].val >= Ranked(d)[i].val && i != j {
      assert Top(d)[j] == Ranked(d)[j];
    }
  }

  lemma {:induction false} AllAtLeast(s: seq<Entry>, floor: real)
    requires forall i :: 0 <= i < |s| ==> s[i].val >= floor
    ensures AtLeast(s, floor) == s
  {
    if s != [] {
      AllAtLeast(s[1..], floor);
    }
  }
}
