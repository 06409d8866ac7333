/** Python dictionaries from names to numbers: entries in insertion order. */
module OrderedDict {
  import opened Scalars

  datatype Entry = Entry(key: string, val: real)

  type Dict = seq<Entry>

  predicate Has(d: Dict, k: string) {
    exists i :: 0 <= i < |d| && d[i].key == k
  }

  predicate Distinct(d: Dict) {
    forall i, j :: 0 <= i < j < |d| ==> d[i].key != d[j].key
  }

  predicate NonNegativeEntries(d: seq<Entry>) {
    forall i :: 0 <= i < |d| ==> d[i].val >= 0.0
  }

  /** `d.get(k, 0.0)` */
  function Get(d: Dict, k: string): real {
    if d == [] then 0.0 else if d[0].key == k then d[0].val else Get(d[1..], k)
  }

  /** `d[k] = d.get(k, 0.0) + w` */
  function Bump(d: Dict, k: string, w: real): Dict {
    if d == [] then [Entry(k, w)]
    else if d[0].key == k then [Entry(k, d[0].val + w)] + d[1..]
    else [d[0]] + Bump(d[1..], k, w)
  }

  /** Bumping by every entry in turn. */
  function Fill(d: Dict, es: seq<Entry>): Dict
    decreases |es|
  {
    if es == [] then d else Fill(Bump(d, es[0].key, es[0].val), es[1..])
  }

  function Total(d: seq<Entry>): real {
    if d == [] then 0.0 else d[0].val + Total(d[1..])
  }

  /** The sum of what a list of entries says about one key. */
  function SumFor(es: seq<Entry>, k: string): real {
    if es == [] then 0.0 else (if es[0].key == k then es[0].val else 0.0) + SumFor(es[1..], k)
  }

  function Scale(d: seq<Entry>, c: real): (r: seq<Entry>)
    ensures |r| == |d|
    ensures forall i :: 0 <= i < |d| ==> r[i] == Entry(d[i].key, Times(c, d[i].val))
  {
    if d == [] then [] else [Entry(d[0].key, Times(c, d[0].val))] + Scale(d[1..], c)
  }

  // ------------------------------------------------------------------------- bumps

  lemma {:induction false} HasHead(d: Dict, q: string)
    requires d != []
    ensures Has(d, q) <==> d[0].key == q || Has(d[1..], q)
  {
    if Has(d[1..], q) {
      var i :| 0 <= i < |d[1..]| && d[1..][i].key == q;
      assert d[i + 1].key == q;
    }
    if Has(d, q) && d[0].key != q {
      var i :| 0 <= i < |d| && d[i].key == q;
      assert d[1..][i - 1].key == q;
    }
  }

  lemma {:induction false} BumpHas(d: Dict, k: string, w: real, q: string)
    ensures Has(Bump(d, k, w), q) <==> Has(d, q) || q == k
  {
    if d == [] {
      assert Bump(d, k, w)[0].key == k;
    } else {
      HasHead(d, q);
      HasHead(Bump(d, k, w), q);
      if d[0].key == k {
        assert Bump(d, k, w)[1..] == d[1..];
      } else {
        BumpHas(d[1..], k, w, q);
        assert Bump(d, k, w)[1..] == Bump(d[1..], k, w);
      }
    }
  }

  lemma {:induction false} BumpSize(d: Dict, k: string, w: real)
    ensures |Bump(d, k, w)| == if Has(d, k) then |d| else |d| + 1
  {
    if d != [] {
      HasHead(d, k);
      if d[0].key != k {
        BumpSize(d[1..], k, w);
      }
    }
  }

  lemma {:induction false} DistinctCons(e: Entry, d: Dict)
    requires Distinct(d) && !Has(d, e.key)
    ensures Distinct([e] + d)
  {
  }

  lemma {:induction false} BumpDistinct(d: Dict, k: string, w: real)
    requires Distinct(d)
    ensures Distinct(Bump(d, k, w))
  {
    if d != [] {
      assert Distinct(d[1..]) && !Has(d[1..], d[0].key);
      if d[0].key == k {
        DistinctCons(Entry(k, d[0].val + w), d[1..]);
      } else {
        BumpDistinct(d[1..], k, w);
        BumpHas(d[1..], k, w, d[0].key);
        DistinctCons(d[0], Bump(d[1..], k, w));
      }
    }
  }

  lemma {:induction false} BumpKeys(d: Dict, k: string, w: real)
    requires Distinct(d)
    ensures Distinct(Bump(d, k, w))
    ensures forall q :: Has(Bump(d, k, w), q) <==> Has(d, q) || q == k
    ensures |Bump(d, k, w)| == if Has(d, k) then |d| else |d| + 1
  {
    BumpDistinct(d, k, w);
    BumpSize(d, k, w);
    forall q ensures Has(Bump(d, k, w), q) <==> Has(d, q) || q == k {
      BumpHas(d, k, w, q);
    }
  }

  lemma {:induction false} BumpGet(d: Dict, k: string, w: real, q: string)
    ensures Get(Bump(d, k, w), q) == Get(d, q) + if q == k then w else 0.0
  {
    if d != [] && d[0].key != k {
      BumpGet(d[1..], k, w, q);
      assert Bump(d, k, w)[1..] == Bump(d[1..], k, w);
    }
  }

  lemma {:induction false} BumpTotal(d: Dict, k: string, w: real)
    ensures Total(Bump(d, k, w)) == Total(d) + w
  {
    if d != [] && d[0].key != k {
      BumpTotal(d[1..], k, w);
      assert Bump(d, k, w)[1..] == Bump(d[1..], k, w);
    }
  }

  lemma {:induction false} BumpCons(e: Entry, d: Dict, k: string, w: real)
    ensures Bump([e] + d, k, w) == if e.key == k then [Entry(k, e.val + w)] + d else [e] + Bump(d, k, w)
  {
    assert ([e] + d)[1..] == d;
  }

  lemma {:induction false} BumpTwice(d: Dict, k: string, v: real, w: real)
    ensures Bump(Bump(d, k, v), k, w) == Bump(d, k, v + w)
  {
    if d == [] {
      BumpCons(Entry(k, v), [], k, w);
      assert [Entry(k, v)] + [] == [Entry(k, v)] && [Entry(k, v + w)] + [] == [Entry(k, v + w)];
    } else if d[0].key == k {
      BumpCons(Entry(k, d[0].val + v), d[1..], k, w);
    } else {
      BumpTwice(d[1..], k, v, w);
      BumpCons(d[0], Bump(d[1..], k, v), k, w);
    }
  }

  lemma {:induction false} PastBoth(x: Entry, rest: Dict, k: string, w: real, q: string, v: real)
    requires x.key != k && x.key != q
    ensures Bump(Bump([x] + rest, k, w), q, v) == [x] + Bump(Bump(rest, k, w), q, v)
  {
    BumpCons(x, rest, k, w);
    BumpCons(x, Bump(rest, k, w), q, v);
  }

  lemma {:induction false} AtHead(x: Entry, rest: Dict, w: real, q: string, v: real)
    requires x.key != q
    ensures Bump(Bump([x] + rest, x.key, w), q, v) == [Entry(x.key, x.val + w)] + Bump(rest, q, v)
    ensures Bump(Bump([x] + rest, q, v), x.key, w) == [Entry(x.key, x.val + w)] + Bump(rest, q, v)
  {
    BumpCons(x, rest, x.key, w);
    BumpCons(Entry(x.key, x.val + w), rest, q, v);
    BumpCons(x, rest, q, v);
    BumpCons(x, Bump(rest, q, v), x.key, w);
  }

  /** A key that is already there may be bumped before or after another one. */
  lemma {:induction false} BumpsCommute(d: Dict, k: string, w: real, q: string, v: real)
    requires k != q && Has(d, k)
    ensures Bump(Bump(d, k, w), q, v) == Bump(Bump(d, q, v), k, w)
  {
    var x, rest := d[0], d[1..];
    assert d == [x] + rest;
    HasHead(d, k);
    if x.key == k {
      AtHead(x, rest, w, q, v);
    } else if x.key == q {
      AtHead(x, rest, v, k, w);
    } else {
      BumpsCommute(rest, k, w, q, v);
      PastBoth(x, rest, k, w, q, v);
      PastBoth(x, rest, q, v, k, w);
    }
  }

  // ------------------------------------------------------------------------- fills

  lemma {:induction false} FillDistinct(d: Dict, es: seq<Entry>)
    requires Distinct(d)
    ensures Distinct(Fill(d, es))
    decreases |es|
  {
    if es != [] {
      BumpKeys(d, es[0].key, es[0].val);
      FillDistinct(Bump(d, es[0].key, es[0].val), es[1..]);
    }
  }

  lemma {:induction false} FillTotal(d: Dict, es: seq<Entry>)
    ensures Total(Fill(d, es)) == Total(d) + Total(es)
    decreases |es|
  {
    if es != [] {
      BumpTotal(d, es[0].key, es[0].val);
      FillTotal(Bump(d, es[0].key, es[0].val), es[1..]);
    }
  }

  lemma {:induction false} FillGet(d: Dict, es: seq<Entry>, q: string)
    ensures Get(Fill(d, es), q) == Get(d, q) + SumFor(es, q)
    decreases |es|
  {
    if es != [] {
      BumpGet(d, es[0].key, es[0].val, q);
      FillGet(Bump(d, es[0].key, es[0].val), es[1..], q);
    }
  }

  lemma {:induction false} FillSplit(d: Dict, a: seq<Entry>, b: seq<Entry>)
    ensures Fill(d, a + b) == Fill(Fill(d, a), b)
    decreases |a|
  {
    if a == [] {
      assert a + b == b;
    } else {
      assert (a + b)[1..] == a[1..] + b;
      FillSplit(Bump(d, a[0].key, a[0].val), a[1..], b);
    }
  }

  lemma {:induction false} BumpPassesFill(d: Dict, k: string, w: real, es: seq<Entry>)
    requires Has(d, k) && Distinct(d) && !Has(es, k)
    ensures Fill(Bump(d, k, w), es) == Bump(Fill(d, es), k, w)
    decreases |es|
  {
    if es != [] {
      HasHead(es, k);
      BumpsCommute(d, k, w, es[0].key, es[0].val);
      BumpKeys(d, es[0].key, es[0].val);
      BumpPassesFill(Bump(d, es[0].key, es[0].val), k, w, es[1..]);
    }
  }

  lemma {:induction false} FillOfBump(d: Dict, into: Dict, k: string, w: real)
    requires Distinct(d) && Distinct(into)
    ensures Fill(into, Bump(d, k, w)) == Bump(Fill(into, d), k, w)
    decreases |d|
  {
    if d == [] {
      var es := Bump(d, k, w);
      assert es == [Entry(k, w)] && es[1..] == [];
      assert Fill(into, es) == Fill(Bump(into, k, w), []);
    } else if d[0].key == k {
      BumpTwice(into, k, d[0].val, w);
      BumpKeys(into, k, d[0].val);
      assert !Has(d[1..], k);
      BumpPassesFill(Bump(into, k, d[0].val), k, w, d[1..]);
      assert Bump(d, k, w)[1..] == d[1..];
    } else {
      BumpKeys(into, d[0].key, d[0].val);
      FillOfBump(d[1..], Bump(into, d[0].key, d[0].val), k, w);
      assert Bump(d, k, w)[1..] == Bump(d[1..], k, w);
    }
  }

  /** Pouring in a dictionary that was itself filled is the same as filling directly. */
  lemma {:induction false} FillOfFill(into: Dict, d: Dict, es: seq<Entry>)
    requires Distinct(into) && Distinct(d)
    ensures Fill(into, Fill(d, es)) == Fill(Fill(into, d), es)
    decreases |es|
  {
    if es != [] {
      FillOfBump(d, into, es[0].key, es[0].val);
      BumpKeys(d, es[0].key, es[0].val);
      FillOfFill(into, Bump(d, es[0].key, es[0].val), es[1..]);
    }
  }

  lemma {:induction false} BumpNewKey(d: Dict, k: string, w: real)
    requires !Has(d, k)
    ensures Bump(d, k, w) == d + [Entry(k, w)]
  {
    if d != [] {
      HasHead(d, k);
      BumpNewKey(d[1..], k, w);
      assert [d[0]] + (d[1..] + [Entry(k, w)]) == d + [Entry(k, w)];
    }
  }

  /** Entries with new, distinct keys are simply appended. */
  lemma {:induction false} FillAppends(d: Dict, es: seq<Entry>)
    requires Distinct(d + es)
    ensures Fill(d, es) == d + es
    decreases |es|
  {
    if es == [] {
      assert d + es == d;
    } else {
      assert !Has(d, es[0].key) by {
        forall i | 0 <= i < |d| ensures d[i].key != es[0].key {
          assert (d + es)[i] == d[i] && (d + es)[|d|] == es[0];
        }
      }
      BumpNewKey(d, es[0].key, es[0].val);
      assert d + [es[0]] + es[1..] == d + es;
      FillAppends(d + [es[0]], es[1..]);
    }
  }

  // ------------------------------------------------------------------------ scaling

  lemma {:induction false} ScaleBump(d: Dict, k: string, w: real, c: real)
    ensures Scale(Bump(d, k, w), c) == Bump(Scale(d, c), k, Times(c, w))
  {
    if d != [] {
      if d[0].key == k {
        assert Bump(d, k, w)[1..] == d[1..] && Scale(d, c)[1..] == Scale(d[1..], c);
        assert Times(c, d[0].val + w) == Times(c, d[0].val) + Times(c, w);
      } else {
        ScaleBump(d[1..], k, w, c);
        assert Bump(d, k, w)[1..] == Bump(d[1..], k, w);
        assert Scale(d, c)[1..] == Scale(d[1..], c);
      }
    }
  }

  lemma {:induction false} ScaleFill(d: Dict, es: seq<Entry>, c: real)
    ensures Scale(Fill(d, es), c) == Fill(Scale(d, c), Scale(es, c))
    decreases |es|
  {
    if es != [] {
      ScaleBump(d, es[0].key, es[0].val, c);
      ScaleFill(Bump(d, es[0].key, es[0].val), es[1..], c);
      assert Scale(es, c)[1..] == Scale(es[1..], c);
    }
  }

  lemma {:induction false} ScaleTotal(d: seq<Entry>, c: real)
    ensures Total(Scale(d, c)) == Times(c, Total(d))
  {
    if d != [] {
      ScaleTotal(d[1..], c);
      assert Scale(d, c)[1..] == Scale(d[1..], c);
      assert Times(c, d[0].val + Total(d[1..])) == Times(c, d[0].val) + Times(c, Total(d[1..]));
    }
  }

  lemma {:induction false} ScaleSumFor(es: seq<Entry>, c: real, k: string)
    ensures SumFor(Scale(es, c), k) == Times(c, SumFor(es, k))
  {
    if es != [] {
      ScaleSumFor(es[1..], c, k);
      assert Scale(es, c)[1..] == Scale(es[1..], c);
      var v := if es[0].key == k then es[0].val else 0.0;
      assert Times(c, v + SumFor(es[1..], k)) == Times(c, v) + Times(c, SumFor(es[1..], k));
    }
  }

  lemma {:induction false} ScaleOne(d: seq<Entry>)
    ensures Scale(d, 1.0) == d
  {
    forall i | 0 <= i < |d| ensures Scale(d, 1.0)[i] == d[i] {
      assert Times(1.0, d[i].val) == d[i].val;
    }
  }

  lemma TimesTwice(a: real, b: real, x: real)
    ensures Times(a, Times(b, x)) == Times(Times(a, b), x)
  {
  }

  lemma {:induction false} ScaleTwice(d: seq<Entry>, a: real, b: real, c: real)
    requires Times(a, b) == c
    ensures Scale(Scale(d, b), a) == Scale(d, c)
  {
    forall i | 0 <= i < |d| ensures Scale(Scale(d, b), a)[i] == Scale(d, c)[i] {
      TimesTwice(a, b, d[i].val);
    }
  }

  lemma {:induction false} TotalOfSum(a: seq<Entry>, b: seq<Entry>)
    ensures Total(a + b) == Total(a) + Total(b)
  {
    if a == [] {
      assert a + b == b;
    } else {
      assert (a + b)[1..] == a[1..] + b;
      TotalOfSum(a[1..], b);
    }
  }

  lemma {:induction false} SumForOfSum(a: seq<Entry>, b: seq<Entry>, k: string)
    ensures SumFor(a + b, k) == SumFor(a, k) + SumFor(b, k)
  {
    if a == [] {
      assert a + b == b;
    } else {
      assert (a + b)[1..] == a[1..] + b;
      SumForOfSum(a[1..], b, k);
    }
  }

  // -------------------------------------------------------------------- assignments

  /** `d[k] = v` */
  function Put(d: Dict, e: Entry): Dict {
    if d == [] then [e] else if d[0].key == e.key then [e] + d[1..] else [d[0]] + Put(d[1..], e)
  }

  function PutAll(d: Dict, es: seq<Entry>): Dict
    decreases |es|
  {
    if es == [] then d else PutAll(Put(d, es[0]), es[1..])
  }

  lemma {:induction false} PutNew(d: Dict, e: Entry)
    requires !Has(d, e.key)
    ensures Put(d, e) == d + [e]
  {
    if d != [] {
      HasHead(d, e.key);
      PutNew(d[1..], e);
    }
  }

  lemma {:induction false} PutAllNew(d: Dict, es: seq<Entry>)
    requires Distinct(d + es)
    ensures PutAll(d, es) == d + es
    decreases |es|
  {
    if es == [] {
      assert d + es == d;
    } else {
      forall i | 0 <= i < |d| ensures d[i].key != es[0].key {
        assert (d + es)[i] == d[i] && (d + es)[|d|] == es[0];
      }
      PutNew(d, es[0]);
      assert d + [es[0]] + es[1..] == d + es;
      PutAllNew(d + [es[0]], es[1..]);
    }
  }

  lemma {:induction false} PutAllOfSum(d: Dict, a: seq<Entry>, b: seq<Entry>)
    ensures PutAll(d, a + b) == PutAll(PutAll(d, a), b)
    decreases |a|
  {
    if a == [] {
      assert a + b == b;
    } else {
      assert (a + b)[1..] == a[1..] + b;
      PutAllOfSum(Put(d, a[0]), a[1..], b);
    }
  }

  // ----------------------------------------------------------------------- weighting

  function Part(value: real, total: real): real
    requires total != 0.0
  {
    value / total
  }

  lemma {:induction false} PartsOfWhole(a: real, b: real)
    requires a + b != 0.0
    ensures Part(a, a + b) + Part(b, a + b) == 1.0
  {
    assert (a + b) / (a + b) == 1.0;
    assert a / (a + b) + b / (a + b) == (a + b) / (a + b);
  }

  lemma {:induction false} WholePart(total: real)
    requires total != 0.0
    ensures Part(total, total) == 1.0
  {
  }

  lemma {:induction false} PartOfPart(p: real, v: real, total: real)
    requires v != 0.0 && total != 0.0
    ensures Times(Part(v, total), Part(p, v)) == Part(p, total)
  {
    var x, y := v / total, p / v;
    assert x * total == v && y * v == p;
    assert (x * y) * total == p by {
      assert (x * y) * total == y * (x * total);
    }
    assert ((x * y) * total) / total == x * y;
  }

  lemma {:induction false} ScaleKeepsDistinct(d: Dict, c: real)
    requires Distinct(d)
    ensures Distinct(Scale(d, c))
  {
  }

  lemma {:induction false} ScaleGet(d: Dict, c: real, k: string)
    ensures Get(Scale(d, c), k) == Times(c, Get(d, k))
  {
    if d != [] && d[0].key != k {
      ScaleGet(d[1..], c, k);
      assert Scale(d, c)[1..] == Scale(d[1..], c);
    }
  }

  lemma {:induction false} GetAt(d: Dict, i: nat)
    requires Distinct(d) && i < |d|
    ensures Get(d, d[i].key) == d[i].val
  {
    if i > 0 {
      GetAt(d[1..], i - 1);
    }
  }

  lemma {:induction false} DictSum(d: Dict, k: string)
    requires Distinct(d)
    ensures SumFor(d, k) == Get(d, k)
  {
    if d != [] {
      DictSum(d[1..], k);
      if d[0].key == k {
        forall i | 0 <= i < |d[1..]| ensures d[1..][i].key != k {
          assert d[1..][i] == d[i + 1];
        }
        NothingForAbsent(d[1..], k);
      }
    }
  }

  lemma {:induction false} NothingForAbsent(es: seq<Entry>, k: string)
    requires !Has(es, k)
    ensures SumFor(es, k) == 0.0
  {
    if es != [] {
      HasHead(es, k);
      NothingForAbsent(es[1..], k);
    }
  }

  /** Two dictionaries in proportion to their weights. */
  function Mix(a: Dict, l: real, b: Dict, r: real): Dict
    requires l + r != 0.0
  {
    Fill(Scale(a, Part(l, l + r)), Scale(b, Part(r, l + r)))
  }

  lemma {:induction false} MixScales(a: Dict, l: real, b: Dict, r: real, total: real)
    requires l + r != 0.0 && total != 0.0
    ensures Scale(Mix(a, l, b, r), Part(l + r, total)) == Fill(Scale(a, Part(l, total)), Scale(b, Part(r, total)))
  {
    var f := Part(l + r, total);
    ScaleFill(Scale(a, Part(l, l + r)), Scale(b, Part(r, l + r)), f);
    PartOfPart(l, l + r, total);
    PartOfPart(r, l + r, total);
    ScaleTwice(a, f, Part(l, l + r), Part(l, total));
    ScaleTwice(b, f, Part(r, l + r), Part(r, total));
  }

  lemma {:induction false} MixDistinct(a: Dict, l: real, b: Dict, r: real)
    requires l + r != 0.0 && Distinct(a)
    ensures Distinct(Mix(a, l, b, r))
  {
    ScaleKeepsDistinct(a, Part(l, l + r));
    FillDistinct(Scale(a, Part(l, l + r)), Scale(b, Part(r, l + r)));
  }

  /** Mixing is associative, names in the same order. */
  lemma {:induction false} MixAssociates(a: Dict, x: real, b: Dict, y: real, c: Dict, z: real)
    requires x + y != 0.0 && y + z != 0.0 && x + y + z != 0.0 && Distinct(a) && Distinct(b)
    ensures Mix(Mix(a, x, b, y), x + y, c, z) == Mix(a, x, Mix(b, y, c, z), y + z)
  {
    var total := x + y + z;
    var sa, sb, sc := Scale(a, Part(x, total)), Scale(b, Part(y, total)), Scale(c, Part(z, total));
    MixScales(a, x, b, y, total);
    MixScales(b, y, c, z, total);
    ScaleKeepsDistinct(a, Part(x, total));
    ScaleKeepsDistinct(b, Part(y, total));
    FillOfFill(sa, sb, sc);
    assert x + (y + z) == total;
  }
}
