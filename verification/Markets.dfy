/** Developed and US shares of a position's country rows (position/position.py). */
module Markets {
  import opened Wrappers
  import opened OrderedDict
  import opened Scalars

  datatype Lists = Lists(developed: set<string>, emerging: set<string>)

  const US := "United States"
  const OTHER_MARKET := "Other"

  /** What the two loops rely on: the United States is developed, and "Other" is nowhere emerging. */
  predicate Agree(lists: Lists) {
    US in lists.developed && OTHER_MARKET !in lists.emerging
  }

  /** How much of an unknown country counts as developed. */
  function OtherPart(dmemOther: Option<real>): real {
    if dmemOther.Some? then dmemOther.value else 0.5
  }

  function DevelopedPart(name: string, lists: Lists, dmemOther: Option<real>): real {
    if name in lists.developed then 1.0
    else if name in lists.emerging then 0.0
    else OtherPart(dmemOther)
  }

  /** The percentage points in developed markets. */
  function Developed(rows: seq<Entry>, lists: Lists, dmemOther: Option<real>): real {
    if rows == [] then 0.0
    else Times(DevelopedPart(rows[0].key, lists, dmemOther), rows[0].val) + Developed(rows[1..], lists, dmemOther)
  }

  /** The developed share of the rows, or the stored one when there are none. */
  function Dmem(rows: seq<Entry>, lists: Lists, dmemOther: Option<real>, stored: Option<real>): real {
    if rows == [] then (if stored.Some? then stored.value else 0.0)
    else Ratio(Developed(rows, lists, dmemOther), Total(rows))
  }

  /** The US share within the developed part, or the stored one when there are no rows. */
  function Usavn(rows: seq<Entry>, lists: Lists, dmemOther: Option<real>, stored: Option<real>): real {
    if rows == [] then (if stored.Some? then stored.value else 0.0)
    else Ratio(SumFor(rows, US), Developed(rows, lists, dmemOther))
  }

  lemma {:induction false} NextRow(rows: seq<Entry>, n: nat, lists: Lists, dmemOther: Option<real>)
    requires n < |rows|
    ensures Total(rows[..n + 1]) == Total(rows[..n]) + rows[n].val
    ensures SumFor(rows[..n + 1], US) == SumFor(rows[..n], US) + if rows[n].key == US then rows[n].val else 0.0
    ensures Developed(rows[..n + 1], lists, dmemOther)
            == Developed(rows[..n], lists, dmemOther)
               + Times(DevelopedPart(rows[n].key, lists, dmemOther), rows[n].val)
  {
    assert rows[..n + 1] == rows[..n] + [rows[n]] && [rows[n]][1..] == [];
    TotalOfSum(rows[..n], [rows[n]]);
    SumForOfSum(rows[..n], [rows[n]], US);
    DevelopedOfSum(rows[..n], [rows[n]], lists, dmemOther);
  }

  lemma {:induction false} DevelopedOfSum(a: seq<Entry>, b: seq<Entry>, lists: Lists, dmemOther: Option<real>)
    ensures Developed(a + b, lists, dmemOther) == Developed(a, lists, dmemOther) + Developed(b, lists, dmemOther)
  {
    if a == [] {
      assert a + b == b;
    } else {
      assert (a + b)[1..] == a[1..] + b;
      DevelopedOfSum(a[1..], b, lists, dmemOther);
    }
  }

  lemma WeightParts(w: real, other: real)
    ensures Times(1.0, w) == w && Times(0.0, w) == 0.0
    ensures Times(other, w) == Times(w, other) && w - Times(other, w) == Times(w, 1.0 - other)
  {
  }

  function EmergingPoints(rows: seq<Entry>, lists: Lists, dmemOther: Option<real>): real {
    Total(rows) - Developed(rows, lists, dmemOther)
  }

  lemma {:induction false} DevelopedNext(rows: seq<Entry>, n: nat, lists: Lists, dmemOther: Option<real>)
    requires n < |rows|
    ensures var name, w, other := rows[n].key, rows[n].val, OtherPart(dmemOther);
            && Developed(rows[..n + 1], lists, dmemOther) == Developed(rows[..n], lists, dmemOther)
               + (if name in lists.developed then w else if name in lists.emerging then 0.0 else Times(w, other))
            && EmergingPoints(rows[..n + 1], lists, dmemOther) == EmergingPoints(rows[..n], lists, dmemOther)
               + (if name in lists.developed then 0.0 else if name in lists.emerging then w else Times(w, 1.0 - other))
  {
    NextRow(rows, n, lists, dmemOther);
    WeightParts(rows[n].val, OtherPart(dmemOther));
  }

  /** `_compute_dev_vs_em_market` */
  method ComputeDevVsEmMarket(countries: seq<Entry>, lists: Lists, dmemOther: Option<real>, stored: Option<real>)
    returns (dmem: real)
    ensures dmem == Dmem(countries, lists, dmemOther, stored)
  {
    if countries == [] {
      return if stored.Some? then stored.value else 0.0;
    }
    var developed, emerging := 0.0, 0.0;
    for i := 0 to |countries|
      invariant developed == Developed(countries[..i], lists, dmemOther)
      invariant emerging == EmergingPoints(countries[..i], lists, dmemOther)
    {
      var name, w := countries[i].key, countries[i].val;
      DevelopedNext(countries, i, lists, dmemOther);
      if name in lists.developed {
        developed := developed + w;
      } else if name in lists.emerging {
        emerging := emerging + w;
      } else if dmemOther.Some? {
        developed := developed + Times(w, dmemOther.value);
        emerging := emerging + Times(w, 1.0 - dmemOther.value);
      } else {
        developed := developed + Times(w, 0.5);
        emerging := emerging + Times(w, 0.5);
      }
    }
    assert countries[..|countries|] == countries;
    var total := developed + emerging;
    return if total > 0.0 then developed / total else 0.0;
  }

  function NonUs(rows: seq<Entry>, lists: Lists, dmemOther: Option<real>): real {
    Developed(rows, lists, dmemOther) - SumFor(rows, US)
  }

  lemma {:induction false} NonUsNext(rows: seq<Entry>, n: nat, lists: Lists, dmemOther: Option<real>)
    requires n < |rows| && Agree(lists)
    ensures var name, w := rows[n].key, rows[n].val;
            NonUs(rows[..n + 1], lists, dmemOther) == NonUs(rows[..n], lists, dmemOther)
            + if name == US then 0.0
              else if name in lists.developed then w
              else if name == OTHER_MARKET || name !in lists.emerging then Times(w, OtherPart(dmemOther))
              else 0.0
    ensures SumFor(rows[..n + 1], US) == SumFor(rows[..n], US) + if rows[n].key == US then rows[n].val else 0.0
  {
    NextRow(rows, n, lists, dmemOther);
    WeightParts(rows[n].val, OtherPart(dmemOther));
  }

  /** `_compute_us_vs_exus_market`: a loop of its own over the same rows. */
  method ComputeUsVsExusMarket(countries: seq<Entry>, lists: Lists, dmemOther: Option<real>, stored: Option<real>)
    returns (usavn: real)
    requires Agree(lists)
    ensures usavn == Usavn(countries, lists, dmemOther, stored)
  {
    if countries == [] {
      return if stored.Some? then stored.value else 0.0;
    }
    var us, nonUs := 0.0, 0.0;
    for i := 0 to |countries|
      invariant us == SumFor(countries[..i], US)
      invariant nonUs == NonUs(countries[..i], lists, dmemOther)
    {
      var name, w := countries[i].key, countries[i].val;
      NonUsNext(countries, i, lists, dmemOther);
      if name == US {
        us := us + w;
      } else if name in lists.developed {
        nonUs := nonUs + w;
      } else if name == OTHER_MARKET || name !in lists.emerging {
        nonUs := nonUs + Times(w, if dmemOther.Some? then dmemOther.value else 0.5);
      }
    }
    assert countries[..|countries|] == countries;
    return if us + nonUs > 0.0 then us / (us + nonUs) else 0.0;
  }

  // ------------------------------------------------------------------------ agreement

  predicate ProperPart(dmemOther: Option<real>) {
    dmemOther.Some? ==> 0.0 <= dmemOther.value <= 1.0
  }

  lemma PartBounds(part: real, w: real)
    requires 0.0 <= part <= 1.0 && w >= 0.0
    ensures 0.0 <= Times(part, w) <= w
    ensures part == 1.0 ==> Times(part, w) == w
  {
    assert (1.0 - part) * w >= 0.0;
  }

  lemma {:induction false} Nested(rows: seq<Entry>, lists: Lists, dmemOther: Option<real>)
    requires Agree(lists) && NonNegativeEntries(rows) && ProperPart(dmemOther)
    ensures 0.0 <= SumFor(rows, US) <= Developed(rows, lists, dmemOther) <= Total(rows)
  {
    if rows != [] {
      Nested(rows[1..], lists, dmemOther);
      PartBounds(DevelopedPart(rows[0].key, lists, dmemOther), rows[0].val);
    }
  }

  /** Both loops agree on the same rows: the two shares multiply to the US weight over the
      total weight. */
  lemma {:induction false} SharesAgree(rows: seq<Entry>, lists: Lists, dmemOther: Option<real>,
                                       storedDmem: Option<real>, storedUsavn: Option<real>)
    requires Agree(lists) && NonNegativeEntries(rows) && ProperPart(dmemOther) && Total(rows) > 0.0
    ensures var dmem := Dmem(rows, lists, dmemOther, storedDmem);
            var usavn := Usavn(rows, lists, dmemOther, storedUsavn);
            && 0.0 <= dmem <= 1.0 && 0.0 <= usavn <= 1.0
            && dmem * usavn == SumFor(rows, US) / Total(rows)
  {
    Nested(rows, lists, dmemOther);
    RatioChain(SumFor(rows, US), Developed(rows, lists, dmemOther), Total(rows));
  }

  lemma RatioChain(u: real, d: real, t: real)
    requires 0.0 <= u <= d <= t && t > 0.0
    ensures 0.0 <= Ratio(d, t) <= 1.0 && 0.0 <= Ratio(u, d) <= 1.0
    ensures Ratio(d, t) * Ratio(u, d) == u / t
  {
    assert d / t <= t / t;
    if d > 0.0 {
      var x, y := d / t, u / d;
      assert x * t == d && y * d == u && u / d <= d / d;
      assert (x * y) * t == y * (x * t) == u;
      assert ((x * y) * t) / t == x * y;
    }
  }

  // ------------------------------------------------------------------ scale invariance

  lemma {:induction false} DevelopedScales(rows: seq<Entry>, k: real, lists: Lists, dmemOther: Option<real>)
    ensures Developed(Scale(rows, k), lists, dmemOther) == Times(k, Developed(rows, lists, dmemOther))
  {
    if rows != [] {
      DevelopedScales(rows[1..], k, lists, dmemOther);
      assert Scale(rows, k)[1..] == Scale(rows[1..], k);
      Distributes(k, DevelopedPart(rows[0].key, lists, dmemOther), rows[0].val, Developed(rows[1..], lists, dmemOther));
    }
  }

  lemma Distributes(k: real, part: real, w: real, rest: real)
    ensures Times(part, Times(k, w)) + Times(k, rest) == Times(k, Times(part, w) + rest)
  {
    assert part * (k * w) == k * (part * w);
  }

  lemma RatioScales(k: real, part: real, whole: real)
    requires k > 0.0
    ensures Ratio(Times(k, part), Times(k, whole)) == Ratio(part, whole)
  {
    assert k * whole > 0.0 <==> whole > 0.0;
    if whole > 0.0 {
      var x := part / whole;
      assert x * whole == part;
      assert x * (k * whole) == k * part;
      assert (x * (k * whole)) / (k * whole) == x;
    }
  }

  /** Rows in the same proportions have the same shares. */
  lemma {:induction false} SharesScale(rows: seq<Entry>, k: real, lists: Lists, dmemOther: Option<real>,
                                       stored: Option<real>)
    requires k > 0.0
    ensures Dmem(Scale(rows, k), lists, dmemOther, stored) == Dmem(rows, lists, dmemOther, stored)
    ensures Usavn(Scale(rows, k), lists, dmemOther, stored) == Usavn(rows, lists, dmemOther, stored)
  {
    DevelopedScales(rows, k, lists, dmemOther);
    ScaleTotal(rows, k);
    ScaleSumFor(rows, k, US);
    RatioScales(k, Developed(rows, lists, dmemOther), Total(rows));
    RatioScales(k, SumFor(rows, US), Developed(rows, lists, dmemOther));
  }

  /** One country alone: developed countries count in full, emerging ones not at all, unknown ones by the given
      share or by half; of what is developed, the United States are everything or nothing. */
  lemma {:induction false} OneCountry(name: string, w: real, lists: Lists, dmemOther: Option<real>)
    requires Agree(lists) && w > 0.0
    ensures Dmem([Entry(name, w)], lists, dmemOther, None)
            == if name in lists.developed then 1.0 else if name in lists.emerging then 0.0
               else if dmemOther.Some? then dmemOther.value else 0.5
    ensures Usavn([Entry(name, w)], lists, dmemOther, None) == if name == "United States" then 1.0 else 0.0
    ensures Dmem([], lists, dmemOther, Some(w)) == w && Usavn([], lists, dmemOther, Some(w)) == w
    ensures Dmem([], lists, dmemOther, None) == 0.0 && Usavn([], lists, dmemOther, None) == 0.0
  {
    var rows := [Entry(name, w)];
    assert rows[1..] == [] && Total([]) == 0.0 && SumFor([], US) == 0.0 && Developed([], lists, dmemOther) == 0.0;
    WholeRatio(DevelopedPart(name, lists, dmemOther), w);
  }

  lemma WholeRatio(part: real, w: real)
    requires w > 0.0
    ensures Ratio(Times(part, w), w) == part && Ratio(w, w) == 1.0 && Times(1.0, w) == w
    ensures Ratio(0.0, Times(part, w)) == 0.0
  {
  }
}
