/** The wedges of the regional chart (`_compute_geosplit_data`, portfolio/regional_portfolio.py). */
module GeoWedges {
  import opened Wrappers
  import opened OrderedDict
  import opened Scalars
  import opened Positions
  import opened GeoSplit

  // ------------------------------------------------------------------------- amounts

  function Developed(ps: seq<Position>): real {
    if ps == [] then 0.0 else Times(ps[0].value, ps[0].dmem) + Developed(ps[1..])
  }

  function UnitedStates(ps: seq<Position>): real {
    if ps == [] then 0.0 else Times(ps[0].value, Times(ps[0].dmem, ps[0].usavn)) + UnitedStates(ps[1..])
  }

  /** `_regional_absolute_values` */
  function AbsoluteAmounts(ps: seq<Position>): Amounts {
    var developed := Developed(ps);
    var us := if developed > 0.0 then UnitedStates(ps) else 0.0;
    Amounts(us, developed - us, Value(ps) - developed)
  }

  function In(a: Amounts, r: Region): real {
    match r
    case US => a.us
    case ExUS => a.exUs
    case Emerging => a.emerging
  }

  predicate Proper(ps: seq<Position>) {
    forall i :: 0 <= i < |ps| ==> ps[i].value >= 0.0 && 0.0 <= ps[i].dmem <= 1.0 && 0.0 <= ps[i].usavn <= 1.0
  }

  lemma {:induction false} SharesNest(v: real, d: real, u: real)
    requires v >= 0.0 && 0.0 <= d <= 1.0 && 0.0 <= u <= 1.0
    ensures 0.0 <= Times(v, Times(d, u)) <= Times(v, d) <= v
  {
    assert 0.0 <= d * u <= d by {
      assert d * (1.0 - u) >= 0.0;
    }
    assert v * (d - d * u) >= 0.0 && v * (1.0 - d) >= 0.0;
  }

  lemma {:induction false} AmountsNest(ps: seq<Position>)
    requires Proper(ps)
    ensures 0.0 <= UnitedStates(ps) <= Developed(ps) <= Value(ps)
  {
    if ps != [] {
      AmountsNest(ps[1..]);
      SharesNest(ps[0].value, ps[0].dmem, ps[0].usavn);
    }
  }

  /** The three amounts are not negative, sum to the subtotal, and the first is the value-weighted
      US share even when the guard skips the product. */
  lemma {:induction false} AmountsPartition(ps: seq<Position>)
    requires Proper(ps)
    ensures var a := AbsoluteAmounts(ps);
            && a.us >= 0.0 && a.exUs >= 0.0 && a.emerging >= 0.0
            && a.us + a.exUs + a.emerging == Value(ps)
            && a.us == UnitedStates(ps)
  {
    AmountsNest(ps);
  }

  // ------------------------------------------------------------------ group ordering

  /** Strings in code point order. */
  predicate Before(a: string, b: string) {
    if b == "" then false
    else if a == "" then true
    else a[0] < b[0] || (a[0] == b[0] && Before(a[1..], b[1..]))
  }

  function PlaceByName(g: Group, s: seq<Group>): seq<Group> {
    if s == [] || !Before(s[0].shortName, g.shortName) then [g] + s else [s[0]] + PlaceByName(g, s[1..])
  }

  /** The groups worth something, by name. */
  function OrderedGroups(groups: seq<Group>): seq<Group> {
    if groups == [] then []
    else if groups[0].totalValue > 0.0 then PlaceByName(groups[0], OrderedGroups(groups[1..]))
    else OrderedGroups(groups[1..])
  }

  predicate Alphabetical(s: seq<Group>) {
    forall i, j :: 0 <= i < j < |s| ==> !Before(s[j].shortName, s[i].shortName)
  }

  lemma {:induction false} BeforeIsOrder(a: string, b: string, c: string)
    ensures Before(a, b) ==> !Before(b, a)
    ensures !Before(a, b) && !Before(b, c) ==> !Before(a, c)
  {
    if a != "" && b != "" && c != "" {
      BeforeIsOrder(a[1..], b[1..], c[1..]);
    } else if a != "" && b != "" {
      BeforeIsOrder(a[1..], b[1..], "");
    }
  }

  lemma {:induction false} PlacedByName(g: Group, s: seq<Group>)
    requires Alphabetical(s)
    ensures Alphabetical(PlaceByName(g, s))
    ensures forall x :: x in PlaceByName(g, s) <==> x in s || x == g
  {
    if s == [] {
    } else if !Before(s[0].shortName, g.shortName) {
      forall j | 0 <= j < |s| ensures !Before(s[j].shortName, g.shortName) {
        BeforeIsOrder(s[j].shortName, s[0].shortName, g.shortName);
      }
    } else {
      PlacedByName(g, s[1..]);
      BeforeIsOrder(s[0].shortName, g.shortName, "");
      var rest := PlaceByName(g, s[1..]);
      forall j | 0 <= j < |rest| ensures !Before(rest[j].shortName, s[0].shortName) {
        assert rest[j] in rest;
      }
    }
  }

  // -------------------------------------------------------------------------- wedges

  datatype Wedge = Wedge(region: Region, group: Option<string>, share: real)

  function RegionName(r: Region): string {
    match r
    case US => "US"
    case ExUS => "Ex-US"
    case Emerging => "Emrg. Markets"
  }

  function Key(prefix: string, r: Region, group: Option<string>): string {
    var plain := prefix + " " + RegionName(r);
    if group.Some? then plain + ": " + group.value else plain
  }

  function Entries(prefix: string, ws: seq<Wedge>): (es: seq<Entry>)
    ensures |es| == |ws|
    ensures forall i :: 0 <= i < |ws| ==> es[i] == Entry(Key(prefix, ws[i].region, ws[i].group), ws[i].share)
  {
    if ws == [] then []
    else [Entry(Key(prefix, ws[0].region, ws[0].group), ws[0].share)] + Entries(prefix, ws[1..])
  }

  /** Each group's part of a region, as fractions of the portfolio. */
  function GroupShares(gs: seq<Group>, r: Region, total: real): (ws: seq<Wedge>)
    requires total > 0.0
    ensures |ws| == |gs|
    ensures forall i :: 0 <= i < |gs| ==>
              ws[i] == Wedge(r, Some(gs[i].shortName), Part(In(AbsoluteAmounts(gs[i].positions), r), total))
  {
    if gs == [] then []
    else [Wedge(r, Some(gs[0].shortName), Part(In(AbsoluteAmounts(gs[0].positions), r), total))]
         + GroupShares(gs[1..], r, total)
  }

  /** The parts too small for a wedge of their own. */
  function Smalls(ws: seq<Wedge>): real {
    if ws == [] then 0.0 else (if 0.0 < ws[0].share < MIN_WEIGHT then ws[0].share else 0.0) + Smalls(ws[1..])
  }

  function Bigs(ws: seq<Wedge>): (bs: seq<Wedge>)
    ensures forall i :: 0 <= i < |bs| ==> bs[i].share >= MIN_WEIGHT && bs[i] in ws
  {
    if ws == [] then [] else (if ws[0].share >= MIN_WEIGHT then [ws[0]] else []) + Bigs(ws[1..])
  }

  /** The plain wedge, with the small groups folded in, and then the large groups. */
  function RegionWedges(r: Region, plain: real, ws: seq<Wedge>): seq<Wedge> {
    Assembled(r, plain, Smalls(ws), Bigs(ws))
  }

  function Assembled(r: Region, plain: real, smalls: real, bigs: seq<Wedge>): seq<Wedge> {
    if plain + smalls >= MIN_WEIGHT then [Wedge(r, None, plain + smalls)] + bigs else bigs
  }

  function PlainShare(amounts: Amounts, r: Region, total: real): real
    requires total > 0.0
  {
    if In(amounts, r) > 0.0 then Part(In(amounts, r), total) else 0.0
  }

  function RegionOf(gs: seq<Group>, plain: Amounts, r: Region, total: real): seq<Wedge>
    requires total > 0.0
  {
    RegionWedges(r, PlainShare(plain, r, total), GroupShares(gs, r, total))
  }

  /** Region by region. */
  function AllWedges(gs: seq<Group>, plain: Amounts, total: real): seq<Wedge>
    requires total > 0.0
  {
    RegionOf(gs, plain, US, total) + RegionOf(gs, plain, ExUS, total) + RegionOf(gs, plain, Emerging, total)
  }

  /** What the chart of a portfolio shows. */
  function Chart(ps: seq<Position>): seq<Wedge> {
    if Value(ps) <= 0.0 then []
    else AllWedges(OrderedGroups(Groups(ps, |ps|)), AbsoluteAmounts(Regional(ps)), Value(ps))
  }

  // --------------------------------------------------------------------------- loops

  lemma {:induction false} SharesNext(ws: seq<Wedge>, n: nat)
    requires n < |ws|
    ensures Smalls(ws[..n + 1]) == Smalls(ws[..n]) + if 0.0 < ws[n].share < MIN_WEIGHT then ws[n].share else 0.0
    ensures Bigs(ws[..n + 1]) == Bigs(ws[..n]) + (if ws[n].share >= MIN_WEIGHT then [ws[n]] else [])
  {
    assert ws[..n + 1] == ws[..n] + [ws[n]] && [ws[n]][1..] == [];
    SharesOfSum(ws[..n], [ws[n]]);
  }

  lemma {:induction false} SharesOfSum(a: seq<Wedge>, b: seq<Wedge>)
    ensures Smalls(a + b) == Smalls(a) + Smalls(b) && Bigs(a + b) == Bigs(a) + Bigs(b)
  {
    if a == [] {
      assert a + b == b;
    } else {
      assert (a + b)[1..] == a[1..] + b;
      SharesOfSum(a[1..], b);
    }
  }

  /** The loop over the groups inside one region. */
  method SplitGroups(gs: seq<Group>, r: Region, total: real) returns (smalls: real, bigs: seq<Wedge>)
    requires total > 0.0
    ensures smalls == Smalls(GroupShares(gs, r, total)) && bigs == Bigs(GroupShares(gs, r, total))
  {
    smalls, bigs := 0.0, [];
    ghost var ws := GroupShares(gs, r, total);
    for i := 0 to |gs|
      invariant smalls == Smalls(ws[..i]) && bigs == Bigs(ws[..i])
    {
      SharesNext(ws, i);
      var wedge := In(AbsoluteAmounts(gs[i].positions), r) / total;
      if wedge <= 0.0 {
      } else if wedge >= MIN_WEIGHT {
        bigs := bigs + [Wedge(r, Some(gs[i].shortName), wedge)];
      } else {
        smalls := smalls + wedge;
      }
    }
    assert ws[..|gs|] == ws;
  }

  lemma {:induction false} EntriesOfSum(prefix: string, a: seq<Wedge>, b: seq<Wedge>)
    ensures Entries(prefix, a + b) == Entries(prefix, a) + Entries(prefix, b)
  {
  }

  lemma {:induction false} PutNextWedge(d: Dict, prefix: string, ws: seq<Wedge>, n: nat)
    requires n < |ws|
    ensures PutAll(d, Entries(prefix, ws[..n + 1]))
            == Put(PutAll(d, Entries(prefix, ws[..n])), Entry(Key(prefix, ws[n].region, ws[n].group), ws[n].share))
  {
    var e := Entries(prefix, [ws[n]]);
    assert ws[..n + 1] == ws[..n] + [ws[n]];
    EntriesOfSum(prefix, ws[..n], [ws[n]]);
    PutAllOfSum(d, Entries(prefix, ws[..n]), e);
    assert e[1..] == [];
  }

  /** The large groups' own wedges. */
  method PutWedges(data: Dict, prefix: string, ws: seq<Wedge>) returns (after: Dict)
    ensures after == PutAll(data, Entries(prefix, ws))
  {
    after := data;
    assert Entries(prefix, ws[..0]) == [];
    for i := 0 to |ws|
      invariant after == PutAll(data, Entries(prefix, ws[..i]))
    {
      PutNextWedge(data, prefix, ws, i);
      after := Put(after, Entry(Key(prefix, ws[i].region, ws[i].group), ws[i].share));
    }
    assert ws[..|ws|] == ws;
  }

  lemma {:induction false} PlainFirst(data: Dict, prefix: string, own: Wedge, bigs: seq<Wedge>)
    ensures PutAll(data, Entries(prefix, [own] + bigs))
            == PutAll(Put(data, Entry(Key(prefix, own.region, own.group), own.share)), Entries(prefix, bigs))
  {
    assert Entries(prefix, [own] + bigs)[1..] == Entries(prefix, bigs);
  }

  /** The plain wedge with the small groups folded in, and the large groups after it. */
  method PutRegion(data: Dict, prefix: string, r: Region, plain: real, smalls: real, bigs: seq<Wedge>)
    returns (after: Dict)
    ensures after == PutAll(data, Entries(prefix, Assembled(r, plain, smalls, bigs)))
  {
    var share := plain + smalls;
    if share >= MIN_WEIGHT {
      PlainFirst(data, prefix, Wedge(r, None, share), bigs);
      after := PutWedges(Put(data, Entry(Key(prefix, r, None), share)), prefix, bigs);
    } else {
      after := PutWedges(data, prefix, bigs);
    }
  }

  /** One round of the loop over the regions. */
  method AddRegion(data: Dict, prefix: string, gs: seq<Group>, plain: Amounts, r: Region, total: real)
    returns (after: Dict)
    requires total > 0.0
    ensures after == PutAll(data, Entries(prefix, RegionOf(gs, plain, r, total)))
  {
    var share := PlainShare(plain, r, total);
    var smalls, bigs := SplitGroups(gs, r, total);
    after := PutRegion(data, prefix, r, share, smalls, bigs);
  }

  /** `_compute_geosplit_data` */
  method ComputeGeosplitData(prefix: string, groups: seq<Group>, regional: seq<Position>, total: real)
    returns (data: Dict)
    ensures total <= 0.0 ==> data == []
    ensures total > 0.0 ==>
              data == PutAll([], Entries(prefix, AllWedges(OrderedGroups(groups), AbsoluteAmounts(regional), total)))
  {
    if total <= 0.0 {
      return [];
    }
    var gs, plain := OrderedGroups(groups), AbsoluteAmounts(regional);
    data := [];
    ghost var done: seq<Wedge> := [];
    for i := 0 to |REGIONS|
      invariant data == PutAll([], Entries(prefix, done))
      invariant i == 0 ==> done == []
      invariant i == 1 ==> done == RegionOf(gs, plain, US, total)
      invariant i == 2 ==> done == RegionOf(gs, plain, US, total) + RegionOf(gs, plain, ExUS, total)
      invariant i == 3 ==> done == AllWedges(gs, plain, total)
    {
      ghost var ws := RegionOf(gs, plain, REGIONS[i], total);
      EntriesOfSum(prefix, done, ws);
      PutAllOfSum([], Entries(prefix, done), Entries(prefix, ws));
      data := AddRegion(data, prefix, gs, plain, REGIONS[i], total);
      done := done + ws;
    }
  }

  /** The text comes first at its first difference from the other, or is a proper prefix of it. */
  ghost predicate First(a: string, b: string, n: nat) {
    && n <= |a| && n <= |b| && a[..n] == b[..n]
    && n < |b| && (n < |a| ==> a[n] < b[n])
  }

  /** Groups are ordered by the first character in which their names differ. */
  lemma {:induction false} BeforeIff(a: string, b: string)
    ensures Before(a, b) <==> exists n: nat :: First(a, b, n)
  {
    if a != "" && b != "" && a[0] == b[0] {
      BeforeIff(a[1..], b[1..]);
      if n: nat :| First(a[1..], b[1..], n) {
        assert a[..n + 1] == [a[0]] + a[1..][..n] && b[..n + 1] == [b[0]] + b[1..][..n];
        assert First(a, b, n + 1);
      }
      if n: nat :| First(a, b, n) {
        assert n > 0;
        assert a[1..][..n - 1] == a[..n][1..] && b[1..][..n - 1] == b[..n][1..];
        assert First(a[1..], b[1..], n - 1);
      }
    } else if b != "" && (a == "" || a[0] < b[0]) {
      assert a[..0] == b[..0] && First(a, b, 0);
    } else {
      forall n: nat ensures !First(a, b, n) {
        if First(a, b, n) {
          FirstHead(a, b, n);
        }
      }
    }
  }

  lemma {:induction false} FirstHead(a: string, b: string, n: nat)
    requires First(a, b, n)
    ensures b != "" && (a == "" || a[0] <= b[0])
  {
    if n > 0 {
      assert a[..n][0] == b[..n][0];
    }
  }
}
