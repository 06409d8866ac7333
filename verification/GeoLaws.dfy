/** What the regional chart keeps of a portfolio's mass. */
module GeoLaws {
  import opened Wrappers
  import opened OrderedDict
  import opened Scalars
  import opened Positions
  import opened GeoSplit
  import opened GeoWedges
  import Markets

  function Mass(ws: seq<Wedge>): real {
    if ws == [] then 0.0 else ws[0].share + Mass(ws[1..])
  }

  lemma {:induction false} MassOfSum(a: seq<Wedge>, b: seq<Wedge>)
    ensures Mass(a + b) == Mass(a) + Mass(b)
  {
    if a == [] {
      assert a + b == b;
    } else {
      assert (a + b)[1..] == a[1..] + b;
      MassOfSum(a[1..], b);
    }
  }

  predicate NonNegativeShares(ws: seq<Wedge>) {
    forall i :: 0 <= i < |ws| ==> ws[i].share >= 0.0
  }

  lemma {:induction false} SplitKeepsMass(ws: seq<Wedge>)
    requires NonNegativeShares(ws)
    ensures Smalls(ws) >= 0.0 && Smalls(ws) + Mass(Bigs(ws)) == Mass(ws)
  {
    if ws != [] {
      SplitKeepsMass(ws[1..]);
      if ws[0].share >= MIN_WEIGHT {
        assert Bigs(ws)[1..] == Bigs(ws[1..]);
      } else {
        assert Bigs(ws) == Bigs(ws[1..]);
      }
    }
  }

  /** A region loses less than one minimal wedge. */
  lemma {:induction false} RegionLosesLittle(r: Region, plain: real, ws: seq<Wedge>)
    requires plain >= 0.0 && NonNegativeShares(ws)
    ensures plain + Mass(ws) - MIN_WEIGHT < Mass(RegionWedges(r, plain, ws)) <= plain + Mass(ws)
  {
    SplitKeepsMass(ws);
    var own := Wedge(r, None, plain + Smalls(ws));
    assert [own][1..] == [] && Mass([own]) == own.share;
    MassOfSum([own], Bigs(ws));
    assert [] + Bigs(ws) == Bigs(ws);
  }

  predicate Sizeable(ws: seq<Wedge>) {
    forall i :: 0 <= i < |ws| ==> ws[i].share >= MIN_WEIGHT
  }

  // ------------------------------------------------------------ the whole portfolio

  predicate ProperGroups(gs: seq<Group>) {
    forall i :: 0 <= i < |gs| ==> Proper(gs[i].positions) && gs[i].totalValue == Value(gs[i].positions)
  }

  function GroupsValue(gs: seq<Group>): real {
    if gs == [] then 0.0 else gs[0].totalValue + GroupsValue(gs[1..])
  }

  lemma {:induction false} PartsAdd(a: real, b: real, c: real, total: real)
    requires total > 0.0
    ensures Part(a, total) + Part(b, total) + Part(c, total) == Part(a + b + c, total)
    ensures Part(0.0, total) == 0.0
  {
  }

  lemma {:induction false} PartNonNegative(a: real, total: real)
    requires total > 0.0 && a >= 0.0
    ensures Part(a, total) >= 0.0
  {
  }

  lemma {:induction false} GroupSharesNonNegative(gs: seq<Group>, r: Region, total: real)
    requires total > 0.0 && ProperGroups(gs)
    ensures NonNegativeShares(GroupShares(gs, r, total))
  {
    forall i | 0 <= i < |gs| ensures GroupShares(gs, r, total)[i].share >= 0.0 {
      AmountsPartition(gs[i].positions);
      PartNonNegative(In(AbsoluteAmounts(gs[i].positions), r), total);
    }
  }

  function GroupMass(gs: seq<Group>, r: Region, total: real): real
    requires total > 0.0
  {
    Mass(GroupShares(gs, r, total))
  }

  lemma {:induction false} GroupMassStep(gs: seq<Group>, r: Region, total: real)
    requires total > 0.0 && gs != []
    ensures GroupMass(gs, r, total)
            == Part(In(AbsoluteAmounts(gs[0].positions), r), total) + GroupMass(gs[1..], r, total)
  {
    assert GroupShares(gs, r, total)[1..] == GroupShares(gs[1..], r, total);
  }

  lemma {:induction false} GroupSharesAdd(gs: seq<Group>, total: real)
    requires total > 0.0 && ProperGroups(gs)
    ensures AllGroupMass(gs, total) == Part(GroupsValue(gs), total)
  {
    PartsAdd(0.0, 0.0, 0.0, total);
    if gs != [] {
      var a := AbsoluteAmounts(gs[0].positions);
      GroupSharesAdd(gs[1..], total);
      AmountsPartition(gs[0].positions);
      PartsAdd(a.us, a.exUs, a.emerging, total);
      PartsAdd(gs[0].totalValue, GroupsValue(gs[1..]), 0.0, total);
      GroupMassStep(gs, US, total);
      GroupMassStep(gs, ExUS, total);
      GroupMassStep(gs, Emerging, total);
    }
  }

  lemma {:induction false} PlainSharesAdd(ps: seq<Position>, total: real)
    requires total > 0.0 && Proper(ps)
    ensures var a := AbsoluteAmounts(ps);
            && (forall r :: PlainShare(a, r, total) >= 0.0)
            && PlainMass(a, total) == Part(Value(ps), total)
  {
    var a := AbsoluteAmounts(ps);
    AmountsPartition(ps);
    PartsAdd(a.us, a.exUs, a.emerging, total);
    forall r ensures PlainShare(a, r, total) == Part(In(a, r), total) >= 0.0 {
      PartNonNegative(In(a, r), total);
    }
  }

  lemma {:induction false} OneRegion(gs: seq<Group>, a: Amounts, r: Region, total: real)
    requires total > 0.0 && ProperGroups(gs) && PlainShare(a, r, total) >= 0.0
    ensures var whole := PlainShare(a, r, total) + GroupMass(gs, r, total);
            whole - MIN_WEIGHT < Mass(RegionOf(gs, a, r, total)) <= whole
  {
    GroupSharesNonNegative(gs, r, total);
    RegionLosesLittle(r, PlainShare(a, r, total), GroupShares(gs, r, total));
  }

  lemma {:induction false} AllWedgesMass(gs: seq<Group>, a: Amounts, total: real)
    requires total > 0.0
    ensures Mass(AllWedges(gs, a, total))
            == Mass(RegionOf(gs, a, US, total)) + Mass(RegionOf(gs, a, ExUS, total))
                + Mass(RegionOf(gs, a, Emerging, total))
  {
    MassOfSum(RegionOf(gs, a, US, total), RegionOf(gs, a, ExUS, total));
    MassOfSum(RegionOf(gs, a, US, total) + RegionOf(gs, a, ExUS, total), RegionOf(gs, a, Emerging, total));
  }

  lemma {:induction false} RegionSizeable(gs: seq<Group>, a: Amounts, r: Region, total: real)
    requires total > 0.0
    ensures Sizeable(RegionOf(gs, a, r, total))
  {
  }

  lemma {:induction false} SizeableSum(a: seq<Wedge>, b: seq<Wedge>, c: seq<Wedge>)
    requires Sizeable(a) && Sizeable(b) && Sizeable(c)
    ensures Sizeable(a + b + c)
  {
  }

  lemma {:induction false} AllWedgesSizeable(gs: seq<Group>, a: Amounts, total: real)
    requires total > 0.0
    ensures Sizeable(AllWedges(gs, a, total))
  {
    RegionSizeable(gs, a, US, total);
    RegionSizeable(gs, a, ExUS, total);
    RegionSizeable(gs, a, Emerging, total);
    SizeableSum(RegionOf(gs, a, US, total), RegionOf(gs, a, ExUS, total), RegionOf(gs, a, Emerging, total));
  }

  function PlainMass(a: Amounts, total: real): real
    requires total > 0.0
  {
    PlainShare(a, US, total) + PlainShare(a, ExUS, total) + PlainShare(a, Emerging, total)
  }

  function AllGroupMass(gs: seq<Group>, total: real): real
    requires total > 0.0
  {
    GroupMass(gs, US, total) + GroupMass(gs, ExUS, total) + GroupMass(gs, Emerging, total)
  }

  /** Three regions lose less than three minimal wedges. */
  predicate LosesLittle(mass: real, whole: real) {
    whole - 3.0 * MIN_WEIGHT < mass <= whole
  }

  lemma {:induction false} RegionsLoseLittle(gs: seq<Group>, a: Amounts, total: real)
    requires total > 0.0 && ProperGroups(gs) && forall r :: PlainShare(a, r, total) >= 0.0
    ensures LosesLittle(Mass(AllWedges(gs, a, total)), PlainMass(a, total) + AllGroupMass(gs, total))
  {
    OneRegion(gs, a, US, total);
    OneRegion(gs, a, ExUS, total);
    OneRegion(gs, a, Emerging, total);
    AllWedgesMass(gs, a, total);
  }

  /** Groups and regional positions together weigh 1. */
  lemma {:induction false} SharesAreWhole(gs: seq<Group>, regional: seq<Position>, total: real)
    requires total > 0.0 && ProperGroups(gs) && Proper(regional)
    requires GroupsValue(gs) + Value(regional) == total
    ensures PlainMass(AbsoluteAmounts(regional), total) + AllGroupMass(gs, total) == 1.0
  {
    PlainSharesAdd(regional, total);
    GroupSharesAdd(gs, total);
    PartsOfWhole(GroupsValue(gs), Value(regional));
  }

  // ---------------------------------------------------------------- grouping by value

  lemma {:induction false} JoinedValue(groups: seq<Group>, p: Position)
    requires Labeled(p)
    ensures GroupsValue(Joined(groups, p)) == GroupsValue(groups) + p.value
  {
    if groups != [] && groups[0].shortName != p.shortName.value {
      JoinedValue(groups[1..], p);
      assert Joined(groups, p)[1..] == Joined(groups[1..], p);
    }
  }

  /** Groups and regional positions together are worth what the positions are worth. */
  lemma {:induction false} PartitionKeepsValue(ps: seq<Position>, n: nat)
    requires n <= |ps|
    ensures GroupsValue(Groups(ps, n)) + Value(Regional(ps[..n])) == Value(ps[..n])
  {
    if n > 0 {
      PartitionKeepsValue(ps, n - 1);
      RegionalNext(ps, n - 1);
      if Labeled(ps[n - 1]) {
        JoinedValue(Groups(ps, n - 1), ps[n - 1]);
        assert Regional(ps[..n]) == Regional(ps[..n - 1]);
      } else {
        ValueOfSum(Regional(ps[..n - 1]), [ps[n - 1]]);
        assert [ps[n - 1]][1..] == [];
      }
    }
  }

  lemma {:induction false} CarryingProper(ps: seq<Position>, name: string)
    requires Proper(ps)
    ensures Proper(Carrying(ps, name)) && Proper(Regional(ps))
  {
    if ps != [] {
      assert Proper(ps[1..]);
      CarryingProper(ps[1..], name);
    }
  }

  lemma {:induction false} ProperValue(ps: seq<Position>)
    requires Proper(ps)
    ensures Value(ps) >= 0.0
  {
    AmountsNest(ps);
  }

  lemma {:induction false} PlacedValue(g: Group, s: seq<Group>)
    ensures GroupsValue(PlaceByName(g, s)) == g.totalValue + GroupsValue(s)
  {
    if s != [] && Before(s[0].shortName, g.shortName) {
      PlacedValue(g, s[1..]);
      assert PlaceByName(g, s)[1..] == PlaceByName(g, s[1..]);
    } else {
      assert ([g] + s)[1..] == s;
    }
  }

  /** Ordering the groups by name drops only those worth nothing. */
  lemma {:induction false} OrderedGroupsKept(groups: seq<Group>)
    requires ProperGroups(groups)
    ensures Alphabetical(OrderedGroups(groups)) && ProperGroups(OrderedGroups(groups))
    ensures GroupsValue(OrderedGroups(groups)) == GroupsValue(groups)
    ensures forall g :: g in OrderedGroups(groups) <==> g in groups && g.totalValue > 0.0
  {
    if groups != [] {
      var g, rest := groups[0], groups[1..];
      assert ProperGroups(rest);
      OrderedGroupsKept(rest);
      ProperValue(g.positions);
      var s := OrderedGroups(rest);
      PlacedByName(g, s);
      PlacedValue(g, s);
      forall i | 0 <= i < |PlaceByName(g, s)|
        ensures var x := PlaceByName(g, s)[i]; Proper(x.positions) && x.totalValue == Value(x.positions)
      {
        assert PlaceByName(g, s)[i] in PlaceByName(g, s);
      }
    }
  }

  lemma {:induction false} GroupsProper(ps: seq<Position>)
    requires Proper(ps)
    ensures ProperGroups(Groups(ps, |ps|)) && Proper(Regional(ps))
  {
    assert ps[..|ps|] == ps;
    GroupsPartition(ps, |ps|);
    CarryingProper(ps, "");
    var groups := Groups(ps, |ps|);
    forall i | 0 <= i < |groups|
      ensures Proper(groups[i].positions) && groups[i].totalValue == Value(groups[i].positions)
    {
      assert GroupOf(groups[i], ps);
      CarryingProper(ps, groups[i].shortName);
    }
  }

  lemma {:induction false} ChartParts(ps: seq<Position>)
    requires Proper(ps)
    ensures ProperGroups(OrderedGroups(Groups(ps, |ps|))) && Proper(Regional(ps))
    ensures GroupsValue(OrderedGroups(Groups(ps, |ps|))) + Value(Regional(ps)) == Value(ps)
  {
    GroupsProper(ps);
    OrderedGroupsKept(Groups(ps, |ps|));
    PartitionKeepsValue(ps, |ps|);
    assert ps[..|ps|] == ps;
  }

  lemma {:induction false} WholeLosesLittle(gs: seq<Group>, regional: seq<Position>, total: real)
    requires total > 0.0 && ProperGroups(gs) && Proper(regional)
    requires GroupsValue(gs) + Value(regional) == total
    ensures 1.0 - 3.0 * MIN_WEIGHT < Mass(AllWedges(gs, AbsoluteAmounts(regional), total)) <= 1.0
  {
    PlainSharesAdd(regional, total);
    RegionsLoseLittle(gs, AbsoluteAmounts(regional), total);
    SharesAreWhole(gs, regional, total);
  }

  lemma {:induction false} ChartMass(ps: seq<Position>)
    requires Proper(ps) && Value(ps) > 0.0
    ensures 1.0 - 3.0 * MIN_WEIGHT < Mass(Chart(ps)) <= 1.0
  {
    ChartParts(ps);
    WholeLosesLittle(OrderedGroups(Groups(ps, |ps|)), Regional(ps), Value(ps));
  }

  /** The chart of a portfolio worth something is never empty: its wedges sum to at most 1 and
      more than 1 - 3 * 0.007, and none is below 0.007. */
  lemma {:induction false} ChartLosesLittle(ps: seq<Position>)
    requires Proper(ps) && Value(ps) > 0.0
    ensures 1.0 - 3.0 * 0.007 < Mass(Chart(ps)) <= 1.0
    ensures Sizeable(Chart(ps)) && Chart(ps) != []
  {
    ChartMass(ps);
    AllWedgesSizeable(OrderedGroups(Groups(ps, |ps|)), AbsoluteAmounts(Regional(ps)), Value(ps));
  }

  // ----------------------------------------------------------------------- the labels

  lemma {:induction false} CommonPrefix(p: string, x: string, y: string)
    requires p + x == p + y
    ensures x == y
  {
    assert (p + x)[|p|..] == x && (p + y)[|p|..] == y;
  }

  function Suffix(r: Region, g: Option<string>): string {
    RegionName(r) + Tail(g)
  }

  function Tail(g: Option<string>): string {
    if g.Some? then ": " + g.value else ""
  }

  lemma {:induction false} KeyParts(prefix: string, r: Region, g: Option<string>)
    ensures Key(prefix, r, g) == (prefix + " ") + Suffix(r, g)
  {
    var plain := prefix + " " + RegionName(r);
    if g.Some? {
      assert Key(prefix, r, g) == plain + ": " + g.value;
      assert plain + ": " + g.value == (prefix + " ") + (RegionName(r) + (": " + g.value));
    } else {
      assert plain == (prefix + " ") + (RegionName(r) + "");
    }
  }

  lemma {:induction false} RegionsDiffer(r: Region, t: string, r': Region, t': string)
    requires RegionName(r) + t == RegionName(r') + t'
    ensures r == r'
  {
    var s, s' := RegionName(r) + t, RegionName(r') + t';
    assert s[0] == RegionName(r)[0] && s'[0] == RegionName(r')[0];
    assert s[1] == RegionName(r)[1] && s'[1] == RegionName(r')[1];
  }

  /** Different wedges have different labels, whatever the portfolio and the groups are called. */
  lemma {:induction false} KeysDiffer(prefix: string, r: Region, g: Option<string>, r': Region, g': Option<string>)
    requires Key(prefix, r, g) == Key(prefix, r', g')
    ensures r == r' && g == g'
  {
    KeyParts(prefix, r, g);
    KeyParts(prefix, r', g');
    CommonPrefix(prefix + " ", Suffix(r, g), Suffix(r', g'));
    RegionsDiffer(r, Tail(g), r', Tail(g'));
    CommonPrefix(RegionName(r), Tail(g), Tail(g'));
    if g.Some? && g'.Some? {
      CommonPrefix(": ", g.value, g'.value);
    }
  }

  predicate DistinctWedges(ws: seq<Wedge>) {
    forall i, j :: 0 <= i < j < |ws| ==> ws[i].region != ws[j].region || ws[i].group != ws[j].group
  }

  predicate NamedIn(ws: seq<Wedge>, r: Region) {
    forall i :: 0 <= i < |ws| ==> ws[i].region == r && ws[i].group.Some?
  }

  lemma {:induction false} BigsDistinct(ws: seq<Wedge>)
    requires DistinctWedges(ws)
    ensures DistinctWedges(Bigs(ws))
  {
    if ws != [] {
      BigsDistinct(ws[1..]);
      var rest := Bigs(ws[1..]);
      forall i | 0 <= i < |rest| ensures rest[i].region != ws[0].region || rest[i].group != ws[0].group {
        assert rest[i] in ws[1..];
      }
    }
  }

  lemma {:induction false} BigsNamed(ws: seq<Wedge>, r: Region)
    requires NamedIn(ws, r)
    ensures NamedIn(Bigs(ws), r)
  {
    if ws != [] {
      BigsNamed(ws[1..], r);
    }
  }

  lemma {:induction false} PlainThenNamed(own: Wedge, bigs: seq<Wedge>)
    requires DistinctWedges(bigs) && NamedIn(bigs, own.region) && own.group == None
    ensures DistinctWedges([own] + bigs)
    ensures forall w :: w in [own] + bigs ==> w.region == own.region
  {
  }

  lemma {:induction false} SharesDistinct(gs: seq<Group>, r: Region, total: real)
    requires total > 0.0 && DistinctGroups(gs)
    ensures DistinctWedges(GroupShares(gs, r, total)) && NamedIn(GroupShares(gs, r, total), r)
  {
    var ws := GroupShares(gs, r, total);
    forall i, j | 0 <= i < j < |ws| ensures ws[i].group != ws[j].group {
      assert gs[i].shortName != gs[j].shortName;
    }
  }

  predicate AllIn(ws: seq<Wedge>, r: Region) {
    forall w :: w in ws ==> w.region == r
  }

  lemma {:induction false} RegionDistinct(r: Region, plain: real, ws: seq<Wedge>)
    requires DistinctWedges(ws) && NamedIn(ws, r)
    ensures DistinctWedges(RegionWedges(r, plain, ws)) && AllIn(RegionWedges(r, plain, ws), r)
  {
    BigsDistinct(ws);
    BigsNamed(ws, r);
    AssembledDistinct(r, plain, Smalls(ws), Bigs(ws));
  }

  lemma {:induction false} AssembledDistinct(r: Region, plain: real, smalls: real, bigs: seq<Wedge>)
    requires DistinctWedges(bigs) && NamedIn(bigs, r)
    ensures DistinctWedges(Assembled(r, plain, smalls, bigs)) && AllIn(Assembled(r, plain, smalls, bigs), r)
  {
    PlainThenNamed(Wedge(r, None, plain + smalls), bigs);
  }

  lemma {:induction false} ThreeDistinct(a: seq<Wedge>, b: seq<Wedge>, c: seq<Wedge>)
    requires DistinctWedges(a) && DistinctWedges(b) && DistinctWedges(c)
    requires AllIn(a, US) && AllIn(b, ExUS) && AllIn(c, Emerging)
    ensures DistinctWedges(a + b + c)
  {
  }

  lemma {:induction false} PlacedDistinct(g: Group, s: seq<Group>)
    requires DistinctGroups(s) && !HasGroup(s, g.shortName) && Alphabetical(s)
    ensures DistinctGroups(PlaceByName(g, s))
  {
    if s != [] && Before(s[0].shortName, g.shortName) {
      forall i | 0 <= i < |s[1..]| ensures s[1..][i].shortName != g.shortName {
        assert s[1..][i] == s[i + 1];
      }
      PlacedDistinct(g, s[1..]);
      PlacedByName(g, s[1..]);
      var rest := PlaceByName(g, s[1..]);
      forall i | 0 <= i < |rest| ensures rest[i].shortName != s[0].shortName {
        assert rest[i] in rest;
      }
    }
  }

  lemma {:induction false} OrderedDistinct(groups: seq<Group>)
    requires DistinctGroups(groups) && ProperGroups(groups)
    ensures DistinctGroups(OrderedGroups(groups))
  {
    if groups != [] {
      assert ProperGroups(groups[1..]);
      OrderedDistinct(groups[1..]);
      OrderedGroupsKept(groups[1..]);
      var s := OrderedGroups(groups[1..]);
      forall i | 0 <= i < |s| ensures s[i].shortName != groups[0].shortName {
        assert s[i] in groups[1..];
      }
      PlacedDistinct(groups[0], s);
    }
  }

  lemma {:induction false} EntriesDistinct(prefix: string, ws: seq<Wedge>)
    requires DistinctWedges(ws)
    ensures Distinct(Entries(prefix, ws))
  {
    forall i, j | 0 <= i < j < |ws| ensures Entries(prefix, ws)[i].key != Entries(prefix, ws)[j].key {
      if Entries(prefix, ws)[i].key == Entries(prefix, ws)[j].key {
        KeysDiffer(prefix, ws[i].region, ws[i].group, ws[j].region, ws[j].group);
      }
    }
  }

  /** No wedge overwrites another: the dictionary holds every wedge of the chart, in order. */
  lemma {:induction false} ChartHasEveryWedge(prefix: string, ps: seq<Position>)
    requires Proper(ps)
    ensures Distinct(Entries(prefix, Chart(ps)))
    ensures PutAll([], Entries(prefix, Chart(ps))) == Entries(prefix, Chart(ps))
  {
    if Value(ps) > 0.0 {
      var gs, a, total := OrderedGroups(Groups(ps, |ps|)), AbsoluteAmounts(Regional(ps)), Value(ps);
      GroupsPartition(ps, |ps|);
      GroupsProper(ps);
      OrderedDistinct(Groups(ps, |ps|));
      SharesDistinct(gs, US, total);
      RegionDistinct(US, PlainShare(a, US, total), GroupShares(gs, US, total));
      SharesDistinct(gs, ExUS, total);
      RegionDistinct(ExUS, PlainShare(a, ExUS, total), GroupShares(gs, ExUS, total));
      SharesDistinct(gs, Emerging, total);
      RegionDistinct(Emerging, PlainShare(a, Emerging, total), GroupShares(gs, Emerging, total));
      ThreeDistinct(RegionOf(gs, a, US, total), RegionOf(gs, a, ExUS, total), RegionOf(gs, a, Emerging, total));
    }
    EntriesDistinct(prefix, Chart(ps));
    assert [] + Entries(prefix, Chart(ps)) == Entries(prefix, Chart(ps));
    PutAllNew([], Entries(prefix, Chart(ps)));
  }

  // -------------------------------------------------------------------- from country rows

  /** A position whose shares come from its country rows. */
  datatype Fund = Fund(value: real, countries: seq<Entry>, sectors: seq<Entry>, dmemOther: Option<real>,
                       shortName: Option<string>)

  function Held(f: Fund, lists: Markets.Lists): Position {
    Position(f.value, f.sectors, Markets.Dmem(f.countries, lists, f.dmemOther, None),
            Markets.Usavn(f.countries, lists, f.dmemOther, None), f.shortName)
  }

  function HeldAll(fs: seq<Fund>, lists: Markets.Lists): seq<Position> {
    if fs == [] then [] else [Held(fs[0], lists)] + HeldAll(fs[1..], lists)
  }

  predicate Covered(f: Fund) {
    f.value >= 0.0 && NonNegativeEntries(f.countries) && Markets.ProperPart(f.dmemOther) && Total(f.countries) > 0.0
  }

  function UsWeight(f: Fund): real
    requires Covered(f)
  {
    SumFor(f.countries, Markets.US) / Total(f.countries)
  }

  /** The US weights of the country rows, weighted by value. */
  function UsByRows(fs: seq<Fund>): real
    requires forall i :: 0 <= i < |fs| ==> Covered(fs[i])
  {
    if fs == [] then 0.0
    else assert Covered(fs[0]); Times(fs[0].value, UsWeight(fs[0])) + UsByRows(fs[1..])
  }

  lemma {:induction false} HeldOne(f: Fund, lists: Markets.Lists)
    requires Markets.Agree(lists) && Covered(f)
    ensures var h := Held(f, lists);
            && 0.0 <= h.dmem <= 1.0 && 0.0 <= h.usavn <= 1.0
            && Times(h.dmem, h.usavn) == UsWeight(f)
  {
    Markets.SharesAgree(f.countries, lists, f.dmemOther, None, None);
  }

  lemma {:induction false} HeldProper(fs: seq<Fund>, lists: Markets.Lists)
    requires Markets.Agree(lists) && forall i :: 0 <= i < |fs| ==> Covered(fs[i])
    ensures Proper(HeldAll(fs, lists)) && UnitedStates(HeldAll(fs, lists)) == UsByRows(fs)
  {
    if fs != [] {
      HeldProper(fs[1..], lists);
      HeldOne(fs[0], lists);
      assert HeldAll(fs, lists)[1..] == HeldAll(fs[1..], lists);
    }
  }

  /** The two country loops together give the US amount that the rows themselves state. */
  lemma {:induction false} UsAmountFromRows(fs: seq<Fund>, lists: Markets.Lists)
    requires Markets.Agree(lists) && forall i :: 0 <= i < |fs| ==> Covered(fs[i])
    ensures var a := AbsoluteAmounts(HeldAll(fs, lists));
            && a.us == UsByRows(fs)
            && a.us + a.exUs + a.emerging == Value(HeldAll(fs, lists))
  {
    HeldProper(fs, lists);
    AmountsPartition(HeldAll(fs, lists));
  }

  function DevelopedWeight(f: Fund, lists: Markets.Lists): real
    requires Covered(f)
  {
    Markets.Developed(f.countries, lists, f.dmemOther) / Total(f.countries)
  }

  /** The developed weights of the country rows, weighted by value. */
  function DevelopedByRows(fs: seq<Fund>, lists: Markets.Lists): real
    requires forall i :: 0 <= i < |fs| ==> Covered(fs[i])
  {
    if fs == [] then 0.0
    else assert Covered(fs[0]); Times(fs[0].value, DevelopedWeight(fs[0], lists)) + DevelopedByRows(fs[1..], lists)
  }

  /** So is the developed amount, with the United States in it. */
  lemma {:induction false} DevelopedAmountFromRows(fs: seq<Fund>, lists: Markets.Lists)
    requires Markets.Agree(lists) && forall i :: 0 <= i < |fs| ==> Covered(fs[i])
    ensures var a := AbsoluteAmounts(HeldAll(fs, lists)); a.us + a.exUs == DevelopedByRows(fs, lists)
  {
    DevelopedOfHeld(fs, lists);
  }

  lemma {:induction false} DevelopedOfHeld(fs: seq<Fund>, lists: Markets.Lists)
    requires forall i :: 0 <= i < |fs| ==> Covered(fs[i])
    ensures Developed(HeldAll(fs, lists)) == DevelopedByRows(fs, lists)
  {
    if fs != [] {
      DevelopedOfHeld(fs[1..], lists);
      assert Covered(fs[0]) && HeldAll(fs, lists)[1..] == HeldAll(fs[1..], lists);
      assert Held(fs[0], lists).dmem == DevelopedWeight(fs[0], lists);
    }
  }
}
