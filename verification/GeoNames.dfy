/** Which wedge of the regional chart carries which money, by its label. */
module GeoNames {
  import opened Wrappers
  import opened OrderedDict
  import opened Scalars
  import opened Positions
  import opened GeoSplit
  import opened GeoWedges
  import opened GeoLaws

  // ------------------------------------------------------------------ what is to be shown

  /** The money of some positions in one region. */
  function AmountIn(ps: seq<Position>, r: Region): real {
    match r
    case US => UnitedStates(ps)
    case ExUS => Developed(ps) - UnitedStates(ps)
    case Emerging => Value(ps) - Developed(ps)
  }

  /** What the groups too small for a wedge of their own add to a region. */
  function SmallGroups(groups: seq<Group>, r: Region, total: real): real
    requires total > 0.0
  {
    if groups == [] then 0.0
    else
      var share := AmountIn(groups[0].positions, r) / total;
      (if 0.0 < share < 0.007 then share else 0.0) + SmallGroups(groups[1..], r, total)
  }

  function PlainTotal(groups: seq<Group>, regional: seq<Position>, r: Region, total: real): real
    requires total > 0.0
  {
    AmountIn(regional, r) / total + SmallGroups(groups, r, total)
  }

  /** The dictionary shows the share under the name exactly when it is large enough. */
  predicate Shown(data: Dict, name: string, share: real) {
    (Has(data, name) <==> share >= 0.007) && (Has(data, name) ==> Get(data, name) == share)
  }

  ghost predicate RegionShown(data: Dict, name: string, r: Region, groups: seq<Group>, regional: seq<Position>,
                              total: real)
    requires total > 0.0
  {
    && Shown(data, name, PlainTotal(groups, regional, r, total))
    && forall g :: g in groups ==> Shown(data, name + ": " + g.shortName, AmountIn(g.positions, r) / total)
  }

  // ---------------------------------------------------------------------------- wedges

  lemma {:induction false} AmountsIn(ps: seq<Position>, r: Region)
    requires Proper(ps)
    ensures In(AbsoluteAmounts(ps), r) == AmountIn(ps, r) >= 0.0
    ensures Value(ps) <= 0.0 ==> AmountIn(ps, r) == 0.0
  {
    AmountsNest(ps);
  }

  lemma {:induction false} BigsMember(ws: seq<Wedge>, w: Wedge)
    ensures w in Bigs(ws) <==> w in ws && w.share >= MIN_WEIGHT
  {
    if ws != [] {
      BigsMember(ws[1..], w);
      assert ws == [ws[0]] + ws[1..];
    }
  }

  lemma {:induction false} RegionMember(r: Region, plain: real, ws: seq<Wedge>, w: Wedge)
    requires NamedIn(ws, r)
    ensures w in RegionWedges(r, plain, ws)
            <==> w.share >= MIN_WEIGHT && (w == Wedge(r, None, plain + Smalls(ws)) || w in ws)
  {
    BigsMember(ws, w);
  }

  /** A group's wedge in a region. */
  function GroupWedgeOf(g: Group, r: Region, total: real): Wedge
    requires total > 0.0
  {
    Wedge(r, Some(g.shortName), Part(In(AbsoluteAmounts(g.positions), r), total))
  }

  lemma {:induction false} SharesMember(gs: seq<Group>, r: Region, total: real, w: Wedge)
    requires total > 0.0
    ensures w in GroupShares(gs, r, total)
            <==> exists g :: g in gs && w == GroupWedgeOf(g, r, total)
    ensures NamedIn(GroupShares(gs, r, total), r)
  {
    var ws := GroupShares(gs, r, total);
    if w in ws {
      var i :| 0 <= i < |ws| && ws[i] == w;
      assert gs[i] in gs;
    }
    if g :| g in gs && w == GroupWedgeOf(g, r, total) {
      var i :| 0 <= i < |gs| && gs[i] == g;
      assert ws[i] == w;
    }
  }

  lemma {:induction false} RegionOnly(gs: seq<Group>, plain: Amounts, r: Region, total: real)
    requires total > 0.0
    ensures AllIn(RegionOf(gs, plain, r, total), r)
  {
    forall w | w in RegionOf(gs, plain, r, total) ensures w.region == r {
      SharesMember(gs, r, total, w);
      RegionMember(r, PlainShare(plain, r, total), GroupShares(gs, r, total), w);
    }
  }

  lemma {:induction false} OneOfThree(us: seq<Wedge>, exUs: seq<Wedge>, emerging: seq<Wedge>, w: Wedge)
    requires AllIn(us, US) && AllIn(exUs, ExUS) && AllIn(emerging, Emerging)
    ensures w in us + exUs + emerging
            <==> match w.region case US => w in us case ExUS => w in exUs case Emerging => w in emerging
  {
  }

  /** A wedge of the chart is one of its own region. */
  lemma {:induction false} ChartMember(gs: seq<Group>, plain: Amounts, total: real, w: Wedge)
    requires total > 0.0
    ensures w in AllWedges(gs, plain, total) <==> w in RegionOf(gs, plain, w.region, total)
  {
    RegionOnly(gs, plain, US, total);
    RegionOnly(gs, plain, ExUS, total);
    RegionOnly(gs, plain, Emerging, total);
    OneOfThree(RegionOf(gs, plain, US, total), RegionOf(gs, plain, ExUS, total),
               RegionOf(gs, plain, Emerging, total), w);
  }

  /** A wedge of the chart is plain or carries the name of a group. */
  lemma {:induction false} GroupOfWedge(groups: seq<Group>, plain: Amounts, total: real, w: Wedge)
    requires total > 0.0 && ProperGroups(groups) && w in AllWedges(OrderedGroups(groups), plain, total)
    ensures w.group == None || exists g :: g in groups && w.group == Some(g.shortName)
  {
    var gs := OrderedGroups(groups);
    OrderedGroupsKept(groups);
    ChartMember(gs, plain, total, w);
    SharesMember(gs, w.region, total, w);
    RegionMember(w.region, PlainShare(plain, w.region, total), GroupShares(gs, w.region, total), w);
  }

  /** No two wedges of the chart are for the same region and group. */
  lemma {:induction false} ChartDistinct(gs: seq<Group>, plain: Amounts, total: real)
    requires total > 0.0 && DistinctGroups(gs)
    ensures DistinctWedges(AllWedges(gs, plain, total))
  {
    SharesDistinct(gs, US, total);
    RegionDistinct(US, PlainShare(plain, US, total), GroupShares(gs, US, total));
    SharesDistinct(gs, ExUS, total);
    RegionDistinct(ExUS, PlainShare(plain, ExUS, total), GroupShares(gs, ExUS, total));
    SharesDistinct(gs, Emerging, total);
    RegionDistinct(Emerging, PlainShare(plain, Emerging, total), GroupShares(gs, Emerging, total));
    ThreeDistinct(RegionOf(gs, plain, US, total), RegionOf(gs, plain, ExUS, total),
                  RegionOf(gs, plain, Emerging, total));
  }

  // ------------------------------------------------------------------------ the entries

  lemma {:induction false} EntryOf(prefix: string, ws: seq<Wedge>, w: Wedge)
    requires DistinctWedges(ws) && w in ws
    ensures Has(Entries(prefix, ws), Key(prefix, w.region, w.group))
    ensures Get(Entries(prefix, ws), Key(prefix, w.region, w.group)) == w.share
  {
    var i :| 0 <= i < |ws| && ws[i] == w;
    EntriesDistinct(prefix, ws);
    GetAt(Entries(prefix, ws), i);
  }

  /** A label shows the one share that its region and group have in the chart, if they have one. */
  lemma {:induction false} ShownIff(prefix: string, ws: seq<Wedge>, r: Region, g: Option<string>, share: real)
    requires DistinctWedges(ws)
    requires forall w :: w in ws && w.region == r && w.group == g ==> w.share == share
    requires Wedge(r, g, share) in ws <==> share >= 0.007
    ensures Shown(Entries(prefix, ws), Key(prefix, r, g), share)
  {
    var es := Entries(prefix, ws);
    if Wedge(r, g, share) in ws {
      EntryOf(prefix, ws, Wedge(r, g, share));
    }
    if Has(es, Key(prefix, r, g)) {
      var i :| 0 <= i < |es| && es[i].key == Key(prefix, r, g);
      if ws[i].region != r || ws[i].group != g {
        KeysDiffer(prefix, ws[i].region, ws[i].group, r, g);
      }
      assert ws[i] == Wedge(r, g, share);
    }
  }

  // ------------------------------------------------------------------------ small groups

  lemma {:induction false} SmallsOfGroups(gs: seq<Group>, r: Region, total: real)
    requires total > 0.0 && ProperGroups(gs)
    ensures Smalls(GroupShares(gs, r, total)) == SmallGroups(gs, r, total)
  {
    if gs != [] {
      assert ProperGroups(gs[1..]);
      SmallsOfGroups(gs[1..], r, total);
      AmountsIn(gs[0].positions, r);
      assert GroupShares(gs, r, total)[1..] == GroupShares(gs[1..], r, total);
    }
  }

  lemma {:induction false} SmallGroupsPlaced(g: Group, s: seq<Group>, r: Region, total: real)
    requires total > 0.0
    ensures SmallGroups(PlaceByName(g, s), r, total) == SmallGroups([g], r, total) + SmallGroups(s, r, total)
  {
    assert [g][1..] == [] && SmallGroups([], r, total) == 0.0;
    if s != [] && Before(s[0].shortName, g.shortName) {
      SmallGroupsPlaced(g, s[1..], r, total);
      assert PlaceByName(g, s)[1..] == PlaceByName(g, s[1..]);
    } else {
      assert ([g] + s)[1..] == s;
    }
  }

  /** Ordering the groups and leaving out the worthless ones changes nothing. */
  lemma {:induction false} SmallGroupsOrdered(groups: seq<Group>, r: Region, total: real)
    requires total > 0.0 && ProperGroups(groups)
    ensures SmallGroups(OrderedGroups(groups), r, total) == SmallGroups(groups, r, total)
  {
    if groups != [] {
      var g, rest := groups[0], groups[1..];
      assert ProperGroups(rest);
      SmallGroupsOrdered(rest, r, total);
      AmountsIn(g.positions, r);
      SmallGroupsPlaced(g, OrderedGroups(rest), r, total);
      assert [g][1..] == [] && SmallGroups([], r, total) == 0.0;
    }
  }

  lemma {:induction false} PlainShareIs(ps: seq<Position>, r: Region, total: real)
    requires total > 0.0 && Proper(ps)
    ensures PlainShare(AbsoluteAmounts(ps), r, total) == AmountIn(ps, r) / total
  {
    AmountsIn(ps, r);
  }

  // -------------------------------------------------------------------------- one region

  lemma {:induction false} PlainShown(prefix: string, groups: seq<Group>, regional: seq<Position>, r: Region,
                                      total: real)
    requires total > 0.0 && ProperGroups(groups) && DistinctGroups(groups) && Proper(regional)
    ensures var ws := AllWedges(OrderedGroups(groups), AbsoluteAmounts(regional), total);
            Shown(Entries(prefix, ws), Key(prefix, r, None), PlainTotal(groups, regional, r, total))
  {
    var gs, plain := OrderedGroups(groups), AbsoluteAmounts(regional);
    var ws, share := AllWedges(gs, plain, total), PlainTotal(groups, regional, r, total);
    OrderedGroupsKept(groups);
    OrderedDistinct(groups);
    ChartDistinct(gs, plain, total);
    PlainShareIs(regional, r, total);
    SmallsOfGroups(gs, r, total);
    SmallGroupsOrdered(groups, r, total);
    forall w: Wedge | w.region == r && w.group == None ensures w in ws <==> w.share == share >= MIN_WEIGHT {
      ChartMember(gs, plain, total, w);
      SharesMember(gs, r, total, w);
      RegionMember(r, PlainShare(plain, r, total), GroupShares(gs, r, total), w);
    }
    ShownIff(prefix, ws, r, None, share);
  }

  lemma {:induction false} GroupWedge(groups: seq<Group>, plain: Amounts, g: Group, r: Region, total: real, w: Wedge)
    requires total > 0.0 && ProperGroups(groups) && DistinctGroups(groups) && g in groups
    requires w.region == r && w.group == Some(g.shortName)
    ensures w in AllWedges(OrderedGroups(groups), plain, total)
            <==> w.share == AmountIn(g.positions, r) / total && w.share >= MIN_WEIGHT
  {
    var gs := OrderedGroups(groups);
    OrderedGroupsKept(groups);
    ChartMember(gs, plain, total, w);
    SharesMember(gs, r, total, w);
    RegionMember(r, PlainShare(plain, r, total), GroupShares(gs, r, total), w);
    var i :| 0 <= i < |groups| && groups[i] == g;
    AmountsIn(g.positions, r);
    forall x | x in groups && x.shortName == g.shortName ensures x == g {
      var j :| 0 <= j < |groups| && groups[j] == x;
    }
    WorthlessShare(AmountIn(g.positions, r), total);
  }

  lemma WorthlessShare(amount: real, total: real)
    requires total > 0.0 && amount >= 0.0
    ensures amount / total >= MIN_WEIGHT ==> amount > 0.0
  {
  }

  lemma {:induction false} GroupShown(prefix: string, groups: seq<Group>, regional: seq<Position>, g: Group, r: Region,
                                      total: real)
    requires total > 0.0 && ProperGroups(groups) && DistinctGroups(groups) && g in groups
    ensures var ws := AllWedges(OrderedGroups(groups), AbsoluteAmounts(regional), total);
            Shown(Entries(prefix, ws), Key(prefix, r, Some(g.shortName)), AmountIn(g.positions, r) / total)
  {
    var gs, plain := OrderedGroups(groups), AbsoluteAmounts(regional);
    var ws, share := AllWedges(gs, plain, total), AmountIn(g.positions, r) / total;
    OrderedDistinct(groups);
    ChartDistinct(gs, plain, total);
    forall w: Wedge | w.region == r && w.group == Some(g.shortName)
      ensures w in ws <==> w.share == share && w.share >= MIN_WEIGHT
    {
      GroupWedge(groups, plain, g, r, total, w);
    }
    ShownIff(prefix, ws, r, Some(g.shortName), share);
  }

  // --------------------------------------------------------------------------- the chart

  lemma {:induction false} Names(prefix: string)
    ensures Key(prefix, US, None) == prefix + " US"
    ensures Key(prefix, ExUS, None) == prefix + " Ex-US"
    ensures Key(prefix, Emerging, None) == prefix + " Emrg. Markets"
  {
    assert " " + "US" == " US" && " " + "Ex-US" == " Ex-US" && " " + "Emrg. Markets" == " Emrg. Markets";
    assert prefix + " " + "US" == prefix + (" " + "US");
    assert prefix + " " + "Ex-US" == prefix + (" " + "Ex-US");
    assert prefix + " " + "Emrg. Markets" == prefix + (" " + "Emrg. Markets");
  }

  lemma {:induction false} OneRegionShown(prefix: string, groups: seq<Group>, regional: seq<Position>, r: Region,
                                          total: real, name: string)
    requires total > 0.0 && ProperGroups(groups) && DistinctGroups(groups) && Proper(regional)
    requires name == Key(prefix, r, None)
    ensures var ws := AllWedges(OrderedGroups(groups), AbsoluteAmounts(regional), total);
            RegionShown(Entries(prefix, ws), name, r, groups, regional, total)
  {
    PlainShown(prefix, groups, regional, r, total);
    forall g | g in groups
      ensures var ws := AllWedges(OrderedGroups(groups), AbsoluteAmounts(regional), total);
              Shown(Entries(prefix, ws), name + ": " + g.shortName, AmountIn(g.positions, r) / total)
    {
      GroupShown(prefix, groups, regional, g, r, total);
      assert Key(prefix, r, Some(g.shortName)) == name + ": " + g.shortName;
    }
  }

  /** Under the portfolio's name and " US" stands the US part of the regional positions and of the small groups,
      under " Ex-US" the other developed part, under " Emrg. Markets" the rest, and each large part of a group
      under the region's label and the group's own name; each one exactly when it is at least 0.007. */
  lemma {:induction false} ChartNamesRegions(prefix: string, groups: seq<Group>, regional: seq<Position>, total: real)
    requires total > 0.0 && ProperGroups(groups) && DistinctGroups(groups) && Proper(regional)
    ensures var data := PutAll([], Entries(prefix, AllWedges(OrderedGroups(groups), AbsoluteAmounts(regional), total)));
            && RegionShown(data, prefix + " US", US, groups, regional, total)
            && RegionShown(data, prefix + " Ex-US", ExUS, groups, regional, total)
            && RegionShown(data, prefix + " Emrg. Markets", Emerging, groups, regional, total)
  {
    var es := Entries(prefix, AllWedges(OrderedGroups(groups), AbsoluteAmounts(regional), total));
    OrderedDistinct(groups);
    ChartDistinct(OrderedGroups(groups), AbsoluteAmounts(regional), total);
    EntriesDistinct(prefix, AllWedges(OrderedGroups(groups), AbsoluteAmounts(regional), total));
    PutAllNew([], es);
    assert [] + es == es;
    Names(prefix);
    OneRegionShown(prefix, groups, regional, US, total, prefix + " US");
    OneRegionShown(prefix, groups, regional, ExUS, total, prefix + " Ex-US");
    OneRegionShown(prefix, groups, regional, Emerging, total, prefix + " Emrg. Markets");
  }

  /** The labels of the three regions. */
  predicate RegionLabel(prefix: string, name: string) {
    name == prefix + " US" || name == prefix + " Ex-US" || name == prefix + " Emrg. Markets"
  }

  lemma {:induction false} LabelOfWedge(prefix: string, w: Wedge)
    ensures RegionLabel(prefix, Key(prefix, w.region, None))
    ensures Key(prefix, w.region, w.group)
            == Key(prefix, w.region, None) + if w.group.Some? then ": " + w.group.value else ""
  {
    Names(prefix);
    if w.group.Some? {
      assert Key(prefix, w.region, None) + ": " + w.group.value == Key(prefix, w.region, None) + (": " + w.group.value);
    } else {
      assert Key(prefix, w.region, None) + "" == Key(prefix, w.region, None);
    }
  }

  /** Nothing else is in the chart: a label is a region's, followed by a group's name or by nothing. */
  lemma {:induction false} ChartNamesOnly(prefix: string, groups: seq<Group>, plain: Amounts, total: real, name: string)
    returns (region: string, group: Option<Group>)
    requires total > 0.0 && ProperGroups(groups)
    requires Has(Entries(prefix, AllWedges(OrderedGroups(groups), plain, total)), name)
    ensures RegionLabel(prefix, region) && (group.Some? ==> group.value in groups)
    ensures name == region + if group.Some? then ": " + group.value.shortName else ""
  {
    var ws := AllWedges(OrderedGroups(groups), plain, total);
    var i :| 0 <= i < |ws| && Entries(prefix, ws)[i].key == name;
    region := Key(prefix, ws[i].region, None);
    LabelOfWedge(prefix, ws[i]);
    group := GroupNamed(groups, plain, total, ws[i]);
  }

  lemma {:induction false} GroupNamed(groups: seq<Group>, plain: Amounts, total: real, w: Wedge)
    returns (group: Option<Group>)
    requires total > 0.0 && ProperGroups(groups) && w in AllWedges(OrderedGroups(groups), plain, total)
    ensures group.Some? ==> group.value in groups
    ensures w.group == if group.Some? then Some(group.value.shortName) else None
  {
    GroupOfWedge(groups, plain, total, w);
    if w.group == None {
      group := None;
    } else {
      var g :| g in groups && w.group == Some(g.shortName);
      group := Some(g);
    }
  }
}
