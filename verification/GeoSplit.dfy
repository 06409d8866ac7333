/** The regional wedges of a portfolio (portfolio/regional_portfolio.py). */
module GeoSplit {
  import opened Wrappers
  import opened OrderedDict
  import opened Positions

  datatype Group = Group(shortName: string, totalValue: real, positions: seq<Position>)

  /** Money in the United States, in other developed markets and in emerging markets. */
  datatype Amounts = Amounts(us: real, exUs: real, emerging: real)

  datatype Region = US | ExUS | Emerging

  const REGIONS: seq<Region> := [US, ExUS, Emerging]
  const MIN_WEIGHT := 0.007

  // ----------------------------------------------------------------------- partition

  predicate Labeled(p: Position) {
    p.shortName.Some? && p.shortName.value != ""
  }

  function Regional(ps: seq<Position>): seq<Position> {
    if ps == [] then [] else (if Labeled(ps[0]) then [] else [ps[0]]) + Regional(ps[1..])
  }

  /** The positions that carry one label, in order. */
  function Carrying(ps: seq<Position>, name: string): seq<Position> {
    if ps == [] then []
    else (if Labeled(ps[0]) && ps[0].shortName.value == name then [ps[0]] else []) + Carrying(ps[1..], name)
  }

  function Joined(groups: seq<Group>, p: Position): seq<Group>
    requires Labeled(p)
  {
    if groups == [] then [Group(p.shortName.value, p.value, [p])]
    else if groups[0].shortName == p.shortName.value then
      [Group(groups[0].shortName, groups[0].totalValue + p.value, groups[0].positions + [p])] + groups[1..]
    else [groups[0]] + Joined(groups[1..], p)
  }

  /** The groups with one more position. */
  function NextGroups(groups: seq<Group>, p: Position): seq<Group> {
    if Labeled(p) then Joined(groups, p) else groups
  }

  /** The groups after the first `n` positions. */
  function Groups(ps: seq<Position>, n: nat): seq<Group>
    requires n <= |ps|
  {
    if n == 0 then [] else NextGroups(Groups(ps, n - 1), ps[n - 1])
  }

  /** `_partition_and_group_labeled` */
  method PartitionAndGroupLabeled(ps: seq<Position>) returns (groups: seq<Group>, regional: seq<Position>)
    ensures groups == Groups(ps, |ps|) && regional == Regional(ps)
  {
    groups, regional := [], [];
    for i := 0 to |ps|
      invariant groups == Groups(ps, i) && regional == Regional(ps[..i])
    {
      RegionalNext(ps, i);
      if Labeled(ps[i]) {
        groups := Joined(groups, ps[i]);
      } else {
        regional := regional + [ps[i]];
      }
    }
    assert ps[..|ps|] == ps;
  }

  lemma {:induction false} RegionalNext(ps: seq<Position>, n: nat)
    requires n < |ps|
    ensures Regional(ps[..n + 1]) == Regional(ps[..n]) + (if Labeled(ps[n]) then [] else [ps[n]])
    ensures Value(ps[..n + 1]) == Value(ps[..n]) + ps[n].value
  {
    assert ps[..n + 1] == ps[..n] + [ps[n]] && [ps[n]][1..] == [];
    RegionalOfSum(ps[..n], [ps[n]]);
    ValueOfSum(ps[..n], [ps[n]]);
  }

  /** A position is regional exactly when it has no label; the positions before and after a place are told apart on
      their own, so each kind stays in order. */
  lemma {:induction false} LabelsTellApart(p: Position, name: string, a: seq<Position>, b: seq<Position>)
    ensures Regional([p]) == if p.shortName == None || p.shortName == Some("") then [p] else []
    ensures name != "" ==> Carrying([p], name) == if p.shortName == Some(name) then [p] else []
    ensures Regional([]) == [] && Regional(a + b) == Regional(a) + Regional(b)
    ensures Carrying([], name) == [] && Carrying(a + b, name) == Carrying(a, name) + Carrying(b, name)
  {
    assert [p][1..] == [] && [p] + [] == [p];
    RegionalOfSum(a, b);
    CarryingOfSum(a, b, name);
  }

  lemma {:induction false} RegionalOfSum(a: seq<Position>, b: seq<Position>)
    ensures Regional(a + b) == Regional(a) + Regional(b)
  {
    if a == [] {
      assert a + b == b;
    } else {
      assert (a + b)[1..] == a[1..] + b;
      RegionalOfSum(a[1..], b);
    }
  }

  lemma {:induction false} CarryingOfSum(a: seq<Position>, b: seq<Position>, name: string)
    ensures Carrying(a + b, name) == Carrying(a, name) + Carrying(b, name)
  {
    if a == [] {
      assert a + b == b;
    } else {
      assert (a + b)[1..] == a[1..] + b;
      CarryingOfSum(a[1..], b, name);
    }
  }

  predicate HasGroup(groups: seq<Group>, name: string) {
    exists i :: 0 <= i < |groups| && groups[i].shortName == name
  }

  predicate DistinctGroups(groups: seq<Group>) {
    forall i, j :: 0 <= i < j < |groups| ==> groups[i].shortName != groups[j].shortName
  }

  /** The group holds exactly the positions that carry its name, and their value. */
  predicate GroupOf(g: Group, ps: seq<Position>) {
    g.shortName != "" && g.positions == Carrying(ps, g.shortName) && g.totalValue == Value(g.positions)
  }

  predicate Covers(groups: seq<Group>, ps: seq<Position>) {
    forall i :: 0 <= i < |ps| && Labeled(ps[i]) ==> HasGroup(groups, ps[i].shortName.value)
  }

  /** One group for each label, holding exactly the positions that carry it. */
  predicate GroupsOf(groups: seq<Group>, ps: seq<Position>) {
    && DistinctGroups(groups)
    && (forall i :: 0 <= i < |groups| ==> GroupOf(groups[i], ps))
    && Covers(groups, ps)
  }

  lemma {:induction false} HasGroupHead(groups: seq<Group>, name: string)
    requires groups != []
    ensures HasGroup(groups, name) <==> groups[0].shortName == name || HasGroup(groups[1..], name)
  {
    if HasGroup(groups[1..], name) {
      var i :| 0 <= i < |groups[1..]| && groups[1..][i].shortName == name;
      assert groups[i + 1].shortName == name;
    }
    if HasGroup(groups, name) && groups[0].shortName != name {
      var i :| 0 <= i < |groups| && groups[i].shortName == name;
      assert groups[1..][i - 1].shortName == name;
    }
  }

  lemma {:induction false} JoinedShape(groups: seq<Group>, p: Position)
    requires Labeled(p) && DistinctGroups(groups)
    ensures var r, name := Joined(groups, p), p.shortName.value;
            && |r| == (if HasGroup(groups, name) then |groups| else |groups| + 1)
            && (forall i :: 0 <= i < |groups| ==>
                  r[i] == if groups[i].shortName == name
                          then Group(name, groups[i].totalValue + p.value, groups[i].positions + [p])
                          else groups[i])
            && (|r| > |groups| ==> r[|groups|] == Group(name, p.value, [p]))
  {
    if groups != [] {
      var name, r := p.shortName.value, Joined(groups, p);
      HasGroupHead(groups, name);
      if groups[0].shortName != name {
        JoinedShape(groups[1..], p);
        var rest := Joined(groups[1..], p);
        assert forall i :: 0 < i < |r| ==> r[i] == rest[i - 1];
        assert forall i :: 0 < i < |groups| ==> groups[i] == groups[1..][i - 1];
      }
    }
  }

  lemma {:induction false} NoneCarrying(ps: seq<Position>, name: string)
    requires forall i :: 0 <= i < |ps| && Labeled(ps[i]) ==> ps[i].shortName.value != name
    ensures Carrying(ps, name) == []
  {
    if ps != [] {
      NoneCarrying(ps[1..], name);
    }
  }

  lemma {:induction false} PassedOver(groups: seq<Group>, ps: seq<Position>, p: Position)
    requires !Labeled(p) && GroupsOf(groups, ps)
    ensures GroupsOf(groups, ps + [p])
  {
    forall i | 0 <= i < |groups| ensures GroupOf(groups[i], ps + [p]) {
      CarryingOfSum(ps, [p], groups[i].shortName);
      assert [p][1..] == [];
    }
  }

  /** Grouping is a partition by label. */
  lemma {:induction false} GroupsPartition(ps: seq<Position>, n: nat)
    requires n <= |ps|
    ensures GroupsOf(Groups(ps, n), ps[..n])
  {
    if n == 0 {
      NoGroups(ps);
    } else {
      GroupsPartition(ps, n - 1);
      GroupsNext(ps, n);
    }
  }

  lemma {:induction false} NoGroups(ps: seq<Position>)
    ensures GroupsOf(Groups(ps, 0), ps[..0])
  {
    assert ps[..0] == [];
  }

  lemma {:induction false} GroupsNext(ps: seq<Position>, n: nat)
    requires 0 < n <= |ps| && GroupsOf(Groups(ps, n - 1), ps[..n - 1])
    ensures GroupsOf(Groups(ps, n), ps[..n])
  {
    FirstPositions(ps, n);
    OneMorePosition(Groups(ps, n - 1), ps[..n - 1], ps[n - 1]);
  }

  lemma {:induction false} FirstPositions(ps: seq<Position>, n: nat)
    requires 0 < n <= |ps|
    ensures ps[..n] == ps[..n - 1] + [ps[n - 1]]
  {
  }

  lemma {:induction false} OneMorePosition(groups: seq<Group>, ps: seq<Position>, p: Position)
    requires GroupsOf(groups, ps)
    ensures GroupsOf(NextGroups(groups, p), ps + [p])
  {
    if Labeled(p) {
      JoinKeepsPartition(groups, ps, p);
    } else {
      PassedOver(groups, ps, p);
    }
  }

  lemma {:induction false} Extended(g: Group, ps: seq<Position>, p: Position)
    requires Labeled(p) && GroupOf(g, ps)
    ensures GroupOf(if g.shortName == p.shortName.value
                    then Group(g.shortName, g.totalValue + p.value, g.positions + [p]) else g, ps + [p])
  {
    CarryingOfSum(ps, [p], g.shortName);
    ValueOfSum(g.positions, [p]);
    assert [p][1..] == [] && Value([p]) == p.value;
  }

  lemma {:induction false} Started(ps: seq<Position>, p: Position)
    requires Labeled(p) && Carrying(ps, p.shortName.value) == []
    ensures GroupOf(Group(p.shortName.value, p.value, [p]), ps + [p])
  {
    CarryingOfSum(ps, [p], p.shortName.value);
    assert [p][1..] == [] && [] + [p] == [p] && Value([p]) == p.value;
  }

  lemma {:induction false} JoinedCovers(groups: seq<Group>, ps: seq<Position>, p: Position)
    requires Labeled(p) && DistinctGroups(groups) && Covers(groups, ps)
    ensures Covers(Joined(groups, p), ps + [p]) && DistinctGroups(Joined(groups, p))
  {
    var r := Joined(groups, p);
    JoinedShape(groups, p);
    forall i | 0 <= i < |ps + [p]| && Labeled((ps + [p])[i]) ensures HasGroup(r, (ps + [p])[i].shortName.value) {
      var q := (ps + [p])[i].shortName.value;
      if HasGroup(groups, q) {
        var j :| 0 <= j < |groups| && groups[j].shortName == q;
        assert r[j].shortName == q;
      } else {
        assert r[|groups|].shortName == q;
      }
    }
  }

  lemma {:induction false} JoinKeepsPartition(groups: seq<Group>, ps: seq<Position>, p: Position)
    requires Labeled(p) && GroupsOf(groups, ps)
    ensures GroupsOf(Joined(groups, p), ps + [p])
  {
    var r := Joined(groups, p);
    JoinedShape(groups, p);
    JoinedCovers(groups, ps, p);
    if !HasGroup(groups, p.shortName.value) {
      NoneCarrying(ps, p.shortName.value);
      Started(ps, p);
    }
    forall i | 0 <= i < |r| ensures GroupOf(r[i], ps + [p]) {
      if i < |groups| {
        Extended(groups[i], ps, p);
      }
    }
  }
}
