/** Value-weighted sector aggregation and its merge (portfolio/portfolio.py). */
module Sectors {
  import opened Wrappers
  import opened OrderedDict
  import opened Scalars
  import opened Positions

  const PERCENT := 0.01

  const COMMODITIES := "Commodities"
  const OTHER := "Other"

  /** The wedge of a position without sector rows. */
  function Label(shortName: Option<string>): string {
    if shortName.Some? && IsGold(shortName.value) then COMMODITIES
    else if shortName.Some? && shortName.value != "" then shortName.value
    else OTHER
  }

  /** `name.lower() == "gold"` */
  predicate IsGold(name: string) {
    |name| == 4 && name[0] in "gG" && name[1] in "oO" && name[2] in "lL" && name[3] in "dD"
  }

  /** What a unit invested in this position puts into each sector. */
  function UnitEntries(p: Position): seq<Entry> {
    if p.sectors != [] then Scale(p.sectors, PERCENT) else [Entry(Label(p.shortName), 1.0)]
  }

  /** The part of a portfolio worth `total` that each position puts into each sector. */
  function Contributions(ps: seq<Position>, total: real): seq<Entry>
    requires total != 0.0
  {
    if ps == [] then []
    else Scale(UnitEntries(ps[0]), ps[0].value / total) + Contributions(ps[1..], total)
  }

  /** `_normalize_sector_fractions` */
  function Normalize(d: Dict): Dict {
    var total := Total(d);
    if total <= 0.0 || total == 1.0 then d else Scale(d, 1.0 / total)
  }

  function Raw(ps: seq<Position>): Dict
    requires Value(ps) > 0.0
  {
    Fill([], Contributions(ps, Value(ps)))
  }

  /** The sector fractions of a portfolio: none when it is worth nothing. */
  function SectorsOf(ps: seq<Position>): Dict {
    if Value(ps) <= 0.0 then [] else Normalize(Raw(ps))
  }

  /** `_merged_sector_union`: each side weighted by its share of the merged value. */
  function Merge(left: Dict, leftValue: real, right: Dict, rightValue: real): Dict {
    var total := leftValue + rightValue;
    Normalize(Fill(Fill([], Scale(left, Ratio(leftValue, total))), Scale(right, Ratio(rightValue, total))))
  }

  // ------------------------------------------------------------------------- loops

  lemma FillNext(d: Dict, es: seq<Entry>, n: nat)
    requires n < |es|
    ensures Fill(d, es[..n + 1]) == Bump(Fill(d, es[..n]), es[n].key, es[n].val)
  {
    assert es[..n + 1] == es[..n] + [es[n]];
    FillSplit(d, es[..n], [es[n]]);
    assert [es[n]][1..] == [];
  }

  lemma RowShare(share: real, weightPct: real)
    ensures share * weightPct / 100.0 == Times(share, Times(PERCENT, weightPct))
  {
  }

  /** The inner loop: one position's rows. */
  method AddRows(sectors: Dict, rows: seq<Entry>, share: real) returns (r: Dict)
    ensures r == Fill(sectors, Scale(Scale(rows, PERCENT), share))
  {
    r := sectors;
    ghost var es := Scale(Scale(rows, PERCENT), share);
    for j := 0 to |rows|
      invariant r == Fill(sectors, es[..j])
    {
      RowShare(share, rows[j].val);
      assert es[j] == Entry(rows[j].key, share * rows[j].val / 100.0);
      FillNext(sectors, es, j);
      r := Bump(r, rows[j].key, share * rows[j].val / 100.0);
    }
    assert es[..|rows|] == es;
  }

  /** `_calculate_sectors` */
  method CalculateSectors(ps: seq<Position>) returns (sectors: Dict)
    ensures sectors == SectorsOf(ps)
  {
    var consolidated: Dict := [];
    var value := Value(ps);
    if value <= 0.0 {
      return consolidated;
    }
    for i := 0 to |ps|
      invariant Fill(consolidated, Contributions(ps[i..], value)) == Raw(ps)
    {
      var p := ps[i];
      var share := p.value / value;
      ghost var es, before := Scale(UnitEntries(p), share), consolidated;
      if p.sectors != [] {
        consolidated := AddRows(consolidated, p.sectors, share);
      } else {
        consolidated := Bump(consolidated, Label(p.shortName), share);
        assert es == [Entry(Label(p.shortName), Times(share, 1.0))] && es[1..] == [];
      }
      assert ps[i..][1..] == ps[i + 1..];
      FillSplit(before, es, Contributions(ps[i + 1..], value));
    }
    return Normalize(consolidated);
  }

  /** One side of the union loop. */
  method AddSide(union: Dict, side: Dict, share: real) returns (r: Dict)
    ensures r == Fill(union, Scale(side, share))
  {
    r := union;
    ghost var es := Scale(side, share);
    for i := 0 to |side|
      invariant r == Fill(union, es[..i])
    {
      FillNext(union, es, i);
      r := Bump(r, side[i].key, Times(share, side[i].val));
    }
    assert es[..|es|] == es;
  }

  method MergedSectorUnion(left: Dict, leftValue: real, right: Dict, rightValue: real) returns (r: Dict)
    ensures r == Merge(left, leftValue, right, rightValue)
  {
    var total := leftValue + rightValue;
    var union := AddSide([], left, Ratio(leftValue, total));
    union := AddSide(union, right, Ratio(rightValue, total));
    return Normalize(union);
  }
}
