/** Where the money of each position goes in the sectors of a portfolio. */
module SectorMoney {
  import opened Wrappers
  import opened OrderedDict
  import opened Scalars
  import opened Positions
  import opened Sectors
  import opened SectorLaws

  function Lower(c: char): char {
    if 'A' <= c <= 'Z' then c - 'A' + 'a' else c
  }

  function LowerCase(s: string): string {
    if s == "" then "" else [Lower(s[0])] + LowerCase(s[1..])
  }

  /** What a position without sector rows counts as. */
  predicate CountsAs(shortName: Option<string>, name: string) {
    if shortName == None || shortName == Some("") then name == "Other"
    else if LowerCase(shortName.value) == "gold" then name == "Commodities"
    else name == shortName.value
  }

  /** The money a position puts into a sector: by its rows in percent, or all of it under its label. */
  function MoneyOf(p: Position, name: string): real {
    if p.sectors != [] then p.value * SumFor(p.sectors, name) / 100.0
    else if CountsAs(p.shortName, name) then p.value
    else 0.0
  }

  function Money(ps: seq<Position>, name: string): real {
    if ps == [] then 0.0 else MoneyOf(ps[0], name) + Money(ps[1..], name)
  }

  /** The money that the rows account for; a position without rows is accounted for in full. */
  function AccountedOf(p: Position): real {
    if p.sectors != [] then p.value * Total(p.sectors) / 100.0 else p.value
  }

  function Accounted(ps: seq<Position>): real {
    if ps == [] then 0.0 else AccountedOf(ps[0]) + Accounted(ps[1..])
  }

  // ------------------------------------------------------------------------ one position

  lemma {:induction false} LowerCaseLength(s: string)
    ensures |LowerCase(s)| == |s|
    ensures forall i :: 0 <= i < |s| ==> LowerCase(s)[i] == Lower(s[i])
  {
    if s != "" {
      LowerCaseLength(s[1..]);
    }
  }

  lemma LowerIs(c: char, small: char, capital: char)
    requires 'a' <= small <= 'z' && capital == small - 'a' + 'A'
    ensures Lower(c) == small <==> c == small || c == capital
  {
  }

  lemma SameFour(s: string, t: string)
    requires |s| == |t| == 4
    ensures s == t <==> s[0] == t[0] && s[1] == t[1] && s[2] == t[2] && s[3] == t[3]
  {
  }

  lemma {:induction false} GoldIff(s: string)
    ensures IsGold(s) <==> LowerCase(s) == "gold"
  {
    LowerCaseLength(s);
    if |s| == 4 {
      SameFour(LowerCase(s), "gold");
      LowerIs(s[0], 'g', 'G');
      LowerIs(s[1], 'o', 'O');
      LowerIs(s[2], 'l', 'L');
      LowerIs(s[3], 'd', 'D');
    }
  }

  lemma {:induction false} LabelIff(shortName: Option<string>, name: string)
    ensures Label(shortName) == name <==> CountsAs(shortName, name)
  {
    if shortName.Some? {
      GoldIff(shortName.value);
      LowerCaseLength(shortName.value);
    }
  }

  lemma {:induction false} UnitSum(p: Position, name: string)
    ensures Times(p.value, SumFor(UnitEntries(p), name)) == MoneyOf(p, name)
    ensures Times(p.value, Total(UnitEntries(p))) == AccountedOf(p)
  {
    if p.sectors != [] {
      ScaleSumFor(p.sectors, PERCENT, name);
      ScaleTotal(p.sectors, PERCENT);
      Percent(p.value, SumFor(p.sectors, name));
      Percent(p.value, Total(p.sectors));
    } else {
      LabelIff(p.shortName, name);
      var e := Entry(Label(p.shortName), 1.0);
      assert [e][1..] == [] && SumFor([], name) == 0.0 && Total([]) == 0.0;
      assert Times(p.value, 1.0) == p.value && Times(p.value, 0.0) == 0.0;
    }
  }

  lemma Percent(v: real, w: real)
    ensures Times(v, Times(PERCENT, w)) == v * w / 100.0
  {
    assert v * (PERCENT * w) == PERCENT * (v * w);
  }

  // ---------------------------------------------------------------------- the portfolio

  lemma PartTimes(v: real, total: real, x: real)
    requires total > 0.0
    ensures Times(total, Times(v / total, x)) == Times(v, x)
  {
    assert total * (v / total) == v;
    assert total * ((v / total) * x) == (total * (v / total)) * x;
  }

  lemma TimesSum(c: real, a: real, b: real)
    ensures Times(c, a + b) == Times(c, a) + Times(c, b)
  {
  }

  lemma {:induction false} ContributionMoney(ps: seq<Position>, total: real, name: string)
    requires total > 0.0
    ensures Times(total, SumFor(Contributions(ps, total), name)) == Money(ps, name)
    ensures Times(total, Total(Contributions(ps, total))) == Accounted(ps)
  {
    if ps == [] {
      assert Times(total, 0.0) == 0.0;
    } else {
      var u, rest, share := UnitEntries(ps[0]), Contributions(ps[1..], total), ps[0].value / total;
      ContributionMoney(ps[1..], total, name);
      UnitSum(ps[0], name);
      ScaleSumFor(u, share, name);
      ScaleTotal(u, share);
      SumForOfSum(Scale(u, share), rest, name);
      TotalOfSum(Scale(u, share), rest);
      PartTimes(ps[0].value, total, SumFor(u, name));
      PartTimes(ps[0].value, total, Total(u));
      TimesSum(total, Times(share, SumFor(u, name)), SumFor(rest, name));
      TimesSum(total, Times(share, Total(u)), Total(rest));
    }
  }

  lemma {:induction false} RawMoney(ps: seq<Position>, name: string)
    requires Value(ps) > 0.0
    ensures Times(Value(ps), Get(Raw(ps), name)) == Money(ps, name)
    ensures Times(Value(ps), Coverage(ps)) == Accounted(ps)
  {
    ContributionMoney(ps, Value(ps), name);
    FillGet([], Contributions(ps, Value(ps)), name);
    FillTotal([], Contributions(ps, Value(ps)));
  }

  lemma Quotient(v: real, cover: real, accounted: real, raw: real, money: real, share: real)
    requires v > 0.0 && accounted == Times(v, cover) && money == Times(v, raw) && raw == Times(cover, share)
    ensures Times(accounted, share) == money
    ensures accounted > 0.0 <==> cover > 0.0
  {
    assert (v * cover) * share == v * (cover * share);
    assert v * cover > 0.0 <==> cover > 0.0;
  }

  lemma SamePositive(v: real, cover: real, accounted: real)
    requires v > 0.0 && accounted == Times(v, cover)
    ensures accounted > 0.0 <==> cover > 0.0
  {
    assert v * cover > 0.0 <==> cover > 0.0;
  }

  /** A sector's fraction is its money over all the money that is accounted for. */
  lemma {:induction false} FractionsAreMoney(ps: seq<Position>, name: string)
    requires Value(ps) > 0.0 && Accounted(ps) > 0.0
    ensures Times(Accounted(ps), Get(SectorsOf(ps), name)) == Money(ps, name)
  {
    RawMoney(ps, name);
    SamePositive(Value(ps), Coverage(ps), Accounted(ps));
    NormalizedGet(Raw(ps), name);
    Quotient(Value(ps), Coverage(ps), Accounted(ps), Get(Raw(ps), name), Money(ps, name), Get(SectorsOf(ps), name));
  }

  /** The position has a row of that name, or counts as it. */
  predicate NamedBy(p: Position, name: string) {
    if p.sectors != [] then Has(p.sectors, name) else CountsAs(p.shortName, name)
  }

  /** A sector that is shown is named by some position. */
  lemma {:induction false} SectorsNamed(ps: seq<Position>, name: string)
    requires Value(ps) > 0.0 && Has(SectorsOf(ps), name)
    ensures exists p :: p in ps && NamedBy(p, name)
  {
    FilledNames([], Contributions(ps, Value(ps)), name);
    NormalizedNames(Raw(ps), name);
    ContributionNames(ps, Value(ps), name);
  }

  lemma {:induction false} FilledNames(d: Dict, es: seq<Entry>, name: string)
    ensures Has(Fill(d, es), name) <==> Has(d, name) || Has(es, name)
    decreases |es|
  {
    if es != [] {
      FilledNames(Bump(d, es[0].key, es[0].val), es[1..], name);
      BumpHas(d, es[0].key, es[0].val, name);
      HasHead(es, name);
    }
  }

  lemma {:induction false} NormalizedNames(d: Dict, name: string)
    ensures Has(Normalize(d), name) <==> Has(d, name)
  {
    var n := Normalize(d);
    assert |n| == |d| && forall i :: 0 <= i < |d| ==> n[i].key == d[i].key;
  }

  lemma {:induction false} UnitNames(p: Position, share: real, name: string)
    requires Has(Scale(UnitEntries(p), share), name)
    ensures NamedBy(p, name)
  {
    var u := Scale(UnitEntries(p), share);
    var i :| 0 <= i < |u| && u[i].key == name;
    if p.sectors != [] {
      assert p.sectors[i].key == name;
    } else {
      LabelIff(p.shortName, name);
    }
  }

  lemma {:induction false} SumNames(a: seq<Entry>, b: seq<Entry>, name: string)
    requires Has(a + b, name)
    ensures Has(a, name) || Has(b, name)
  {
    var i :| 0 <= i < |a + b| && (a + b)[i].key == name;
    if i >= |a| {
      assert b[i - |a|].key == name;
    }
  }

  lemma {:induction false} ContributionNames(ps: seq<Position>, total: real, name: string)
    requires total != 0.0 && Has(Contributions(ps, total), name)
    ensures exists p :: p in ps && NamedBy(p, name)
  {
    if ps != [] {
      var share := ps[0].value / total;
      SumNames(Scale(UnitEntries(ps[0]), share), Contributions(ps[1..], total), name);
      if Has(Scale(UnitEntries(ps[0]), share), name) {
        UnitNames(ps[0], share, name);
        assert ps[0] in ps;
      } else {
        ContributionNames(ps[1..], total, name);
        var p :| p in ps[1..] && NamedBy(p, name);
        assert p in ps;
      }
    }
  }
}
