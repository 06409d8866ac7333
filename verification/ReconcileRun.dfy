/** The update of one broker's rows, step by step (scrape/scalable.py, scrape/traderepublic.py). */
module ReconcileRun {
  import opened Wrappers
  import opened Reconcile

  /** One entry of a fetch. */
  datatype Item = Item(key: string, holding: Holding, isCash: bool, isOvernight: bool)

  predicate IsFund(item: Item, broker: Broker) {
    !item.isCash && !(broker.overnight.Some? && item.isOvernight) && item.holding.isin != ""
  }

  /** `d[h.isin] = h` */
  function PutFund(funds: seq<Holding>, h: Holding): seq<Holding> {
    if funds == [] then [h]
    else if funds[0].isin == h.isin then [h] + funds[1..]
    else [funds[0]] + PutFund(funds[1..], h)
  }

  function FundsOf(funds: seq<Holding>, items: seq<Item>, broker: Broker): seq<Holding>
    decreases |items|
  {
    if items == [] then funds
    else FundsOf(if IsFund(items[0], broker) then PutFund(funds, items[0].holding) else funds, items[1..], broker)
  }

  function ValueAt(items: seq<Item>, key: string): Option<Option<real>> {
    if items == [] then None else if items[0].key == key then Some(items[0].holding.value) else ValueAt(items[1..], key)
  }

  function SheetOf(items: seq<Item>, broker: Broker): Sheet {
    Sheet(FundsOf([], items, broker), ValueAt(items, broker.cash.key),
          if broker.overnight.Some? then ValueAt(items, broker.overnight.value.key) else None)
  }

  predicate CoveredBy(matched: set<Id>, rows: seq<Row>, broker: Broker, sheet: Sheet) {
    forall j :: 0 <= j < |rows| ==>
      var id := IdOf(rows[j], broker);
      id.Some? && Fetched(id.value, sheet) ==> id.value in matched
  }

  /** The identities that have a row and were fetched. */
  predicate Matches(matched: set<Id>, p: Portfolio, broker: Broker, sheet: Sheet) {
    && (forall id :: id in matched ==> Fetched(id, sheet) && HoldsAnywhere(p, id, broker))
    && (forall i :: 0 <= i < |p| ==> CoveredBy(matched, p[i].rows, broker, sheet))
  }

  predicate MatchesRows(matched: set<Id>, rows: seq<Row>, broker: Broker, sheet: Sheet) {
    && (forall id :: id in matched ==> Fetched(id, sheet) && Holds(rows, id, broker))
    && CoveredBy(matched, rows, broker, sheet)
  }

  lemma {:induction false} MarkedNext(rows: seq<Row>, n: nat, broker: Broker, sheet: Sheet)
    requires n < |rows|
    ensures Marked(rows[..n + 1], broker, sheet)
            == Marked(rows[..n], broker, sheet) + [Refreshed(rows[n], broker, sheet)]
    ensures StaleRows(rows[..n + 1], broker, sheet)
            == StaleRows(rows[..n], broker, sheet) + (if Stale(rows[n], broker, sheet) then [rows[n]] else [])
    ensures |Marked(rows[..n], broker, sheet)| == n
  {
    assert rows[..n + 1] == rows[..n] + [rows[n]] && [rows[n]][1..] == [];
    MarkedOfSum(rows[..n], [rows[n]], broker, sheet);
  }

  lemma {:induction false} MarkedOfSum(a: seq<Row>, b: seq<Row>, broker: Broker, sheet: Sheet)
    ensures Marked(a + b, broker, sheet) == Marked(a, broker, sheet) + Marked(b, broker, sheet)
    ensures StaleRows(a + b, broker, sheet) == StaleRows(a, broker, sheet) + StaleRows(b, broker, sheet)
    ensures |Marked(a, broker, sheet)| == |a|
  {
    if a == [] {
      assert a + b == b;
    } else {
      assert (a + b)[1..] == a[1..] + b;
      MarkedOfSum(a[1..], b, broker, sheet);
    }
  }

  /** The rows while the loop runs: the first `n` are marked. */
  predicate Marking(rows: seq<Row>, before: seq<Row>, n: nat, broker: Broker, sheet: Sheet)
    requires n <= |before|
  {
    |rows| == |before| && rows == Marked(before[..n], broker, sheet) + before[n..]
  }

  lemma {:induction false} PutAfter<T>(done: seq<T>, was: T, rest: seq<T>, r: T)
    ensures (done + ([was] + rest))[|done|] == was
    ensures (done + ([was] + rest))[|done| := r] == (done + [r]) + rest
  {
  }

  lemma {:induction false} MarkingNext(rows: seq<Row>, before: seq<Row>, n: nat, broker: Broker, sheet: Sheet)
    requires n < |before| && Marking(rows, before, n, broker, sheet)
    ensures rows[n] == before[n]
    ensures Marking(rows[n := Refreshed(before[n], broker, sheet)], before, n + 1, broker, sheet)
  {
    var done, r := Marked(before[..n], broker, sheet), Refreshed(before[n], broker, sheet);
    MarkedNext(before, n, broker, sheet);
    PutAfter(done, before[n], before[n + 1..], r);
    assert before[n..] == [before[n]] + before[n + 1..];
  }

  predicate MarkingAll(p: Portfolio, before: Portfolio, n: nat, broker: Broker, sheet: Sheet)
    requires n <= |before|
  {
    |p| == |before| && p == MarkedAll(before[..n], broker, sheet) + before[n..]
  }

  lemma {:induction false} MarkingAllNext(p: Portfolio, before: Portfolio, n: nat, broker: Broker, sheet: Sheet)
    requires n < |before| && MarkingAll(p, before, n, broker, sheet)
    ensures p[n] == before[n]
    ensures MarkingAll(p[n := Bucket(p[n].name, Marked(p[n].rows, broker, sheet))], before, n + 1, broker, sheet)
    ensures StalesOf(before[..n + 1], broker, sheet)
            == StalesOf(before[..n], broker, sheet) + PlacedIn(p[n].name, StaleRows(p[n].rows, broker, sheet))
  {
    var b := Bucket(before[n].name, Marked(before[n].rows, broker, sheet));
    assert before[..n + 1] == before[..n] + [before[n]] && [before[n]][1..] == [];
    MarkedAllOfSum(before[..n], [before[n]], broker, sheet);
    assert MarkedAll([before[n]], broker, sheet) == [b] + [];
    PutAfter(MarkedAll(before[..n], broker, sheet), before[n], before[n + 1..], b);
    assert before[n..] == [before[n]] + before[n + 1..];
    assert StalesOf([before[n]], broker, sheet)
           == PlacedIn(before[n].name, StaleRows(before[n].rows, broker, sheet)) + [];
  }

  lemma {:induction false} MarkedAllOfSum(a: Portfolio, b: Portfolio, broker: Broker, sheet: Sheet)
    ensures MarkedAll(a + b, broker, sheet) == MarkedAll(a, broker, sheet) + MarkedAll(b, broker, sheet)
    ensures StalesOf(a + b, broker, sheet) == StalesOf(a, broker, sheet) + StalesOf(b, broker, sheet)
    ensures |MarkedAll(a, broker, sheet)| == |a|
  {
    if a == [] {
      assert a + b == b;
    } else {
      assert (a + b)[1..] == a[1..] + b;
      MarkedAllOfSum(a[1..], b, broker, sheet);
    }
  }

  /** What the loop does with one row: the branches in the order they are tried. */
  method MarkRow(r: Row, broker: Broker, sheet: Sheet) returns (r': Row, stale: bool, matched: set<Id>)
    ensures r' == Refreshed(r, broker, sheet) && stale == Stale(r, broker, sheet)
    ensures matched == var id := IdOf(r, broker); if id.Some? && Fetched(id.value, sheet) then {id.value} else {}
  {
    r', stale, matched := r, false, {};
    if r.broker != Some(broker.name) {
      assert IdOf(r, broker) == None && Refreshed(r, broker, sheet) == r;
    } else if broker.overnight.Some? && r.name == broker.overnight.value.name {
      assert IdOf(r, broker) == Some(Overnight);
      if sheet.overnight == None {
        stale := true;
      } else {
        r', matched := r.(value := sheet.overnight.value, shares := None, upperIsin := None), {Overnight};
        assert Refreshed(r, broker, sheet) == r';
      }
    } else if r.name == broker.cash.name {
      assert IdOf(r, broker) == Some(Cash);
      if sheet.cash == None {
        stale := true;
      } else {
        r', matched := r.(value := sheet.cash.value, shares := None, upperIsin := None), {Cash};
        assert Refreshed(r, broker, sheet) == r';
      }
    } else {
      var isin := Or(r.upperIsin, r.lowerIsin);
      var h := Find(sheet.funds, isin);
      assert IdOf(r, broker) == Some(Fund(isin));
      if h == None {
        stale := true;
      } else {
        r', matched := r.(value := h.value.value, shares := h.value.shares), {Fund(isin)};
        assert Refreshed(r, broker, sheet) == r';
      }
    }
  }

  /** The loop over one bucket's rows, which it overwrites in place. */
  method MarkBucket(b: Bucket, broker: Broker, sheet: Sheet)
    returns (rows: seq<Row>, stale: seq<Row>, matched: set<Id>)
    ensures rows == Marked(b.rows, broker, sheet) && stale == StaleRows(b.rows, broker, sheet)
    ensures MatchesRows(matched, b.rows, broker, sheet)
  {
    rows, stale, matched := b.rows, [], {};
    for i := 0 to |b.rows|
      invariant Marking(rows, b.rows, i, broker, sheet)
      invariant stale == StaleRows(b.rows[..i], broker, sheet)
      invariant MatchesRows(matched, b.rows[..i], broker, sheet)
    {
      MarkedNext(b.rows, i, broker, sheet);
      MarkingNext(rows, b.rows, i, broker, sheet);
      var r', isStale, more := MarkRow(rows[i], broker, sheet);
      MatchedNext(matched, more, b.rows, i, broker, sheet);
      matched := matched + more;
      if isStale {
        stale := stale + [rows[i]];
      }
      rows := rows[i := r'];
    }
    assert b.rows[..|b.rows|] == b.rows;
  }

  lemma {:induction false} MatchedNext(matched: set<Id>, more: set<Id>, rows: seq<Row>, n: nat, broker: Broker,
                                       sheet: Sheet)
    requires n < |rows| && MatchesRows(matched, rows[..n], broker, sheet)
    requires more == var id := IdOf(rows[n], broker); if id.Some? && Fetched(id.value, sheet) then {id.value} else {}
    ensures MatchesRows(matched + more, rows[..n + 1], broker, sheet)
  {
    var a, b := rows[..n], rows[..n + 1];
    forall id | id in matched + more ensures Fetched(id, sheet) && Holds(b, id, broker) {
      if id in matched {
        var i :| 0 <= i < |a| && IdOf(a[i], broker) == Some(id);
        assert IdOf(b[i], broker) == Some(id);
      } else {
        assert IdOf(b[n], broker) == Some(id);
      }
    }
    forall j | 0 <= j < |b|
      ensures var id := IdOf(b[j], broker); id.Some? && Fetched(id.value, sheet) ==> id.value in matched + more
    {
      if j < n {
        assert b[j] == a[j];
      }
    }
  }

  class Context {
    var portfolio: Portfolio

    constructor (portfolio: Portfolio)
      ensures this.portfolio == portfolio
    {
      this.portfolio := portfolio;
    }

    /** The loop over the buckets. */
    method MarkPortfolio(broker: Broker, sheet: Sheet) returns (toRemove: seq<Placed>, matched: set<Id>)
      modifies this
      ensures portfolio == MarkedAll(old(portfolio), broker, sheet)
      ensures toRemove == StalesOf(old(portfolio), broker, sheet)
      ensures Matches(matched, old(portfolio), broker, sheet)
    {
      toRemove, matched := [], {};
      ghost var before := portfolio;
      for i := 0 to |portfolio|
        invariant MarkingAll(portfolio, before, i, broker, sheet)
        invariant toRemove == StalesOf(before[..i], broker, sheet)
        invariant Matches(matched, before[..i], broker, sheet)
      {
        MarkingAllNext(portfolio, before, i, broker, sheet);
        var rows, stale, more := MarkBucket(portfolio[i], broker, sheet);
        MatchedBucket(matched, more, before, i, broker, sheet);
        toRemove, matched := toRemove + PlacedIn(portfolio[i].name, stale), matched + more;
        portfolio := portfolio[i := Bucket(portfolio[i].name, rows)];
      }
      assert before[..|before|] == before;
    }

    /** Appending the accounts that were fetched and have no row yet. */
    method AddAccounts(broker: Broker, sheet: Sheet, matched: set<Id>, ghost before: Portfolio)
      requires Matches(matched, before, broker, sheet)
      modifies this
      ensures portfolio == AddAll(old(portfolio), MissingAccounts(before, broker, sheet))
    {
      MatchedIff(matched, before, broker, sheet);
      if sheet.overnight.Some? && broker.overnight.Some? && Overnight !in matched {
        portfolio := AddTo(portfolio, CASH_PORTFOLIO,
                           AccountRow(broker.overnight.value.name, sheet.overnight.value, broker));
      }
      ghost var half := portfolio;
      if sheet.cash.Some? && Cash !in matched {
        portfolio := AddTo(portfolio, CASH_PORTFOLIO, AccountRow(broker.cash.name, sheet.cash.value, broker));
      }
      AddAllSplit(old(portfolio), MissingOvernight(before, broker, sheet), MissingCash(before, broker, sheet));
      assert half == AddAll(old(portfolio), MissingOvernight(before, broker, sheet));
      assert portfolio == AddAll(half, MissingCash(before, broker, sheet));
    }

    /** Appending the funds that were fetched and have no row yet. */
    method AddFunds(broker: Broker, sheet: Sheet, matched: set<Id>, bucketOf: string -> string, ghost before: Portfolio)
      requires Matches(matched, before, broker, sheet)
      requires forall h :: h in sheet.funds ==> Find(sheet.funds, Some(h.isin)).Some?
      modifies this
      ensures portfolio == AddAll(old(portfolio), MissingFunds(sheet.funds, before, broker, bucketOf))
    {
      MatchedIff(matched, before, broker, sheet);
      for i := 0 to |sheet.funds|
        invariant AddAll(portfolio, MissingFunds(sheet.funds[i..], before, broker, bucketOf))
                  == AddAll(old(portfolio), MissingFunds(sheet.funds, before, broker, bucketOf))
      {
        var h := sheet.funds[i];
        assert sheet.funds[i..][1..] == sheet.funds[i + 1..];
        var rest := MissingFunds(sheet.funds[i + 1..], before, broker, bucketOf);
        assert Fetched(Fund(Some(h.isin)), sheet) && [] + rest == rest;
        if Fund(Some(h.isin)) !in matched {
          var one := Placed(bucketOf(h.isin), FundRow(h, broker));
          assert ([one] + rest)[1..] == rest;
          portfolio := AddTo(portfolio, one.bucket, one.row);
        }
      }
    }

    /** `update_scalable_etfs_in_portfolio` and `update_traderepublic_etfs_in_portfolio`: an empty
        fetch leaves the portfolio alone. */
    method Update(items: seq<Item>, broker: Broker, bucketOf: string -> string)
      requires DistinctBuckets(portfolio)
      modifies this
      ensures items == [] ==> portfolio == old(portfolio)
      ensures items != [] ==> portfolio == Updated(old(portfolio), broker, SheetOf(items, broker), bucketOf)
    {
      if items == [] {
        return;
      }
      var sheet := SheetOf(items, broker);
      FundsFound(items, broker);
      var toRemove, matched := MarkPortfolio(broker, sheet);
      ghost var marked := portfolio;
      AddAccounts(broker, sheet, matched, old(portfolio));
      AddFunds(broker, sheet, matched, bucketOf, old(portfolio));
      AddAllSplit(marked, MissingAccounts(old(portfolio), broker, sheet),
                  MissingFunds(sheet.funds, old(portfolio), broker, bucketOf));
      RemovalIsFiltering(old(portfolio), broker, sheet);
      RemoveAllPassesAddAll(MarkedAll(old(portfolio), broker, sheet), toRemove,
                            Missing(old(portfolio), broker, sheet, bucketOf));
      ghost var before := portfolio;
      for i := 0 to |toRemove|
        invariant RemoveAll(portfolio, toRemove[i..]) == RemoveAll(before, toRemove)
      {
        assert toRemove[i..][1..] == toRemove[i + 1..];
        portfolio := RemoveIn(portfolio, toRemove[i].bucket, toRemove[i].row);
      }
    }
  }

  lemma {:induction false} AddAllSplit(p: Portfolio, a: seq<Placed>, b: seq<Placed>)
    ensures AddAll(p, a + b) == AddAll(AddAll(p, a), b)
    decreases |a|
  {
    if a == [] {
      assert a + b == b;
    } else {
      assert (a + b)[1..] == a[1..] + b;
      AddAllSplit(AddTo(p, a[0].bucket, a[0].row), a[1..], b);
    }
  }

  lemma {:induction false} MatchedBucket(matched: set<Id>, more: set<Id>, p: Portfolio, n: nat, broker: Broker,
                                         sheet: Sheet)
    requires n < |p| && Matches(matched, p[..n], broker, sheet) && MatchesRows(more, p[n].rows, broker, sheet)
    ensures Matches(matched + more, p[..n + 1], broker, sheet)
  {
    var a, b := p[..n], p[..n + 1];
    forall id | id in matched + more ensures Fetched(id, sheet) && HoldsAnywhere(b, id, broker) {
      if id in matched {
        var i :| 0 <= i < |a| && Holds(a[i].rows, id, broker);
        assert Holds(b[i].rows, id, broker);
      } else {
        assert Holds(b[n].rows, id, broker);
      }
    }
    forall i | 0 <= i < |b| ensures CoveredBy(matched + more, b[i].rows, broker, sheet) {
      if i < n {
        assert b[i] == a[i];
      }
    }
  }

  lemma {:induction false} MatchedIff(matched: set<Id>, p: Portfolio, broker: Broker, sheet: Sheet)
    requires Matches(matched, p, broker, sheet)
    ensures forall id :: Fetched(id, sheet) ==> (id in matched <==> HoldsAnywhere(p, id, broker))
  {
    forall id | Fetched(id, sheet) && HoldsAnywhere(p, id, broker) ensures id in matched {
      var i :| 0 <= i < |p| && Holds(p[i].rows, id, broker);
      var j :| 0 <= j < |p[i].rows| && IdOf(p[i].rows[j], broker) == Some(id);
    }
  }

  lemma {:induction false} FoundIn(funds: seq<Holding>, h: Holding)
    requires h in funds
    ensures Find(funds, Some(h.isin)).Some?
  {
    if funds[0] != h {
      FoundIn(funds[1..], h);
    }
  }

  lemma {:induction false} FundsFound(items: seq<Item>, broker: Broker)
    ensures forall h :: h in SheetOf(items, broker).funds ==> Find(SheetOf(items, broker).funds, Some(h.isin)).Some?
  {
    forall h | h in SheetOf(items, broker).funds ensures Find(SheetOf(items, broker).funds, Some(h.isin)).Some? {
      FoundIn(SheetOf(items, broker).funds, h);
    }
  }
}
