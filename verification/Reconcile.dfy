/** Bringing one broker's rows in line with what was fetched (scrape/scalable.py, scrape/traderepublic.py). */
module Reconcile {
  import opened Wrappers

  datatype Row = Row(name: string, broker: Option<string>, upperIsin: Option<string>, lowerIsin: Option<string>,
                     shares: Option<real>, value: Option<real>,
                     dmem: Option<real>, dmemOther: Option<real>, usavn: Option<real>, shortName: Option<string>)

  datatype Bucket = Bucket(name: string, rows: seq<Row>)

  /** A dictionary of lists, in insertion order. */
  type Portfolio = seq<Bucket>

  /** What differs between the two brokers: only one of them has an overnight account. */
  datatype Broker = Broker(name: string, cash: Account, overnight: Option<Account>)

  /** An account's name in the portfolio and its key in a fetch. */
  datatype Account = Account(name: string, key: string)

  datatype Holding = Holding(isin: string, name: string, shares: Option<real>, value: Option<real>)

  /** A fetch: the funds by ISIN, and the two accounts where they were reported. */
  datatype Sheet = Sheet(funds: seq<Holding>, cash: Option<Option<real>>, overnight: Option<Option<real>>)

  const CASH_PORTFOLIO := "cash_portfolio"

  // -------------------------------------------------------------------------- identity

  /** What a row of the broker stands for. */
  datatype Id = Overnight | Cash | Fund(isin: Option<string>)

  function IdOf(r: Row, broker: Broker): Option<Id> {
    if r.broker != Some(broker.name) then None
    else if broker.overnight.Some? && r.name == broker.overnight.value.name then Some(Overnight)
    else if r.name == broker.cash.name then Some(Cash)
    else Some(Fund(Or(r.upperIsin, r.lowerIsin)))
  }

  function Find(funds: seq<Holding>, isin: Option<string>): Option<Holding> {
    if funds == [] then None else if Some(funds[0].isin) == isin then Some(funds[0]) else Find(funds[1..], isin)
  }

  predicate Fetched(id: Id, sheet: Sheet) {
    match id
    case Overnight => sheet.overnight.Some?
    case Cash => sheet.cash.Some?
    case Fund(isin) => Find(sheet.funds, isin).Some?
  }

  predicate Stale(r: Row, broker: Broker, sheet: Sheet) {
    var id := IdOf(r, broker);
    id.Some? && !Fetched(id.value, sheet)
  }

  /** The row with what was fetched for it; a stale row and another broker's row as they are. */
  function Refreshed(r: Row, broker: Broker, sheet: Sheet): Row {
    var id := IdOf(r, broker);
    if id.None? || !Fetched(id.value, sheet) then r
    else match id.value
      case Overnight => r.(value := sheet.overnight.value, shares := None, upperIsin := None)
      case Cash => r.(value := sheet.cash.value, shares := None, upperIsin := None)
      case Fund(isin) => var h := Find(sheet.funds, isin).value; r.(value := h.value, shares := h.shares)
  }

  // -------------------------------------------------------------------- specification

  function Marked(rows: seq<Row>, broker: Broker, sheet: Sheet): seq<Row> {
    if rows == [] then [] else [Refreshed(rows[0], broker, sheet)] + Marked(rows[1..], broker, sheet)
  }

  function StaleRows(rows: seq<Row>, broker: Broker, sheet: Sheet): seq<Row> {
    if rows == [] then []
    else (if Stale(rows[0], broker, sheet) then [rows[0]] else []) + StaleRows(rows[1..], broker, sheet)
  }

  /** The rows that stay, refreshed. */
  function Swept(rows: seq<Row>, broker: Broker, sheet: Sheet): seq<Row> {
    if rows == [] then []
    else (if Stale(rows[0], broker, sheet) then [] else [Refreshed(rows[0], broker, sheet)])
         + Swept(rows[1..], broker, sheet)
  }

  function MarkedAll(p: Portfolio, broker: Broker, sheet: Sheet): Portfolio {
    if p == [] then []
    else [Bucket(p[0].name, Marked(p[0].rows, broker, sheet))] + MarkedAll(p[1..], broker, sheet)
  }

  function SweptAll(p: Portfolio, broker: Broker, sheet: Sheet): Portfolio {
    if p == [] then []
    else [Bucket(p[0].name, Swept(p[0].rows, broker, sheet))] + SweptAll(p[1..], broker, sheet)
  }

  /** A row and the bucket it goes to, or comes from. */
  datatype Placed = Placed(bucket: string, row: Row)

  function PlacedIn(bucket: string, rows: seq<Row>): seq<Placed> {
    if rows == [] then [] else [Placed(bucket, rows[0])] + PlacedIn(bucket, rows[1..])
  }

  function StalesOf(p: Portfolio, broker: Broker, sheet: Sheet): seq<Placed> {
    if p == [] then []
    else PlacedIn(p[0].name, StaleRows(p[0].rows, broker, sheet)) + StalesOf(p[1..], broker, sheet)
  }

  /** `portfolio.setdefault(bucket, []).append(row)` */
  function AddTo(p: Portfolio, bucket: string, row: Row): Portfolio {
    if p == [] then [Bucket(bucket, [row])]
    else if p[0].name == bucket then [Bucket(bucket, p[0].rows + [row])] + p[1..]
    else [p[0]] + AddTo(p[1..], bucket, row)
  }

  function AddAll(p: Portfolio, placed: seq<Placed>): Portfolio
    decreases |placed|
  {
    if placed == [] then p else AddAll(AddTo(p, placed[0].bucket, placed[0].row), placed[1..])
  }

  /** `list.remove(row)`: the first equal row goes. */
  function RemoveFirst(rows: seq<Row>, row: Row): seq<Row> {
    if rows == [] then [] else if rows[0] == row then rows[1..] else [rows[0]] + RemoveFirst(rows[1..], row)
  }

  function RemoveIn(p: Portfolio, bucket: string, row: Row): Portfolio {
    if p == [] then []
    else if p[0].name == bucket then [Bucket(bucket, RemoveFirst(p[0].rows, row))] + p[1..]
    else [p[0]] + RemoveIn(p[1..], bucket, row)
  }

  function RemoveAll(p: Portfolio, placed: seq<Placed>): Portfolio
    decreases |placed|
  {
    if placed == [] then p else RemoveAll(RemoveIn(p, placed[0].bucket, placed[0].row), placed[1..])
  }

  predicate Holds(rows: seq<Row>, id: Id, broker: Broker) {
    exists i :: 0 <= i < |rows| && IdOf(rows[i], broker) == Some(id)
  }

  predicate HoldsAnywhere(p: Portfolio, id: Id, broker: Broker) {
    exists i :: 0 <= i < |p| && Holds(p[i].rows, id, broker)
  }

  function AccountRow(name: string, value: Option<real>, broker: Broker): Row {
    Row(name, Some(broker.name), None, None, None, value, None, None, None, None)
  }

  function FundRow(h: Holding, broker: Broker): Row {
    Row(h.name, Some(broker.name), Some(h.isin), None, h.shares, h.value, Some(1.0), Some(1.0), Some(0.0), None)
  }

  function MissingFunds(funds: seq<Holding>, p: Portfolio, broker: Broker, bucketOf: string -> string): seq<Placed> {
    if funds == [] then []
    else (if HoldsAnywhere(p, Fund(Some(funds[0].isin)), broker) then []
          else [Placed(bucketOf(funds[0].isin), FundRow(funds[0], broker))])
         + MissingFunds(funds[1..], p, broker, bucketOf)
  }

  function MissingOvernight(p: Portfolio, broker: Broker, sheet: Sheet): seq<Placed> {
    if sheet.overnight.Some? && broker.overnight.Some? && !HoldsAnywhere(p, Overnight, broker)
    then [Placed(CASH_PORTFOLIO, AccountRow(broker.overnight.value.name, sheet.overnight.value, broker))]
    else []
  }

  function MissingCash(p: Portfolio, broker: Broker, sheet: Sheet): seq<Placed> {
    if sheet.cash.Some? && !HoldsAnywhere(p, Cash, broker)
    then [Placed(CASH_PORTFOLIO, AccountRow(broker.cash.name, sheet.cash.value, broker))]
    else []
  }

  function MissingAccounts(p: Portfolio, broker: Broker, sheet: Sheet): seq<Placed> {
    MissingOvernight(p, broker, sheet) + MissingCash(p, broker, sheet)
  }

  /** The rows for what was fetched and has no row yet. */
  function Missing(p: Portfolio, broker: Broker, sheet: Sheet, bucketOf: string -> string): seq<Placed> {
    MissingAccounts(p, broker, sheet) + MissingFunds(sheet.funds, p, broker, bucketOf)
  }

  /** The portfolio after an update: stale rows gone, the others refreshed, the missing appended. */
  function Updated(p: Portfolio, broker: Broker, sheet: Sheet, bucketOf: string -> string): Portfolio {
    AddAll(SweptAll(p, broker, sheet), Missing(p, broker, sheet, bucketOf))
  }

  predicate DistinctBuckets(p: Portfolio) {
    forall i, j :: 0 <= i < j < |p| ==> p[i].name != p[j].name
  }

  // ------------------------------------------------------- removing the first equal row

  /** Every row to be removed is there when its turn comes. */
  predicate Removable(p: Portfolio, placed: seq<Placed>)
    decreases |placed|
  {
    placed == []
    || (HasRow(p, placed[0].bucket, placed[0].row)
        && Removable(RemoveIn(p, placed[0].bucket, placed[0].row), placed[1..]))
  }

  predicate HasRow(p: Portfolio, bucket: string, row: Row) {
    if p == [] then false else if p[0].name == bucket then row in p[0].rows else HasRow(p[1..], bucket, row)
  }

  lemma {:induction false} RemoveFirstOfSum(a: seq<Row>, b: seq<Row>, row: Row)
    requires row in a
    ensures RemoveFirst(a + b, row) == RemoveFirst(a, row) + b
  {
    assert (a + b)[1..] == a[1..] + b;
    if a[0] != row {
      RemoveFirstOfSum(a[1..], b, row);
    }
  }

  /** Taking out a row that is there already, before or after appending another one. */
  lemma {:induction false} RemovePassesAdd(p: Portfolio, bucket: string, row: Row, other: string, added: Row)
    requires HasRow(p, bucket, row)
    ensures RemoveIn(AddTo(p, other, added), bucket, row) == AddTo(RemoveIn(p, bucket, row), other, added)
    ensures HasRow(AddTo(p, other, added), bucket, row)
  {
    if p[0].name == bucket && p[0].name == other {
      RemoveFirstOfSum(p[0].rows, [added], row);
    } else if p[0].name != bucket && p[0].name != other {
      RemovePassesAdd(p[1..], bucket, row, other, added);
    }
  }

  lemma {:induction false} RemovePassesAddAll(p: Portfolio, bucket: string, row: Row, added: seq<Placed>)
    requires HasRow(p, bucket, row)
    ensures RemoveIn(AddAll(p, added), bucket, row) == AddAll(RemoveIn(p, bucket, row), added)
    decreases |added|
  {
    if added != [] {
      RemovePassesAdd(p, bucket, row, added[0].bucket, added[0].row);
      RemovePassesAddAll(AddTo(p, added[0].bucket, added[0].row), bucket, row, added[1..]);
    }
  }

  lemma {:induction false} RemoveAllPassesAddAll(p: Portfolio, gone: seq<Placed>, added: seq<Placed>)
    requires Removable(p, gone)
    ensures RemoveAll(AddAll(p, added), gone) == AddAll(RemoveAll(p, gone), added)
    decreases |gone|
  {
    if gone != [] {
      RemovePassesAddAll(p, gone[0].bucket, gone[0].row, added);
      RemoveAllPassesAddAll(RemoveIn(p, gone[0].bucket, gone[0].row), gone[1..], added);
    }
  }

  lemma {:induction false} RefreshedNotStale(r: Row, broker: Broker, sheet: Sheet)
    ensures Stale(Refreshed(r, broker, sheet), broker, sheet) == Stale(r, broker, sheet)
    ensures IdOf(Refreshed(r, broker, sheet), broker) == IdOf(r, broker)
    ensures Refreshed(Refreshed(r, broker, sheet), broker, sheet) == Refreshed(r, broker, sheet)
  {
  }

  lemma {:induction false} RemoveSkips(keep: seq<Row>, row: Row, rest: seq<Row>)
    requires row !in keep
    ensures RemoveFirst(keep + [row] + rest, row) == keep + rest
  {
    if keep == [] {
      assert ([] + [row] + rest)[1..] == rest && [] + rest == rest;
    } else {
      RemoveSkips(keep[1..], row, rest);
      assert (keep + [row] + rest)[1..] == keep[1..] + [row] + rest;
      assert [keep[0]] + (keep[1..] + rest) == keep + rest;
    }
  }

  /** Removing these rows is possible and leads to that portfolio. */
  predicate Leads(p: Portfolio, gone: seq<Placed>, result: Portfolio) {
    Removable(p, gone) && RemoveAll(p, gone) == result
  }

  lemma {:induction false} RemoveOne(name: string, keep: seq<Row>, r: Row, rest: seq<Row>, tail: Portfolio,
                                     gone: seq<Placed>, result: Portfolio)
    requires r !in keep && Leads([Bucket(name, keep + rest)] + tail, gone, result)
    ensures Leads([Bucket(name, keep + [r] + rest)] + tail, [Placed(name, r)] + gone, result)
  {
    var q := [Bucket(name, keep + [r] + rest)] + tail;
    RemoveSkips(keep, r, rest);
    assert q[1..] == tail && ([Placed(name, r)] + gone)[1..] == gone;
    assert RemoveIn(q, name, r) == [Bucket(name, keep + rest)] + tail;
  }

  predicate NoneStale(rows: seq<Row>, broker: Broker, sheet: Sheet) {
    forall i :: 0 <= i < |rows| ==> !Stale(rows[i], broker, sheet)
  }

  /** A bucket whose first part has been swept already. */
  function HalfSwept(name: string, keep: seq<Row>, rest: seq<Row>, tail: Portfolio): Portfolio {
    [Bucket(name, keep + rest)] + tail
  }

  lemma {:induction false} KeepMore(name: string, keep: seq<Row>, r: Row, rest: seq<Row>, tail: Portfolio)
    ensures HalfSwept(name, keep, [r] + rest, tail) == HalfSwept(name, keep + [r], rest, tail)
  {
    assert keep + ([r] + rest) == (keep + [r]) + rest;
  }

  /** In one bucket, removing the first row equal to each stale row leaves the swept bucket. */
  lemma {:induction false} SweepBucket(name: string, keep: seq<Row>, rows: seq<Row>, tail: Portfolio, broker: Broker,
                                       sheet: Sheet)
    requires NoneStale(keep, broker, sheet)
    ensures Leads(HalfSwept(name, keep, Marked(rows, broker, sheet), tail),
                  PlacedIn(name, StaleRows(rows, broker, sheet)),
                  HalfSwept(name, keep, Swept(rows, broker, sheet), tail))
    decreases |rows|
  {
    if rows != [] {
      var r, marked, swept := rows[0], Marked(rows[1..], broker, sheet), Swept(rows[1..], broker, sheet);
      var stale := StaleRows(rows[1..], broker, sheet);
      RefreshedNotStale(r, broker, sheet);
      if Stale(r, broker, sheet) {
        SweepBucket(name, keep, rows[1..], tail, broker, sheet);
        RemoveOne(name, keep, r, marked, tail, PlacedIn(name, stale), HalfSwept(name, keep, swept, tail));
        assert keep + ([r] + marked) == keep + [r] + marked;
        assert ([r] + stale)[1..] == stale && [] + swept == swept;
      } else {
        var kept := Refreshed(r, broker, sheet);
        SweepBucket(name, keep + [kept], rows[1..], tail, broker, sheet);
        KeepMore(name, keep, kept, marked, tail);
        KeepMore(name, keep, kept, swept, tail);
        assert [] + stale == stale;
      }
    }
  }

  predicate Elsewhere(placed: seq<Placed>, name: string) {
    forall i :: 0 <= i < |placed| ==> placed[i].bucket != name
  }

  lemma {:induction false} RemoveBehind(b: Bucket, q: Portfolio, gone: seq<Placed>)
    requires Elsewhere(gone, b.name) && Removable(q, gone)
    ensures Removable([b] + q, gone) && RemoveAll([b] + q, gone) == [b] + RemoveAll(q, gone)
    decreases |gone|
  {
    if gone != [] {
      assert ([b] + q)[1..] == q;
      RemoveBehind(b, RemoveIn(q, gone[0].bucket, gone[0].row), gone[1..]);
    }
  }

  lemma {:induction false} RemoveAllSplit(p: Portfolio, a: seq<Placed>, b: seq<Placed>)
    requires Removable(p, a) && Removable(RemoveAll(p, a), b)
    ensures Removable(p, a + b) && RemoveAll(p, a + b) == RemoveAll(RemoveAll(p, a), b)
    decreases |a|
  {
    if a == [] {
      assert a + b == b;
    } else {
      assert (a + b)[1..] == a[1..] + b;
      RemoveAllSplit(RemoveIn(p, a[0].bucket, a[0].row), a[1..], b);
    }
  }

  lemma {:induction false} PlacedInBucket(bucket: string, rows: seq<Row>)
    ensures forall i :: 0 <= i < |PlacedIn(bucket, rows)| ==> PlacedIn(bucket, rows)[i].bucket == bucket
  {
    if rows != [] {
      PlacedInBucket(bucket, rows[1..]);
    }
  }

  lemma {:induction false} StalesElsewhere(p: Portfolio, name: string, broker: Broker, sheet: Sheet)
    requires forall i :: 0 <= i < |p| ==> p[i].name != name
    ensures Elsewhere(StalesOf(p, broker, sheet), name)
  {
    if p != [] {
      StalesElsewhere(p[1..], name, broker, sheet);
      PlacedInBucket(p[0].name, StaleRows(p[0].rows, broker, sheet));
    }
  }

  /** Removing the first equal row for each stale row is filtering the stale rows out. */
  lemma {:induction false} RemovalIsFiltering(p: Portfolio, broker: Broker, sheet: Sheet)
    requires DistinctBuckets(p)
    ensures Removable(MarkedAll(p, broker, sheet), StalesOf(p, broker, sheet))
    ensures RemoveAll(MarkedAll(p, broker, sheet), StalesOf(p, broker, sheet)) == SweptAll(p, broker, sheet)
  {
    if p != [] {
      var b, rest := p[0], p[1..];
      var marked, swept := Marked(b.rows, broker, sheet), Swept(b.rows, broker, sheet);
      var gone := PlacedIn(b.name, StaleRows(b.rows, broker, sheet));
      RemovalIsFiltering(rest, broker, sheet);
      SweepBucket(b.name, [], b.rows, MarkedAll(rest, broker, sheet), broker, sheet);
      assert [] + marked == marked && [] + swept == swept;
      StalesElsewhere(rest, b.name, broker, sheet);
      RemoveBehind(Bucket(b.name, swept), MarkedAll(rest, broker, sheet), StalesOf(rest, broker, sheet));
      RemoveAllSplit(MarkedAll(p, broker, sheet), gone, StalesOf(rest, broker, sheet));
    }
  }
}
