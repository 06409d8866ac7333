/** What every row of the broker says after an update, field by field. */
module ReconcileRows {
  import opened Wrappers
  import opened Reconcile
  import opened ReconcileRun
  import opened ReconcileLaws
  import opened ReconcileRuns

  // ---------------------------------------------------------------- rows and the fetch

  predicate IsOvernight(r: Row, broker: Broker) {
    broker.overnight.Some? && r.name == broker.overnight.value.name
  }

  predicate IsCash(r: Row, broker: Broker) {
    !IsOvernight(r, broker) && r.name == broker.cash.name
  }

  /** The row's ISIN, under either spelling, the upper-case one first. */
  predicate HasIsin(r: Row, isin: string) {
    if r.upperIsin.Some? && r.upperIsin.value != "" then r.upperIsin.value == isin else r.lowerIsin == Some(isin)
  }

  predicate ForFund(r: Row, h: Holding, broker: Broker) {
    !IsOvernight(r, broker) && !IsCash(r, broker) && HasIsin(r, h.isin)
  }

  /** The row is another broker's, or what it stands for was fetched. */
  ghost predicate Stays(r: Row, broker: Broker, sheet: Sheet) {
    || r.broker != Some(broker.name)
    || (IsOvernight(r, broker) && sheet.overnight.Some?)
    || (IsCash(r, broker) && sheet.cash.Some?)
    || exists h :: h in sheet.funds && ForFund(r, h, broker)
  }

  /** An account shows its value and nothing else, a fund its value and its shares. */
  ghost predicate Shows(r: Row, broker: Broker, sheet: Sheet) {
    r.broker == Some(broker.name) ==>
      && (IsOvernight(r, broker) ==> AccountShows(r, sheet.overnight))
      && (IsCash(r, broker) ==> AccountShows(r, sheet.cash))
      && (!IsOvernight(r, broker) && !IsCash(r, broker) ==>
            exists h :: h in sheet.funds && ForFund(r, h, broker) && r.value == h.value && r.shares == h.shares)
  }

  predicate AccountShows(r: Row, fetched: Option<Option<real>>) {
    fetched.Some? && r.value == fetched.value && r.shares == None && r.upperIsin == None
  }

  /** Everything but the fetched figures is as before; of an account's row the ISIN is cleared too. */
  predicate KeepsRest(r: Row, was: Row, broker: Broker) {
    && r.name == was.name && r.broker == was.broker && r.lowerIsin == was.lowerIsin
    && r.dmem == was.dmem && r.dmemOther == was.dmemOther && r.usavn == was.usavn && r.shortName == was.shortName
    && (r.upperIsin == was.upperIsin || IsOvernight(was, broker) || IsCash(was, broker))
    && (was.broker != Some(broker.name) ==> r == was)
  }

  // ------------------------------------------------------------------------- one row

  lemma {:induction false} FoundIff(funds: seq<Holding>, isin: Option<string>)
    ensures Find(funds, isin).Some? <==> exists h :: h in funds && Some(h.isin) == isin
    ensures Find(funds, isin).Some? ==> Find(funds, isin).value in funds && Some(Find(funds, isin).value.isin) == isin
  {
    if funds != [] && Some(funds[0].isin) != isin {
      FoundIff(funds[1..], isin);
      if h :| h in funds && Some(h.isin) == isin {
        assert h in funds[1..];
      }
    } else if funds != [] {
      assert funds[0] in funds;
    }
  }

  lemma {:induction false} RowForIff(r: Row, h: Holding, broker: Broker)
    requires r.broker == Some(broker.name) && h.isin != "" && !IsOvernight(r, broker) && !IsCash(r, broker)
    ensures ForFund(r, h, broker) <==> IdOf(r, broker) == Some(Fund(Some(h.isin)))
  {
  }

  lemma {:induction false} StaysIff(r: Row, broker: Broker, sheet: Sheet)
    requires FundsKeyed(sheet.funds)
    ensures Stays(r, broker, sheet) <==> !Stale(r, broker, sheet)
  {
    if r.broker == Some(broker.name) && !IsOvernight(r, broker) && !IsCash(r, broker) {
      FoundIff(sheet.funds, Or(r.upperIsin, r.lowerIsin));
      forall h | h in sheet.funds ensures h.isin != "" {
        var i :| 0 <= i < |sheet.funds| && sheet.funds[i] == h;
      }
      forall h | h in sheet.funds
        ensures ForFund(r, h, broker) <==> Some(h.isin) == Or(r.upperIsin, r.lowerIsin)
      {
        RowForIff(r, h, broker);
      }
    }
  }

  lemma {:induction false} RefreshedShows(r: Row, broker: Broker, sheet: Sheet)
    requires FundsKeyed(sheet.funds) && !Stale(r, broker, sheet)
    ensures Shows(Refreshed(r, broker, sheet), broker, sheet)
    ensures KeepsRest(Refreshed(r, broker, sheet), r, broker)
  {
    var now := Refreshed(r, broker, sheet);
    if r.broker == Some(broker.name) && !IsOvernight(r, broker) && !IsCash(r, broker) {
      FoundIff(sheet.funds, Or(r.upperIsin, r.lowerIsin));
      var h := Find(sheet.funds, Or(r.upperIsin, r.lowerIsin)).value;
      var i :| 0 <= i < |sheet.funds| && sheet.funds[i] == h;
      RowForIff(now, h, broker);
    }
  }

  // ------------------------------------------------------------------------- one bucket

  /** The rows of a bucket that stay. */
  ghost function Staying(rows: seq<Row>, broker: Broker, sheet: Sheet): seq<Row> {
    if rows == [] then []
    else (if Stays(rows[0], broker, sheet) then [rows[0]] else []) + Staying(rows[1..], broker, sheet)
  }

  /** The rows that stay, in order, with the fetched figures and otherwise as they were. */
  ghost predicate Renewed(rows: seq<Row>, was: seq<Row>, broker: Broker, sheet: Sheet) {
    |rows| == |was|
    && forall i :: 0 <= i < |was| ==> Shows(rows[i], broker, sheet) && KeepsRest(rows[i], was[i], broker)
  }

  lemma {:induction false} RenewedCons(r: Row, was: Row, rows: seq<Row>, before: seq<Row>, broker: Broker, sheet: Sheet)
    requires Shows(r, broker, sheet) && KeepsRest(r, was, broker) && Renewed(rows, before, broker, sheet)
    ensures Renewed([r] + rows, [was] + before, broker, sheet)
  {
  }

  lemma {:induction false} SweptRenews(rows: seq<Row>, broker: Broker, sheet: Sheet)
    requires FundsKeyed(sheet.funds)
    ensures Renewed(Swept(rows, broker, sheet), Staying(rows, broker, sheet), broker, sheet)
  {
    if rows != [] {
      var swept, staying := Swept(rows[1..], broker, sheet), Staying(rows[1..], broker, sheet);
      SweptRenews(rows[1..], broker, sheet);
      SweptHead(rows, broker, sheet);
      if !Stale(rows[0], broker, sheet) {
        RefreshedShows(rows[0], broker, sheet);
        RenewedCons(Refreshed(rows[0], broker, sheet), rows[0], swept, staying, broker, sheet);
      }
    }
  }

  lemma {:induction false} SweptHead(rows: seq<Row>, broker: Broker, sheet: Sheet)
    requires FundsKeyed(sheet.funds) && rows != []
    ensures var swept, staying := Swept(rows[1..], broker, sheet), Staying(rows[1..], broker, sheet);
            if Stale(rows[0], broker, sheet)
            then Swept(rows, broker, sheet) == swept && Staying(rows, broker, sheet) == staying
            else Swept(rows, broker, sheet) == [Refreshed(rows[0], broker, sheet)] + swept
                 && Staying(rows, broker, sheet) == [rows[0]] + staying
  {
    var swept, staying := Swept(rows[1..], broker, sheet), Staying(rows[1..], broker, sheet);
    StaysIff(rows[0], broker, sheet);
    assert [] + swept == swept && [] + staying == staying;
  }

  /** In every bucket the rows of what was not fetched go, the others stay in order with the fetched
      figures, and the new rows come after them. */
  lemma {:induction false} BucketRenewed(p: Portfolio, broker: Broker, sheet: Sheet, bucketOf: string -> string,
                                         bucket: string)
    requires FundsKeyed(sheet.funds)
    ensures var rows := RowsIn(Updated(p, broker, sheet, bucketOf), bucket);
            var kept := Staying(RowsIn(p, bucket), broker, sheet);
            && |kept| <= |rows| && Renewed(rows[..|kept|], kept, broker, sheet)
            && rows[|kept|..] == Of(Missing(p, broker, sheet, bucketOf), bucket)
  {
    var swept := Swept(RowsIn(p, bucket), broker, sheet);
    SweptAllRows(p, broker, sheet, bucket);
    AddAllRows(SweptAll(p, broker, sheet), Missing(p, broker, sheet, bucketOf), bucket);
    SweptRenews(RowsIn(p, bucket), broker, sheet);
    var rows := RowsIn(Updated(p, broker, sheet, bucketOf), bucket);
    assert rows[..|swept|] == swept && rows[|swept|..] == Of(Missing(p, broker, sheet, bucketOf), bucket);
  }

  // ---------------------------------------------------------------------------- new rows

  predicate NewAccountRow(one: Placed, account: Account, fetched: Option<Option<real>>, broker: Broker) {
    && fetched.Some? && one.bucket == "cash_portfolio"
    && one.row == Row(account.name, Some(broker.name), None, None, None, fetched.value, None, None, None, None)
  }

  /** A new fund counts as wholly developed and outside the United States. */
  predicate NewFundRow(one: Placed, h: Holding, broker: Broker, bucketOf: string -> string) {
    && one.bucket == bucketOf(h.isin)
    && one.row == Row(h.name, Some(broker.name), Some(h.isin), None, h.shares, h.value,
                      Some(1.0), Some(1.0), Some(0.0), None)
  }

  /** Nothing in the portfolio stands for the fund. */
  ghost predicate NoRowFor(p: Portfolio, h: Holding, broker: Broker) {
    forall i, j :: 0 <= i < |p| && 0 <= j < |p[i].rows| && p[i].rows[j].broker == Some(broker.name) ==>
      !ForFund(p[i].rows[j], h, broker)
  }

  lemma {:induction false} NoRowIff(p: Portfolio, h: Holding, broker: Broker)
    requires h.isin != ""
    ensures NoRowFor(p, h, broker) <==> !HoldsAnywhere(p, Fund(Some(h.isin)), broker)
  {
    var id := Fund(Some(h.isin));
    forall i, j | 0 <= i < |p| && 0 <= j < |p[i].rows| && p[i].rows[j].broker == Some(broker.name)
      ensures ForFund(p[i].rows[j], h, broker) <==> IdOf(p[i].rows[j], broker) == Some(id)
    {
      if !IsOvernight(p[i].rows[j], broker) && !IsCash(p[i].rows[j], broker) {
        RowForIff(p[i].rows[j], h, broker);
      }
    }
    if HoldsAnywhere(p, id, broker) {
      var i :| 0 <= i < |p| && Holds(p[i].rows, id, broker);
      var j :| 0 <= j < |p[i].rows| && IdOf(p[i].rows[j], broker) == Some(id);
      assert p[i].rows[j].broker == Some(broker.name);
    }
    if !NoRowFor(p, h, broker) {
      var i, j :| 0 <= i < |p| && 0 <= j < |p[i].rows| && p[i].rows[j].broker == Some(broker.name)
                  && ForFund(p[i].rows[j], h, broker);
      assert Holds(p[i].rows, id, broker);
    }
  }

  /** The funds without a row, in the order of the fetch. */
  ghost function Unheld(funds: seq<Holding>, p: Portfolio, broker: Broker): seq<Holding> {
    if funds == [] then []
    else (if NoRowFor(p, funds[0], broker) then [funds[0]] else []) + Unheld(funds[1..], p, broker)
  }

  lemma {:induction false} NewFunds(funds: seq<Holding>, p: Portfolio, broker: Broker, bucketOf: string -> string)
    requires forall i :: 0 <= i < |funds| ==> funds[i].isin != ""
    ensures var rows, unheld := MissingFunds(funds, p, broker, bucketOf), Unheld(funds, p, broker);
            && |rows| == |unheld|
            && forall i :: 0 <= i < |rows| ==> NewFundRow(rows[i], unheld[i], broker, bucketOf)
  {
    if funds != [] {
      NoRowIff(p, funds[0], broker);
      NewFunds(funds[1..], p, broker, bucketOf);
    }
  }

  /** Every row of an account, or of a fund, that is new: at most one for each account, and one for every
      fund that had none, in the order of the fetch. */
  lemma {:induction false} NewRows(p: Portfolio, broker: Broker, sheet: Sheet, bucketOf: string -> string)
    requires Keyed(sheet, broker)
    ensures var rows, accounts, unheld :=
              Missing(p, broker, sheet, bucketOf), MissingAccounts(p, broker, sheet), Unheld(sheet.funds, p, broker);
            && |rows| == |accounts| + |unheld| && |accounts| <= 2
            && (forall i :: 0 <= i < |accounts| ==>
                  || (broker.overnight.Some? && NewAccountRow(rows[i], broker.overnight.value, sheet.overnight, broker))
                  || NewAccountRow(rows[i], broker.cash, sheet.cash, broker))
            && (forall i :: 0 <= i < |unheld| ==> NewFundRow(rows[|accounts| + i], unheld[i], broker, bucketOf))
  {
    NewFunds(sheet.funds, p, broker, bucketOf);
  }

  // ------------------------------------------------------------------- every row shows it

  lemma {:induction false} CurrentShows(r: Row, broker: Broker, sheet: Sheet)
    requires FundsKeyed(sheet.funds) && Current(r, broker, sheet)
    ensures Shows(r, broker, sheet)
  {
    RefreshedShows(r, broker, sheet);
  }

  /** Every row of the broker shows what was fetched for it. */
  lemma {:induction false} RowsShowFetch(p: Portfolio, broker: Broker, sheet: Sheet, bucketOf: string -> string,
                                         i: nat, j: nat)
    requires Plain(sheet, broker)
    requires i < |Updated(p, broker, sheet, bucketOf)| && j < |Updated(p, broker, sheet, bucketOf)[i].rows|
    ensures Shows(Updated(p, broker, sheet, bucketOf)[i].rows[j], broker, sheet)
  {
    RowsAreCurrent(p, broker, sheet, bucketOf);
    var q := Updated(p, broker, sheet, bucketOf);
    assert CurrentRows(q[i].rows, broker, sheet) && Current(q[i].rows[j], broker, sheet);
    CurrentShows(q[i].rows[j], broker, sheet);
  }

  // --------------------------------------------------------------------- reading a fetch

  /** An entry of a fund: it has an ISIN and is marked neither as cash nor as the overnight account. */
  predicate FundEntry(item: Item, broker: Broker, isin: string) {
    item.holding.isin == isin != "" && !item.isCash && (broker.overnight.None? || !item.isOvernight)
  }

  /** The last fund entry of the fetch for an ISIN. */
  predicate LastFund(items: seq<Item>, broker: Broker, isin: string, i: nat) {
    && i < |items| && FundEntry(items[i], broker, isin)
    && forall j :: i < j < |items| ==> !FundEntry(items[j], broker, isin)
  }

  lemma {:induction false} PutFinds(funds: seq<Holding>, h: Holding, isin: string)
    ensures Find(PutFund(funds, h), Some(isin)) == if h.isin == isin then Some(h) else Find(funds, Some(isin))
  {
    if funds != [] && funds[0].isin != h.isin {
      PutFinds(funds[1..], h, isin);
    } else {
      assert forall x: Holding :: [x][1..] == [];
      assert Find([], Some(isin)) == None;
    }
  }

  lemma {:induction false} LaterFunds(funds: seq<Holding>, items: seq<Item>, broker: Broker, isin: string)
    requires forall i :: 0 <= i < |items| ==> !FundEntry(items[i], broker, isin)
    ensures Find(FundsOf(funds, items, broker), Some(isin)) == Find(funds, Some(isin))
    decreases |items|
  {
    if items != [] {
      PutFinds(funds, items[0].holding, isin);
      var next := if IsFund(items[0], broker) then PutFund(funds, items[0].holding) else funds;
      LaterFunds(next, items[1..], broker, isin);
    }
  }

  lemma {:induction false} LastFundCounts(funds: seq<Holding>, items: seq<Item>, broker: Broker, isin: string, i: nat)
    requires LastFund(items, broker, isin, i)
    ensures Find(FundsOf(funds, items, broker), Some(isin)) == Some(items[i].holding)
    decreases |items|
  {
    var next := if IsFund(items[0], broker) then PutFund(funds, items[0].holding) else funds;
    if i > 0 {
      LastFundCounts(next, items[1..], broker, isin, i - 1);
    } else {
      PutFinds(funds, items[0].holding, isin);
      LaterFunds(next, items[1..], broker, isin);
    }
  }

  lemma {:induction false} ValueUnder(items: seq<Item>, key: string, i: nat)
    requires i < |items| && items[i].key == key && forall j :: 0 <= j < i ==> items[j].key != key
    ensures ValueAt(items, key) == Some(items[i].holding.value)
  {
    if i > 0 {
      ValueUnder(items[1..], key, i - 1);
    }
  }

  lemma {:induction false} NoValueUnder(items: seq<Item>, key: string)
    requires forall j :: 0 <= j < |items| ==> items[j].key != key
    ensures ValueAt(items, key) == None
  {
    if items != [] {
      NoValueUnder(items[1..], key);
    }
  }

  /** The fetch as it is read: the last fund entry of an ISIN counts, and the accounts' values stand under
      their keys. */
  lemma {:induction false} SheetTellsFetch(items: seq<Item>, broker: Broker, isin: string, i: nat)
    requires forall j, k :: 0 <= j < k < |items| ==> items[j].key != items[k].key
    requires i < |items|
    ensures LastFund(items, broker, isin, i) ==>
              Find(SheetOf(items, broker).funds, Some(isin)) == Some(items[i].holding)
    ensures (forall j :: 0 <= j < |items| ==> !FundEntry(items[j], broker, isin)) ==>
              Find(SheetOf(items, broker).funds, Some(isin)) == None
    ensures items[i].key == broker.cash.key ==> SheetOf(items, broker).cash == Some(items[i].holding.value)
    ensures broker.overnight.Some? && items[i].key == broker.overnight.value.key ==>
              SheetOf(items, broker).overnight == Some(items[i].holding.value)
    ensures (forall j :: 0 <= j < |items| ==> items[j].key != broker.cash.key) ==> SheetOf(items, broker).cash == None
    ensures broker.overnight.None? || (forall j :: 0 <= j < |items| ==> items[j].key != broker.overnight.value.key) ==>
              SheetOf(items, broker).overnight == None
  {
    if LastFund(items, broker, isin, i) {
      LastFundCounts([], items, broker, isin, i);
    }
    if forall j :: 0 <= j < |items| ==> !FundEntry(items[j], broker, isin) {
      LaterFunds([], items, broker, isin);
    }
    SheetAccounts(items, broker, i);
  }

  lemma {:induction false} SheetAccounts(items: seq<Item>, broker: Broker, i: nat)
    requires forall j, k :: 0 <= j < k < |items| ==> items[j].key != items[k].key
    requires i < |items|
    ensures ValueAt(items, items[i].key) == Some(items[i].holding.value)
    ensures (forall j :: 0 <= j < |items| ==> items[j].key != broker.cash.key) ==>
              ValueAt(items, broker.cash.key) == None
    ensures broker.overnight.Some? && (forall j :: 0 <= j < |items| ==> items[j].key != broker.overnight.value.key) ==>
              ValueAt(items, broker.overnight.value.key) == None
  {
    ValueUnder(items, items[i].key, i);
    if forall j :: 0 <= j < |items| ==> items[j].key != broker.cash.key {
      NoValueUnder(items, broker.cash.key);
    }
    if broker.overnight.Some? && forall j :: 0 <= j < |items| ==> items[j].key != broker.overnight.value.key {
      NoValueUnder(items, broker.overnight.value.key);
    }
  }
}
