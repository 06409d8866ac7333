/** What an update makes true of the portfolio. */
module ReconcileLaws {
  import opened Wrappers
  import opened Reconcile
  import opened ReconcileRun

  // ------------------------------------------------------------------- other brokers

  function RowsIn(p: Portfolio, bucket: string): seq<Row> {
    if p == [] then [] else if p[0].name == bucket then p[0].rows else RowsIn(p[1..], bucket)
  }

  function Foreign(rows: seq<Row>, broker: Broker): seq<Row> {
    if rows == [] then [] else (if IdOf(rows[0], broker).None? then [rows[0]] else []) + Foreign(rows[1..], broker)
  }

  lemma {:induction false} ForeignOfSum(a: seq<Row>, b: seq<Row>, broker: Broker)
    ensures Foreign(a + b, broker) == Foreign(a, broker) + Foreign(b, broker)
  {
    if a == [] {
      assert a + b == b;
    } else {
      assert (a + b)[1..] == a[1..] + b;
      ForeignOfSum(a[1..], b, broker);
    }
  }

  lemma {:induction false} SweptForeign(rows: seq<Row>, broker: Broker, sheet: Sheet)
    ensures Foreign(Swept(rows, broker, sheet), broker) == Foreign(rows, broker)
  {
    if rows != [] {
      SweptForeign(rows[1..], broker, sheet);
      var rest := Swept(rows[1..], broker, sheet);
      RefreshedNotStale(rows[0], broker, sheet);
      assert ([Refreshed(rows[0], broker, sheet)] + rest)[1..] == rest;
      assert [] + rest == rest;
    }
  }

  lemma {:induction false} SweptAllForeign(p: Portfolio, bucket: string, broker: Broker, sheet: Sheet)
    ensures Foreign(RowsIn(SweptAll(p, broker, sheet), bucket), broker) == Foreign(RowsIn(p, bucket), broker)
  {
    if p != [] {
      SweptForeign(p[0].rows, broker, sheet);
      SweptAllForeign(p[1..], bucket, broker, sheet);
    }
  }

  predicate Own(placed: seq<Placed>, broker: Broker) {
    forall i :: 0 <= i < |placed| ==> placed[i].row.broker == Some(broker.name)
  }

  lemma {:induction false} AddForeign(p: Portfolio, one: Placed, bucket: string, broker: Broker)
    requires one.row.broker == Some(broker.name)
    ensures Foreign(RowsIn(AddTo(p, one.bucket, one.row), bucket), broker) == Foreign(RowsIn(p, bucket), broker)
  {
    assert [one.row][1..] == [] && Foreign([one.row], broker) == [];
    if p != [] && p[0].name == one.bucket {
      ForeignOfSum(p[0].rows, [one.row], broker);
    } else if p != [] {
      AddForeign(p[1..], one, bucket, broker);
    }
  }

  lemma {:induction false} AddAllForeign(p: Portfolio, placed: seq<Placed>, bucket: string, broker: Broker)
    requires Own(placed, broker)
    ensures Foreign(RowsIn(AddAll(p, placed), bucket), broker) == Foreign(RowsIn(p, bucket), broker)
    decreases |placed|
  {
    if placed != [] {
      AddForeign(p, placed[0], bucket, broker);
      AddAllForeign(AddTo(p, placed[0].bucket, placed[0].row), placed[1..], bucket, broker);
    }
  }

  lemma {:induction false} MissingFundsOwn(funds: seq<Holding>, p: Portfolio, broker: Broker,
                                           bucketOf: string -> string)
    ensures Own(MissingFunds(funds, p, broker, bucketOf), broker)
  {
    if funds != [] {
      MissingFundsOwn(funds[1..], p, broker, bucketOf);
    }
  }

  /** In every bucket the other brokers' rows keep their content and their order. */
  lemma {:induction false} OtherBrokersKept(p: Portfolio, bucket: string, broker: Broker, sheet: Sheet,
                                            bucketOf: string -> string)
    ensures Foreign(RowsIn(Updated(p, broker, sheet, bucketOf), bucket), broker) == Foreign(RowsIn(p, bucket), broker)
  {
    MissingFundsOwn(sheet.funds, p, broker, bucketOf);
    SweptAllForeign(p, bucket, broker, sheet);
    AddAllForeign(SweptAll(p, broker, sheet), Missing(p, broker, sheet, bucketOf), bucket, broker);
  }

  // ------------------------------------------------------------------------- counting

  function CountRows(rows: seq<Row>, id: Id, broker: Broker): nat {
    if rows == [] then 0 else (if IdOf(rows[0], broker) == Some(id) then 1 else 0) + CountRows(rows[1..], id, broker)
  }

  /** How many rows of the portfolio stand for one thing. */
  function Count(p: Portfolio, id: Id, broker: Broker): nat {
    if p == [] then 0 else CountRows(p[0].rows, id, broker) + Count(p[1..], id, broker)
  }

  function CountPlaced(placed: seq<Placed>, id: Id, broker: Broker): nat {
    if placed == [] then 0
    else (if IdOf(placed[0].row, broker) == Some(id) then 1 else 0) + CountPlaced(placed[1..], id, broker)
  }

  lemma {:induction false} CountRowsOfSum(a: seq<Row>, b: seq<Row>, id: Id, broker: Broker)
    ensures CountRows(a + b, id, broker) == CountRows(a, id, broker) + CountRows(b, id, broker)
  {
    if a == [] {
      assert a + b == b;
    } else {
      assert (a + b)[1..] == a[1..] + b;
      CountRowsOfSum(a[1..], b, id, broker);
    }
  }

  lemma {:induction false} SweptCount(rows: seq<Row>, id: Id, broker: Broker, sheet: Sheet)
    ensures CountRows(Swept(rows, broker, sheet), id, broker)
            == if Fetched(id, sheet) then CountRows(rows, id, broker) else 0
  {
    if rows != [] {
      SweptCount(rows[1..], id, broker, sheet);
      var rest := Swept(rows[1..], broker, sheet);
      var r := Refreshed(rows[0], broker, sheet);
      RefreshedNotStale(rows[0], broker, sheet);
      if Stale(rows[0], broker, sheet) {
        assert [] + rest == rest;
      } else {
        assert ([r] + rest)[1..] == rest && IdOf(r, broker) == IdOf(rows[0], broker);
        assert IdOf(r, broker) == Some(id) ==> Fetched(id, sheet);
      }
    }
  }

  lemma {:induction false} SweptAllCount(p: Portfolio, id: Id, broker: Broker, sheet: Sheet)
    ensures Count(SweptAll(p, broker, sheet), id, broker) == if Fetched(id, sheet) then Count(p, id, broker) else 0
  {
    if p != [] {
      SweptCount(p[0].rows, id, broker, sheet);
      SweptAllCount(p[1..], id, broker, sheet);
    }
  }

  lemma {:induction false} AddCount(p: Portfolio, one: Placed, id: Id, broker: Broker)
    ensures Count(AddTo(p, one.bucket, one.row), id, broker)
            == Count(p, id, broker) + if IdOf(one.row, broker) == Some(id) then 1 else 0
  {
    assert [one.row][1..] == [] && CountRows([], id, broker) == 0;
    if p == [] {
      assert [Bucket(one.bucket, [one.row])][1..] == [] && Count([], id, broker) == 0;
    } else if p[0].name == one.bucket {
      CountRowsOfSum(p[0].rows, [one.row], id, broker);
    } else {
      AddCount(p[1..], one, id, broker);
    }
  }

  lemma {:induction false} AddAllCount(p: Portfolio, placed: seq<Placed>, id: Id, broker: Broker)
    ensures Count(AddAll(p, placed), id, broker) == Count(p, id, broker) + CountPlaced(placed, id, broker)
    decreases |placed|
  {
    if placed != [] {
      AddCount(p, placed[0], id, broker);
      AddAllCount(AddTo(p, placed[0].bucket, placed[0].row), placed[1..], id, broker);
    }
  }

  lemma {:induction false} CountPlacedOfSum(a: seq<Placed>, b: seq<Placed>, id: Id, broker: Broker)
    ensures CountPlaced(a + b, id, broker) == CountPlaced(a, id, broker) + CountPlaced(b, id, broker)
  {
    if a == [] {
      assert a + b == b;
    } else {
      assert (a + b)[1..] == a[1..] + b;
      CountPlacedOfSum(a[1..], b, id, broker);
    }
  }

  lemma {:induction false} HoldsIffCounts(rows: seq<Row>, id: Id, broker: Broker)
    ensures Holds(rows, id, broker) <==> CountRows(rows, id, broker) > 0
  {
    if rows != [] {
      HoldsIffCounts(rows[1..], id, broker);
      if Holds(rows[1..], id, broker) {
        var i :| 0 <= i < |rows[1..]| && IdOf(rows[1..][i], broker) == Some(id);
        assert IdOf(rows[i + 1], broker) == Some(id);
      }
      if Holds(rows, id, broker) && IdOf(rows[0], broker) != Some(id) {
        var i :| 0 <= i < |rows| && IdOf(rows[i], broker) == Some(id);
        assert IdOf(rows[1..][i - 1], broker) == Some(id);
      }
    }
  }

  lemma {:induction false} HoldsAnywhereIffCounts(p: Portfolio, id: Id, broker: Broker)
    ensures HoldsAnywhere(p, id, broker) <==> Count(p, id, broker) > 0
  {
    if p != [] {
      HoldsAnywhereIffCounts(p[1..], id, broker);
      HoldsIffCounts(p[0].rows, id, broker);
      if HoldsAnywhere(p[1..], id, broker) {
        var i :| 0 <= i < |p[1..]| && Holds(p[1..][i].rows, id, broker);
        assert Holds(p[i + 1].rows, id, broker);
      }
      if HoldsAnywhere(p, id, broker) && !Holds(p[0].rows, id, broker) {
        var i :| 0 <= i < |p| && Holds(p[i].rows, id, broker);
        assert Holds(p[1..][i - 1].rows, id, broker);
      }
    }
  }

  predicate KeyedByIsin(funds: seq<Holding>) {
    forall i, j :: 0 <= i < j < |funds| ==> funds[i].isin != funds[j].isin
  }

  predicate FundsKeyed(funds: seq<Holding>) {
    KeyedByIsin(funds) && forall i :: 0 <= i < |funds| ==> funds[i].isin != ""
  }

  /** The accounts have different names, a fetched overnight account belongs to a broker that has one,
      and the funds are keyed by ISIN. */
  predicate Keyed(sheet: Sheet, broker: Broker) {
    && (broker.overnight.Some? ==> broker.overnight.value.name != broker.cash.name)
    && (sheet.overnight.Some? ==> broker.overnight.Some?)
    && FundsKeyed(sheet.funds)
  }

  /** The account that a row of this name is read as. */
  function AccountNamed(name: string, broker: Broker): Option<Id> {
    if broker.overnight.Some? && name == broker.overnight.value.name then Some(Overnight)
    else if name == broker.cash.name then Some(Cash)
    else None
  }

  /** No fund is named like an account. */
  predicate ClearNames(funds: seq<Holding>, broker: Broker) {
    forall i :: 0 <= i < |funds| ==> AccountNamed(funds[i].name, broker) == None
  }

  predicate Plain(sheet: Sheet, broker: Broker) {
    Keyed(sheet, broker) && ClearNames(sheet.funds, broker)
  }

  lemma FundRowId(h: Holding, broker: Broker)
    requires h.isin != ""
    ensures IdOf(FundRow(h, broker), broker)
            == Some(if AccountNamed(h.name, broker).Some? then AccountNamed(h.name, broker).value
                    else Fund(Some(h.isin)))
  {
  }

  lemma {:induction false} PlacedCons(one: Placed, rest: seq<Placed>, id: Id, broker: Broker)
    ensures CountPlaced([one] + rest, id, broker)
            == (if IdOf(one.row, broker) == Some(id) then 1 else 0) + CountPlaced(rest, id, broker)
  {
    assert ([one] + rest)[1..] == rest;
  }

  /** A fund without a row gets one under its ISIN, unless its name makes it an account. */
  lemma {:induction false} MissingFundsCount(funds: seq<Holding>, p: Portfolio, broker: Broker,
                                             bucketOf: string -> string, id: Id)
    requires FundsKeyed(funds) && id.Fund?
    ensures CountPlaced(MissingFunds(funds, p, broker, bucketOf), id, broker)
            == if Find(funds, id.isin).Some? && AccountNamed(Find(funds, id.isin).value.name, broker).None?
                  && !HoldsAnywhere(p, id, broker) then 1 else 0
  {
    if funds != [] {
      var h := funds[0];
      MissingFundsCount(funds[1..], p, broker, bucketOf, id);
      CountPlacedOfSum(FirstMissing(h, p, broker, bucketOf), MissingFunds(funds[1..], p, broker, bucketOf), id, broker);
      FirstMissingCount(h, p, broker, bucketOf, id);
      if id == Fund(Some(h.isin)) {
        NotFound(funds[1..], h.isin);
      } else {
        assert Find(funds, id.isin) == Find(funds[1..], id.isin);
      }
    }
  }

  /** The row appended for one fund, if any. */
  function FirstMissing(h: Holding, p: Portfolio, broker: Broker, bucketOf: string -> string): seq<Placed> {
    if HoldsAnywhere(p, Fund(Some(h.isin)), broker) then [] else [Placed(bucketOf(h.isin), FundRow(h, broker))]
  }

  lemma {:induction false} FirstMissingCount(h: Holding, p: Portfolio, broker: Broker, bucketOf: string -> string,
                                             id: Id)
    requires h.isin != "" && id.Fund?
    ensures CountPlaced(FirstMissing(h, p, broker, bucketOf), id, broker)
            == if id == Fund(Some(h.isin)) && AccountNamed(h.name, broker).None? && !HoldsAnywhere(p, id, broker) then 1
               else 0
  {
    FundRowId(h, broker);
    var one := Placed(bucketOf(h.isin), FundRow(h, broker));
    assert [one][1..] == [] && CountPlaced([], id, broker) == 0;
  }

  lemma {:induction false} NoFundIsAnAccount(funds: seq<Holding>, p: Portfolio, broker: Broker,
                                             bucketOf: string -> string, id: Id)
    requires FundsKeyed(funds) && ClearNames(funds, broker) && !id.Fund?
    ensures CountPlaced(MissingFunds(funds, p, broker, bucketOf), id, broker) == 0
  {
    if funds != [] {
      var h, rest := funds[0], MissingFunds(funds[1..], p, broker, bucketOf);
      FundRowId(h, broker);
      NoFundIsAnAccount(funds[1..], p, broker, bucketOf, id);
      PlacedCons(Placed(bucketOf(h.isin), FundRow(h, broker)), rest, id, broker);
      assert [] + rest == rest;
    }
  }

  lemma {:induction false} NotFound(funds: seq<Holding>, isin: string)
    requires forall i :: 0 <= i < |funds| ==> funds[i].isin != isin
    ensures Find(funds, Some(isin)) == None
  {
    if funds != [] {
      NotFound(funds[1..], isin);
    }
  }

  lemma {:induction false} FoundInside(funds: seq<Holding>, isin: Option<string>)
    requires Find(funds, isin).Some?
    ensures exists i :: 0 <= i < |funds| && funds[i] == Find(funds, isin).value
  {
    if Some(funds[0].isin) != isin {
      FoundInside(funds[1..], isin);
      var i :| 0 <= i < |funds[1..]| && funds[1..][i] == Find(funds[1..], isin).value;
      assert funds[i + 1] == Find(funds, isin).value;
    }
  }

  lemma {:induction false} AccountsCount(p: Portfolio, broker: Broker, sheet: Sheet, id: Id)
    requires Keyed(sheet, broker)
    ensures CountPlaced(MissingAccounts(p, broker, sheet), id, broker)
            == if !id.Fund? && Fetched(id, sheet) && !HoldsAnywhere(p, id, broker) then 1 else 0
  {
    var o, c := MissingOvernight(p, broker, sheet), MissingCash(p, broker, sheet);
    CountPlacedOfSum(o, c, id, broker);
    assert forall x: Placed :: [x][1..] == [];
    assert CountPlaced(o, id, broker)
           == if id == Overnight && sheet.overnight.Some? && !HoldsAnywhere(p, id, broker) then 1 else 0;
    assert CountPlaced(c, id, broker)
           == if id == Cash && sheet.cash.Some? && !HoldsAnywhere(p, id, broker) then 1 else 0;
  }

  lemma {:induction false} MissingCount(p: Portfolio, broker: Broker, sheet: Sheet, bucketOf: string -> string, id: Id)
    requires Plain(sheet, broker)
    ensures CountPlaced(Missing(p, broker, sheet, bucketOf), id, broker)
            == if Fetched(id, sheet) && !HoldsAnywhere(p, id, broker) then 1 else 0
  {
    CountPlacedOfSum(MissingAccounts(p, broker, sheet), MissingFunds(sheet.funds, p, broker, bucketOf), id, broker);
    AccountsCount(p, broker, sheet, id);
    if id.Fund? {
      MissingFundsCount(sheet.funds, p, broker, bucketOf, id);
      if Find(sheet.funds, id.isin).Some? {
        FoundInside(sheet.funds, id.isin);
      }
    } else {
      NoFundIsAnAccount(sheet.funds, p, broker, bucketOf, id);
    }
  }

  /** Nothing that was not fetched keeps a row; everything that was fetched has one: as many as
      before, and one where there was none. */
  lemma {:induction false} RowsMatchFetch(p: Portfolio, broker: Broker, sheet: Sheet, bucketOf: string -> string,
                                          id: Id)
    requires Plain(sheet, broker)
    ensures Count(Updated(p, broker, sheet, bucketOf), id, broker)
            == if !Fetched(id, sheet) then 0 else if Count(p, id, broker) == 0 then 1 else Count(p, id, broker)
  {
    SweptAllCount(p, id, broker, sheet);
    AddAllCount(SweptAll(p, broker, sheet), Missing(p, broker, sheet, bucketOf), id, broker);
    MissingCount(p, broker, sheet, bucketOf, id);
    HoldsAnywhereIffCounts(p, id, broker);
  }

  // --------------------------------------------------------------- content, idempotence

  /** The row shows what was fetched for it. */
  predicate Current(r: Row, broker: Broker, sheet: Sheet) {
    !Stale(r, broker, sheet) && Refreshed(r, broker, sheet) == r
  }

  predicate CurrentRows(rows: seq<Row>, broker: Broker, sheet: Sheet) {
    forall i :: 0 <= i < |rows| ==> Current(rows[i], broker, sheet)
  }

  predicate CurrentAll(p: Portfolio, broker: Broker, sheet: Sheet) {
    forall i :: 0 <= i < |p| ==> CurrentRows(p[i].rows, broker, sheet)
  }

  lemma {:induction false} SweptCurrent(rows: seq<Row>, broker: Broker, sheet: Sheet)
    ensures CurrentRows(Swept(rows, broker, sheet), broker, sheet)
  {
    if rows != [] {
      SweptCurrent(rows[1..], broker, sheet);
      RefreshedNotStale(rows[0], broker, sheet);
    }
  }

  lemma {:induction false} SweptAllCurrent(p: Portfolio, broker: Broker, sheet: Sheet)
    ensures CurrentAll(SweptAll(p, broker, sheet), broker, sheet)
  {
    if p != [] {
      SweptCurrent(p[0].rows, broker, sheet);
      SweptAllCurrent(p[1..], broker, sheet);
    }
  }

  predicate CurrentPlaced(placed: seq<Placed>, broker: Broker, sheet: Sheet) {
    forall i :: 0 <= i < |placed| ==> Current(placed[i].row, broker, sheet)
  }

  lemma {:induction false} AddCurrent(p: Portfolio, one: Placed, broker: Broker, sheet: Sheet)
    requires CurrentAll(p, broker, sheet) && Current(one.row, broker, sheet)
    ensures CurrentAll(AddTo(p, one.bucket, one.row), broker, sheet)
  {
    if p != [] && p[0].name != one.bucket {
      AddCurrent(p[1..], one, broker, sheet);
    }
  }

  lemma {:induction false} AddAllCurrent(p: Portfolio, placed: seq<Placed>, broker: Broker, sheet: Sheet)
    requires CurrentAll(p, broker, sheet) && CurrentPlaced(placed, broker, sheet)
    ensures CurrentAll(AddAll(p, placed), broker, sheet)
    decreases |placed|
  {
    if placed != [] {
      AddCurrent(p, placed[0], broker, sheet);
      AddAllCurrent(AddTo(p, placed[0].bucket, placed[0].row), placed[1..], broker, sheet);
    }
  }

  lemma {:induction false} FoundItself(funds: seq<Holding>, i: nat)
    requires i < |funds| && KeyedByIsin(funds)
    ensures Find(funds, Some(funds[i].isin)) == Some(funds[i])
  {
    if i > 0 {
      FoundItself(funds[1..], i - 1);
    }
  }

  lemma {:induction false} MissingFundsCurrent(n: nat, p: Portfolio, broker: Broker, sheet: Sheet,
                                               bucketOf: string -> string)
    requires Plain(sheet, broker) && n <= |sheet.funds|
    ensures CurrentPlaced(MissingFunds(sheet.funds[n..], p, broker, bucketOf), broker, sheet)
    decreases |sheet.funds| - n
  {
    if n < |sheet.funds| {
      MissingFundsCurrent(n + 1, p, broker, sheet, bucketOf);
      assert sheet.funds[n..][1..] == sheet.funds[n + 1..];
      FoundItself(sheet.funds, n);
      FundRowId(sheet.funds[n], broker);
    }
  }

  /** Every row of the broker shows what was fetched for it. */
  lemma {:induction false} RowsAreCurrent(p: Portfolio, broker: Broker, sheet: Sheet, bucketOf: string -> string)
    requires Plain(sheet, broker)
    ensures CurrentAll(Updated(p, broker, sheet, bucketOf), broker, sheet)
  {
    SweptAllCurrent(p, broker, sheet);
    MissingFundsCurrent(0, p, broker, sheet, bucketOf);
    assert sheet.funds[0..] == sheet.funds;
    assert CurrentPlaced(MissingOvernight(p, broker, sheet), broker, sheet);
    assert CurrentPlaced(MissingCash(p, broker, sheet), broker, sheet);
    AddAllCurrent(SweptAll(p, broker, sheet), Missing(p, broker, sheet, bucketOf), broker, sheet);
  }

  lemma {:induction false} CurrentSweeps(rows: seq<Row>, broker: Broker, sheet: Sheet)
    requires CurrentRows(rows, broker, sheet)
    ensures Swept(rows, broker, sheet) == rows
  {
    if rows != [] {
      CurrentSweeps(rows[1..], broker, sheet);
    }
  }

  lemma {:induction false} CurrentAllSweeps(p: Portfolio, broker: Broker, sheet: Sheet)
    requires CurrentAll(p, broker, sheet)
    ensures SweptAll(p, broker, sheet) == p
  {
    if p != [] {
      CurrentSweeps(p[0].rows, broker, sheet);
      CurrentAllSweeps(p[1..], broker, sheet);
    }
  }

  // ---------------------------------------------------------------- fetches as read

  lemma {:induction false} PutFundShape(funds: seq<Holding>, h: Holding)
    ensures var r := PutFund(funds, h);
            && |funds| <= |r| <= |funds| + 1
            && (forall i :: 0 <= i < |funds| ==> r[i].isin == funds[i].isin && (r[i] == funds[i] || r[i] == h))
            && (|r| > |funds| ==> r[|funds|] == h && forall i :: 0 <= i < |funds| ==> funds[i].isin != h.isin)
  {
    if funds != [] && funds[0].isin != h.isin {
      PutFundShape(funds[1..], h);
      assert forall i :: 0 < i < |funds| ==> funds[i] == funds[1..][i - 1];
    }
  }

  /** The funds of a fetch are keyed by ISIN, and each one is an entry of the fetch that counts as a fund. */
  lemma {:induction false} FundsOfKeyed(funds: seq<Holding>, items: seq<Item>, broker: Broker)
    requires KeyedByIsin(funds)
    ensures KeyedByIsin(FundsOf(funds, items, broker))
    ensures forall i :: 0 <= i < |FundsOf(funds, items, broker)| ==>
              var h := FundsOf(funds, items, broker)[i];
              h in funds || exists j :: 0 <= j < |items| && items[j].holding == h && IsFund(items[j], broker)
    decreases |items|
  {
    if items != [] {
      var next := if IsFund(items[0], broker) then PutFund(funds, items[0].holding) else funds;
      PutFundShape(funds, items[0].holding);
      FundsOfKeyed(next, items[1..], broker);
      var r := FundsOf(funds, items, broker);
      forall i | 0 <= i < |r|
        ensures r[i] in funds || exists j :: 0 <= j < |items| && items[j].holding == r[i] && IsFund(items[j], broker)
      {
        if r[i] in next {
          if r[i] !in funds {
            assert items[0].holding == r[i];
          }
        } else {
          var j :| 0 <= j < |items[1..]| && items[1..][j].holding == r[i] && IsFund(items[1..][j], broker);
          assert items[j + 1].holding == r[i];
        }
      }
    }
  }

  /** Whatever is fetched is keyed. */
  lemma {:induction false} SheetIsKeyed(items: seq<Item>, broker: Broker)
    requires broker.overnight.Some? ==> broker.overnight.value.name != broker.cash.name
    ensures Keyed(SheetOf(items, broker), broker)
  {
    FundsOfKeyed([], items, broker);
  }

  /** No fund of the fetch is named like one of the accounts. */
  predicate PlainNames(items: seq<Item>, broker: Broker) {
    forall i :: 0 <= i < |items| && IsFund(items[i], broker) ==> AccountNamed(items[i].holding.name, broker) == None
  }

  /** So a fetch only has to keep clear of the accounts' names for the laws above to apply. */
  lemma {:induction false} SheetIsPlain(items: seq<Item>, broker: Broker)
    requires broker.overnight.Some? ==> broker.overnight.value.name != broker.cash.name
    requires PlainNames(items, broker)
    ensures Plain(SheetOf(items, broker), broker)
  {
    FundsOfKeyed([], items, broker);
  }
}
