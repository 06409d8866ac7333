/** What further updates with the same fetch do. */
module ReconcileRuns {
  import opened Wrappers
  import opened Reconcile
  import opened ReconcileLaws

  // -------------------------------------------------------- funds that read as an account

  /** A fund without a row of its own whose appended row will be read as one of the accounts. */
  predicate Lost(h: Holding, p: Portfolio, broker: Broker) {
    AccountNamed(h.name, broker).Some? && !HoldsAnywhere(p, Fund(Some(h.isin)), broker)
  }

  /** A lost fund whose account was fetched: its row stays and is overwritten with the account's value. */
  predicate Swallowed(h: Holding, p: Portfolio, broker: Broker, sheet: Sheet) {
    Lost(h, p, broker) && Fetched(AccountNamed(h.name, broker).value, sheet)
  }

  /** How many funds of the fetch are swallowed. */
  function SwallowedCount(funds: seq<Holding>, p: Portfolio, broker: Broker, sheet: Sheet): nat {
    if funds == [] then 0
    else (if Swallowed(funds[0], p, broker, sheet) then 1 else 0) + SwallowedCount(funds[1..], p, broker, sheet)
  }

  predicate NoneSwallowed(p: Portfolio, broker: Broker, sheet: Sheet) {
    forall i :: 0 <= i < |sheet.funds| ==> !Swallowed(sheet.funds[i], p, broker, sheet)
  }

  lemma {:induction false} CountsSwallowed(funds: seq<Holding>, p: Portfolio, broker: Broker, sheet: Sheet)
    ensures SwallowedCount(funds, p, broker, sheet) == 0
            <==> forall i :: 0 <= i < |funds| ==> !Swallowed(funds[i], p, broker, sheet)
  {
    if funds != [] {
      CountsSwallowed(funds[1..], p, broker, sheet);
      if !Swallowed(funds[0], p, broker, sheet) && SwallowedCount(funds, p, broker, sheet) == 0 {
        forall i | 0 <= i < |funds| ensures !Swallowed(funds[i], p, broker, sheet) {
          assert i > 0 ==> funds[i] == funds[1..][i - 1];
        }
      }
      if forall i :: 0 <= i < |funds| ==> !Swallowed(funds[i], p, broker, sheet) {
        forall i | 0 <= i < |funds[1..]| ensures !Swallowed(funds[1..][i], p, broker, sheet) {
          assert funds[1..][i] == funds[i + 1];
        }
      }
    }
  }

  /** The rows of the lost funds. */
  function LostRows(funds: seq<Holding>, p: Portfolio, broker: Broker, bucketOf: string -> string): seq<Placed> {
    if funds == [] then []
    else (if Lost(funds[0], p, broker) then [Placed(bucketOf(funds[0].isin), FundRow(funds[0], broker))] else [])
         + LostRows(funds[1..], p, broker, bucketOf)
  }

  // --------------------------------------------------------- what is missing after an update

  lemma {:induction false} UpdatedCount(p: Portfolio, broker: Broker, sheet: Sheet, bucketOf: string -> string, id: Id)
    ensures Count(Updated(p, broker, sheet, bucketOf), id, broker)
            == (if Fetched(id, sheet) then Count(p, id, broker) else 0)
               + CountPlaced(Missing(p, broker, sheet, bucketOf), id, broker)
  {
    SweptAllCount(p, id, broker, sheet);
    AddAllCount(SweptAll(p, broker, sheet), Missing(p, broker, sheet, bucketOf), id, broker);
  }

  /** A fetched account has a row afterwards. */
  lemma {:induction false} AccountHeld(p: Portfolio, broker: Broker, sheet: Sheet, bucketOf: string -> string, id: Id)
    requires Keyed(sheet, broker) && !id.Fund? && Fetched(id, sheet)
    ensures HoldsAnywhere(Updated(p, broker, sheet, bucketOf), id, broker)
  {
    UpdatedCount(p, broker, sheet, bucketOf, id);
    AccountsCount(p, broker, sheet, id);
    CountPlacedOfSum(MissingAccounts(p, broker, sheet), MissingFunds(sheet.funds, p, broker, bucketOf), id, broker);
    HoldsAnywhereIffCounts(p, id, broker);
    HoldsAnywhereIffCounts(Updated(p, broker, sheet, bucketOf), id, broker);
  }

  /** A fund has a row of its own afterwards unless it is lost. */
  lemma {:induction false} FundHeldIff(p: Portfolio, broker: Broker, sheet: Sheet, bucketOf: string -> string,
                                       h: Holding)
    requires Keyed(sheet, broker) && h in sheet.funds
    ensures HoldsAnywhere(Updated(p, broker, sheet, bucketOf), Fund(Some(h.isin)), broker) <==> !Lost(h, p, broker)
  {
    var id := Fund(Some(h.isin));
    var i :| 0 <= i < |sheet.funds| && sheet.funds[i] == h;
    FoundItself(sheet.funds, i);
    UpdatedCount(p, broker, sheet, bucketOf, id);
    AccountsCount(p, broker, sheet, id);
    CountPlacedOfSum(MissingAccounts(p, broker, sheet), MissingFunds(sheet.funds, p, broker, bucketOf), id, broker);
    MissingFundsCount(sheet.funds, p, broker, bucketOf, id);
    HoldsAnywhereIffCounts(p, id, broker);
    HoldsAnywhereIffCounts(Updated(p, broker, sheet, bucketOf), id, broker);
  }

  predicate Among(funds: seq<Holding>, sheet: Sheet) {
    forall i :: 0 <= i < |funds| ==> funds[i] in sheet.funds
  }

  lemma {:induction false} LostStayLost(funds: seq<Holding>, p: Portfolio, broker: Broker, sheet: Sheet,
                                        bucketOf: string -> string)
    requires Keyed(sheet, broker) && Among(funds, sheet)
    ensures var once := Updated(p, broker, sheet, bucketOf);
            && MissingFunds(funds, once, broker, bucketOf) == LostRows(funds, p, broker, bucketOf)
            && SwallowedCount(funds, once, broker, sheet) == SwallowedCount(funds, p, broker, sheet)
  {
    if funds != [] {
      LostStayLost(funds[1..], p, broker, sheet, bucketOf);
      FundHeldIff(p, broker, sheet, bucketOf, funds[0]);
    }
  }

  /** What is missing after an update are the lost funds; they are lost for good. */
  lemma {:induction false} MissingAgain(p: Portfolio, broker: Broker, sheet: Sheet, bucketOf: string -> string)
    requires Keyed(sheet, broker)
    ensures var once := Updated(p, broker, sheet, bucketOf);
            && Missing(once, broker, sheet, bucketOf) == LostRows(sheet.funds, p, broker, bucketOf)
            && SwallowedCount(sheet.funds, once, broker, sheet) == SwallowedCount(sheet.funds, p, broker, sheet)
  {
    var once := Updated(p, broker, sheet, bucketOf);
    LostStayLost(sheet.funds, p, broker, sheet, bucketOf);
    if sheet.overnight.Some? {
      AccountHeld(p, broker, sheet, bucketOf, Overnight);
    }
    if sheet.cash.Some? {
      AccountHeld(p, broker, sheet, bucketOf, Cash);
    }
    assert MissingAccounts(once, broker, sheet) == [];
    var lost := LostRows(sheet.funds, p, broker, bucketOf);
    assert [] + lost == lost;
  }

  // ---------------------------------------------------------------------- counting rows

  function RowCount(p: Portfolio): nat {
    if p == [] then 0 else |p[0].rows| + RowCount(p[1..])
  }

  /** How many of the rows are not stale. */
  function FreshCount(placed: seq<Placed>, broker: Broker, sheet: Sheet): nat {
    if placed == [] then 0
    else (if Stale(placed[0].row, broker, sheet) then 0 else 1) + FreshCount(placed[1..], broker, sheet)
  }

  lemma {:induction false} FreshOfSum(a: seq<Placed>, b: seq<Placed>, broker: Broker, sheet: Sheet)
    ensures FreshCount(a + b, broker, sheet) == FreshCount(a, broker, sheet) + FreshCount(b, broker, sheet)
  {
    if a == [] {
      assert a + b == b;
    } else {
      assert (a + b)[1..] == a[1..] + b;
      FreshOfSum(a[1..], b, broker, sheet);
    }
  }

  lemma {:induction false} SweptOfSum(a: seq<Row>, b: seq<Row>, broker: Broker, sheet: Sheet)
    ensures Swept(a + b, broker, sheet) == Swept(a, broker, sheet) + Swept(b, broker, sheet)
  {
    if a == [] {
      assert a + b == b;
    } else {
      assert (a + b)[1..] == a[1..] + b;
      SweptOfSum(a[1..], b, broker, sheet);
    }
  }

  lemma {:induction false} SweptOne(r: Row, broker: Broker, sheet: Sheet)
    ensures Swept([r], broker, sheet) == if Stale(r, broker, sheet) then [] else [Refreshed(r, broker, sheet)]
  {
    assert [r][1..] == [] && Swept([], broker, sheet) == [];
  }

  lemma {:induction false} AddedRowCount(p: Portfolio, one: Placed, broker: Broker, sheet: Sheet)
    ensures var q := AddTo(p, one.bucket, one.row);
            && RowCount(q) == RowCount(p) + 1
            && RowCount(SweptAll(q, broker, sheet))
               == RowCount(SweptAll(p, broker, sheet)) + if Stale(one.row, broker, sheet) then 0 else 1
  {
    SweptOne(one.row, broker, sheet);
    if p == [] {
      assert [Bucket(one.bucket, [one.row])][1..] == [];
      var b := Bucket(one.bucket, Swept([one.row], broker, sheet));
      assert [b] + [] == [b] && [b][1..] == [];
    } else if p[0].name == one.bucket {
      SweptOfSum(p[0].rows, [one.row], broker, sheet);
    } else {
      AddedRowCount(p[1..], one, broker, sheet);
    }
  }

  lemma {:induction false} AddAllRowCount(p: Portfolio, placed: seq<Placed>, broker: Broker, sheet: Sheet)
    ensures var q := AddAll(p, placed);
            && RowCount(q) == RowCount(p) + |placed|
            && RowCount(SweptAll(q, broker, sheet))
                == RowCount(SweptAll(p, broker, sheet)) + FreshCount(placed, broker, sheet)
    decreases |placed|
  {
    if placed != [] {
      AddedRowCount(p, placed[0], broker, sheet);
      AddAllRowCount(AddTo(p, placed[0].bucket, placed[0].row), placed[1..], broker, sheet);
    }
  }

  lemma {:induction false} AccountsFresh(p: Portfolio, broker: Broker, sheet: Sheet)
    requires Keyed(sheet, broker)
    ensures FreshCount(MissingAccounts(p, broker, sheet), broker, sheet) == |MissingAccounts(p, broker, sheet)|
  {
    var o, c := MissingOvernight(p, broker, sheet), MissingCash(p, broker, sheet);
    FreshOfSum(o, c, broker, sheet);
    assert forall x: Placed :: [x][1..] == [];
    assert FreshCount(o, broker, sheet) == |o| && FreshCount(c, broker, sheet) == |c|;
  }

  lemma {:induction false} FundRowStale(h: Holding, p: Portfolio, broker: Broker, sheet: Sheet)
    requires Keyed(sheet, broker) && h in sheet.funds && !HoldsAnywhere(p, Fund(Some(h.isin)), broker)
    ensures Stale(FundRow(h, broker), broker, sheet) <==> Lost(h, p, broker) && !Swallowed(h, p, broker, sheet)
  {
    var i :| 0 <= i < |sheet.funds| && sheet.funds[i] == h;
    FoundItself(sheet.funds, i);
    FundRowId(h, broker);
  }

  /** Of the rows appended for funds, those go stale that are lost and not swallowed. */
  lemma {:induction false} FreshFunds(funds: seq<Holding>, p: Portfolio, broker: Broker, sheet: Sheet,
                                      bucketOf: string -> string)
    requires Keyed(sheet, broker) && Among(funds, sheet)
    ensures FreshCount(MissingFunds(funds, p, broker, bucketOf), broker, sheet)
            == |MissingFunds(funds, p, broker, bucketOf)| - |LostRows(funds, p, broker, bucketOf)|
               + SwallowedCount(funds, p, broker, sheet)
  {
    if funds != [] {
      var h, rest := funds[0], MissingFunds(funds[1..], p, broker, bucketOf);
      FreshFunds(funds[1..], p, broker, sheet, bucketOf);
      if !HoldsAnywhere(p, Fund(Some(h.isin)), broker) {
        FundRowStale(h, p, broker, sheet);
        assert ([Placed(bucketOf(h.isin), FundRow(h, broker))] + rest)[1..] == rest;
      } else {
        assert [] + rest == rest;
      }
    }
  }

  /** A second update appends one more row for every swallowed fund, and keeps the number of all others. */
  lemma {:induction false} SecondUpdateGrows(p: Portfolio, broker: Broker, sheet: Sheet, bucketOf: string -> string)
    requires Keyed(sheet, broker)
    ensures var once := Updated(p, broker, sheet, bucketOf);
            RowCount(Updated(once, broker, sheet, bucketOf))
            == RowCount(once) + SwallowedCount(sheet.funds, p, broker, sheet)
  {
    var swept, missing := SweptAll(p, broker, sheet), Missing(p, broker, sheet, bucketOf);
    var once := Updated(p, broker, sheet, bucketOf);
    SweptAllCurrent(p, broker, sheet);
    CurrentAllSweeps(swept, broker, sheet);
    AddAllRowCount(swept, missing, broker, sheet);
    AccountsFresh(p, broker, sheet);
    FreshFunds(sheet.funds, p, broker, sheet, bucketOf);
    FreshOfSum(MissingAccounts(p, broker, sheet), MissingFunds(sheet.funds, p, broker, bucketOf), broker, sheet);
    MissingAgain(p, broker, sheet, bucketOf);
    AddAllRowCount(SweptAll(once, broker, sheet), Missing(once, broker, sheet, bucketOf), broker, sheet);
  }

  /** The portfolio after `n` updates with one fetch. */
  function Updates(p: Portfolio, broker: Broker, sheet: Sheet, bucketOf: string -> string, n: nat): Portfolio
    decreases n
  {
    if n == 0 then p else Updates(Updated(p, broker, sheet, bucketOf), broker, sheet, bucketOf, n - 1)
  }

  /** From the second run on every update adds one row for each swallowed fund, for ever. */
  lemma {:induction false} RowsGrow(p: Portfolio, broker: Broker, sheet: Sheet, bucketOf: string -> string, n: nat)
    requires Keyed(sheet, broker)
    ensures RowCount(Updates(p, broker, sheet, bucketOf, n + 1))
            == RowCount(Updated(p, broker, sheet, bucketOf)) + n * SwallowedCount(sheet.funds, p, broker, sheet)
    decreases n
  {
    var once := Updated(p, broker, sheet, bucketOf);
    assert Updates(p, broker, sheet, bucketOf, n + 1) == Updates(once, broker, sheet, bucketOf, n);
    if n > 0 {
      RowsGrow(once, broker, sheet, bucketOf, n - 1);
      SecondUpdateGrows(p, broker, sheet, bucketOf);
      MissingAgain(p, broker, sheet, bucketOf);
      Steps(n, SwallowedCount(sheet.funds, p, broker, sheet));
    }
  }

  lemma Steps(n: nat, k: nat)
    requires n > 0
    ensures n * k == k + (n - 1) * k
  {
  }

  // ------------------------------------------------------------------ when nothing changes

  function Names(p: Portfolio): seq<string> {
    if p == [] then [] else [p[0].name] + Names(p[1..])
  }

  function Of(placed: seq<Placed>, bucket: string): seq<Row> {
    if placed == [] then []
    else (if placed[0].bucket == bucket then [placed[0].row] else []) + Of(placed[1..], bucket)
  }

  lemma {:induction false} SweptAllRows(p: Portfolio, broker: Broker, sheet: Sheet, bucket: string)
    ensures RowsIn(SweptAll(p, broker, sheet), bucket) == Swept(RowsIn(p, bucket), broker, sheet)
    ensures Names(SweptAll(p, broker, sheet)) == Names(p)
  {
    if p != [] {
      SweptAllRows(p[1..], broker, sheet, bucket);
    }
  }

  lemma {:induction false} AddedRows(p: Portfolio, one: Placed, bucket: string)
    ensures RowsIn(AddTo(p, one.bucket, one.row), bucket)
            == RowsIn(p, bucket) + if one.bucket == bucket then [one.row] else []
    ensures Names(AddTo(p, one.bucket, one.row)) == Names(p) + if one.bucket in Names(p) then [] else [one.bucket]
  {
    if p == [] {
      assert [Bucket(one.bucket, [one.row])][1..] == [] && RowsIn([], bucket) == [] && Names([]) == [];
      assert [one.bucket] + [] == [one.bucket];
    } else if p[0].name != one.bucket {
      AddedRows(p[1..], one, bucket);
    }
  }

  lemma Grouped<T>(a: seq<T>, b: seq<T>, c: seq<T>)
    ensures a + b + c == a + (b + c)
  {
  }

  lemma {:induction false} AddAllRows(p: Portfolio, placed: seq<Placed>, bucket: string)
    ensures RowsIn(AddAll(p, placed), bucket) == RowsIn(p, bucket) + Of(placed, bucket)
    decreases |placed|
  {
    if placed != [] {
      var q := AddTo(p, placed[0].bucket, placed[0].row);
      AddedRows(p, placed[0], bucket);
      AddAllRows(q, placed[1..], bucket);
      Grouped(RowsIn(p, bucket), if placed[0].bucket == bucket then [placed[0].row] else [], Of(placed[1..], bucket));
    }
  }

  /** After appending, every row's bucket is there; appending there makes no new one. */
  lemma {:induction false} AddAllNames(p: Portfolio, placed: seq<Placed>)
    ensures Names(p) <= Names(AddAll(p, placed))
    ensures forall i :: 0 <= i < |placed| ==> placed[i].bucket in Names(AddAll(p, placed))
    ensures (forall i :: 0 <= i < |placed| ==> placed[i].bucket in Names(p)) ==> Names(AddAll(p, placed)) == Names(p)
    decreases |placed|
  {
    if placed != [] {
      var q := AddTo(p, placed[0].bucket, placed[0].row);
      AddedRows(p, placed[0], placed[0].bucket);
      AddAllNames(q, placed[1..]);
      assert placed[0].bucket in Names(q);
    }
  }

  lemma {:induction false} NameAt(p: Portfolio, i: nat)
    requires i < |p|
    ensures |Names(p)| == |p| && Names(p)[i] == p[i].name
  {
    if |p| > 1 {
      NameAt(p[1..], if i == 0 then 0 else i - 1);
    } else {
      assert p[1..] == [] && Names([]) == [];
    }
  }

  lemma {:induction false} RowsAt(p: Portfolio, i: nat)
    requires DistinctBuckets(p) && i < |p|
    ensures RowsIn(p, p[i].name) == p[i].rows
  {
    if i > 0 {
      RowsAt(p[1..], i - 1);
    }
  }

  lemma {:induction false} NamesLength(p: Portfolio)
    ensures |Names(p)| == |p|
  {
    if p != [] {
      NamesLength(p[1..]);
    }
  }

  /** Portfolios with the same buckets and the same rows in each are the same. */
  lemma {:induction false} SamePortfolio(p: Portfolio, q: Portfolio)
    requires DistinctBuckets(p) && Names(p) == Names(q)
    requires forall b :: RowsIn(p, b) == RowsIn(q, b)
    ensures p == q
  {
    NamesLength(p);
    NamesLength(q);
    forall i | 0 <= i < |p| ensures p[i].name == q[i].name {
      NameAt(p, i);
      NameAt(q, i);
    }
    forall i | 0 <= i < |p| ensures p[i] == q[i] {
      RowsAt(p, i);
      RowsAt(q, i);
    }
  }

  lemma {:induction false} SweptAllDistinct(p: Portfolio, broker: Broker, sheet: Sheet)
    requires DistinctBuckets(p)
    ensures DistinctBuckets(SweptAll(p, broker, sheet))
  {
    var q := SweptAll(p, broker, sheet);
    SweptAllRows(p, broker, sheet, "");
    NamesLength(p);
    NamesLength(q);
    forall i, j | 0 <= i < j < |q| ensures q[i].name != q[j].name {
      NameAt(p, i);
      NameAt(p, j);
      NameAt(q, i);
      NameAt(q, j);
    }
  }

  lemma {:induction false} AddAllDistinct(p: Portfolio, placed: seq<Placed>)
    requires DistinctBuckets(p)
    ensures DistinctBuckets(AddAll(p, placed))
    decreases |placed|
  {
    if placed != [] {
      AddToDistinct(p, placed[0]);
      AddAllDistinct(AddTo(p, placed[0].bucket, placed[0].row), placed[1..]);
    }
  }

  lemma {:induction false} AddToDistinct(p: Portfolio, one: Placed)
    requires DistinctBuckets(p)
    ensures DistinctBuckets(AddTo(p, one.bucket, one.row))
    ensures forall i :: 0 <= i < |AddTo(p, one.bucket, one.row)| ==>
              var b := AddTo(p, one.bucket, one.row)[i];
              b.name == one.bucket || exists j :: 0 <= j < |p| && p[j].name == b.name
  {
    if p != [] && p[0].name != one.bucket {
      AddToDistinct(p[1..], one);
    }
  }

  // ------------------------------------------------------------- rows that go and come back

  /** Every stale row comes after all the others. */
  predicate StaleLast(rows: seq<Row>, broker: Broker, sheet: Sheet) {
    forall i, j :: 0 <= i < j < |rows| && Stale(rows[i], broker, sheet) ==> Stale(rows[j], broker, sheet)
  }

  predicate StaleOrCurrent(rows: seq<Row>, broker: Broker, sheet: Sheet) {
    forall i :: 0 <= i < |rows| ==> Stale(rows[i], broker, sheet) || Current(rows[i], broker, sheet)
  }

  lemma {:induction false} StalesAreStale(rows: seq<Row>, broker: Broker, sheet: Sheet)
    ensures forall i :: 0 <= i < |StaleRows(rows, broker, sheet)| ==>
              Stale(StaleRows(rows, broker, sheet)[i], broker, sheet)
  {
    if rows != [] {
      StalesAreStale(rows[1..], broker, sheet);
    }
  }

  lemma {:induction false} AllStale(rows: seq<Row>, broker: Broker, sheet: Sheet)
    requires forall i :: 0 <= i < |rows| ==> Stale(rows[i], broker, sheet)
    ensures Swept(rows, broker, sheet) == [] && StaleRows(rows, broker, sheet) == rows
  {
    if rows != [] {
      AllStale(rows[1..], broker, sheet);
    }
  }

  lemma {:induction false} LastMovesNothing(rows: seq<Row>, broker: Broker, sheet: Sheet)
    requires StaleOrCurrent(rows, broker, sheet) && StaleLast(rows, broker, sheet)
    ensures Swept(rows, broker, sheet) + StaleRows(rows, broker, sheet) == rows
  {
    if rows != [] {
      if Stale(rows[0], broker, sheet) {
        AllStale(rows, broker, sheet);
      } else {
        var rest := rows[1..];
        assert forall i, j :: 0 <= i < j < |rest| && Stale(rest[i], broker, sheet) ==> Stale(rest[j], broker, sheet);
        LastMovesNothing(rest, broker, sheet);
        Grouped([rows[0]], Swept(rest, broker, sheet), StaleRows(rest, broker, sheet));
        assert [] + StaleRows(rest, broker, sheet) == StaleRows(rest, broker, sheet);
      }
    }
  }

  /** Taking the stale rows out and appending them again moves nothing exactly when they are last. */
  lemma {:induction false} MovesNothingIff(rows: seq<Row>, broker: Broker, sheet: Sheet)
    requires StaleOrCurrent(rows, broker, sheet)
    ensures Swept(rows, broker, sheet) + StaleRows(rows, broker, sheet) == rows <==> StaleLast(rows, broker, sheet)
  {
    var kept, gone := Swept(rows, broker, sheet), StaleRows(rows, broker, sheet);
    if StaleLast(rows, broker, sheet) {
      LastMovesNothing(rows, broker, sheet);
    }
    if kept + gone == rows {
      SweptCurrent(rows, broker, sheet);
      StalesAreStale(rows, broker, sheet);
      forall i, j | 0 <= i < j < |rows| ensures Stale(rows[i], broker, sheet) ==> Stale(rows[j], broker, sheet) {
        if i < |kept| {
          assert rows[i] == kept[i];
        } else {
          assert rows[j] == gone[j - |kept|];
        }
      }
    }
  }

  /** In every bucket the appended rows of lost funds come last. */
  ghost predicate LostComeLast(p: Portfolio, broker: Broker, sheet: Sheet, bucketOf: string -> string) {
    forall b :: StaleLast(Of(Missing(p, broker, sheet, bucketOf), b), broker, sheet)
  }

  lemma {:induction false} OfSum(a: seq<Placed>, c: seq<Placed>, bucket: string)
    ensures Of(a + c, bucket) == Of(a, bucket) + Of(c, bucket)
  {
    if a == [] {
      assert a + c == c;
    } else {
      assert (a + c)[1..] == a[1..] + c;
      OfSum(a[1..], c, bucket);
      Grouped(if a[0].bucket == bucket then [a[0].row] else [], Of(a[1..], bucket), Of(c, bucket));
    }
  }

  lemma {:induction false} StaleRowsOfSum(a: seq<Row>, b: seq<Row>, broker: Broker, sheet: Sheet)
    ensures StaleRows(a + b, broker, sheet) == StaleRows(a, broker, sheet) + StaleRows(b, broker, sheet)
  {
    if a == [] {
      assert a + b == b;
    } else {
      assert (a + b)[1..] == a[1..] + b;
      StaleRowsOfSum(a[1..], b, broker, sheet);
    }
  }

  lemma {:induction false} StaleOne(r: Row, broker: Broker, sheet: Sheet)
    ensures StaleRows([r], broker, sheet) == if Stale(r, broker, sheet) then [r] else []
  {
    assert [r][1..] == [] && StaleRows([], broker, sheet) == [];
  }

  lemma {:induction false} CurrentAreFresh(rows: seq<Row>, broker: Broker, sheet: Sheet)
    requires CurrentRows(rows, broker, sheet)
    ensures StaleRows(rows, broker, sheet) == []
  {
    if rows != [] {
      CurrentAreFresh(rows[1..], broker, sheet);
    }
  }

  lemma {:induction false} OfCurrent(placed: seq<Placed>, bucket: string, broker: Broker, sheet: Sheet)
    requires CurrentPlaced(placed, broker, sheet)
    ensures CurrentRows(Of(placed, bucket), broker, sheet)
  {
    if placed != [] {
      OfCurrent(placed[1..], bucket, broker, sheet);
    }
  }

  lemma {:induction false} NextOf(one: Placed, rest: seq<Placed>, bucket: string)
    ensures Of([one] + rest, bucket) == (if one.bucket == bucket then [one.row] else []) + Of(rest, bucket)
  {
    assert ([one] + rest)[1..] == rest;
  }

  lemma {:induction false} FundRowCurrent(h: Holding, p: Portfolio, broker: Broker, sheet: Sheet)
    requires Keyed(sheet, broker) && h in sheet.funds && !Lost(h, p, broker)
             && !HoldsAnywhere(p, Fund(Some(h.isin)), broker)
    ensures Current(FundRow(h, broker), broker, sheet)
  {
    var i :| 0 <= i < |sheet.funds| && sheet.funds[i] == h;
    FoundItself(sheet.funds, i);
    FundRowId(h, broker);
  }

  /** Without swallowed funds the appended rows are current, but for those of lost funds. */
  lemma {:induction false} LostAreStale(funds: seq<Holding>, p: Portfolio, broker: Broker, sheet: Sheet,
                                        bucketOf: string -> string, bucket: string)
    requires Keyed(sheet, broker) && Among(funds, sheet) && NoneSwallowed(p, broker, sheet)
    ensures var rows := Of(MissingFunds(funds, p, broker, bucketOf), bucket);
            && StaleOrCurrent(rows, broker, sheet)
            && StaleRows(rows, broker, sheet) == Of(LostRows(funds, p, broker, bucketOf), bucket)
  {
    if funds != [] {
      LostAreStale(funds[1..], p, broker, sheet, bucketOf, bucket);
      var h, rest, lost := funds[0], MissingFunds(funds[1..], p, broker, bucketOf),
          LostRows(funds[1..], p, broker, bucketOf);
      var one := Placed(bucketOf(h.isin), FundRow(h, broker));
      if HoldsAnywhere(p, Fund(Some(h.isin)), broker) {
        assert [] + rest == rest && [] + lost == lost;
      } else {
        FundRowStale(h, p, broker, sheet);
        if !Lost(h, p, broker) {
          FundRowCurrent(h, p, broker, sheet);
          assert [] + lost == lost;
        }
        NextOf(one, rest, bucket);
        NextOf(one, lost, bucket);
        StaleOne(one.row, broker, sheet);
        StaleRowsOfSum(if one.bucket == bucket then [one.row] else [], Of(rest, bucket), broker, sheet);
        assert StaleRows([], broker, sheet) == [] && [] + Of(lost, bucket) == Of(lost, bucket);
      }
    }
  }

  lemma {:induction false} MissingStale(p: Portfolio, broker: Broker, sheet: Sheet, bucketOf: string -> string,
                                        bucket: string)
    requires Keyed(sheet, broker) && NoneSwallowed(p, broker, sheet)
    ensures var rows := Of(Missing(p, broker, sheet, bucketOf), bucket);
            && StaleOrCurrent(rows, broker, sheet)
            && StaleRows(rows, broker, sheet) == Of(LostRows(sheet.funds, p, broker, bucketOf), bucket)
  {
    var accounts, funds := MissingAccounts(p, broker, sheet), MissingFunds(sheet.funds, p, broker, bucketOf);
    assert CurrentPlaced(MissingOvernight(p, broker, sheet), broker, sheet);
    assert CurrentPlaced(MissingCash(p, broker, sheet), broker, sheet);
    OfCurrent(accounts, bucket, broker, sheet);
    CurrentAreFresh(Of(accounts, bucket), broker, sheet);
    LostAreStale(sheet.funds, p, broker, sheet, bucketOf, bucket);
    OfSum(accounts, funds, bucket);
    StaleRowsOfSum(Of(accounts, bucket), Of(funds, bucket), broker, sheet);
    var lost := Of(LostRows(sheet.funds, p, broker, bucketOf), bucket);
    assert [] + lost == lost;
  }

  lemma SamePrefix<T>(a: seq<T>, b: seq<T>, c: seq<T>)
    ensures a + b == a + c <==> b == c
  {
    if a + b == a + c {
      assert (a + b)[|a|..] == b && (a + c)[|a|..] == c;
    }
  }

  /** One bucket is the same after a second update exactly when the lost rows are last in it. */
  lemma {:induction false} SecondUpdateRows(p: Portfolio, broker: Broker, sheet: Sheet, bucketOf: string -> string,
                                            bucket: string)
    requires Keyed(sheet, broker) && NoneSwallowed(p, broker, sheet)
    ensures var once := Updated(p, broker, sheet, bucketOf);
            RowsIn(Updated(once, broker, sheet, bucketOf), bucket) == RowsIn(once, bucket)
            <==> StaleLast(Of(Missing(p, broker, sheet, bucketOf), bucket), broker, sheet)
  {
    var once, lost := Updated(p, broker, sheet, bucketOf), LostRows(sheet.funds, p, broker, bucketOf);
    var kept, added := Swept(RowsIn(p, bucket), broker, sheet), Of(Missing(p, broker, sheet, bucketOf), bucket);
    SweptAllRows(p, broker, sheet, bucket);
    AddAllRows(SweptAll(p, broker, sheet), Missing(p, broker, sheet, bucketOf), bucket);
    assert RowsIn(once, bucket) == kept + added;
    MissingAgain(p, broker, sheet, bucketOf);
    SweptAllRows(once, broker, sheet, bucket);
    AddAllRows(SweptAll(once, broker, sheet), lost, bucket);
    SweptOfSum(kept, added, broker, sheet);
    SweptCurrent(RowsIn(p, bucket), broker, sheet);
    CurrentSweeps(kept, broker, sheet);
    MissingStale(p, broker, sheet, bucketOf, bucket);
    MovesNothingIff(added, broker, sheet);
    Grouped(kept, Swept(added, broker, sheet), Of(lost, bucket));
    SamePrefix(kept, Swept(added, broker, sheet) + Of(lost, bucket), added);
  }

  lemma {:induction false} LostAmongMissing(funds: seq<Holding>, p: Portfolio, broker: Broker,
                                            bucketOf: string -> string)
    ensures forall i :: 0 <= i < |LostRows(funds, p, broker, bucketOf)| ==>
              LostRows(funds, p, broker, bucketOf)[i] in MissingFunds(funds, p, broker, bucketOf)
  {
    if funds != [] {
      LostAmongMissing(funds[1..], p, broker, bucketOf);
    }
  }

  lemma {:induction false} SecondUpdateNames(p: Portfolio, broker: Broker, sheet: Sheet, bucketOf: string -> string)
    requires Keyed(sheet, broker)
    ensures var once := Updated(p, broker, sheet, bucketOf);
            Names(Updated(once, broker, sheet, bucketOf)) == Names(once)
  {
    var once, missing := Updated(p, broker, sheet, bucketOf), Missing(p, broker, sheet, bucketOf);
    var lost := LostRows(sheet.funds, p, broker, bucketOf);
    MissingAgain(p, broker, sheet, bucketOf);
    LostAmongMissing(sheet.funds, p, broker, bucketOf);
    AddAllNames(SweptAll(p, broker, sheet), missing);
    SweptAllRows(once, broker, sheet, "");
    forall i | 0 <= i < |lost| ensures lost[i].bucket in Names(SweptAll(once, broker, sheet)) {
      assert lost[i] in missing;
    }
    AddAllNames(SweptAll(once, broker, sheet), lost);
  }

  // ------------------------------------------------------------------------- idempotence

  /** A second update with the same fetch changes nothing exactly when no fund is swallowed, and the rows
      of funds named like an account that was not fetched come last where they are appended. */
  lemma {:induction false} UpdateIsIdempotentIff(p: Portfolio, broker: Broker, sheet: Sheet, bucketOf: string -> string)
    requires DistinctBuckets(p) && Keyed(sheet, broker)
    ensures var once := Updated(p, broker, sheet, bucketOf);
            Updated(once, broker, sheet, bucketOf) == once
            <==> NoneSwallowed(p, broker, sheet) && LostComeLast(p, broker, sheet, bucketOf)
  {
    var once := Updated(p, broker, sheet, bucketOf);
    var twice := Updated(once, broker, sheet, bucketOf);
    SecondUpdateGrows(p, broker, sheet, bucketOf);
    CountsSwallowed(sheet.funds, p, broker, sheet);
    if NoneSwallowed(p, broker, sheet) {
      forall b
        ensures RowsIn(twice, b) == RowsIn(once, b)
                <==> StaleLast(Of(Missing(p, broker, sheet, bucketOf), b), broker, sheet)
      {
        SecondUpdateRows(p, broker, sheet, bucketOf, b);
      }
      if LostComeLast(p, broker, sheet, bucketOf) {
        SecondUpdateNames(p, broker, sheet, bucketOf);
        SweptAllDistinct(p, broker, sheet);
        AddAllDistinct(SweptAll(p, broker, sheet), Missing(p, broker, sheet, bucketOf));
        SamePortfolio(once, twice);
      }
    }
  }

  /** Every account that some fund without a row is named like was fetched. */
  predicate AccountsFetched(p: Portfolio, broker: Broker, sheet: Sheet) {
    forall i :: 0 <= i < |sheet.funds| && Lost(sheet.funds[i], p, broker) ==>
      Fetched(AccountNamed(sheet.funds[i].name, broker).value, sheet)
  }

  /** With the accounts fetched: exactly when every fund named like one of them has a row under its ISIN. */
  lemma {:induction false} FetchedAccountsIdempotentIff(p: Portfolio, broker: Broker, sheet: Sheet,
                                                        bucketOf: string -> string)
    requires DistinctBuckets(p) && Keyed(sheet, broker) && AccountsFetched(p, broker, sheet)
    ensures var once := Updated(p, broker, sheet, bucketOf);
            Updated(once, broker, sheet, bucketOf) == once
            <==> forall i :: 0 <= i < |sheet.funds| && AccountNamed(sheet.funds[i].name, broker).Some?
                   ==> HoldsAnywhere(p, Fund(Some(sheet.funds[i].isin)), broker)
  {
    UpdateIsIdempotentIff(p, broker, sheet, bucketOf);
    if NoneSwallowed(p, broker, sheet) {
      NothingComesLast(p, broker, sheet, bucketOf);
    }
  }

  lemma {:induction false} NothingComesLast(p: Portfolio, broker: Broker, sheet: Sheet, bucketOf: string -> string)
    requires Keyed(sheet, broker) && AccountsFetched(p, broker, sheet) && NoneSwallowed(p, broker, sheet)
    ensures LostComeLast(p, broker, sheet, bucketOf)
  {
    NothingLost(sheet.funds, p, broker, bucketOf);
    forall b ensures StaleLast(Of(Missing(p, broker, sheet, bucketOf), b), broker, sheet) {
      MissingStale(p, broker, sheet, bucketOf, b);
      NoStaleRows(Of(Missing(p, broker, sheet, bucketOf), b), broker, sheet);
    }
  }

  lemma {:induction false} NothingLost(funds: seq<Holding>, p: Portfolio, broker: Broker, bucketOf: string -> string)
    requires forall i :: 0 <= i < |funds| ==> !Lost(funds[i], p, broker)
    ensures LostRows(funds, p, broker, bucketOf) == []
  {
    if funds != [] {
      NothingLost(funds[1..], p, broker, bucketOf);
    }
  }

  lemma {:induction false} NoStaleRows(rows: seq<Row>, broker: Broker, sheet: Sheet)
    requires StaleRows(rows, broker, sheet) == []
    ensures forall i :: 0 <= i < |rows| ==> !Stale(rows[i], broker, sheet)
  {
    if rows != [] {
      NoStaleRows(rows[1..], broker, sheet);
      forall i | 0 <= i < |rows| ensures !Stale(rows[i], broker, sheet) {
        assert i > 0 ==> rows[i] == rows[1..][i - 1];
      }
    }
  }

  /** No fund named like an account: a second update changes nothing. */
  lemma {:induction false} UpdateIsIdempotent(p: Portfolio, broker: Broker, sheet: Sheet, bucketOf: string -> string)
    requires Plain(sheet, broker)
    ensures var once := Updated(p, broker, sheet, bucketOf); Updated(once, broker, sheet, bucketOf) == once
  {
    RowsAreCurrent(p, broker, sheet, bucketOf);
    CurrentAllSweeps(Updated(p, broker, sheet, bucketOf), broker, sheet);
    MissingAgain(p, broker, sheet, bucketOf);
    NothingLost(sheet.funds, p, broker, bucketOf);
  }

  lemma {:induction false} OfStale(placed: seq<Placed>, bucket: string, broker: Broker, sheet: Sheet)
    requires forall i :: 0 <= i < |placed| ==> Stale(placed[i].row, broker, sheet)
    ensures forall i :: 0 <= i < |Of(placed, bucket)| ==> Stale(Of(placed, bucket)[i], broker, sheet)
  {
    if placed != [] {
      OfStale(placed[1..], bucket, broker, sheet);
    }
  }

  lemma {:induction false} UnswallowedStale(funds: seq<Holding>, p: Portfolio, broker: Broker, sheet: Sheet,
                                            bucketOf: string -> string)
    requires Keyed(sheet, broker) && Among(funds, sheet) && NoneSwallowed(p, broker, sheet)
    ensures forall i :: 0 <= i < |LostRows(funds, p, broker, bucketOf)| ==>
              Stale(LostRows(funds, p, broker, bucketOf)[i].row, broker, sheet)
  {
    if funds != [] {
      UnswallowedStale(funds[1..], p, broker, sheet, bucketOf);
      if Lost(funds[0], p, broker) {
        FundRowStale(funds[0], p, broker, sheet);
      }
    }
  }

  /** From the second update on nothing changes any more, exactly when no fund is swallowed: the rows of
      funds named like an account that was not fetched have then found their places. */
  lemma {:induction false} SettlesIff(p: Portfolio, broker: Broker, sheet: Sheet, bucketOf: string -> string)
    requires DistinctBuckets(p) && Keyed(sheet, broker)
    ensures var twice := Updated(Updated(p, broker, sheet, bucketOf), broker, sheet, bucketOf);
            Updated(twice, broker, sheet, bucketOf) == twice <==> NoneSwallowed(p, broker, sheet)
  {
    var once := Updated(p, broker, sheet, bucketOf);
    SweptAllDistinct(p, broker, sheet);
    AddAllDistinct(SweptAll(p, broker, sheet), Missing(p, broker, sheet, bucketOf));
    UpdateIsIdempotentIff(once, broker, sheet, bucketOf);
    MissingAgain(p, broker, sheet, bucketOf);
    CountsSwallowed(sheet.funds, p, broker, sheet);
    CountsSwallowed(sheet.funds, once, broker, sheet);
    if NoneSwallowed(p, broker, sheet) {
      UnswallowedStale(sheet.funds, p, broker, sheet, bucketOf);
      forall b ensures StaleLast(Of(Missing(once, broker, sheet, bucketOf), b), broker, sheet) {
        OfStale(Missing(once, broker, sheet, bucketOf), b, broker, sheet);
      }
    }
  }

  // ------------------------------------------------------------------------ one such fund

  /** A fund named like the cash account that was fetched, into an empty portfolio: every update after the
      first adds a row. */
  lemma {:induction false} FundNamedLikeAccount(broker: Broker, bucketOf: string -> string, n: nat)
    requires broker.overnight == None
    ensures var sheet := Sheet([Holding("X", broker.cash.name, Some(1.0), Some(2.0))], Some(Some(3.0)), None);
            RowCount(Updates([], broker, sheet, bucketOf, n + 1)) == 2 + n
  {
    var h := Holding("X", broker.cash.name, Some(1.0), Some(2.0));
    var sheet := Sheet([h], Some(Some(3.0)), None);
    assert [h][1..] == [] && SwallowedCount([], [], broker, sheet) == 0;
    assert Swallowed(h, [], broker, sheet) && SwallowedCount([h], [], broker, sheet) == 1;
    RowsGrow([], broker, sheet, bucketOf, n);
    var placed := Placed(bucketOf("X"), FundRow(h, broker));
    assert MissingFunds([], [], broker, bucketOf) == [] && MissingFunds([h], [], broker, bucketOf) == [placed] + [];
    assert |Missing([], broker, sheet, bucketOf)| == 2;
    AddAllRowCount([], Missing([], broker, sheet, bucketOf), broker, sheet);
  }
}
