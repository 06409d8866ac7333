/** What the cache rows say after each operation, field by field. */
module CacheLaws {
  import opened Wrappers
  import opened OrderedDict
  import opened Backends
  import opened Splits
  import opened CacheRows

  // ------------------------------------------------------------------------- staging

  /** A split that the cache takes: no weight is further than 5 percent outside 0 to 1. */
  predicate Acceptable(split: Option<Dict>) {
    split.Some? ==> forall i :: 0 <= i < |split.value| ==> -0.05 <= split.value[i].val <= 1.05
  }

  predicate AcceptableFields(given: Fields) {
    (given.price.Some? ==> given.price.value >= 0.0) && Acceptable(given.countries) && Acceptable(given.sectors)
  }

  /** The field as given, clamped and snapped, or as it was where nothing is given. */
  predicate SplitSet(now: Option<Dict>, was: Option<Dict>, given: Option<Dict>) {
    now == if given.Some? then Coerced(given.value) else was
  }

  /** Given fields replace stored ones, the others stay. */
  predicate FieldsSet(now: Fields, was: Fields, given: Fields) {
    && now.price == (if given.price.Some? then given.price else was.price)
    && SplitSet(now.countries, was.countries, given.countries)
    && SplitSet(now.sectors, was.sectors, given.sectors)
  }

  /** One row changed at most. */
  ghost predicate OthersStay(now: Store, was: Store, isin: string) {
    forall k: string :: k != isin ==> (k in now <==> k in was) && (k in was ==> now[k] == was[k])
  }

  lemma {:induction false} AcceptableIff(split: Option<Dict>)
    ensures Acceptable(split) <==> CoerceSplitField(split).Some?
    ensures Acceptable(split) && split.Some? ==> CoerceSplitField(split).value == Coerced(split.value)
  {
    if split.Some? {
      forall i | 0 <= i < |split.value|
        ensures Plausible(split.value[i].val) <==> -0.05 <= split.value[i].val <= 1.05
      {
      }
    }
  }

  lemma {:induction false} StoredStays(s: Store, isin: string)
    requires Coherent(s, CoerceFields)
    ensures var was := At(s, isin, NOTHING);
            && CoercePrice(was.price) == Some(was.price) && CoerceSplitField(was.countries) == Some(was.countries)
            && CoerceSplitField(was.sectors) == Some(was.sectors)
  {
    FieldsStable();
  }

  /** Staging is accepted exactly when the given price is not negative and the given splits are acceptable.
      Then the given fields are stored and the others stay; otherwise the row stays, if there is one, and is
      empty if not. No other row changes. */
  ghost predicate SetsRow(now: Store, ok: bool, was: Store, isin: string, given: Fields) {
    && ok == AcceptableFields(given)
    && isin in now && OthersStay(now, was, isin)
    && (ok ==> FieldsSet(now[isin], At(was, isin, Fields(None, None, None)), given))
    && (!ok ==> now[isin] == At(was, isin, Fields(None, None, None)))
  }

  lemma {:induction false} StageSetsFields(s: Store, isin: string, given: Fields)
    requires Coherent(s, CoerceFields)
    ensures SetsRow(Staged(s, isin, given).0, Staged(s, isin, given).1, s, isin, given)
  {
    StoredStays(s, isin);
    AcceptableIff(given.countries);
    AcceptableIff(given.sectors);
  }

  lemma {:induction false} StagedCoherent(s: Store, isin: string, given: Fields)
    requires Coherent(s, CoerceFields)
    ensures Coherent(Staged(s, isin, given).0, CoerceFields)
  {
    FieldsStable();
  }

  // -------------------------------------------------------------------------- quotes

  predicate Skipped(q: Quote) {
    q.isin == "" || q.price == None
  }

  predicate Refused(q: Quote) {
    q.isin != "" && q.price.Some? && q.price.value < 0.0
  }

  /** The quotes before the first refused one; all of them when there is none. */
  predicate TakenBefore(quotes: seq<Quote>, n: nat) {
    && n <= |quotes| && (forall i :: 0 <= i < n ==> !Refused(quotes[i]))
    && (n < |quotes| ==> Refused(quotes[n]))
  }

  /** The last of the first `n` quotes for an ISIN. */
  predicate LastQuote(quotes: seq<Quote>, n: nat, isin: string, i: nat) {
    && i < n <= |quotes| && quotes[i].isin == isin && !Skipped(quotes[i])
    && forall j :: i < j < n && quotes[j].isin == isin ==> Skipped(quotes[j])
  }

  predicate NoQuote(quotes: seq<Quote>, n: nat, isin: string) {
    n <= |quotes| && forall j :: 0 <= j < n && quotes[j].isin == isin ==> Skipped(quotes[j])
  }

  lemma {:induction false} QuoteOnce(s: Store, q: Quote)
    requires Coherent(s, CoerceFields) && !Skipped(q) && !Refused(q)
    ensures var (now, ok) := Staged(s, q.isin, Fields(q.price, None, None));
            ok && now == s[q.isin := At(s, q.isin, NOTHING).(price := q.price)] && Coherent(now, CoerceFields)
  {
    StageSetsFields(s, q.isin, Fields(q.price, None, None));
    StagedCoherent(s, q.isin, Fields(q.price, None, None));
  }

  /** Quotes are taken up to the first refused one. Every ISIN ends with its last quote among them, its splits
      as they were; an ISIN without one stays, but for an empty row where the refused quote was for a new one. */
  lemma {:induction false} QuotesSetPrices(s: Store, quotes: seq<Quote>, n: nat, isin: string, i: nat)
    requires Coherent(s, CoerceFields) && TakenBefore(quotes, n)
    ensures var (now, ok) := Quoted(s, quotes);
            && ok == (n == |quotes|)
            && (LastQuote(quotes, n, isin, i) ==>
                  isin in now && now[isin] == At(s, isin, Fields(None, None, None)).(price := quotes[i].price))
            && (NoQuote(quotes, n, isin) ==>
                  && (isin in s ==> isin in now && now[isin] == s[isin])
                  && (isin !in s && isin in now ==>
                        !ok && quotes[n].isin == isin && now[isin] == Fields(None, None, None)))
    decreases |quotes|
  {
    if quotes != [] {
      var q, rest := quotes[0], quotes[1..];
      if Skipped(q) {
        assert TakenBefore(rest, n - 1);
        QuotesSetPrices(s, rest, n - 1, isin, if i > 0 then i - 1 else 0);
        QuotesShift(quotes, n, isin, i);
      } else if Refused(q) {
        assert n == 0;
        StageSetsFields(s, q.isin, Fields(q.price, None, None));
      } else {
        assert TakenBefore(rest, n - 1);
        QuoteOnce(s, q);
        var next := Staged(s, q.isin, Fields(q.price, None, None)).0;
        QuotesSetPrices(next, rest, n - 1, isin, if i > 0 then i - 1 else 0);
        QuotesShift(quotes, n, isin, i);
      }
    }
  }

  lemma {:induction false} QuotesShift(quotes: seq<Quote>, n: nat, isin: string, i: nat)
    requires 0 < n <= |quotes|
    ensures i > 0 && LastQuote(quotes, n, isin, i) ==> LastQuote(quotes[1..], n - 1, isin, i - 1)
    ensures LastQuote(quotes, n, isin, 0) ==> NoQuote(quotes[1..], n - 1, isin)
    ensures NoQuote(quotes, n, isin) ==> NoQuote(quotes[1..], n - 1, isin)
  {
    forall j | 0 <= j < |quotes[1..]| ensures quotes[1..][j] == quotes[j + 1] {
    }
  }

  // ------------------------------------------------------------------------- clearing

  /** Exactly the named fields are gone. */
  predicate FieldsGone(now: Fields, was: Fields, names: seq<string>) {
    && now.price == (if "price" in names then None else was.price)
    && now.countries == (if "countries" in names then None else was.countries)
    && now.sectors == (if "sectors" in names then None else was.sectors)
  }

  predicate FieldName(name: string) {
    name in {"price", "countries", "sectors"}
  }

  /** The names before the first unknown one. */
  predicate KnownBefore(names: seq<string>, n: nat) {
    && n <= |names| && (forall i :: 0 <= i < n ==> FieldName(names[i]))
    && (n < |names| ==> !FieldName(names[n]))
  }

  /** Clearing takes out the fields named before the first unknown name, and tells whether there was one. */
  lemma {:induction false} ClearTakesFields(f: Fields, names: seq<string>, n: nat)
    requires KnownBefore(names, n)
    ensures var c := ClearedRow(f, names);
            && FieldsGone(c.fields, f, names[..n])
            && c.raised == (n < |names|)
            && (c.changed <==> c.fields != f)
    decreases |names|
  {
    UnchangedRow(f, names);
    if n > 0 {
      var rest := names[1..];
      assert KnownBefore(rest, n - 1) by {
        assert forall i :: 0 <= i < |rest| ==> rest[i] == names[i + 1];
      }
      ClearTakesFields(Dropped(f, names[0]), rest, n - 1);
      assert names[..n] == [names[0]] + rest[..n - 1];
    } else if names != [] {
      assert !Known(names[0]) && names[..0] == [];
    }
  }

  // -------------------------------------------------------------------------- restoring

  predicate GoodRow(raw: Raw) {
    AcceptableFields(raw.fields)
  }

  predicate LastGood(rows: seq<Raw>, isin: string, i: nat) {
    && i < |rows| && rows[i].isin == isin && GoodRow(rows[i])
    && forall j :: i < j < |rows| && rows[j].isin == isin ==> !GoodRow(rows[j])
  }

  predicate NoGood(rows: seq<Raw>, isin: string) {
    forall j :: 0 <= j < |rows| && rows[j].isin == isin ==> !GoodRow(rows[j])
  }

  lemma {:induction false} GoodRowIff(raw: Raw)
    ensures GoodRow(raw) <==> CoerceFields(raw.fields).Some?
    ensures GoodRow(raw) ==> FieldsSet(CoerceFields(raw.fields).value, Fields(None, None, None), raw.fields)
  {
    AcceptableIff(raw.fields.countries);
    AcceptableIff(raw.fields.sectors);
  }

  /** After a restore every ISIN has its last good row, and stays as it was where there is none. */
  lemma {:induction false} RestoreSetsRows(s: Store, rows: seq<Raw>, isin: string, i: nat)
    ensures var now := Restored(s, rows);
            && (LastGood(rows, isin, i) ==>
                  isin in now && FieldsSet(now[isin], Fields(None, None, None), rows[i].fields))
            && (NoGood(rows, isin) ==> (isin in now <==> isin in s) && (isin in s ==> now[isin] == s[isin]))
    decreases |rows|
  {
    if rows != [] {
      var rest := rows[1..];
      assert forall j :: 0 <= j < |rest| ==> rest[j] == rows[j + 1];
      GoodRowIff(rows[0]);
      var c := CoerceFields(rows[0].fields);
      RestoreSetsRows(if c.Some? then s[rows[0].isin := c.value] else s, rest, isin, if i > 0 then i - 1 else 0);
      assert i > 0 && LastGood(rows, isin, i) ==> LastGood(rest, isin, i - 1);
      assert LastGood(rows, isin, 0) ==> NoGood(rest, isin);
      assert NoGood(rows, isin) ==> NoGood(rest, isin);
    }
  }

  // -------------------------------------------------------------------------- answers

  /** Quotes with an ISIN and a price are counted, the others are not. */
  lemma {:induction false} QuotesCounted(a: seq<Quote>, b: seq<Quote>, q: Quote)
    ensures CountOf([]) == 0 && CountOf([q]) == (if Skipped(q) then 0 else 1)
    ensures CountOf(a + b) == CountOf(a) + CountOf(b)
  {
    assert [q][1..] == [];
    if a == [] {
      assert a + b == b;
    } else {
      assert (a + b)[1..] == a[1..] + b;
      QuotesCounted(a[1..], b, q);
    }
  }

  /** Of restored rows the good ones are counted. */
  lemma {:induction false} RowsCounted(a: seq<Raw>, b: seq<Raw>, raw: Raw)
    ensures GoodRows([]) == 0 && GoodRows([raw]) == (if GoodRow(raw) then 1 else 0)
    ensures GoodRows(a + b) == GoodRows(a) + GoodRows(b)
  {
    assert [raw][1..] == [];
    GoodRowIff(raw);
    if a == [] {
      assert a + b == b;
    } else {
      assert (a + b)[1..] == a[1..] + b;
      RowsCounted(a[1..], b, raw);
    }
  }

  /** Clearing answers whether something changed, or raises at the first unknown name; the store has the row
      without the fields named before that, unless it raises on a copy. Without a row nothing happens. */
  lemma {:induction false} ClearAnswers(s: Store, isin: string, names: seq<string>, n: nat, aliasing: bool)
    requires KnownBefore(names, n)
    ensures isin !in s ==> Cleared(s, isin, names, aliasing) == (s, Unchanged)
    ensures isin in s ==>
              var (now, outcome) := Cleared(s, isin, names, aliasing);
              var row := ClearedRow(s[isin], names).fields;
              && FieldsGone(row, s[isin], names[..n])
              && (outcome == Raised <==> n < |names|)
              && (outcome == Changed <==> n == |names| && row != s[isin])
              && now == if n < |names| && !aliasing then s else s[isin := row]
  {
    if isin in s {
      ClearTakesFields(s[isin], names, n);
    }
  }
}
