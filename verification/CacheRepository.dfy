/** The cache repository, written once over either kind of storage (storage/repositories.py). */
module CacheRepositories {
  import opened Wrappers
  import opened OrderedDict
  import opened Backends
  import opened Runs
  import opened CacheRows
  import opened CacheLaws

  /** Clearing named fields of a row in place; stops at an unknown name. */
  method ClearFieldsOf(row: RowObject<Fields>, names: seq<string>) returns (changed: bool, raised: bool)
    modifies row
    ensures Clearing(row.data, changed, raised) == ClearedRow(old(row.data), names)
  {
    changed, raised := false, false;
    for i := 0 to |names|
      invariant ClearedRow(old(row.data), names)
                == var rest := ClearedRow(row.data, names[i..]); rest.(changed := rest.changed || changed)
    {
      assert names[i..][1..] == names[i + 1..];
      if !Known(names[i]) {
        raised := true;
        return;
      }
      if Present(row.data, names[i]) {
        row.data := Dropped(row.data, names[i]);
        changed := true;
      }
    }
  }

  /** Clearing a live row or a copy, and putting it back where it changed, is what the store sees. */
  lemma {:induction false} ClearedStore(before: Store, isin: string, names: seq<string>, aliasing: bool, after: Store,
                                        last: Store)
    requires isin in before
    requires var c := ClearedRow(before[isin], names);
             && after == (if aliasing then before[isin := c.fields] else before)
             && last == if c.changed && !c.raised then after[isin := c.fields] else after
    ensures last == Cleared(before, isin, names, aliasing).0
  {
    UnchangedRow(before[isin], names);
    assert before == before[isin := before[isin]];
  }

  class CacheRepository {
    const backend: Storage<Fields>

    constructor (aliasing: bool)
      ensures fresh(backend) && backend.aliasing == aliasing && Valid() && backend.Contents() == map[]
      ensures backend.objects == map[]
    {
      FieldsStable();
      backend := new Storage(aliasing, CoerceFields, NOTHING);
    }

    ghost predicate Valid()
      reads backend, backend.objects.Values
    {
      backend.Valid() && backend.coerce == CoerceFields && backend.empty == NOTHING
    }

    /** `stage` with at least one update flag set: the given fields over the stored ones. */
    method Stage(isin: string, price: Option<real>, countries: Option<SplitArg>, sectors: Option<SplitArg>)
      returns (ok: bool)
      requires Valid()
      modifies backend, backend.objects.Values
      ensures Valid() && fresh(backend.objects.Values - old(backend.objects.Values))
      ensures (backend.Contents(), Accepted(ok))
              == Apply(old(backend.Contents()),
                       StageOp(isin, Fields(price, ToFractions(countries), ToFractions(sectors))),
                       backend.aliasing)
      ensures SetsRow(backend.Contents(), ok, old(backend.Contents()), isin,
                      Fields(price, ToFractions(countries), ToFractions(sectors)))
    {
      StageSetsFields(backend.Contents(), isin, Fields(price, ToFractions(countries), ToFractions(sectors)));
      var partial := Fields(price, ToFractions(countries), ToFractions(sectors));
      var _, accepted := backend.Upsert(isin, f => Overlaid(f, partial));
      ok := accepted;
    }

    /** `stage_quotes`: stops at the first quote that is refused. */
    method StageQuotes(quotes: seq<Quote>) returns (count: nat, ok: bool)
      requires Valid()
      modifies backend, backend.objects.Values
      ensures Valid() && fresh(backend.objects.Values - old(backend.objects.Values))
      ensures (backend.Contents(), Accepted(ok)) == Apply(old(backend.Contents()), QuotesOp(quotes), backend.aliasing)
      ensures ok ==> count == CountOf(quotes)
    {
      count, ok := 0, true;
      for i := 0 to |quotes|
        invariant Valid() && fresh(backend.objects.Values - old(backend.objects.Values))
        invariant Quoted(old(backend.Contents()), quotes) == Quoted(backend.Contents(), quotes[i..])
        invariant count + CountOf(quotes[i..]) == CountOf(quotes)
      {
        assert quotes[i..][1..] == quotes[i + 1..];
        if Counts(quotes[i]) {
          ok := Stage(quotes[i].isin, quotes[i].price, None, None);
          if !ok {
            return;
          }
          count := count + 1;
        }
      }
    }

    /** Clearing a row that was handed out: a live one changes the store at once. */
    method ClearHandedOut(entry: RowObject<Fields>, names: seq<string>) returns (changed: bool, raised: bool)
      requires Valid() && entry.key in backend.Contents() && entry.data == backend.Contents()[entry.key]
      requires backend.aliasing ==> entry.key in backend.objects && entry == backend.objects[entry.key]
      modifies entry
      ensures Valid()
      ensures Clearing(entry.data, changed, raised) == ClearedRow(old(entry.data), names)
      ensures CoerceFields(entry.data) == Some(entry.data)
      ensures backend.Contents() == if backend.aliasing then old(backend.Contents())[entry.key := entry.data]
                                    else old(backend.Contents())
    {
      ghost var before := backend.Contents();
      changed, raised := ClearFieldsOf(entry, names);
      ClearedCoherent(before[entry.key], names);
      assert backend.Contents() == if backend.aliasing then before[entry.key := entry.data] else before;
    }

    /** `clear_fields`: the changed row is put back for storage that handed out a copy. */
    method ClearFields(isin: string, names: seq<string>) returns (outcome: Outcome)
      requires Valid()
      modifies backend, backend.objects.Values
      ensures Valid() && fresh(backend.objects.Values - old(backend.objects.Values))
      ensures (backend.Contents(), Clears(outcome))
              == Apply(old(backend.Contents()), ClearOp(isin, names), backend.aliasing)
    {
      ghost var before := backend.Contents();
      var entry := backend.Get(isin);
      if entry == null {
        return Unchanged;
      }
      var changed, raised := ClearHandedOut(entry, names);
      ghost var after := backend.Contents();
      outcome := PutCleared(entry, changed, raised);
      ClearedStore(before, isin, names, backend.aliasing, after, backend.Contents());
    }

    /** The row is put back when clearing changed it and met no unknown name. */
    method PutCleared(entry: RowObject<Fields>, changed: bool, raised: bool) returns (outcome: Outcome)
      requires Valid() && entry.key in backend.Contents() && CoerceFields(entry.data) == Some(entry.data)
      requires backend.aliasing ==> entry.key in backend.objects && entry == backend.objects[entry.key]
      modifies backend
      ensures Valid() && backend.objects.Values <= old(backend.objects.Values)
      ensures outcome == OutcomeOf(Clearing(entry.data, changed, raised))
      ensures backend.Contents() == if changed && !raised then old(backend.Contents())[entry.key := entry.data]
                                    else old(backend.Contents())
    {
      if raised {
        return Raised;
      }
      if changed {
        backend.PutBack(entry);
        return Changed;
      }
      return Unchanged;
    }

    /** `parsed` */
    method Parsed(isin: string) returns (f: Fields)
      requires Valid()
      ensures f == At(backend.Contents(), isin, NOTHING)
    {
      var entry := backend.Get(isin);
      f := if entry == null then NOTHING else entry.data;
    }

    /** A plain row is validated into a new object, which is put. */
    method PutPlain(raw: Raw) returns (good: bool)
      requires Valid()
      modifies backend
      ensures Valid() && fresh(backend.objects.Values - old(backend.objects.Values))
      ensures good == CoerceFields(raw.fields).Some?
      ensures backend.Contents() == if good then old(backend.Contents())[raw.isin := CoerceFields(raw.fields).value]
                                    else old(backend.Contents())
    {
      var checked := CoerceFields(raw.fields);
      good := checked.Some?;
      if good {
        FieldsStable();
        var entry := new RowObject(raw.isin, checked.value);
        backend.Put(entry);
      }
    }

    /** `restore`: every good row is validated into a new object and put. */
    method Restore(rows: seq<Raw>) returns (count: nat)
      requires Valid()
      modifies backend, backend.objects.Values
      ensures Valid() && fresh(backend.objects.Values - old(backend.objects.Values))
      ensures (backend.Contents(), Count(count)) == Apply(old(backend.Contents()), RestoreOp(rows), backend.aliasing)
    {
      count := 0;
      for i := 0 to |rows|
        invariant Valid() && fresh(backend.objects.Values - old(backend.objects.Values))
        invariant Restored(old(backend.Contents()), rows) == Restored(backend.Contents(), rows[i..])
        invariant count + GoodRows(rows[i..]) == GoodRows(rows)
      {
        assert rows[i..][1..] == rows[i + 1..];
        var good := PutPlain(rows[i]);
        if good {
          count := count + 1;
        }
      }
    }

    /** One operation of a run. */
    method Perform(op: Op) returns (a: Answer)
      requires Valid()
      modifies backend, backend.objects.Values
      ensures Valid() && fresh(backend.objects.Values - old(backend.objects.Values))
      ensures (backend.Contents(), a) == Apply(old(backend.Contents()), op, backend.aliasing)
    {
      match op
      case StageOp(isin, partial) =>
        var ok := Stage(isin, partial.price, FractionsArg(partial.countries), FractionsArg(partial.sectors));
        a := Accepted(ok);
      case QuotesOp(quotes) =>
        var _, ok := StageQuotes(quotes);
        a := Accepted(ok);
      case ClearOp(isin, names) =>
        var outcome := ClearFields(isin, names);
        a := Clears(outcome);
      case RestoreOp(rows) =>
        var count := Restore(rows);
        a := Count(count);
    }

    /** One operation, its answer and the store after it. */
    method See(op: Op) returns (seen: (Store, Answer))
      requires Valid()
      modifies backend, backend.objects.Values
      ensures Valid() && fresh(backend.objects.Values - old(backend.objects.Values))
      ensures seen == Apply(old(backend.Contents()), op, backend.aliasing) && seen.0 == backend.Contents()
    {
      var a := Perform(op);
      var plain := backend.Snapshot();
      seen := (plain, a);
    }

    /** A run of operations on live rows or on copies, and what its caller sees after each of them. */
    method RunOps(ops: seq<Op>) returns (trace: seq<(Store, Answer)>)
      requires Valid()
      modifies backend, backend.objects.Values
      ensures Valid() && fresh(backend.objects.Values - old(backend.objects.Values))
      ensures trace == Observed(old(backend.Contents()), ops, ApplyOn(backend.aliasing))
    {
      trace := [];
      for i := 0 to |ops|
        invariant Valid() && fresh(backend.objects.Values - old(backend.objects.Values))
        invariant Observed(old(backend.Contents()), ops, ApplyOn(backend.aliasing))
                  == trace + Observed(backend.Contents(), ops[i..], ApplyOn(backend.aliasing))
      {
        ghost var before := backend.Contents();
        var seen := See(ops[i]);
        NextSeen(before, ops, ApplyOn(backend.aliasing), i, trace);
        trace := trace + [seen];
      }
    }
  }

  function FractionsArg(d: Option<Dict>): (a: Option<SplitArg>)
    ensures ToFractions(a) == d
  {
    if d.Some? then Some(Fractions(d.value)) else None
  }

  /** The same calls on a memory and on a database repository, both empty: their callers see the same
      exactly when no clearing is torn. */
  method RunOnBoth(ops: seq<Op>) returns (live: seq<(Store, Answer)>, copied: seq<(Store, Answer)>)
    ensures live == copied <==> !RunTorn(map[], ops)
    ensures |live| == |copied| == |ops|
  {
    var memory := new CacheRepository(true);
    var database := new CacheRepository(false);
    live := memory.RunOps(ops);
    copied := database.RunOps(ops);
    BackendsAgreeIff(map[], ops);
    ObservedLength(map[], ops, ApplyOn(true));
    ObservedLength(map[], ops, ApplyOn(false));
  }
}
