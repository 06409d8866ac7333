/** What the cache repository's operations do to the stored rows (storage/repositories.py). */
module CacheRows {
  import opened Wrappers
  import opened OrderedDict
  import opened Backends
  import opened Runs
  import opened Splits

  /** A cache row; a missing field and a null one are the same. */
  datatype Fields = Fields(price: Option<real>, countries: Option<Dict>, sectors: Option<Dict>)

  type Store = map<string, Fields>

  const NOTHING := Fields(None, None, None)

  /** A split as position rows or as fractions. */
  datatype SplitArg = Rows(rows: seq<Entry>) | Fractions(fractions: Dict)

  function ToFractions(a: Option<SplitArg>): Option<Dict> {
    match a
    case None => None
    case Some(Rows(rows)) => Some(RowsToFractions(rows))
    case Some(Fractions(d)) => Some(d)
  }

  // ---------------------------------------------------------------------- validation

  function CoercePrice(p: Option<real>): Option<Option<real>> {
    if p.Some? && p.value < 0.0 then None else Some(p)
  }

  function CoerceSplitField(d: Option<Dict>): Option<Option<Dict>> {
    if d.None? then Some(None)
    else if Coerced(d.value).None? then None
    else Some(Coerced(d.value))
  }

  /** `CacheEntry._coerce`; `None` where it raises. */
  function CoerceFields(f: Fields): Option<Fields> {
    var p, c, s := CoercePrice(f.price), CoerceSplitField(f.countries), CoerceSplitField(f.sectors);
    if p.Some? && c.Some? && s.Some? then Some(Fields(p.value, c.value, s.value)) else None
  }

  lemma {:induction false} SplitFieldStable(d: Option<Dict>)
    requires CoerceSplitField(d).Some?
    ensures CoerceSplitField(CoerceSplitField(d).value) == CoerceSplitField(d)
  {
    if d.Some? {
      CoercedIsStable(d.value);
    }
  }

  lemma {:induction false} FieldsStable()
    ensures Stable(CoerceFields) && CoerceFields(NOTHING) == Some(NOTHING)
  {
    forall f | CoerceFields(f).Some? ensures CoerceFields(CoerceFields(f).value) == CoerceFields(f) {
      SplitFieldStable(f.countries);
      SplitFieldStable(f.sectors);
    }
  }

  // ------------------------------------------------------------------------- updates

  /** `data.update(partial)` */
  function Overlaid(f: Fields, partial: Fields): Fields {
    Fields(if partial.price.Some? then partial.price else f.price,
           if partial.countries.Some? then partial.countries else f.countries,
           if partial.sectors.Some? then partial.sectors else f.sectors)
  }

  /** A store after a partial update, and whether it was accepted. */
  function Staged(s: Store, isin: string, partial: Fields): (r: (Store, bool)) {
    (Upserted(s, isin, f => Overlaid(f, partial), CoerceFields, NOTHING),
     CoerceFields(Overlaid(At(s, isin, NOTHING), partial)).Some?)
  }

  datatype Quote = Quote(isin: string, price: Option<real>)

  predicate Counts(q: Quote) {
    q.isin != "" && q.price.Some?
  }

  /** The quotes in order, up to the first one that is refused. */
  function Quoted(s: Store, quotes: seq<Quote>): (r: (Store, bool))
    decreases |quotes|
  {
    if quotes == [] then (s, true)
    else if !Counts(quotes[0]) then Quoted(s, quotes[1..])
    else
      var (s', ok) := Staged(s, quotes[0].isin, Fields(quotes[0].price, None, None));
      if ok then Quoted(s', quotes[1..]) else (s', false)
  }

  function CountOf(quotes: seq<Quote>): nat {
    if quotes == [] then 0 else (if Counts(quotes[0]) then 1 else 0) + CountOf(quotes[1..])
  }

  /** Clearing fields in order; the last component says whether an unknown name was met. */
  datatype Clearing = Clearing(fields: Fields, changed: bool, raised: bool)

  predicate Known(name: string) {
    name == "price" || name == "countries" || name == "sectors"
  }

  predicate Present(f: Fields, name: string) {
    || (name == "price" && f.price.Some?)
    || (name == "countries" && f.countries.Some?)
    || (name == "sectors" && f.sectors.Some?)
  }

  function Dropped(f: Fields, name: string): Fields {
    if name == "price" then f.(price := None)
    else if name == "countries" then f.(countries := None)
    else if name == "sectors" then f.(sectors := None)
    else f
  }

  function ClearedRow(f: Fields, names: seq<string>): Clearing
    decreases |names|
  {
    if names == [] then Clearing(f, false, false)
    else if !Known(names[0]) then Clearing(f, false, true)
    else
      var rest := ClearedRow(Dropped(f, names[0]), names[1..]);
      rest.(changed := rest.changed || Present(f, names[0]))
  }

  datatype Outcome = Changed | Unchanged | Raised

  function OutcomeOf(c: Clearing): Outcome {
    if c.raised then Raised else if c.changed then Changed else Unchanged
  }

  /** A copy is only written back when clearing ends well; a live row is cleared as it goes. */
  function Cleared(s: Store, isin: string, names: seq<string>, aliasing: bool): (r: (Store, Outcome)) {
    if isin !in s then (s, Unchanged)
    else
      var c := ClearedRow(s[isin], names);
      (if c.raised && !aliasing then s else s[isin := c.fields], OutcomeOf(c))
  }

  /** An unknown name after a field that was there. */
  predicate Torn(s: Store, isin: string, names: seq<string>) {
    isin in s && ClearedRow(s[isin], names).raised && ClearedRow(s[isin], names).changed
  }

  lemma {:induction false} UnchangedRow(f: Fields, names: seq<string>)
    ensures !ClearedRow(f, names).changed <==> ClearedRow(f, names).fields == f
    ensures forall n :: Present(ClearedRow(f, names).fields, n) ==> Present(f, n)
    decreases |names|
  {
    if names != [] && Known(names[0]) {
      UnchangedRow(Dropped(f, names[0]), names[1..]);
      assert !Present(Dropped(f, names[0]), names[0]);
    }
  }

  /** Clearing leaves both kinds of store alike exactly when it is not torn. */
  lemma {:induction false} ClearAgreesIff(s: Store, isin: string, names: seq<string>)
    ensures Cleared(s, isin, names, true) == Cleared(s, isin, names, false) <==> !Torn(s, isin, names)
  {
    if isin in s {
      UnchangedRow(s[isin], names);
      var live := s[isin := ClearedRow(s[isin], names).fields];
      assert live == s <==> live[isin] == s[isin];
    }
  }

  lemma {:induction false} ClearedCoherent(f: Fields, names: seq<string>)
    requires CoerceFields(f) == Some(f)
    ensures CoerceFields(ClearedRow(f, names).fields) == Some(ClearedRow(f, names).fields)
    decreases |names|
  {
    if names != [] && Known(names[0]) {
      ClearedCoherent(Dropped(f, names[0]), names[1..]);
    }
  }

  datatype Raw = Raw(isin: string, fields: Fields)

  /** Plain rows put one by one; bad ones are skipped. */
  function Restored(s: Store, rows: seq<Raw>): Store
    decreases |rows|
  {
    if rows == [] then s
    else
      var c := CoerceFields(rows[0].fields);
      Restored(if c.Some? then s[rows[0].isin := c.value] else s, rows[1..])
  }

  function GoodRows(rows: seq<Raw>): nat {
    if rows == [] then 0 else (if CoerceFields(rows[0].fields).Some? then 1 else 0) + GoodRows(rows[1..])
  }

  // ---------------------------------------------------------------------------- runs

  datatype Op =
    | StageOp(isin: string, partial: Fields)
    | QuotesOp(quotes: seq<Quote>)
    | ClearOp(isin: string, names: seq<string>)
    | RestoreOp(rows: seq<Raw>)

  datatype Answer = Accepted(ok: bool) | Clears(outcome: Outcome) | Count(n: nat)

  function Apply(s: Store, op: Op, aliasing: bool): (r: (Store, Answer)) {
    match op
    case StageOp(isin, partial) => var (s', ok) := Staged(s, isin, partial); (s', Accepted(ok))
    case QuotesOp(quotes) => var (s', ok) := Quoted(s, quotes); (s', Accepted(ok))
    case ClearOp(isin, names) => var (s', o) := Cleared(s, isin, names, aliasing); (s', Clears(o))
    case RestoreOp(rows) => (Restored(s, rows), Count(GoodRows(rows)))
  }

  /** The operations on live rows, or on copies. */
  function ApplyOn(aliasing: bool): (Store, Op) -> (Store, Answer) {
    (s, op) => Apply(s, op, aliasing)
  }

  /** Whether a run on copies meets a torn clearing. */
  predicate RunTorn(s: Store, ops: seq<Op>)
    decreases |ops|
  {
    ops != []
    && ((ops[0].ClearOp? && Torn(s, ops[0].isin, ops[0].names)) || RunTorn(Apply(s, ops[0], false).0, ops[1..]))
  }

  /** A run is observed alike on live rows and on copies exactly when no clearing in it is torn. */
  lemma {:induction false} BackendsAgreeIff(s: Store, ops: seq<Op>)
    ensures Observed(s, ops, ApplyOn(true)) == Observed(s, ops, ApplyOn(false)) <==> !RunTorn(s, ops)
    decreases |ops|
  {
    if ops != [] {
      var live, copied := Apply(s, ops[0], true), Apply(s, ops[0], false);
      if ops[0].ClearOp? {
        ClearAgreesIff(s, ops[0].isin, ops[0].names);
      }
      assert Observed(s, ops, ApplyOn(true))[0] == live && Observed(s, ops, ApplyOn(false))[0] == copied;
      if live == copied {
        BackendsAgreeIff(live.0, ops[1..]);
        assert Observed(s, ops, ApplyOn(true))[1..] == Observed(live.0, ops[1..], ApplyOn(true));
        assert Observed(s, ops, ApplyOn(false))[1..] == Observed(copied.0, ops[1..], ApplyOn(false));
      }
    }
  }
}
