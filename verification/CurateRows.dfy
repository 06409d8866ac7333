/** What curating one ISIN does to its cache row (cli/curate.py, utils.py). */
module CurateRows {
  import opened Wrappers
  import opened OrderedDict
  import opened Backends
  import opened CacheRows
  import opened Splits

  /** What the source says about one ISIN. */
  datatype Found = Found(countries: seq<Entry>, sectors: seq<Entry>)

  predicate Nothing(f: Found) {
    f.countries == [] && f.sectors == []
  }

  /** `countries if countries else None` as a cache field. */
  function Field(rows: seq<Entry>): Option<Dict> {
    if rows == [] then None else Some(RowsToFractions(rows))
  }

  function Countries(rows: seq<Entry>): Fields {
    Fields(None, Field(rows), None)
  }

  function SectorsOnly(rows: seq<Entry>): Fields {
    Fields(None, None, Field(rows))
  }

  function Both(f: Found): Fields {
    Fields(None, Field(f.countries), Field(f.sectors))
  }

  function Stage(s: Store, isin: string, p: Fields): Store {
    Staged(s, isin, p).0
  }

  predicate Accepts(s: Store, isin: string, p: Fields) {
    Staged(s, isin, p).1
  }

  function StageCountries(s: Store, isin: string, rows: seq<Entry>): Store {
    if rows != [] then Stage(s, isin, Countries(rows)) else s
  }

  function StageSectors(s: Store, isin: string, rows: seq<Entry>): Store {
    if rows != [] then Stage(s, isin, SectorsOnly(rows)) else s
  }

  /** Each split saved on its own. */
  function Separately(s: Store, isin: string, f: Found): Store {
    StageSectors(StageCountries(s, isin, f.countries), isin, f.sectors)
  }

  /** `_save_curated_splits`: both splits at once, and one by one when that is refused. */
  function Curated(s: Store, isin: string, f: Found): Store {
    if Nothing(f) then s
    else if Accepts(s, isin, Both(f)) then Stage(s, isin, Both(f))
    else Separately(Stage(s, isin, Both(f)), isin, f)
  }

  // --------------------------------------------------------------------------- target

  /** A field after an attempt to store rows in it: unchanged when there are none or they are refused. */
  function FieldAfter(stored: Option<Dict>, rows: seq<Entry>): Option<Dict> {
    if rows == [] || Coerced(RowsToFractions(rows)).None? then stored else Coerced(RowsToFractions(rows))
  }

  /** The row that curation aims at. */
  function Aim(base: Fields, f: Found): Fields {
    Fields(base.price, FieldAfter(base.countries, f.countries), FieldAfter(base.sectors, f.sectors))
  }

  predicate FieldAccepted(field: Option<Dict>) {
    field.Some? ==> Coerced(field.value).Some?
  }

  function FieldStored(stored: Option<Dict>, field: Option<Dict>): Option<Dict> {
    if field.Some? then Coerced(field.value) else stored
  }

  lemma {:induction false} StagedFields(s: Store, isin: string, p: Fields)
    requires Coherent(s, CoerceFields) && p.price == None
    ensures Accepts(s, isin, p) == (FieldAccepted(p.countries) && FieldAccepted(p.sectors))
    ensures Stage(s, isin, p) == s[isin := var base := At(s, isin, NOTHING);
              if !Accepts(s, isin, p) then base
              else Fields(base.price, FieldStored(base.countries, p.countries), FieldStored(base.sectors, p.sectors))]
    ensures Coherent(Stage(s, isin, p), CoerceFields)
  {
    var base, over := At(s, isin, NOTHING), Overlaid(At(s, isin, NOTHING), p);
    FieldsStable();
    assert CoerceFields(base) == Some(base);
    assert CoerceSplitField(base.countries) == Some(base.countries)
           && CoerceSplitField(base.sectors) == Some(base.sectors);
    assert CoercePrice(over.price) == Some(base.price);
  }

  lemma {:induction false} CountriesStaged(s: Store, isin: string, rows: seq<Entry>)
    requires Coherent(s, CoerceFields) && rows != []
    ensures var base := At(s, isin, NOTHING);
            StageCountries(s, isin, rows) == s[isin := base.(countries := FieldAfter(base.countries, rows))]
    ensures Coherent(StageCountries(s, isin, rows), CoerceFields)
  {
    StagedFields(s, isin, Countries(rows));
  }

  lemma {:induction false} SectorsStaged(s: Store, isin: string, rows: seq<Entry>)
    requires Coherent(s, CoerceFields) && rows != []
    ensures var base := At(s, isin, NOTHING);
            StageSectors(s, isin, rows) == s[isin := base.(sectors := FieldAfter(base.sectors, rows))]
    ensures Coherent(StageSectors(s, isin, rows), CoerceFields)
  {
    StagedFields(s, isin, SectorsOnly(rows));
  }

  lemma {:induction false} SeparatelyAims(s: Store, isin: string, f: Found)
    requires Coherent(s, CoerceFields) && !Nothing(f)
    ensures Separately(s, isin, f) == s[isin := Aim(At(s, isin, NOTHING), f)]
    ensures Coherent(Separately(s, isin, f), CoerceFields)
  {
    if f.countries != [] {
      CountriesStaged(s, isin, f.countries);
    }
    if f.sectors != [] {
      SectorsStaged(StageCountries(s, isin, f.countries), isin, f.sectors);
    }
  }

  lemma {:induction false} JointAims(s: Store, isin: string, f: Found)
    requires Coherent(s, CoerceFields) && !Nothing(f)
    ensures Stage(s, isin, Both(f))
            == s[isin := if Accepts(s, isin, Both(f)) then Aim(At(s, isin, NOTHING), f) else At(s, isin, NOTHING)]
    ensures Coherent(Stage(s, isin, Both(f)), CoerceFields)
  {
    StagedFields(s, isin, Both(f));
  }

  lemma {:induction false} RetryAims(s: Store, isin: string, f: Found)
    requires Coherent(s, CoerceFields) && !Nothing(f) && !Accepts(s, isin, Both(f))
    ensures Separately(Stage(s, isin, Both(f)), isin, f) == s[isin := Aim(At(s, isin, NOTHING), f)]
    ensures Coherent(Separately(Stage(s, isin, Both(f)), isin, f), CoerceFields)
  {
    JointAims(s, isin, f);
    SeparatelyAims(Stage(s, isin, Both(f)), isin, f);
  }

  /** Saving both splits at once, and falling back, is saving each on its own; a refused split
      leaves its field as it was, and a new ISIN gets an empty row at least. */
  lemma {:induction false} CuratedAims(s: Store, isin: string, f: Found)
    requires Coherent(s, CoerceFields) && !Nothing(f)
    ensures Curated(s, isin, f) == Separately(s, isin, f) == s[isin := Aim(At(s, isin, NOTHING), f)]
    ensures Coherent(Curated(s, isin, f), CoerceFields)
  {
    SeparatelyAims(s, isin, f);
    if Accepts(s, isin, Both(f)) {
      JointAims(s, isin, f);
    } else {
      RetryAims(s, isin, f);
    }
  }

  // --------------------------------------------------------------------- interruptions

  function RowOf(s: Store, isin: string): Option<Fields> {
    if isin in s then Some(s[isin]) else None
  }

  /** Where curating with a lookup takes a row; a lookup that raises, or is empty, takes it nowhere. */
  function Target(row: Option<Fields>, f: Option<Found>): Option<Fields> {
    if f.None? || Nothing(f.value) then row
    else Some(Aim(if row.Some? then row.value else NOTHING, f.value))
  }

  /** What a save can leave behind when it is cut short: nothing yet, an empty new row, or all of it. */
  predicate CutShort(s: Store, t: Store, isin: string, p: Fields) {
    t == s || t == s[isin := At(s, isin, NOTHING)] || t == Stage(s, isin, p)
  }

  /** The parts of a lookup that one call saves. */
  predicate PartOf(p: Fields, f: Found) {
    p == Both(f) || p == Countries(f.countries) || p == SectorsOnly(f.sectors)
  }

  lemma {:induction false} CutShortAims(s: Store, t: Store, isin: string, f: Found, p: Fields)
    requires Coherent(s, CoerceFields) && PartOf(p, f) && !Nothing(f)
    requires CutShort(s, t, isin, p)
    ensures Coherent(t, CoerceFields)
    ensures Target(RowOf(t, isin), Some(f)) == Target(RowOf(s, isin), Some(f))
    ensures forall k :: k != isin ==> RowOf(t, k) == RowOf(s, k)
  {
    FieldsStable();
    StagedFields(s, isin, p);
  }

  /** Curating again what has been curated changes nothing. */
  lemma {:induction false} TargetIsStable(row: Option<Fields>, f: Option<Found>)
    ensures Target(Target(row, f), f) == Target(row, f)
  {
  }

  /** The split's rows as the cache stores them, or the field as it was, where there are none or one of them is
      implausible. */
  predicate SplitSaved(now: Option<Dict>, was: Option<Dict>, rows: seq<Entry>) {
    if rows != [] && forall i :: 0 <= i < |RowsToFractions(rows)| ==> -0.05 <= RowsToFractions(rows)[i].val <= 1.05
    then now == Coerced(RowsToFractions(rows)) && now.Some?
    else now == was
  }

  /** Where a lookup takes a row: nowhere when it raises or finds nothing; otherwise the price stays and each split
      is saved on its own. */
  lemma {:induction false} TargetSavesSplits(row: Option<Fields>, f: Option<Found>)
    ensures f == None ==> Target(row, f) == row
    ensures f.Some? && f.value.countries == [] && f.value.sectors == [] ==> Target(row, f) == row
    ensures f.Some? && !(f.value.countries == [] && f.value.sectors == []) ==>
              var was := if row.Some? then row.value else Fields(None, None, None);
              && Target(row, f).Some? && Target(row, f).value.price == was.price
              && SplitSaved(Target(row, f).value.countries, was.countries, f.value.countries)
              && SplitSaved(Target(row, f).value.sectors, was.sectors, f.value.sectors)
  {
  }
}
