/** The resumable curation run (cli/curate.py, with the cache staging of utils.py and cli/context.py). */
module Curate {
  import opened Wrappers
  import opened Backends
  import opened CacheRows
  import opened CurateRows

  /** What happens at a point where the process can be stopped: nothing, a keyboard interrupt, or the
      end of the process. */
  datatype Fate = Go | Interrupt | Kill

  /** `Killed` is every end without the run's own handling: a kill, but also an interrupt before the loop
      is entered or while another one is being handled. */
  datatype Exit = Done | Incomplete | Interrupted | Killed | Refused

  /** The durable progress record; a file that has been created but not written yet is none. */
  datatype RunFile = RunFile(examined: set<string>, failed: set<string>, lastIsin: Option<string>)

  /** What one lookup amounts to. */
  datatype Step = Saved | Failed | Stopped(fate: Fate)

  type Fetch = string -> Option<Found>

  // -------------------------------------------------------------------- specification

  function Elements(s: seq<string>): set<string> {
    set i | 0 <= i < |s| :: s[i]
  }

  /** The rows still to be curated lead where they always led, the rest is as at the start. */
  ghost predicate Toward(start: Store, now: Store, selected: set<string>, fetch: Fetch) {
    && Coherent(now, CoerceFields)
    && (forall k: string :: k !in selected ==> RowOf(now, k) == RowOf(start, k))
    && (forall k: string :: k in selected ==> Target(RowOf(now, k), fetch(k)) == Target(RowOf(start, k), fetch(k)))
  }

  ghost predicate Reached(start: Store, now: Store, k: string, fetch: Fetch) {
    RowOf(now, k) == Target(RowOf(start, k), fetch(k))
  }

  /** Whatever is listed as examined was looked up, and its splits are in the store. */
  ghost predicate Examined(start: Store, now: Store, examined: set<string>, fetch: Fetch) {
    forall k: string :: k in examined ==> fetch(k).Some? && Reached(start, now, k, fetch)
  }

  ghost predicate Progress(start: Store, now: Store, examined: set<string>, failed: set<string>, selected: set<string>,
                           fetch: Fetch) {
    && Toward(start, now, selected, fetch)
    && Examined(start, now, examined, fetch)
    && examined !! failed && examined <= selected && failed <= selected
  }

  /** Every selected row is where curation takes it, every other row where it was. */
  ghost predicate Complete(start: Store, now: Store, selected: set<string>, fetch: Fetch) {
    forall k: string :: RowOf(now, k) == if k in selected then Target(RowOf(start, k), fetch(k)) else RowOf(start, k)
  }

  /** Two completed histories from the same cache end in the same cache. */
  lemma {:induction false} CompletedHistoriesAgree(start: Store, a: Store, b: Store, selected: set<string>,
                                                   fetch: Fetch)
    requires Complete(start, a, selected, fetch) && Complete(start, b, selected, fetch)
    ensures a == b
  {
    forall k: string ensures (k in a <==> k in b) && (k in a ==> a[k] == b[k]) {
      assert RowOf(a, k) == RowOf(b, k);
    }
  }

  // ---------------------------------------------------------------------- the mirror

  /** `restore` of plain rows: each one is validated and put. */
  function Pushed(s: Store, plain: Store): Store {
    s + map k | k in plain && CoerceFields(plain[k]).Some? :: CoerceFields(plain[k]).value
  }

  ghost predicate Mirrors(plain: Store, s: Store) {
    forall k :: k in plain ==> k in s && plain[k] == s[k]
  }

  /** Pushing the in-memory copy back is a no-op as long as it mirrors the store. */
  lemma {:induction false} PushIsNoOp(s: Store, plain: Store)
    requires Coherent(s, CoerceFields) && Mirrors(plain, s)
    ensures Pushed(s, plain) == s
  {
  }

  // ------------------------------------------------------------------------- one ISIN

  class Curator {
    var store: Store
    var mirror: Store
    var loaded: bool
    var runFile: Option<RunFile>
    var fates: seq<Fate>

    ghost predicate Valid()
      reads this
    {
      Coherent(store, CoerceFields) && (loaded ==> Mirrors(mirror, store))
    }

    constructor (store: Store)
      requires Coherent(store, CoerceFields)
      ensures Valid() && this.store == store && runFile == None && fates == []
    {
      this.store, mirror, loaded, runFile, fates := store, map[], false, None, [];
    }

    method Next() returns (fate: Fate)
      modifies `fates
      ensures old(fates) == [] ==> fate == Go && fates == []
    {
      fate := Go;
      if fates != [] {
        fate, fates := fates[0], fates[1..];
      }
    }

    /** `ensure_cache_loaded` */
    method EnsureCacheLoaded()
      requires Valid()
      modifies `store, `mirror, `loaded
      ensures Valid() && loaded && store == old(store)
    {
      if loaded {
        PushIsNoOp(store, mirror);
        store := Pushed(store, mirror);
      } else {
        mirror, loaded := store, true;
      }
    }

    /** The get-or-create half of an upsert, durable by itself. */
    method CreateRow(isin: string)
      requires Valid()
      modifies `store
      ensures Valid() && store == old(store)[isin := At(old(store), isin, NOTHING)]
    {
      FieldsStable();
      if isin !in store {
        store := store[isin := NOTHING];
      }
      assert store == old(store)[isin := At(old(store), isin, NOTHING)];
    }

    /** `save_position_in_cache`: a refused update raises after the row has been created. */
    method SavePosition(isin: string, p: Fields) returns (ok: bool, fate: Fate)
      requires Valid() && p.price == None
      modifies `store, `mirror, `loaded, `fates
      ensures Valid() && CutShort(old(store), store, isin, p)
      ensures fate == Go ==> store == Stage(old(store), isin, p) && ok == Accepts(old(store), isin, p)
      ensures old(fates) == [] ==> fate == Go && fates == []
    {
      EnsureCacheLoaded();
      ok := false;
      StagedFields(store, isin, p);
      fate := Next();
      if fate != Go {
        return;
      }
      CreateRow(isin);
      fate := Next();
      if fate != Go {
        return;
      }
      var merged := CoerceFields(Overlaid(store[isin], p));
      ok := merged.Some?;
      if ok {
        mirror, store := mirror[isin := merged.value], store[isin := merged.value];
      }
      assert store == Stage(old(store), isin, p);
    }

    /** `_save_curated_splits` */
    method SaveCurated(isin: string, f: Found) returns (fate: Fate)
      requires Valid()
      modifies `store, `mirror, `loaded, `fates
      ensures Valid()
      ensures fate == Go ==> store == Curated(old(store), isin, f)
      ensures Target(RowOf(store, isin), Some(f)) == Target(RowOf(old(store), isin), Some(f))
      ensures forall k :: k != isin ==> RowOf(store, k) == RowOf(old(store), k)
      ensures old(fates) == [] ==> fate == Go && fates == []
    {
      if Nothing(f) {
        return Go;
      }
      var ok;
      ok, fate := SavePosition(isin, Both(f));
      CutShortAims(old(store), store, isin, f, Both(f));
      if ok || fate != Go {
        return;
      }
      if f.countries != [] {
        ghost var before := store;
        ok, fate := SavePosition(isin, Countries(f.countries));
        CutShortAims(before, store, isin, f, Countries(f.countries));
        if fate != Go {
          return;
        }
      }
      if f.sectors != [] {
        ghost var before := store;
        ok, fate := SavePosition(isin, SectorsOnly(f.sectors));
        CutShortAims(before, store, isin, f, SectorsOnly(f.sectors));
      }
    }

    /** One round of the loop, up to its bookkeeping. */
    method CurateOne(isin: string, fetch: Fetch) returns (step: Step)
      requires Valid()
      modifies `store, `mirror, `loaded, `fates
      ensures Valid()
      ensures Target(RowOf(store, isin), fetch(isin)) == Target(RowOf(old(store), isin), fetch(isin))
      ensures forall k :: k != isin ==> RowOf(store, k) == RowOf(old(store), k)
      ensures step == Saved ==> fetch(isin).Some? && RowOf(store, isin) == Target(RowOf(old(store), isin), fetch(isin))
      ensures step == Failed ==> fetch(isin) == None
      ensures step.Stopped? ==> step.fate != Go && old(fates) != []
      ensures old(fates) == [] ==> fates == []
    {
      var fate := Next();
      if fate != Go {
        return Stopped(fate);
      }
      var found := fetch(isin);
      if found.None? {
        return Failed;
      }
      ghost var before := store;
      fate := SaveCurated(isin, found.value);
      if fate != Go {
        return Stopped(fate);
      }
      if !Nothing(found.value) {
        CuratedAims(before, isin, found.value);
      }
      return Saved;
    }

    method WriteRunFile(examined: set<string>, failed: set<string>, lastIsin: Option<string>)
      modifies `runFile
      ensures runFile == Some(RunFile(examined, failed, lastIsin))
    {
      runFile := Some(RunFile(examined, failed, lastIsin));
    }

    /** The run file lists exactly these ISINs. */
    ghost predicate Lists(examined: set<string>, failed: set<string>)
      reads this
    {
      runFile.Some? && runFile.value.examined == examined && runFile.value.failed == failed
    }

    /** What the run file says, if there is one, keeps to what the store holds. */
    ghost predicate Chain(start: Store, selected: set<string>, fetch: Fetch)
      reads this
    {
      && Valid() && Toward(start, store, selected, fetch)
      && (runFile.Some? ==> Progress(start, store, runFile.value.examined, runFile.value.failed, selected, fetch))
    }

    /** Stopping inside the loop: an interrupt is handled by writing the run file, unless that is stopped too. */
    method StopRun(fate: Fate, examined: set<string>, failed: set<string>, lastIsin: Option<string>)
      returns (exit: Exit)
      requires fate != Go
      modifies `runFile, `fates
      ensures exit == Interrupted || exit == Killed
      ensures exit == Interrupted ==> runFile == Some(RunFile(examined, failed, lastIsin))
      ensures exit == Killed ==> runFile == old(runFile)
      ensures old(fates) == [] ==> fates == []
    {
      if fate == Interrupt {
        var again := Next();
        if again == Go {
          WriteRunFile(examined, failed, lastIsin);
          return Interrupted;
        }
      }
      return Killed;
    }

    /** One round of the loop with its bookkeeping; `Some` when it ends the run. */
    method Round(isin: string, examined: set<string>, failed: set<string>, lastIsin: Option<string>,
                 fetch: Fetch, ghost start: Store, ghost all: set<string>)
      returns (exit: Option<Exit>, examined': set<string>, failed': set<string>)
      requires Chain(start, all, fetch) && Progress(start, store, examined, failed, all, fetch)
      requires runFile.Some? && runFile.value.examined <= examined && isin in all && isin !in examined
      modifies this
      ensures Chain(start, all, fetch) && Progress(start, store, examined', failed', all, fetch)
      ensures runFile.Some? && runFile.value.examined <= examined'
      ensures exit.None? ==> if fetch(isin).Some? then examined' == examined + {isin} && failed' == failed - {isin}
                             else examined' == examined && failed' == failed + {isin}
      ensures exit != Some(Killed) ==> Lists(examined', failed')
      ensures examined <= examined' && old(runFile).value.examined <= runFile.value.examined
      ensures exit.Some? ==> exit.value in {Interrupted, Killed} && old(fates) != []
      ensures old(fates) == [] ==> fates == []
    {
      exit, examined', failed' := None, examined, failed;
      ghost var before := store;
      var step := CurateOne(isin, fetch);
      RoundKeepsProgress(start, before, store, isin, examined, failed, all, fetch);
      RoundKeepsProgress(start, before, store, isin, runFile.value.examined, runFile.value.failed, all, fetch);
      var fate := if step.Stopped? then step.fate else Go;
      if step == Saved {
        fate := Next();
      }
      if fate != Go {
        var stopped := StopRun(fate, examined, failed, lastIsin);
        return Some(stopped), examined, failed;
      }
      if step == Saved {
        assert Reached(start, store, isin, fetch);
        examined', failed' := examined + {isin}, failed - {isin};
      } else {
        examined', failed' := examined - {isin}, failed + {isin};
      }
      fate := Next();
      if fate == Go {
        WriteRunFile(examined', failed', Some(isin));
      } else {
        var stopped := StopRun(fate, examined', failed', Some(isin));
        exit := Some(stopped);
      }
    }

    /** The loop over the pending ISINs; `Some` when something ended it early. */
    method CuratePending(pending: seq<string>, examined: set<string>, failed: set<string>, lastIsin: Option<string>,
                         fetch: Fetch, ghost start: Store, ghost all: set<string>)
      returns (exit: Option<Exit>, examined': set<string>, failed': set<string>, lastIsin': Option<string>)
      requires Chain(start, all, fetch) && Progress(start, store, examined, failed, all, fetch)
      requires runFile.Some? && runFile.value.examined <= examined
      requires DistinctIsins(pending) && Elements(pending) <= all && Elements(pending) !! examined
      modifies this
      ensures Chain(start, all, fetch) && runFile.Some? && Progress(start, store, examined', failed', all, fetch)
      ensures exit.None? ==> examined' == examined + Good(Elements(pending), fetch)
                             && failed' == failed - Good(Elements(pending), fetch) + Bad(Elements(pending), fetch)
      ensures exit.Some? ==> exit.value in {Interrupted, Killed} && old(fates) != []
      ensures exit == Some(Interrupted) ==> Lists(examined', failed')
      ensures examined <= examined' && old(runFile).value.examined <= runFile.value.examined
      ensures old(fates) == [] ==> fates == []
    {
      examined', failed', lastIsin' := examined, failed, lastIsin;
      for i := 0 to |pending|
        invariant Chain(start, all, fetch) && Progress(start, store, examined', failed', all, fetch)
        invariant runFile.Some? && runFile.value.examined <= examined'
        invariant old(runFile).value.examined <= runFile.value.examined
        invariant examined' == examined + Good(Elements(pending[..i]), fetch)
        invariant failed' == failed - Good(Elements(pending[..i]), fetch) + Bad(Elements(pending[..i]), fetch)
        invariant old(fates) == [] ==> fates == []
      {
        PendingNext(pending, i);
        exit, examined', failed' := Round(pending[i], examined', failed', lastIsin', fetch, start, all);
        if exit.Some? {
          return;
        }
        lastIsin' := Some(pending[i]);
      }
      assert pending[..|pending|] == pending;
      exit := None;
    }

    /** `_prepare_run_file`, which is not inside the loop's handling: any stop ends the process, and a new
        run file that is not written yet is gone. */
    method PrepareRunFile(selected: seq<string>, resume: bool, fetch: Fetch, ghost start: Store)
      returns (exit: Option<Exit>, examined: set<string>, failed: set<string>, lastIsin: Option<string>)
      requires Chain(start, Elements(selected), fetch)
      modifies `runFile, `loaded, `mirror, `fates
      ensures Chain(start, Elements(selected), fetch)
      ensures exit == Some(Refused) <==> resume && old(runFile) == None
      ensures exit.Some? ==> runFile == old(runFile) && exit.value in {Refused, Killed}
      ensures exit == Some(Killed) ==> old(fates) != []
      ensures exit.None? && resume ==> runFile == old(runFile)
      ensures exit.None? ==> runFile.Some? && runFile.value.examined == examined
                             && Progress(start, store, examined, failed, Elements(selected), fetch)
      ensures old(fates) == [] ==> fates == []
    {
      exit, examined, failed, lastIsin := None, {}, {}, None;
      loaded, mirror := false, map[];
      if resume && runFile == None {
        exit := Some(Refused);
        return;
      }
      var fate := Next();
      if fate != Go {
        exit := Some(Killed);
        return;
      }
      if !resume {
        WriteRunFile({}, {}, None);
      } else {
        examined, failed := runFile.value.examined * Elements(selected), runFile.value.failed * Elements(selected);
        lastIsin := if runFile.value.lastIsin.Some? && runFile.value.lastIsin.value in selected
                    then runFile.value.lastIsin else None;
        assert examined == runFile.value.examined && failed == runFile.value.failed;
      }
    }

    /** The end of the run, where the loop is through: the failures are written, or the run file goes. It can
        be stopped before and after either. */
    method Finish(examined: set<string>, failed: set<string>, lastIsin: Option<string>, fetch: Fetch,
                  ghost start: Store, ghost all: set<string>)
      returns (exit: Exit)
      requires Chain(start, all, fetch) && Progress(start, store, examined, failed, all, fetch)
      requires runFile.Some? && examined + failed == all && failed == Bad(all, fetch)
      modifies `runFile, `fates
      ensures Chain(start, all, fetch)
      ensures exit == Done ==> runFile == None && failed == {}
      ensures exit == Incomplete ==> runFile.Some? && LeftPending(runFile.value, all, fetch)
      ensures exit != Refused && (exit == Interrupted ==> Lists(examined, failed))
      ensures runFile.Some? ==> runFile == old(runFile) || Lists(examined, failed)
      ensures old(fates) == [] ==> exit == Done || exit == Incomplete
    {
      var fate := Next();
      if fate != Go {
        exit := StopRun(fate, examined, failed, lastIsin);
        return;
      }
      if failed != {} {
        WriteRunFile(examined, failed, lastIsin);
      } else {
        runFile := None;
      }
      fate := Next();
      if fate != Go {
        exit := StopRun(fate, examined, failed, lastIsin);
        return;
      }
      exit := if failed != {} then Incomplete else Done;
    }

    /** `run_curate`: a new run, or the resumption of the one in the run file. */
    method RunCurate(selected: seq<string>, resume: bool, fetch: Fetch, ghost start: Store) returns (exit: Exit)
      requires Chain(start, Elements(selected), fetch) && DistinctIsins(selected)
      modifies this
      ensures Chain(start, Elements(selected), fetch)
      ensures exit == Refused <==> resume && old(runFile) == None
      ensures exit == Refused ==> store == old(store) && runFile == None
      ensures exit == Done ==> runFile == None && Examined(start, store, Elements(selected), fetch)
      ensures exit == Incomplete ==> runFile.Some? && LeftPending(runFile.value, Elements(selected), fetch)
      ensures exit == Interrupted ==> runFile.Some?
      ensures resume && old(runFile).Some? && runFile.Some? ==> old(runFile).value.examined <= runFile.value.examined
      ensures old(fates) == [] ==> exit in {Done, Incomplete, Refused}
    {
      var ended, examined, failed, lastIsin := PrepareRunFile(selected, resume, fetch, start);
      if ended.Some? {
        return ended.value;
      }
      var pending := PendingOf(selected, examined);
      PendingElements(selected, examined);
      PendingDistinct(selected, examined);
      var examined', failed', lastIsin';
      ended, examined', failed', lastIsin' :=
        CuratePending(pending, examined, failed, lastIsin, fetch, start, Elements(selected));
      if ended.Some? {
        return ended.value;
      }
      SplitByOutcome(Elements(selected), Elements(pending), examined, failed, fetch);
      exit := Finish(examined', failed', lastIsin', fetch, start, Elements(selected));
    }

    /** A run stopped any number of times, anywhere, each time resumed from its run file, or started anew
        where there is none, and then left to finish: the cache ends where one undisturbed run would have
        taken it. */
    method RunToCompletion(selected: seq<string>, fetch: Fetch, schedules: seq<seq<Fate>>) returns (exit: Exit)
      requires Valid() && runFile == None && DistinctIsins(selected)
      modifies this
      ensures Complete(old(store), store, Elements(selected), fetch)
      ensures exit == Done <==> forall k :: k in Elements(selected) ==> fetch(k).Some?
      ensures exit == Done || exit == Incomplete
    {
      ghost var start := store;
      exit := Killed;
      for i := 0 to |schedules|
        invariant Chain(start, Elements(selected), fetch) && exit != Refused
        invariant exit == Done ==> Examined(start, store, Elements(selected), fetch)
        invariant exit == Incomplete ==> runFile.Some? && LeftPending(runFile.value, Elements(selected), fetch)
      {
        if exit != Done {
          fates := schedules[i];
          exit := RunCurate(selected, runFile.Some?, fetch, start);
        }
      }
      if exit == Interrupted || exit == Killed {
        fates := [];
        exit := RunCurate(selected, runFile.Some?, fetch, start);
      }
      if exit == Done {
        AllExamined(start, store, Elements(selected), fetch);
      } else {
        AllSettled(start, store, runFile.value, Elements(selected), fetch);
      }
    }
  }

  lemma {:induction false} AllExamined(start: Store, now: Store, selected: set<string>, fetch: Fetch)
    requires Toward(start, now, selected, fetch) && Examined(start, now, selected, fetch)
    ensures Complete(start, now, selected, fetch)
  {
  }

  lemma {:induction false} AllSettled(start: Store, now: Store, file: RunFile, selected: set<string>, fetch: Fetch)
    requires Progress(start, now, file.examined, file.failed, selected, fetch) && LeftPending(file, selected, fetch)
    ensures Complete(start, now, selected, fetch)
    ensures exists k :: k in selected && fetch(k).None?
  {
    forall k: string
      ensures RowOf(now, k) == if k in selected then Target(RowOf(start, k), fetch(k)) else RowOf(start, k)
    {
      if k in selected && k !in file.examined {
        assert k in file.failed;
      }
    }
    var k :| k in file.failed;
    assert k in selected && fetch(k).None?;
  }

  /** Once every pending ISIN has been tried, those that failed are those that cannot be looked up. */
  lemma {:induction false} SplitByOutcome(all: set<string>, pending: set<string>, examined: set<string>,
                                          failed: set<string>, fetch: Fetch)
    requires pending == all - examined && examined <= all && failed <= all && failed !! examined
    requires forall k :: k in examined ==> fetch(k).Some?
    ensures var failed' := failed - Good(pending, fetch) + Bad(pending, fetch);
            && failed' == Bad(pending, fetch) == Bad(all, fetch)
            && examined + Good(pending, fetch) + failed' == all
  {
  }

  function Good(isins: set<string>, fetch: Fetch): set<string> {
    set k | k in isins && fetch(k).Some?
  }

  function Bad(isins: set<string>, fetch: Fetch): set<string> {
    set k | k in isins && fetch(k).None?
  }

  predicate DistinctIsins(s: seq<string>) {
    forall i, j :: 0 <= i < j < |s| ==> s[i] != s[j]
  }

  /** Everything that could be looked up is examined; the rest is listed as failed, to be tried again. */
  ghost predicate LeftPending(file: RunFile, selected: set<string>, fetch: Fetch) {
    && file.failed != {} && file.failed !! file.examined
    && file.examined + file.failed == selected
    && (forall k :: k in file.failed ==> fetch(k) == None)
  }

  lemma {:induction false} PendingNext(pending: seq<string>, i: nat)
    requires i < |pending| && DistinctIsins(pending)
    ensures Elements(pending[..i + 1]) == Elements(pending[..i]) + {pending[i]}
    ensures pending[i] in Elements(pending) && pending[i] !in Elements(pending[..i])
  {
  }

  /** The selected ISINs that are not examined yet. */
  function PendingOf(selected: seq<string>, examined: set<string>): seq<string> {
    if selected == [] then []
    else (if selected[0] in examined then [] else [selected[0]]) + PendingOf(selected[1..], examined)
  }

  lemma {:induction false} PendingMembers(selected: seq<string>, examined: set<string>, k: string)
    ensures k in PendingOf(selected, examined) <==> k in selected && k !in examined
  {
    if selected != [] {
      PendingMembers(selected[1..], examined, k);
      assert selected == [selected[0]] + selected[1..];
    }
  }

  lemma {:induction false} PendingElements(selected: seq<string>, examined: set<string>)
    ensures Elements(PendingOf(selected, examined)) == Elements(selected) - examined
  {
    forall k ensures k in Elements(PendingOf(selected, examined)) <==> k in Elements(selected) - examined {
      PendingMembers(selected, examined, k);
      assert k in Elements(selected) <==> k in selected;
      assert k in Elements(PendingOf(selected, examined)) <==> k in PendingOf(selected, examined);
    }
  }

  lemma {:induction false} PendingDistinct(selected: seq<string>, examined: set<string>)
    requires DistinctIsins(selected)
    ensures DistinctIsins(PendingOf(selected, examined))
  {
    if selected != [] {
      PendingDistinct(selected[1..], examined);
      PendingMembers(selected[1..], examined, selected[0]);
      var rest := PendingOf(selected[1..], examined);
      forall i | 0 <= i < |rest| ensures rest[i] != selected[0] {
        assert rest[i] in rest;
      }
    }
  }

  lemma {:induction false} RoundKeepsProgress(start: Store, s: Store, t: Store, isin: string, examined: set<string>,
                                              failed: set<string>, all: set<string>, fetch: Fetch)
    requires Progress(start, s, examined, failed, all, fetch) && Coherent(t, CoerceFields)
    requires isin in all && isin !in examined
    requires Target(RowOf(t, isin), fetch(isin)) == Target(RowOf(s, isin), fetch(isin))
    requires forall k :: k != isin ==> RowOf(t, k) == RowOf(s, k)
    ensures Progress(start, t, examined, failed, all, fetch)
  {
  }
}
