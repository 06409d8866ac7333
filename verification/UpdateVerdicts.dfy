/** What is recorded for an update that nobody cancelled in time. */
module UpdateVerdicts {
  import opened Wrappers
  import opened UpdateProtocol
  import opened UpdateSafety
  import opened UpdateRelease

  /** What a handler may say of a worker: only one that ended well and said so is a success. */
  predicate Fits(w: Status, o: Outcome) {
    && w.Dead?
    && (w.code != 0 ==> o == Outcome(false, Crashed))
    && (w.code == 0 && w.result == None ==> o == Outcome(false, Silent))
    && (w.code == 0 && w.result == Some(true) ==> o == Outcome(true, NoError) || o == Outcome(false, Silent))
    && (w.code == 0 && w.result == Some(false) ==> o == Outcome(false, Reported) || o == Outcome(false, Silent))
  }

  /** Some worker of the job ended in a way that the outcome fits. */
  ghost predicate Told(s: State, id: nat, o: Outcome) {
    exists p: nat :: p < |s.workers| && s.workers[p].job == id && Fits(s.workers[p].status, o)
  }

  /** What a handler knows of its worker. */
  ghost predicate Heard(s: State, pc: Handler) {
    && (pc.Checking? || pc.Reading? ==> pc.pid < |s.workers| && s.workers[pc.pid].status.Dead?)
    && (pc.Finishing() && pc.id !in s.early ==> Told(s, pc.id, pc.outcome))
  }

  ghost predicate AllTold(s: State) {
    && (forall h <- s.handlers :: Heard(s, s.handlers[h]))
    && (forall id <- s.outcomes :: id !in s.early ==> Told(s, id, s.outcomes[id]))
  }

  // --------------------------------------------------------------------- every step

  /** The dead stay as they are, and no mark is taken back. */
  ghost predicate Onward(s: State, s': State) {
    && |s.workers| <= |s'.workers| && s.early <= s'.early
    && forall p: nat | p < |s.workers| ::
         && s'.workers[p].job == s.workers[p].job
         && (s.workers[p].status.Dead? ==> s'.workers[p].status == s.workers[p].status)
  }

  lemma WorkerStepOnward(s: State, st: Step)
    requires Apply(s, st).Some? && (st.Spawn? || st.KillOwn? || st.Kill? || st.Exit?)
    ensures Onward(s, Apply(s, st).value)
  {
  }

  lemma OtherStepOnward(s: State, st: Step)
    requires Apply(s, st).Some? && !st.Spawn? && !st.KillOwn? && !st.Kill? && !st.Exit?
    ensures Onward(s, Apply(s, st).value)
  {
  }

  lemma StepOnward(s: State, st: Step)
    requires Apply(s, st).Some?
    ensures Onward(s, Apply(s, st).value)
  {
    if st.Spawn? || st.KillOwn? || st.Kill? || st.Exit? {
      WorkerStepOnward(s, st);
    } else {
      OtherStepOnward(s, st);
    }
  }

  lemma StaysTold(s: State, s': State, id: nat, o: Outcome)
    requires Onward(s, s') && Told(s, id, o)
    ensures Told(s', id, o)
  {
    var p: nat :| p < |s.workers| && s.workers[p].job == id && Fits(s.workers[p].status, o);
    assert s'.workers[p].job == id && Fits(s'.workers[p].status, o);
  }

  lemma StaysHeard(s: State, s': State, pc: Handler)
    requires Onward(s, s') && Heard(s, pc)
    ensures Heard(s', pc)
  {
    if pc.Finishing() && pc.id !in s'.early {
      StaysTold(s, s', pc.id, pc.outcome);
    }
  }

  lemma EnvironmentRecordsNothing(s: State, st: Step)
    requires Apply(s, st).Some? && !OfHandler(st)
    ensures Apply(s, st).value.outcomes == s.outcomes
  {
  }

  lemma HandlerRecordsNothing(s: State, st: Step)
    requires Apply(s, st).Some? && OfHandler(st) && !st.Record?
    ensures Apply(s, st).value.outcomes == s.outcomes
  {
  }

  /** Only recording changes what is recorded. */
  lemma OutcomesStay(s: State, st: Step)
    requires Apply(s, st).Some? && !st.Record?
    ensures Apply(s, st).value.outcomes == s.outcomes
  {
    if OfHandler(st) {
      HandlerRecordsNothing(s, st);
    } else {
      EnvironmentRecordsNothing(s, st);
    }
  }

  lemma MovesOn(s: State, st: Step)
    requires Apply(s, st).Some? && OfHandler(st)
    ensures st.h in Apply(s, st).value.handlers
  {
  }

  /** Only joining leads to the check, and only the check to reading. */
  lemma WaitedForExit(s: State, st: Step)
    requires Apply(s, st).Some? && OfHandler(st) && st.h in Apply(s, st).value.handlers
    requires st.h in s.handlers ==> Heard(s, s.handlers[st.h])
    ensures var s' := Apply(s, st).value; var pc := s'.handlers[st.h];
            pc.Checking? || pc.Reading? ==> pc.pid < |s'.workers| && s'.workers[pc.pid].status.Dead?
  {
  }

  /** What the moving handler knows after a step other than reading its worker. */
  lemma MovingHandlerHears(s: State, o: Option<nat>, st: Step)
    requires InvWith(s, o) && Apply(s, st).Some? && OfHandler(st) && !st.Read?
    requires st.h in s.handlers ==> Heard(s, s.handlers[st.h])
    ensures st.h in Apply(s, st).value.handlers
    ensures Heard(Apply(s, st).value, Apply(s, st).value.handlers[st.h])
  {
    var s' := Apply(s, st).value;
    MovesOn(s, st);
    WaitedForExit(s, st);
    StepOnward(s, st);
    var pc := s'.handlers[st.h];
    if pc.Finishing() && pc.id !in s'.early {
      FinishingCameFrom(s, o, st);
      StaysTold(s, s', pc.id, pc.outcome);
    }
  }

  /** The same outcome, further on. */
  ghost predicate Carried(s: State, s': State, h: nat)
    requires h in s'.handlers && s'.handlers[h].Finishing()
  {
    && h in s.handlers && s.handlers[h].Finishing()
    && s'.handlers[h].id == s.handlers[h].id && s'.handlers[h].outcome == s.handlers[h].outcome
  }

  lemma CancelledFinish(s: State, o: Option<nat>, st: Step)
    requires InvWith(s, o) && Apply(s, st).Some? && (st.Check? || st.KillOwn?)
    ensures var s' := Apply(s, st).value;
            s'.handlers[st.h].Finishing() ==> s'.handlers[st.h].id in s'.early
  {
  }

  lemma OthersFinish(s: State, st: Step)
    requires Apply(s, st).Some? && OfHandler(st) && !st.Read? && !st.Check? && !st.KillOwn?
    ensures st.h in Apply(s, st).value.handlers
    ensures Apply(s, st).value.handlers[st.h].Finishing() ==> Carried(s, Apply(s, st).value, st.h)
  {
  }

  /** Without reading, only a cancelled job gets an outcome. */
  lemma FinishingCameFrom(s: State, o: Option<nat>, st: Step)
    requires InvWith(s, o) && Apply(s, st).Some? && OfHandler(st) && !st.Read?
    requires var s' := Apply(s, st).value;
             st.h in s'.handlers && s'.handlers[st.h].Finishing() && s'.handlers[st.h].id !in s'.early
    ensures Carried(s, Apply(s, st).value, st.h)
  {
    if st.Check? || st.KillOwn? {
      CancelledFinish(s, o, st);
    } else {
      OthersFinish(s, st);
    }
  }

  /** Reading: the worker has exited, and the outcome is what its exit says. */
  lemma ReaderHears(s: State, o: Option<nat>, h: nat, received: bool)
    requires InvWith(s, o) && DoRead(s, h, received).Some? && Heard(s, s.handlers[h])
    ensures var s' := DoRead(s, h, received).value; Heard(s', s'.handlers[h])
  {
    var s' := DoRead(s, h, received).value;
    var p := s.handlers[h].pid;
    assert s'.workers[p].job == s.handlers[h].id && Fits(s'.workers[p].status, s'.handlers[h].outcome);
  }

  lemma HandlersHear(s: State, o: Option<nat>, st: Step, h: nat)
    requires InvWith(s, o) && AllTold(s) && Apply(s, st).Some? && h in Apply(s, st).value.handlers
    ensures Heard(Apply(s, st).value, Apply(s, st).value.handlers[h])
  {
    if !OfHandler(st) {
      NoHandlerMoves(s, st);
      StepOnward(s, st);
      StaysHeard(s, Apply(s, st).value, s.handlers[h]);
    } else if st.h != h {
      OnlyOneMoves(s, st, h);
      StepOnward(s, st);
      StaysHeard(s, Apply(s, st).value, s.handlers[h]);
    } else if st.Read? {
      ReaderHears(s, o, h, st.received);
    } else {
      MovingHandlerHears(s, o, st);
    }
  }

  lemma OnlyOneMoves(s: State, st: Step, h: nat)
    requires Apply(s, st).Some? && OfHandler(st) && st.h != h && h in Apply(s, st).value.handlers
    ensures h in s.handlers && Apply(s, st).value.handlers[h] == s.handlers[h]
  {
  }

  lemma OutcomesTold(s: State, o: Option<nat>, st: Step, id: nat)
    requires InvWith(s, o) && AllTold(s) && Apply(s, st).Some?
    requires id in Apply(s, st).value.outcomes && id !in Apply(s, st).value.early
    ensures Told(Apply(s, st).value, id, Apply(s, st).value.outcomes[id])
  {
    StepOnward(s, st);
    if st.Record? && s.handlers[st.h].id == id {
      StaysTold(s, Apply(s, st).value, id, s.handlers[st.h].outcome);
    } else {
      if !st.Record? {
        OutcomesStay(s, st);
      }
      StaysTold(s, Apply(s, st).value, id, s.outcomes[id]);
    }
  }

  lemma StepTells(s: State, st: Step)
    requires Inv(s) && AllTold(s) && Apply(s, st).Some?
    ensures AllTold(Apply(s, st).value)
  {
    var o :| InvWith(s, o);
    var s' := Apply(s, st).value;
    forall h <- s'.handlers ensures Heard(s', s'.handlers[h]) {
      HandlersHear(s, o, st, h);
    }
    forall id <- s'.outcomes ensures id !in s'.early ==> Told(s', id, s'.outcomes[id]) {
      if id !in s'.early {
        OutcomesTold(s, o, st, id);
      }
    }
  }

  lemma {:induction false} RunTells(s: State, steps: seq<Step>)
    requires Inv(s) && AllTold(s) && Run(s, steps).Some?
    ensures AllTold(Run(s, steps).value)
    decreases |steps|
  {
    if steps != [] {
      StepKeepsInv(s, steps[0]);
      StepTells(s, steps[0]);
      RunTells(Apply(s, steps[0]).value, steps[1..]);
    }
  }

  lemma ReachableTells(s: State)
    requires Reachable(s)
    ensures Inv(s) && AllTold(s)
  {
    ReachableInv(s);
    var service, timer, steps :| Run(Init(service, timer), steps) == Some(s);
    assert InvWith(Init(service, timer), None);
    RunTells(Init(service, timer), steps);
  }

  // ------------------------------------------------------------------- what is recorded

  /**
   In every reachable state the outcome of a job that no cancel marked in time fits how its worker
   ended: a success only for a worker that exited with 0 and reported success, a crash exactly for
   one that exited with another code.
   */
  lemma {:induction false} OutcomeTellsExit(s: State, id: nat)
    requires Reachable(s) && id in s.outcomes && id !in s.early
    ensures exists p: nat :: p < |s.workers| && s.workers[p].job == id && Fits(s.workers[p].status, s.outcomes[id])
  {
    ReachableTells(s);
  }

  /** No job is recorded as a success without a worker that said so and exited with 0. */
  lemma {:induction false} SuccessNeedsWorker(s: State, id: nat)
    requires Reachable(s) && id in s.outcomes && s.outcomes[id].ok
    ensures id !in s.early
    ensures exists p: nat :: p < |s.workers| && s.workers[p].job == id && s.workers[p].status == Dead(0, Some(true))
  {
    CancelNeverLost(s, id);
    OutcomeTellsExit(s, id);
    var p: nat :| p < |s.workers| && s.workers[p].job == id && Fits(s.workers[p].status, s.outcomes[id]);
    FitsSuccess(s.workers[p].status, s.outcomes[id]);
  }

  lemma FitsSuccess(w: Status, o: Outcome)
    requires Fits(w, o) && o.ok
    ensures w == Dead(0, Some(true))
  {
    ReportKinds(w.result);
  }

  lemma ReportKinds(report: Option<bool>)
    ensures report == None || report == Some(true) || report == Some(false)
  {
    if report.Some? {
      if report.value {
        assert report == Some(true);
      } else {
        assert report == Some(false);
      }
    }
  }

  // -------------------------------------------------------------- what is read is recorded

  /** The handler is about to record the outcome, or it is recorded. */
  predicate Decided(s: State, h: nat, id: nat, o: Outcome) {
    || (h in s.handlers && s.handlers[h] == Recording(id, o))
    || (id in s.outcomes && s.outcomes[id] == o)
  }

  lemma RecordingStaysDecided(s: State, st: Step, h: nat, id: nat, o: Outcome)
    requires h in s.handlers && s.handlers[h] == Recording(id, o) && Apply(s, st).Some?
    ensures Decided(Apply(s, st).value, h, id, o)
  {
    if !OfHandler(st) {
      NoHandlerMoves(s, st);
    } else if st.h != h {
      OneHandlerMoves(s, h, st);
    } else {
      RecordingRecords(s, st, id, o);
    }
  }

  lemma RecordingRecords(s: State, st: Step, id: nat, o: Outcome)
    requires OfHandler(st) && st.h in s.handlers && s.handlers[st.h] == Recording(id, o) && Apply(s, st).Some?
    ensures RecordedAs(Apply(s, st).value, id, o)
  {
  }

  lemma RecordedStays(s: State, st: Step, id: nat)
    requires Inv(s) && id in s.outcomes && Apply(s, st).Some?
    ensures id in Apply(s, st).value.outcomes && Apply(s, st).value.outcomes[id] == s.outcomes[id]
  {
    var owner :| InvWith(s, owner);
    if !st.Record? {
      OutcomesStay(s, st);
    }
  }

  lemma {:induction false} RunStaysDecided(s: State, steps: seq<Step>, h: nat, id: nat, o: Outcome)
    requires Inv(s) && Decided(s, h, id, o) && Run(s, steps).Some?
    ensures Decided(Run(s, steps).value, h, id, o)
    decreases |steps|
  {
    if steps != [] {
      if id in s.outcomes && s.outcomes[id] == o {
        RecordedStays(s, steps[0], id);
      } else {
        RecordingStaysDecided(s, steps[0], h, id, o);
      }
      StepKeepsInv(s, steps[0]);
      RunStaysDecided(Apply(s, steps[0]).value, steps[1..], h, id, o);
    }
  }

  /** What a handler has to record for a worker's exit, given whether its report came through. */
  predicate Due(code: int, report: Option<bool>, received: bool, o: Outcome) {
    && (code != 0 ==> o == Outcome(false, Crashed))
    && (code == 0 && received && report == Some(true) ==> o == Outcome(true, NoError))
    && (code == 0 && received && report == Some(false) ==> o == Outcome(false, Reported))
    && (code == 0 && (!received || report == None) ==> o == Outcome(false, Silent))
  }

  predicate RecordedAs(s: State, id: nat, o: Outcome) {
    id in s.outcomes && s.outcomes[id] == o
  }

  /** What a handler reads is due for its own worker's exit. */
  lemma ReadsDue(s: State, h: nat, received: bool) returns (o: Outcome)
    requires Reachable(s) && DoRead(s, h, received).Some?
    ensures var id, p := s.handlers[h].id, s.handlers[h].pid;
            && s.workers[p].job == id && s.workers[p].status.Dead?
            && Due(s.workers[p].status.code, s.workers[p].status.result, received, o)
            && DoRead(s, h, received).value.handlers[h] == Recording(id, o)
  {
    ReachableTells(s);
    var owner :| InvWith(s, owner);
    o := DoRead(s, h, received).value.handlers[h].outcome;
  }

  lemma NextRecords(s: State, h: nat, id: nat, o: Outcome)
    requires h in s.handlers && s.handlers[h] == Recording(id, o)
    ensures Apply(s, Record(h)).Some? && RecordedAs(Apply(s, Record(h)).value, id, o)
  {
  }

  /**
   A handler reads the exit of its own worker, and exactly what is due for it is recorded: by its next
   step, and for good, however the run goes on.
   */
  lemma {:induction false} ReadIsRecorded(s: State, h: nat, received: bool, steps: seq<Step>) returns (o: Outcome)
    requires Reachable(s) && DoRead(s, h, received).Some? && Run(DoRead(s, h, received).value, steps).Some?
    ensures var id, p := s.handlers[h].id, s.handlers[h].pid;
            var read := DoRead(s, h, received).value;
            && s.workers[p].job == id && s.workers[p].status.Dead?
            && Due(s.workers[p].status.code, s.workers[p].status.result, received, o)
            && Apply(read, Record(h)).Some? && RecordedAs(Apply(read, Record(h)).value, id, o)
            && (id in Run(read, steps).value.outcomes ==> RecordedAs(Run(read, steps).value, id, o))
  {
    o := ReadsDue(s, h, received);
    var id, read := s.handlers[h].id, DoRead(s, h, received).value;
    NextRecords(read, h, id, o);
    ReachableInv(s);
    StepKeepsInv(s, Read(h, received));
    RunKeepsInv(read, steps);
    RunStaysDecided(read, steps, h, id, o);
    if id in Run(read, steps).value.outcomes {
      NotBoth(Run(read, steps).value, h, id, o);
    }
  }

  /** A handler that is about to record has not recorded yet. */
  lemma NotBoth(s: State, h: nat, id: nat, o: Outcome)
    requires Inv(s) && Decided(s, h, id, o) && id in s.outcomes
    ensures s.outcomes[id] == o
  {
    var owner :| InvWith(s, owner);
  }

  // ------------------------------------------------------------------- what a cancel does

  /**
   A cancel answers that it cancelled exactly when the job in the cell had a process when it marked it,
   however long the kill in between takes.
   */
  lemma {:induction false} CancelAnswers(s: State, c: nat, steps: seq<Step>)
    requires DoMark(s, c).Some? && Run(DoMark(s, c).value, steps).Some?
    ensures var s' := Run(DoMark(s, c).value, steps).value;
            && c in s'.cancels
            && (s'.cancels[c].Replied? ==>
                  (s'.cancels[c].cancelled <==> s.cell.job.Some? && s.cell.job.value.process.Some?))
  {
    RunFrame(DoMark(s, c).value, c, steps);
  }

  /** A kill that takes ends the marked process, and one that does not leaves it among the survivors. */
  lemma {:induction false} KillEndsProcess(s: State, c: nat, dies: bool, code: int)
    requires DoKill(s, c, dies, code).Some?
    ensures var s', p := DoKill(s, c, dies, code).value, s.cancels[c].pid;
            && (dies ==> s'.workers[p].status.Dead?)
            && (s.workers[p].status.Alive? && dies ==> s'.workers[p].status == Dead(code, None))
            && (s.workers[p].status.Alive? && !dies ==> p in s'.survivors)
  {
  }

  /** A worker spawned into a cancel is killed at once: nobody waits for it, and the cancel is recorded. */
  lemma {:induction false} SpawnedIntoCancelIsKilled(s: State, h: nat, code: int)
    returns (attached: State, killed: State)
    requires Reachable(s) && h in s.handlers && s.handlers[h].Attaching? && s.cell.job.Some?
    requires s.cell.job.value.terminated && code != 0
    ensures var id, p := s.handlers[h].id, s.handlers[h].pid;
            && Apply(s, Attach(h)) == Some(attached) && Apply(attached, KillOwn(h, true, code)) == Some(killed)
            && p < |killed.workers| && killed.workers[p].status.Dead?
            && h in killed.handlers && killed.handlers[h] == Recording(id, Outcome(false, Cancelled))
  {
    ReachableInv(s);
    OwnKillNext(s, h);
    attached := DoAttach(s, h).value;
    killed := DoKillOwn(attached, h, true, code).value;
  }

  lemma OwnKillNext(s: State, h: nat)
    requires Inv(s) && h in s.handlers && s.handlers[h].Attaching? && s.cell.job.Some?
    requires s.cell.job.value.terminated
    ensures DoAttach(s, h).Some? && s.handlers[h].pid < |s.workers|
    ensures var attached := DoAttach(s, h).value;
            && attached.handlers == s.handlers[h := KillingOwn(s.handlers[h].id, s.handlers[h].pid)]
            && attached.workers == s.workers
  {
    var owner :| InvWith(s, owner);
  }

  // -------------------------------------------------------------------- the service

  /** The handler has stopped the service. */
  predicate ServiceDown(pc: Handler) {
    pc.StoppingTimer? || pc.Quiesced()
  }

  /** While a handler works behind it the service stays stopped. */
  ghost predicate ServiceStays(s: State) {
    forall h <- s.handlers :: ServiceDown(s.handlers[h]) ==> !s.serviceRunning
  }

  /** Only stopping units, and failing at it, touches the service. */
  lemma ServiceUntouched(s: State, st: Step)
    requires Apply(s, st).Some? && !st.StopService? && !st.StopTimer? && !st.Raise?
    ensures Apply(s, st).value.serviceRunning == s.serviceRunning
  {
  }

  lemma ServiceMoves(s: State, st: Step, h: nat)
    requires Apply(s, st).Some? && OfHandler(st) && st.h == h && h in Apply(s, st).value.handlers
    requires h in s.handlers ==> ServiceDown(s.handlers[h]) ==> !s.serviceRunning
    ensures ServiceDown(Apply(s, st).value.handlers[h]) ==> !Apply(s, st).value.serviceRunning
  {
  }

  /** The other handlers are not at work while one of them stops units. */
  lemma OnlyOwnerStops(s: State, o: Option<nat>, st: Step, h: nat)
    requires InvWith(s, o) && Apply(s, st).Some? && (st.StopService? || st.StopTimer? || st.Raise?)
    requires h in s.handlers && h != st.h
    ensures !ServiceDown(s.handlers[h]) && Apply(s, st).value.handlers[h] == s.handlers[h]
  {
    assert s.handlers[st.h].Active() && o == Some(st.h);
  }

  lemma StepKeepsService(s: State, o: Option<nat>, st: Step, h: nat)
    requires InvWith(s, o) && ServiceStays(s) && Apply(s, st).Some? && h in Apply(s, st).value.handlers
    ensures ServiceDown(Apply(s, st).value.handlers[h]) ==> !Apply(s, st).value.serviceRunning
  {
    if OfHandler(st) && st.h == h {
      ServiceMoves(s, st, h);
    } else {
      if OfHandler(st) {
        OnlyOneMoves(s, st, h);
      } else {
        NoHandlerMoves(s, st);
      }
      if st.StopService? || st.StopTimer? || st.Raise? {
        OnlyOwnerStops(s, o, st, h);
      } else {
        ServiceUntouched(s, st);
      }
    }
  }

  lemma {:induction false} RunKeepsService(s: State, steps: seq<Step>)
    requires Inv(s) && ServiceStays(s) && Run(s, steps).Some?
    ensures ServiceStays(Run(s, steps).value)
    decreases |steps|
  {
    if steps != [] {
      var o :| InvWith(s, o);
      var s' := Apply(s, steps[0]).value;
      forall h <- s'.handlers ensures ServiceDown(s'.handlers[h]) ==> !s'.serviceRunning {
        StepKeepsService(s, o, steps[0], h);
      }
      StepKeepsInv(s, steps[0]);
      RunKeepsService(s', steps[1..]);
    }
  }

  /** In every reachable state the service is stopped while a worker lives that no kill has given up on. */
  lemma {:induction false} ServiceStoppedMeanwhile(s: State, p: nat)
    requires Reachable(s) && Live(s, p)
    ensures !s.serviceRunning
  {
    ReachableInv(s);
    var o :| InvWith(s, o);
    var service, timer, steps :| Run(Init(service, timer), steps) == Some(s);
    assert InvWith(Init(service, timer), None);
    RunKeepsService(Init(service, timer), steps);
    assert LooksAfter(s.handlers[o.value], p, s.workers[p].job);
  }
}
