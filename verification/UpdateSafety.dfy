/** What every run of the endpoint-update protocol keeps, and what a cancel achieves. */
module UpdateSafety {
  import opened Wrappers
  import opened UpdateProtocol

  // -------------------------------------------------------------------- invariant

  /** `o` is the one handler between claiming and clearing the job, if there is one. */
  ghost predicate OneOwner(s: State, o: Option<nat>) {
    && (forall t <- s.handlers :: s.handlers[t].Active() <==> o == Some(t))
    && (o.Some? ==> o.value in s.handlers)
    && (o.Some? <==> s.cell.job.Some?)
    && (o.Some? ==> Owns(s.cell, s.handlers[o.value].id))
  }

  ghost predicate Numbered(s: State) {
    && (s.cell.job.Some? ==> s.cell.job.value.id < s.cell.nextId)
    && (forall p: nat | p < |s.workers| :: s.workers[p].job < s.cell.nextId)
    && (forall id <- s.early :: id < s.cell.nextId)
    && (forall id <- s.outcomes :: id < s.cell.nextId)
  }

  ghost predicate HasNoWorker(s: State, id: nat) {
    forall p: nat | p < |s.workers| :: s.workers[p].job != id
  }

  /** A job has at most one worker; its handler looks after that one. */
  ghost predicate Workers(s: State, o: Option<nat>)
    requires OneOwner(s, o)
  {
    && (forall p: nat, q: nat | p < q < |s.workers| :: s.workers[p].job != s.workers[q].job)
    && (o.Some? ==>
          var pc := s.handlers[o.value];
          var process := s.cell.job.value.process;
          && (pc.HasWorker() ==> pc.pid < |s.workers| && s.workers[pc.pid].job == pc.id)
          && (pc.Joining? || pc.Checking? || pc.Reading? ==> process == Some(pc.pid))
          && (pc.StoppingService? || pc.StoppingTimer? || pc.Spawning? || pc.QuiesceFailed? ==>
                HasNoWorker(s, pc.id))
          && (process.Some? ==>
                process.value < |s.workers| && s.workers[process.value].job == pc.id))
  }

  /** The handler still waits for the worker, or has left it behind. */
  predicate LooksAfter(pc: Handler, p: nat, job: nat) {
    (pc.AwaitsDeath() && pc.pid == p) || (pc.Abandoned? && pc.quiesced && pc.id == job)
  }

  /**
   A live worker that no kill has failed on is the one its handler still waits for or was
   waiting for when it was abandoned, and while a handler works behind stopped units the
   timer stays stopped.
   */
  ghost predicate Guarded(s: State, o: Option<nat>)
    requires OneOwner(s, o)
  {
    && (forall p: nat | p < |s.workers| && s.workers[p].status.Alive? && p !in s.survivors ::
          o.Some? && LooksAfter(s.handlers[o.value], p, s.workers[p].job))
    && (o.Some? && s.handlers[o.value].Quiesced() ==> !s.timerRunning)
  }

  /** A cancel about to kill holds a worker of a job it has marked. */
  ghost predicate Aimed(s: State) {
    forall c <- s.cancels :: s.cancels[c].Killing? ==>
      && s.cancels[c].pid < |s.workers|
      && (Owns(s.cell, s.workers[s.cancels[c].pid].job) ==> s.cell.job.value.terminated)
  }

  ghost predicate Faithful(o: Outcome, early: bool) {
    (o.error == Cancelled <==> early) && (early ==> !o.ok)
  }

  /** The recorded outcome is a cancellation exactly for the jobs marked early. */
  ghost predicate Verdicts(s: State, o: Option<nat>)
    requires OneOwner(s, o)
  {
    && (o.Some? ==>
          var pc := s.handlers[o.value];
          && (pc.BeforeCheck() ==> (pc.id in s.early <==> s.cell.job.value.terminated))
          && (pc.KillingOwn? ==> pc.id in s.early)
          && (pc.Reading? ==> pc.id !in s.early)
          && (pc.Finishing() ==> Faithful(pc.outcome, pc.id in s.early))
          && (!pc.Restoring? && !pc.Clearing? ==> pc.id !in s.outcomes))
    && (forall id <- s.outcomes :: Faithful(s.outcomes[id], id in s.early))
  }

  ghost predicate InvWith(s: State, o: Option<nat>) {
    OneOwner(s, o) && Numbered(s) && Workers(s, o) && Guarded(s, o) && Aimed(s) && Verdicts(s, o)
  }

  ghost predicate Inv(s: State) {
    exists o :: InvWith(s, o)
  }

  // ------------------------------------------------------------------ preservation

  lemma PostKeepsInv(s: State, o: Option<nat>, h: nat)
    requires InvWith(s, o) && DoPost(s, h).Some?
    ensures InvWith(DoPost(s, h).value, o)
  {
  }

  lemma PostCancelKeepsInv(s: State, o: Option<nat>, c: nat)
    requires InvWith(s, o) && DoPostCancel(s, c).Some?
    ensures InvWith(DoPostCancel(s, c).value, o)
  {
  }

  lemma MarkKeepsInv(s: State, o: Option<nat>, c: nat)
    requires InvWith(s, o) && DoMark(s, c).Some?
    ensures InvWith(DoMark(s, c).value, o)
  {
  }

  lemma DeathKeepsInv(s: State, o: Option<nat>, p: nat, code: int)
    requires InvWith(s, o) && p < |s.workers|
    ensures InvWith(Terminate(s, p, true, code), o)
  {
  }

  lemma SurvivalKeepsInv(s: State, o: Option<nat>, p: nat, code: int)
    requires InvWith(s, o) && p < |s.workers|
    ensures InvWith(Terminate(s, p, false, code), o)
  {
  }

  lemma TerminateKeepsInv(s: State, o: Option<nat>, p: nat, dies: bool, code: int)
    requires InvWith(s, o) && p < |s.workers|
    ensures InvWith(Terminate(s, p, dies, code), o)
    ensures var s' := Terminate(s, p, dies, code); s'.workers[p].status.Dead? || p in s'.survivors
  {
    if dies {
      DeathKeepsInv(s, o, p, code);
    } else {
      SurvivalKeepsInv(s, o, p, code);
    }
  }

  lemma KillKeepsInv(s: State, o: Option<nat>, c: nat, dies: bool, code: int)
    requires InvWith(s, o) && DoKill(s, c, dies, code).Some?
    ensures InvWith(DoKill(s, c, dies, code).value, o)
  {
    TerminateKeepsInv(s, o, s.cancels[c].pid, dies, code);
  }

  lemma ExitKeepsInv(s: State, o: Option<nat>, p: nat, code: int, result: Option<bool>)
    requires InvWith(s, o) && DoExit(s, p, code, result).Some?
    ensures InvWith(DoExit(s, p, code, result).value, o)
  {
  }

  lemma ClaimKeepsInv(s: State, o: Option<nat>, h: nat)
    requires InvWith(s, o) && DoClaim(s, h).Some?
    ensures InvWith(DoClaim(s, h).value, if s.cell.job.Some? then o else Some(h))
  {
  }

  lemma StopServiceKeepsInv(s: State, o: Option<nat>, h: nat, ok: bool, service: bool)
    requires InvWith(s, o) && DoStopService(s, h, ok, service).Some?
    ensures InvWith(DoStopService(s, h, ok, service).value, o)
  {
  }

  lemma StopTimerKeepsInv(s: State, o: Option<nat>, h: nat, ok: bool, service: bool, timer: bool)
    requires InvWith(s, o) && DoStopTimer(s, h, ok, service, timer).Some?
    ensures InvWith(DoStopTimer(s, h, ok, service, timer).value, o)
  {
  }

  lemma GiveUpKeepsInv(s: State, o: Option<nat>, h: nat)
    requires InvWith(s, o) && DoGiveUp(s, h).Some?
    ensures InvWith(DoGiveUp(s, h).value, None)
  {
  }

  lemma SpawnKeepsInv(s: State, o: Option<nat>, h: nat)
    requires InvWith(s, o) && DoSpawn(s, h).Some?
    ensures InvWith(DoSpawn(s, h).value, o)
  {
  }

  lemma RaiseStoppingKeepsInv(s: State, o: Option<nat>, h: nat, service: bool, timer: bool)
    requires InvWith(s, o) && h in s.handlers && (s.handlers[h].StoppingService? || s.handlers[h].StoppingTimer?)
    ensures InvWith(DoRaise(s, h, service, timer).value, o)
  {
  }

  lemma RaiseWorkingKeepsInv(s: State, o: Option<nat>, h: nat, service: bool, timer: bool)
    requires InvWith(s, o) && DoRaise(s, h, service, timer).Some?
    requires !s.handlers[h].StoppingService? && !s.handlers[h].StoppingTimer?
    ensures InvWith(DoRaise(s, h, service, timer).value, o)
  {
  }

  lemma RaiseKeepsInv(s: State, o: Option<nat>, h: nat, service: bool, timer: bool)
    requires InvWith(s, o) && DoRaise(s, h, service, timer).Some?
    ensures InvWith(DoRaise(s, h, service, timer).value, o)
  {
    if s.handlers[h].StoppingService? || s.handlers[h].StoppingTimer? {
      RaiseStoppingKeepsInv(s, o, h, service, timer);
    } else {
      RaiseWorkingKeepsInv(s, o, h, service, timer);
    }
  }

  lemma AttachKeepsInv(s: State, o: Option<nat>, h: nat)
    requires InvWith(s, o) && DoAttach(s, h).Some?
    ensures InvWith(DoAttach(s, h).value, o)
  {
  }

  lemma KillOwnKeepsInv(s: State, o: Option<nat>, h: nat, dies: bool, code: int)
    requires InvWith(s, o) && DoKillOwn(s, h, dies, code).Some?
    ensures InvWith(DoKillOwn(s, h, dies, code).value, o)
  {
    TerminateKeepsInv(s, o, s.handlers[h].pid, dies, code);
  }

  lemma JoinKeepsInv(s: State, o: Option<nat>, h: nat)
    requires InvWith(s, o) && DoJoin(s, h).Some?
    ensures InvWith(DoJoin(s, h).value, o)
  {
  }

  lemma CheckKeepsInv(s: State, o: Option<nat>, h: nat)
    requires InvWith(s, o) && DoCheck(s, h).Some?
    ensures InvWith(DoCheck(s, h).value, o)
  {
  }

  lemma ReadKeepsInv(s: State, o: Option<nat>, h: nat, received: bool)
    requires InvWith(s, o) && DoRead(s, h, received).Some?
    ensures InvWith(DoRead(s, h, received).value, o)
  {
  }

  lemma RecordKeepsInv(s: State, o: Option<nat>, h: nat)
    requires InvWith(s, o) && DoRecord(s, h).Some?
    ensures InvWith(DoRecord(s, h).value, o)
  {
  }

  lemma RestoreKeepsInv(s: State, o: Option<nat>, h: nat, timer: bool)
    requires InvWith(s, o) && DoRestore(s, h, timer).Some?
    ensures InvWith(DoRestore(s, h, timer).value, o)
  {
  }

  lemma ClearKeepsInv(s: State, o: Option<nat>, h: nat)
    requires InvWith(s, o) && DoClear(s, h).Some?
    ensures InvWith(DoClear(s, h).value, None)
  {
  }

  lemma StepKeepsInv(s: State, st: Step)
    requires Inv(s) && Apply(s, st).Some?
    ensures Inv(Apply(s, st).value)
  {
    var o :| InvWith(s, o);
    match st {
      case Post(h) => PostKeepsInv(s, o, h);
      case PostCancel(c) => PostCancelKeepsInv(s, o, c);
      case Mark(c) => MarkKeepsInv(s, o, c);
      case Kill(c, dies, code) => KillKeepsInv(s, o, c, dies, code);
      case Exit(p, code, result) => ExitKeepsInv(s, o, p, code, result);
      case Claim(h) => ClaimKeepsInv(s, o, h);
      case StopService(h, ok, service) => StopServiceKeepsInv(s, o, h, ok, service);
      case StopTimer(h, ok, service, timer) => StopTimerKeepsInv(s, o, h, ok, service, timer);
      case GiveUp(h) => GiveUpKeepsInv(s, o, h);
      case Spawn(h) => SpawnKeepsInv(s, o, h);
      case Raise(h, service, timer) => RaiseKeepsInv(s, o, h, service, timer);
      case Attach(h) => AttachKeepsInv(s, o, h);
      case KillOwn(h, dies, code) => KillOwnKeepsInv(s, o, h, dies, code);
      case Join(h) => JoinKeepsInv(s, o, h);
      case Check(h) => CheckKeepsInv(s, o, h);
      case Read(h, received) => ReadKeepsInv(s, o, h, received);
      case Record(h) => RecordKeepsInv(s, o, h);
      case Restore(h, timer) => RestoreKeepsInv(s, o, h, timer);
      case Clear(h) => ClearKeepsInv(s, o, h);
    }
  }

  lemma RunKeepsInv(s: State, steps: seq<Step>)
    requires Inv(s) && Run(s, steps).Some?
    ensures Inv(Run(s, steps).value)
    decreases |steps|
  {
    if steps != [] {
      StepKeepsInv(s, steps[0]);
      RunKeepsInv(Apply(s, steps[0]).value, steps[1..]);
    }
  }

  ghost predicate Reachable(s: State) {
    exists service, timer, steps :: Run(Init(service, timer), steps) == Some(s)
  }

  lemma ReachableInv(s: State)
    requires Reachable(s)
    ensures Inv(s)
  {
    var service, timer, steps :| Run(Init(service, timer), steps) == Some(s);
    assert InvWith(Init(service, timer), None);
    RunKeepsInv(Init(service, timer), steps);
  }

  // ------------------------------------------------------------------------ safety

  /** Live, and no kill has failed on it. */
  predicate Live(s: State, p: nat) {
    p < |s.workers| && s.workers[p].status.Alive? && p !in s.survivors
  }

  /**
   In every reachable interleaving at most one handler is between claiming and
   clearing, the job in the cell is that handler's, and only then does the status
   say "updating"; at most one worker is alive, it is the current job's, and the
   timer is stopped while it runs.
   */
  lemma {:induction false} MutualExclusion(s: State)
    requires Reachable(s)
    ensures forall t <- s.handlers, u <- s.handlers ::
              s.handlers[t].Active() && s.handlers[u].Active() ==> t == u
    ensures forall t <- s.handlers :: s.handlers[t].Active() ==> Owns(s.cell, s.handlers[t].id)
    ensures s.cell.job.Some? <==> exists t <- s.handlers :: s.handlers[t].Active()
    ensures forall p: nat, q: nat :: Live(s, p) && Live(s, q) ==> p == q
    ensures forall p: nat :: Live(s, p) ==> Owns(s.cell, s.workers[p].job) && !s.timerRunning
  {
    ReachableInv(s);
    var o :| InvWith(s, o);
    if o.Some? {
      assert s.handlers[o.value].Active();
    }
  }

  /** The branch for a job that is no longer the handler's own is never taken. */
  lemma {:induction false} AttachFindsOwnJob(s: State, h: nat)
    requires Reachable(s) && h in s.handlers && s.handlers[h].Attaching?
    ensures Owns(s.cell, s.handlers[h].id)
    ensures SpawnedIntoCancel(s.cell, s.handlers[h].id) == s.cell.job.value.terminated
  {
    MutualExclusion(s);
  }

  /**
   A cancel that marks a job before its handler's post-join check is never lost, and
   nothing else is reported as cancelled; by then the job's worker is no longer live.
   */
  lemma {:induction false} CancelNeverLost(s: State, id: nat)
    requires Reachable(s) && id in s.outcomes
    ensures s.outcomes[id].error == Cancelled <==> id in s.early
    ensures id in s.early ==> !s.outcomes[id].ok
    ensures forall p: nat :: p < |s.workers| && s.workers[p].job == id ==> !Live(s, p)
  {
    ReachableInv(s);
    var o :| InvWith(s, o);
  }

  /** A process keeps its job, and a cancel past its marking only goes on to reply. */
  ghost predicate Frames(s: State, s': State, c: nat)
    requires c in s.cancels
  {
    && |s.workers| <= |s'.workers|
    && (forall p: nat | p < |s.workers| :: s'.workers[p].job == s.workers[p].job)
    && c in s'.cancels
    && (s'.cancels[c] == s.cancels[c] || (s.cancels[c].Killing? && s'.cancels[c] == Replied(true)))
  }

  lemma CancelStepFrame(s: State, c: nat, st: Step)
    requires c in s.cancels && !s.cancels[c].Marking? && Apply(s, st).Some?
    requires st.PostCancel? || st.Mark? || st.Kill?
    ensures Frames(s, Apply(s, st).value, c)
  {
  }

  lemma WorkerStepFrame(s: State, c: nat, st: Step)
    requires c in s.cancels && Apply(s, st).Some? && (st.Spawn? || st.KillOwn? || st.Exit?)
    ensures Frames(s, Apply(s, st).value, c)
  {
  }

  lemma HandlerStepFrame(s: State, c: nat, st: Step)
    requires c in s.cancels && Apply(s, st).Some?
    requires !st.PostCancel? && !st.Mark? && !st.Kill? && !st.Spawn? && !st.KillOwn? && !st.Exit?
    ensures Apply(s, st).value.workers == s.workers && Apply(s, st).value.cancels == s.cancels
  {
  }

  lemma StepFrame(s: State, c: nat, st: Step)
    requires c in s.cancels && !s.cancels[c].Marking? && Apply(s, st).Some?
    ensures Frames(s, Apply(s, st).value, c)
  {
    if st.PostCancel? || st.Mark? || st.Kill? {
      CancelStepFrame(s, c, st);
    } else if st.Spawn? || st.KillOwn? || st.Exit? {
      WorkerStepFrame(s, c, st);
    } else {
      HandlerStepFrame(s, c, st);
    }
  }

  lemma {:induction false} RunFrame(s: State, c: nat, steps: seq<Step>)
    requires c in s.cancels && !s.cancels[c].Marking? && Run(s, steps).Some?
    ensures Frames(s, Run(s, steps).value, c)
    decreases |steps|
  {
    if steps != [] {
      StepFrame(s, c, steps[0]);
      RunFrame(Apply(s, steps[0]).value, c, steps[1..]);
    }
  }

  lemma KillTouches(s: State, c: nat, dies: bool, code: int, p: nat)
    requires DoKill(s, c, dies, code).Some? && p < |s.workers|
    ensures |DoKill(s, c, dies, code).value.workers| == |s.workers|
    ensures DoKill(s, c, dies, code).value.workers[p] != s.workers[p] ==> p == s.cancels[c].pid
  {
  }

  /** A cancel about to kill took its process from the job that it has just marked. */
  lemma MarkTakes(s: State, c: nat)
    requires Inv(s) && DoMark(s, c).Some?
    ensures var s' := DoMark(s, c).value;
      && Inv(s') && c in s'.cancels && !s'.cancels[c].Marking? && s'.workers == s.workers
      && (s'.cancels[c].Killing? ==>
            && s.cell.job.Some? && s'.cancels[c].pid < |s.workers|
            && s.workers[s'.cancels[c].pid].job == s.cell.job.value.id)
  {
    var o :| InvWith(s, o);
    MarkKeepsInv(s, o, c);
  }

  /** A live worker's job is the one in the cell. */
  lemma LiveIsOwned(s: State, p: nat)
    requires Inv(s) && Live(s, p)
    ensures Owns(s.cell, s.workers[p].job) && !s.timerRunning
  {
    var o :| InvWith(s, o);
  }

  /**
   A cancel kills outside the lock, yet however long it is delayed after marking a
   job it can only kill that job's worker: the process it holds never becomes a later
   job's, and once the job is over the process is no longer live to be killed.
   */
  lemma {:induction false} KillHitsMarkedJob(s: State, c: nat, steps: seq<Step>, dies: bool, code: int)
    requires Reachable(s) && DoMark(s, c).Some?
    requires Run(DoMark(s, c).value, steps).Some?
    requires DoKill(Run(DoMark(s, c).value, steps).value, c, dies, code).Some?
    ensures var s1 := Run(DoMark(s, c).value, steps).value;
      var s2 := DoKill(s1, c, dies, code).value;
      && s.cell.job.Some?
      && forall p: nat :: p < |s1.workers| && s1.workers[p] != s2.workers[p] ==>
           && s1.workers[p].job == s.cell.job.value.id
           && (Live(s1, p) ==> Owns(s1.cell, s.cell.job.value.id))
  {
    ReachableInv(s);
    MarkTakes(s, c);
    var sm := DoMark(s, c).value;
    RunFrame(sm, c, steps);
    RunKeepsInv(sm, steps);
    var s1 := Run(sm, steps).value;
    KillNeedsJob(s1, c, dies, code);
    forall p: nat | p < |s1.workers| && s1.workers[p] != DoKill(s1, c, dies, code).value.workers[p]
      ensures s1.workers[p].job == s.cell.job.value.id && (Live(s1, p) ==> Owns(s1.cell, s.cell.job.value.id))
    {
      KillTouches(s1, c, dies, code, p);
      if Live(s1, p) {
        LiveIsOwned(s1, p);
      }
    }
  }

  lemma KillNeedsJob(s: State, c: nat, dies: bool, code: int)
    requires DoKill(s, c, dies, code).Some?
    ensures c in s.cancels && s.cancels[c].Killing?
    ensures |DoKill(s, c, dies, code).value.workers| == |s.workers|
  {
  }
}
