/** When a claimed update job can be given back, and what a late cancel leaves behind. */
module UpdateRelease {
  import opened Wrappers
  import opened UpdateProtocol
  import opened UpdateSafety

  /** The job of handler `t` is over: a new update can be claimed. */
  ghost predicate ReleasedBy(s: State, steps: seq<Step>) {
    Run(s, steps).Some? && Run(s, steps).value.cell.job.None?
  }

  /** How many of its own steps a handler is from clearing its job. */
  function Rank(pc: Handler): nat {
    match pc
    case StoppingService(_) => 11
    case StoppingTimer(_) => 10
    case Spawning(_) => 9
    case Attaching(_, _) => 8
    case KillingOwn(_, _) => 7
    case Joining(_, _) => 7
    case Checking(_, _) => 6
    case Reading(_, _) => 5
    case Recording(_, _) => 4
    case Restoring(_, _) => 3
    case Clearing(_, _) => 2
    case QuiesceFailed(_) => 1
    case _ => 0
  }

  function NextStep(s: State, t: nat): Step
    requires t in s.handlers
  {
    match s.handlers[t]
    case StoppingService(_) => StopService(t, true, false)
    case StoppingTimer(_) => StopTimer(t, true, false, false)
    case Spawning(_) => Spawn(t)
    case Attaching(_, _) => Attach(t)
    case KillingOwn(_, _) => KillOwn(t, true, -15)
    case Joining(_, _) => Join(t)
    case Checking(_, _) => Check(t)
    case Reading(_, _) => Read(t, true)
    case Recording(_, _) => Record(t)
    case Restoring(_, _) => Restore(t, true)
    case Clearing(_, _) => Clear(t)
    case QuiesceFailed(_) => GiveUp(t)
    case _ => Claim(t)
  }

  ghost predicate Working(s: State, t: nat) {
    t in s.handlers && s.handlers[t].Active() && !s.handlers[t].Abandoned?
  }

  /** The worker a joining handler waits for has exited. */
  ghost predicate Unblocked(s: State, t: nat) {
    t in s.handlers &&
    (s.handlers[t].Joining? ==>
       s.handlers[t].pid < |s.workers| && s.workers[s.handlers[t].pid].status.Dead?)
  }

  lemma NextStepEnabled(s: State, t: nat)
    requires Inv(s) && Working(s, t) && Unblocked(s, t)
    ensures Apply(s, NextStep(s, t)).Some?
  {
    var o :| InvWith(s, o);
    assert o == Some(t) && Workers(s, o);
  }

  /** The handler works on and is closer to the end. */
  ghost predicate Advances(s: State, s': State, t: nat)
    requires t in s.handlers
  {
    Working(s', t) && Rank(s'.handlers[t]) < Rank(s.handlers[t])
  }

  lemma EarlyStepAdvances(s: State, t: nat)
    requires Working(s, t) && Apply(s, NextStep(s, t)).Some? && Rank(s.handlers[t]) > 7
    ensures Advances(s, Apply(s, NextStep(s, t)).value, t)
  {
  }

  lemma LateStepAdvances(s: State, t: nat)
    requires Working(s, t) && Apply(s, NextStep(s, t)).Some? && 2 < Rank(s.handlers[t]) <= 7
    ensures Advances(s, Apply(s, NextStep(s, t)).value, t)
  {
  }

  lemma NextStepAdvances(s: State, t: nat)
    requires Working(s, t) && Apply(s, NextStep(s, t)).Some?
    requires !s.handlers[t].Clearing? && !s.handlers[t].QuiesceFailed?
    ensures Advances(s, Apply(s, NextStep(s, t)).value, t)
  {
    if Rank(s.handlers[t]) > 7 {
      EarlyStepAdvances(s, t);
    } else {
      LateStepAdvances(s, t);
    }
  }

  /** Whether the timer runs once the handler is through. */
  predicate TimerAfter(pc: Handler, before: bool, after: bool) {
    if pc.Clearing? || pc.QuiesceFailed? then after == before else after
  }

  lemma RestoreStarts(s: State, t: nat)
    requires Working(s, t) && Apply(s, NextStep(s, t)).Some? && s.handlers[t].Restoring?
    ensures var s' := Apply(s, NextStep(s, t)).value; s'.handlers[t].Clearing? && s'.timerRunning
  {
  }

  lemma EarlierStays(s: State, t: nat)
    requires Working(s, t) && Apply(s, NextStep(s, t)).Some? && Rank(s.handlers[t]) > 3
    ensures var s' := Apply(s, NextStep(s, t)).value; !s'.handlers[t].Clearing? && !s'.handlers[t].QuiesceFailed?
  {
  }

  lemma LastStepReleases(s: State, t: nat)
    requires Working(s, t) && Owns(s.cell, s.handlers[t].id)
    requires s.handlers[t].Clearing? || s.handlers[t].QuiesceFailed?
    ensures ReleasedBy(s, [NextStep(s, t)]) && Run(s, [NextStep(s, t)]).value.timerRunning == s.timerRunning
  {
    var st := NextStep(s, t);
    var s' := Apply(s, st).value;
    assert [st][1..] == [] && Run(s', []) == Some(s');
  }

  lemma Exited(s: State, t: nat)
    requires Inv(s) && Working(s, t) && !Unblocked(s, t)
    ensures var st := Exit(s.handlers[t].pid, 1, None);
      Apply(s, st).Some? && Unblocked(Apply(s, st).value, t)
      && Apply(s, st).value.handlers == s.handlers
  {
  }

  /** From any state of its work a handler can run to the end and free the cell; unless the units could not be
      stopped, the timer runs again then. */
  lemma {:induction false} WorkingCanRelease(s: State, t: nat) returns (steps: seq<Step>)
    requires Inv(s) && Working(s, t)
    ensures ReleasedBy(s, steps)
    ensures TimerAfter(s.handlers[t], s.timerRunning, Run(s, steps).value.timerRunning)
    decreases Rank(s.handlers[t]), if Unblocked(s, t) then 0 else 1
  {
    var o :| InvWith(s, o);
    if s.handlers[t].Clearing? || s.handlers[t].QuiesceFailed? {
      LastStepReleases(s, t);
      return [NextStep(s, t)];
    }
    var st := if Unblocked(s, t) then NextStep(s, t) else Exit(s.handlers[t].pid, 1, None);
    if Unblocked(s, t) {
      NextStepEnabled(s, t);
      NextStepAdvances(s, t);
      if s.handlers[t].Restoring? {
        RestoreStarts(s, t);
      } else {
        EarlierStays(s, t);
      }
    } else {
      Exited(s, t);
    }
    StepKeepsInv(s, st);
    var rest := WorkingCanRelease(Apply(s, st).value, t);
    steps := [st] + rest;
    assert steps[1..] == rest;
  }

  ghost predicate Stuck(s: State, t: nat) {
    t in s.handlers && s.handlers[t].Abandoned?
  }

  predicate OfHandler(st: Step) {
    !st.PostCancel? && !st.Mark? && !st.Kill? && !st.Exit?
  }

  lemma NoHandlerMoves(s: State, st: Step)
    requires Apply(s, st).Some? && !OfHandler(st)
    ensures Apply(s, st).value.handlers == s.handlers && Apply(s, st).value.timerRunning == s.timerRunning
  {
  }

  lemma OneHandlerMoves(s: State, t: nat, st: Step)
    requires t in s.handlers && Apply(s, st).Some? && OfHandler(st) && st.h != t
    ensures t in Apply(s, st).value.handlers && Apply(s, st).value.handlers[t] == s.handlers[t]
  {
  }

  lemma StuckStays(s: State, t: nat, st: Step)
    requires Stuck(s, t) && OfHandler(st) && st.h == t
    ensures Apply(s, st) == None
  {
  }

  /** Only the owner touches the timer. */
  lemma TimerStays(s: State, t: nat, st: Step)
    requires Inv(s) && Stuck(s, t) && Apply(s, st).Some? && OfHandler(st) && st.h != t
    ensures Apply(s, st).value.timerRunning == s.timerRunning
  {
    var o :| InvWith(s, o);
    assert o == Some(t);
    assert st.h in s.handlers ==> !s.handlers[st.h].Active();
  }

  lemma StuckStep(s: State, t: nat, st: Step)
    requires Inv(s) && Stuck(s, t) && Apply(s, st).Some?
    ensures Stuck(Apply(s, st).value, t)
    ensures Apply(s, st).value.handlers[t] == s.handlers[t]
    ensures Apply(s, st).value.timerRunning == s.timerRunning
  {
    if !OfHandler(st) {
      NoHandlerMoves(s, st);
    } else {
      if st.h == t {
        StuckStays(s, t, st);
      }
      OneHandlerMoves(s, t, st);
      TimerStays(s, t, st);
    }
  }

  lemma {:induction false} StuckForever(s: State, t: nat, steps: seq<Step>)
    requires Inv(s) && Stuck(s, t) && Run(s, steps).Some?
    ensures Stuck(Run(s, steps).value, t) && Run(s, steps).value.handlers[t] == s.handlers[t]
    ensures Run(s, steps).value.timerRunning == s.timerRunning
    decreases |steps|
  {
    if steps != [] {
      StepKeepsInv(s, steps[0]);
      StuckStep(s, t, steps[0]);
      StuckForever(Apply(s, steps[0]).value, t, steps[1..]);
    }
  }

  /**
   A claimed job can still be given back exactly as long as its handler has not been
   left by an exception between claiming and finishing.
   */
  lemma {:induction false} ReleasableIffNotAbandoned(s: State)
    requires Reachable(s) && s.cell.job.Some?
    ensures (exists steps :: ReleasedBy(s, steps)) <==> !exists t :: Stuck(s, t)
  {
    ReachableInv(s);
    MutualExclusion(s);
    var t :| t in s.handlers && s.handlers[t].Active();
    if Stuck(s, t) {
      forall steps ensures !ReleasedBy(s, steps) {
        if ReleasedBy(s, steps) {
          StuckForever(s, t, steps);
          RunKeepsInv(s, steps);
          assert false;
        }
      }
    } else {
      var steps := WorkingCanRelease(s, t);
      assert ReleasedBy(s, steps);
    }
  }

  /**
   An exception between claiming and finishing keeps the job, the timer as it was, stopped if the
   units were quiesced, and every later update request refused, whatever happens next.
   */
  lemma {:induction false} AbandonedWedgesTheServer(s: State, t: nat, steps: seq<Step>, h: nat)
    requires Reachable(s) && Stuck(s, t) && Run(s, steps).Some?
    ensures var s' := Run(s, steps).value;
      && Owns(s'.cell, s.handlers[t].id)
      && s'.timerRunning == s.timerRunning && (s.handlers[t].quiesced ==> !s.timerRunning)
      && (DoClaim(s', h).Some? ==>
            DoClaim(s', h).value.handlers[h] == Answered && DoClaim(s', h).value.cell == s'.cell)
  {
    ReachableInv(s);
    StuckForever(s, t, steps);
    RunKeepsInv(s, steps);
  }

  lemma RunSplit(s: State, a: seq<Step>, b: seq<Step>)
    requires Run(s, a).Some?
    ensures Run(s, a + b) == Run(Run(s, a).value, b)
    decreases |a|
  {
    if a == [] {
      assert a + b == b;
    } else {
      assert (a + b)[1..] == a[1..] + b;
      RunSplit(Apply(s, a[0]).value, a[1..], b);
    }
  }

  // ------------------------------------------------------------------- concrete runs

  const CLAIM := [Post(0), Claim(0)]
  const QUIESCE := [StopService(0, true, false), StopTimer(0, true, false, false)]
  const START := [Spawn(0), Attach(0)]
  const END := [Exit(0, 0, Some(true)), Join(0)]
  const CANCEL := [PostCancel(0), Mark(0)]
  const READ := [Read(0, true), Record(0)]
  const SUCCESS := Outcome(true, NoError)

  const START_CELL := Cell(Some(Job(1, None, false)), None, 2)
  const RUN_CELL := Cell(Some(Job(1, Some(0), false)), None, 2)
  const MARKED_CELL := Cell(Some(Job(1, Some(0), true)), None, 2)

  /** One handler and at most one cancel, behind the given units. */
  function Alone(c: Cell, units: bool, h: Handler, cancels: map<nat, Cancel>, ws: seq<Worker>): State {
    State(c, units, units, map[0 := h], cancels, ws, {}, {}, map[])
  }

  const CLAIMED := Alone(START_CELL, true, StoppingService(1), map[], [])
  const SPAWNING := Alone(START_CELL, false, Spawning(1), map[], [])
  const JOINING := Alone(RUN_CELL, false, Joining(1, 0), map[], [Worker(1, Alive)])
  const CHECKING := Alone(RUN_CELL, false, Checking(1, 0), map[], [DONE])
  const CHECKED := Alone(RUN_CELL, false, Reading(1, 0), map[], [DONE])
  const MARKED := Alone(MARKED_CELL, false, Reading(1, 0), map[0 := Killing(0)], [DONE])
  const CANCELLED_LATE := Alone(MARKED_CELL, false, Reading(1, 0), map[0 := Replied(true)], [DONE])
  const DONE := Worker(1, Dead(0, Some(true)))

  const RECORDED := Alone(MARKED_CELL.(last := Some(SUCCESS)), false, Restoring(1, SUCCESS),
                          map[0 := Replied(true)], [DONE]).(outcomes := map[1 := SUCCESS])

  lemma OneStep(s: State, a: Step, m: State)
    requires Apply(s, a) == Some(m)
    ensures Run(s, [a]) == Some(m)
  {
    assert [a][1..] == [] && Run(m, []) == Some(m);
  }

  /** A two-step run, its middle state given. */
  lemma TwoSteps(s: State, a: Step, m: State, b: Step, n: State)
    requires Apply(s, a) == Some(m) && Apply(m, b) == Some(n)
    ensures Run(s, [a, b]) == Some(n)
  {
    OneStep(m, b, n);
    assert [a, b][1..] == [b];
  }

  lemma Then(s: State, a: seq<Step>, m: State, b: seq<Step>, n: State)
    requires Run(s, a) == Some(m) && Run(m, b) == Some(n)
    ensures Run(s, a + b) == Some(n)
  {
    RunSplit(s, a, b);
  }

  lemma ReachesClaimed()
    ensures Run(Init(true, true), CLAIM) == Some(CLAIMED)
  {
    var i := Init(true, true);
    var s1 := i.(handlers := map[0 := Claiming]);
    assert DoPost(i, 0) == Some(s1);
    assert s1.handlers[0 := StoppingService(1)] == CLAIMED.handlers;
    assert DoClaim(s1, 0) == Some(CLAIMED);
    TwoSteps(i, Post(0), s1, Claim(0), CLAIMED);
  }

  lemma ReachesSpawning()
    ensures Run(CLAIMED, QUIESCE) == Some(SPAWNING)
  {
    var s1 := CLAIMED.(serviceRunning := false, handlers := map[0 := StoppingTimer(1)]);
    assert CLAIMED.handlers[0 := StoppingTimer(1)] == s1.handlers;
    assert DoStopService(CLAIMED, 0, true, false) == Some(s1);
    assert s1.handlers[0 := Spawning(1)] == SPAWNING.handlers;
    assert DoStopTimer(s1, 0, true, false, false) == Some(SPAWNING);
    TwoSteps(CLAIMED, StopService(0, true, false), s1, StopTimer(0, true, false, false), SPAWNING);
  }

  lemma ReachesJoining()
    ensures Run(SPAWNING, START) == Some(JOINING)
  {
    var s1 := SPAWNING.(handlers := map[0 := Attaching(1, 0)], workers := [Worker(1, Alive)]);
    assert SPAWNING.handlers[0 := Attaching(1, 0)] == s1.handlers;
    assert [] + [Worker(1, Alive)] == s1.workers;
    assert DoSpawn(SPAWNING, 0) == Some(s1);
    assert s1.handlers[0 := Joining(1, 0)] == JOINING.handlers;
    assert DoAttach(s1, 0) == Some(JOINING);
    TwoSteps(SPAWNING, Spawn(0), s1, Attach(0), JOINING);
  }

  lemma ReachesChecking()
    ensures Run(JOINING, END) == Some(CHECKING)
  {
    var s1 := JOINING.(workers := [DONE]);
    assert JOINING.workers[0 := DONE] == s1.workers;
    assert DoExit(JOINING, 0, 0, Some(true)) == Some(s1);
    assert s1.handlers[0 := Checking(1, 0)] == CHECKING.handlers;
    assert DoJoin(s1, 0) == Some(CHECKING);
    TwoSteps(JOINING, Exit(0, 0, Some(true)), s1, Join(0), CHECKING);
  }

  lemma ReachesChecked()
    ensures Run(CHECKING, [Check(0)]) == Some(CHECKED)
  {
    assert CHECKING.handlers[0 := Reading(1, 0)] == CHECKED.handlers;
    assert DoCheck(CHECKING, 0) == Some(CHECKED);
    OneStep(CHECKING, Check(0), CHECKED);
  }

  lemma ReachesMarked()
    ensures Run(CHECKED, CANCEL) == Some(MARKED)
  {
    var s1 := CHECKED.(cancels := map[0 := Marking]);
    assert DoPostCancel(CHECKED, 0) == Some(s1);
    assert EarlyJobs(s1) == {} && s1.early + {} == {};
    assert s1.cancels[0 := Killing(0)] == MARKED.cancels;
    assert DoMark(s1, 0) == Some(MARKED);
    TwoSteps(CHECKED, PostCancel(0), s1, Mark(0), MARKED);
  }

  lemma ReachesCancelledLate()
    ensures Run(MARKED, [Kill(0, true, -15)]) == Some(CANCELLED_LATE)
  {
    assert MARKED.cancels[0 := Replied(true)] == CANCELLED_LATE.cancels;
    assert DoKill(MARKED, 0, true, -15) == Some(CANCELLED_LATE);
    OneStep(MARKED, Kill(0, true, -15), CANCELLED_LATE);
  }

  lemma ReachesRecorded()
    ensures Run(CANCELLED_LATE, READ) == Some(RECORDED)
  {
    var s1 := CANCELLED_LATE.(handlers := map[0 := Recording(1, SUCCESS)]);
    assert CANCELLED_LATE.handlers[0 := Recording(1, SUCCESS)] == s1.handlers;
    assert DoRead(CANCELLED_LATE, 0, true) == Some(s1);
    assert s1.handlers[0 := Restoring(1, SUCCESS)] == RECORDED.handlers;
    assert DoRecord(s1, 0) == Some(RECORDED);
    TwoSteps(CANCELLED_LATE, Read(0, true), s1, Record(0), RECORDED);
  }

  lemma QuiescedRun()
    ensures Run(Init(true, true), CLAIM + QUIESCE) == Some(SPAWNING)
  {
    ReachesClaimed();
    ReachesSpawning();
    Then(Init(true, true), CLAIM, CLAIMED, QUIESCE, SPAWNING);
  }

  lemma CheckedRun() returns (steps: seq<Step>)
    ensures Run(Init(true, true), steps) == Some(CHECKED)
  {
    QuiescedRun();
    ReachesJoining();
    ReachesChecking();
    ReachesChecked();
    Then(JOINING, END, CHECKING, [Check(0)], CHECKED);
    Then(SPAWNING, START, JOINING, END + [Check(0)], CHECKED);
    steps := (CLAIM + QUIESCE) + (START + (END + [Check(0)]));
    Then(Init(true, true), CLAIM + QUIESCE, SPAWNING, START + (END + [Check(0)]), CHECKED);
  }

  /**
   "Not lost" needs the mark to come early: a later cancel answers
   `{"cancelled": true}` although the update is recorded as a success.
   */
  lemma {:induction false} LateCancelMayBeLost()
    ensures exists steps :: Run(Init(true, true), steps) == Some(RECORDED)
    ensures RECORDED.cancels[0] == Replied(true) && RECORDED.outcomes[1].ok && 1 !in RECORDED.early
  {
    var steps := CheckedRun();
    ReachesMarked();
    ReachesCancelledLate();
    ReachesRecorded();
    Then(MARKED, [Kill(0, true, -15)], CANCELLED_LATE, READ, RECORDED);
    Then(CHECKED, CANCEL, MARKED, [Kill(0, true, -15)] + READ, RECORDED);
    Then(Init(true, true), steps, CHECKED, CANCEL + ([Kill(0, true, -15)] + READ), RECORDED);
  }

  /** Both kinds of abandoned handler do occur: before the units are quiesced, with the timer left
      running, and afterwards, with the timer stopped for good. */
  lemma {:induction false} AbandonedIsReachable(quiesced: bool)
    ensures exists s :: Reachable(s) && Stuck(s, 0) && s.handlers[0].quiesced == quiesced
                        && s.timerRunning == !quiesced
  {
    var before := if quiesced then SPAWNING else CLAIMED;
    var steps := if quiesced then CLAIM + QUIESCE else CLAIM;
    if quiesced {
      QuiescedRun();
    } else {
      ReachesClaimed();
    }
    var s := DoRaise(before, 0, true, true).value;
    OneStep(before, Raise(0, true, true), s);
    Then(Init(true, true), steps, before, [Raise(0, true, true)], s);
    assert Reachable(s) && Stuck(s, 0);
  }
}
