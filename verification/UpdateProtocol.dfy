/**
 The endpoint-update protocol of the dashboard server
 (visual/web/backend/serve.py): update and cancel requests share one job cell.

 Every section under the lock is one atomic step, and so is every slow action
 outside it (systemctl calls, spawn, join, kill).  A run is any sequence of
 enabled steps of any number of requests.
 */
module UpdateProtocol {
  import opened Wrappers

  // ---------------------------------------------------------------- the job cell

  datatype Error = NoError | Cancelled | Silent | Reported | Crashed

  /** The recorded `{"ok", "error"}` pair. */
  datatype Outcome = Outcome(ok: bool, error: Error)

  datatype Job = Job(id: nat, process: Option<nat>, terminated: bool)

  /** The module globals guarded by the lock. */
  datatype Cell = Cell(job: Option<Job>, last: Option<Outcome>, nextId: nat)

  predicate Owns(c: Cell, id: nat) {
    c.job.Some? && c.job.value.id == id
  }

  function Claimed(c: Cell): Cell {
    if c.job.Some? then c
    else c.(job := Some(Job(c.nextId, None, false)), nextId := c.nextId + 1)
  }

  function Attached(c: Cell, id: nat, pid: nat): Cell {
    if Owns(c, id) then c.(job := Some(c.job.value.(process := Some(pid)))) else c
  }

  /** Whether the freshly spawned worker must be killed straight away. */
  predicate SpawnedIntoCancel(c: Cell, id: nat) {
    Owns(c, id) ==> c.job.value.terminated
  }

  predicate JobTerminated(c: Cell, id: nat) {
    Owns(c, id) && c.job.value.terminated
  }

  function Recorded(c: Cell, o: Outcome): Cell {
    c.(last := Some(o))
  }

  function Cleared(c: Cell, id: nat): Cell {
    if Owns(c, id) then c.(job := None) else c
  }

  function Marked(c: Cell): Cell {
    if c.job.Some? then c.(job := Some(c.job.value.(terminated := true))) else c
  }

  /** The lock-guarded globals, changed in place by the lock sections. */
  class UpdateJobs {
    var job: Option<Job>
    var last: Option<Outcome>
    var nextId: nat

    function View(): Cell
      reads this
    {
      Cell(job, last, nextId)
    }

    constructor ()
      ensures View() == Cell(None, None, 1)
    {
      job, last, nextId := None, None, 1;
    }

    method Claim() returns (claim: Option<nat>)
      modifies this
      ensures View() == Claimed(old(View()))
      ensures claim == if old(job).Some? then None else Some(old(nextId))
    {
      if job.Some? {
        return None;
      }
      claim := Some(nextId);
      job := Some(Job(nextId, None, false));
      nextId := nextId + 1;
    }

    method Attach(id: nat, pid: nat) returns (spawnedIntoCancel: bool)
      modifies this`job
      ensures View() == Attached(old(View()), id, pid)
      ensures spawnedIntoCancel == SpawnedIntoCancel(old(View()), id)
    {
      if job.Some? && job.value.id == id {
        job := Some(job.value.(process := Some(pid)));
        spawnedIntoCancel := job.value.terminated;
      } else {
        spawnedIntoCancel := true;
      }
    }

    method Terminated(id: nat) returns (r: bool)
      ensures r == JobTerminated(View(), id)
      ensures r ==> Owns(View(), id)
    {
      r := job.Some? && job.value.id == id && job.value.terminated;
    }

    method Record(ok: bool, error: Error)
      modifies this`last
      ensures View() == Recorded(old(View()), Outcome(ok, error))
      ensures last == Some(Outcome(ok, error)) && job == old(job) && nextId == old(nextId)
    {
      last := Some(Outcome(ok, error));
    }

    method Clear(id: nat)
      modifies this`job
      ensures View() == Cleared(old(View()), id)
      ensures !Owns(View(), id) && last == old(last) && nextId == old(nextId)
      ensures old(job).Some? && old(job).value.id != id ==> job == old(job)
    {
      if job.Some? && job.value.id == id {
        job := None;
      }
    }

    method MarkCancelled() returns (proc: Option<nat>)
      modifies this`job
      ensures View() == Marked(old(View()))
      ensures proc == if old(job).Some? then old(job).value.process else None
    {
      proc := None;
      if job.Some? {
        proc := job.value.process;
        job := Some(job.value.(terminated := true));
      }
    }
  }

  // ------------------------------------------------------------- the whole system

  /** Where the thread of one `POST /api/update` stands. */
  datatype Handler =
    | Claiming
    | StoppingService(id: nat)
    | StoppingTimer(id: nat)
    | QuiesceFailed(id: nat)
    | Spawning(id: nat)
    | Attaching(id: nat, pid: nat)
    | KillingOwn(id: nat, pid: nat)
    | Joining(id: nat, pid: nat)
    | Checking(id: nat, pid: nat)
    | Reading(id: nat, pid: nat)
    | Recording(id: nat, outcome: Outcome)
    | Restoring(id: nat, outcome: Outcome)
    | Clearing(id: nat, outcome: Outcome)
    | Abandoned(id: nat, quiesced: bool)  // an exception reached the blanket handler
    | Answered
  {
    /** Between claiming the job and clearing it. */
    predicate Active() { !Claiming? && !Answered? }

    /** The post-join check for a cancel is still ahead. */
    predicate BeforeCheck() {
      StoppingService? || StoppingTimer? || Spawning? || Attaching? ||
      KillingOwn? || Joining? || Checking?
    }

    predicate HasWorker() {
      Attaching? || KillingOwn? || Joining? || Checking? || Reading?
    }

    predicate AwaitsDeath() { Attaching? || KillingOwn? || Joining? }

    predicate Quiesced() {
      Spawning? || HasWorker() || Recording? || Restoring? || (Abandoned? && quiesced)
    }

    predicate Finishing() { Recording? || Restoring? || Clearing? }
  }

  /** Where the thread of one `POST /api/cancel` stands. */
  datatype Cancel = Marking | Killing(pid: nat) | Replied(cancelled: bool)

  datatype Status = Alive | Dead(code: int, result: Option<bool>)
  datatype Worker = Worker(job: nat, status: Status)

  /**
   Processes are numbered in spawn order.  `survivors` are those a kill did not
   end; `early` holds the jobs a cancel marked before their handler passed the
   post-join check, `outcomes` what was recorded for each job.
   */
  datatype State = State(
    cell: Cell,
    serviceRunning: bool,
    timerRunning: bool,
    handlers: map<nat, Handler>,
    cancels: map<nat, Cancel>,
    workers: seq<Worker>,
    survivors: set<nat>,
    early: set<nat>,
    outcomes: map<nat, Outcome>)

  function Init(service: bool, timer: bool): State {
    State(Cell(None, None, 1), service, timer, map[], map[], [], {}, {}, map[])
  }

  /**
   One atomic step.  The extra arguments are what the environment decides: whether
   a systemctl call succeeded and what it left running, whether a kill took, how a
   worker exited.
   */
  datatype Step =
    | Post(h: nat)
    | Claim(h: nat)
    | StopService(h: nat, ok: bool, service: bool)
    | StopTimer(h: nat, ok: bool, service: bool, timer: bool)
    | GiveUp(h: nat)
    | Spawn(h: nat)
    | Attach(h: nat)
    | KillOwn(h: nat, dies: bool, code: int)
    | Join(h: nat)
    | Check(h: nat)
    | Read(h: nat, received: bool)
    | Raise(h: nat, service: bool, timer: bool)
    | Record(h: nat)
    | Restore(h: nat, timer: bool)
    | Clear(h: nat)
    | PostCancel(c: nat)
    | Mark(c: nat)
    | Kill(c: nat, dies: bool, code: int)
    | Exit(p: nat, code: int, result: Option<bool>)

  // Each step yields `None` when it is not enabled.

  function DoPost(s: State, h: nat): Option<State> {
    if h in s.handlers then None else Some(s.(handlers := s.handlers[h := Claiming]))
  }

  function DoClaim(s: State, h: nat): Option<State> {
    if h !in s.handlers || !s.handlers[h].Claiming? then None
    else
      var next := if s.cell.job.Some? then Answered else StoppingService(s.cell.nextId);
      Some(s.(cell := Claimed(s.cell), handlers := s.handlers[h := next]))
  }

  function DoStopService(s: State, h: nat, ok: bool, service: bool): Option<State> {
    if h !in s.handlers || !s.handlers[h].StoppingService? then None
    else
      var id := s.handlers[h].id;
      var next := if ok then StoppingTimer(id) else QuiesceFailed(id);
      Some(s.(serviceRunning := !ok && service, handlers := s.handlers[h := next]))
  }

  /** On failure the service is restarted on a best-effort basis. */
  function DoStopTimer(s: State, h: nat, ok: bool, service: bool, timer: bool): Option<State> {
    if h !in s.handlers || !s.handlers[h].StoppingTimer? then None
    else
      var id := s.handlers[h].id;
      var next := if ok then Spawning(id) else QuiesceFailed(id);
      Some(s.(serviceRunning := if ok then s.serviceRunning else service,
              timerRunning := !ok && timer,
              handlers := s.handlers[h := next]))
  }

  function DoGiveUp(s: State, h: nat): Option<State> {
    if h !in s.handlers || !s.handlers[h].QuiesceFailed? then None
    else Some(s.(cell := Cleared(s.cell, s.handlers[h].id), handlers := s.handlers[h := Answered]))
  }

  function DoSpawn(s: State, h: nat): Option<State> {
    if h !in s.handlers || !s.handlers[h].Spawning? then None
    else
      var id := s.handlers[h].id;
      Some(s.(workers := s.workers + [Worker(id, Alive)],
              handlers := s.handlers[h := Attaching(id, |s.workers|)]))
  }

  /**
   An action outside the lock raises something that only the blanket handler catches: a
   `PermissionError` of systemctl, which may have done its work or not, or any exception while
   spawning, killing, joining or receiving.
   */
  function DoRaise(s: State, h: nat, service: bool, timer: bool): Option<State> {
    if h !in s.handlers then None
    else
      var pc := s.handlers[h];
      if pc.StoppingService? then
        Some(s.(serviceRunning := service, handlers := s.handlers[h := Abandoned(pc.id, false)]))
      else if pc.StoppingTimer? then
        Some(s.(serviceRunning := service, timerRunning := timer, handlers := s.handlers[h := Abandoned(pc.id, false)]))
      else if pc.Spawning? || pc.KillingOwn? || pc.Joining? || pc.Reading? then
        Some(s.(handlers := s.handlers[h := Abandoned(pc.id, true)]))
      else None
  }

  function DoAttach(s: State, h: nat): Option<State> {
    if h !in s.handlers || !s.handlers[h].Attaching? then None
    else
      var id, pid := s.handlers[h].id, s.handlers[h].pid;
      var next := if SpawnedIntoCancel(s.cell, id) then KillingOwn(id, pid) else Joining(id, pid);
      Some(s.(cell := Attached(s.cell, id, pid), handlers := s.handlers[h := next]))
  }

  /** SIGTERM, then SIGKILL: the process ends unless it outlives both. */
  function Terminate(s: State, p: nat, dies: bool, code: int): State
    requires p < |s.workers|
  {
    if !s.workers[p].status.Alive? then s
    else if dies then s.(workers := s.workers[p := s.workers[p].(status := Dead(code, None))])
    else s.(survivors := s.survivors + {p})
  }

  function DoKillOwn(s: State, h: nat, dies: bool, code: int): Option<State> {
    if h !in s.handlers || !s.handlers[h].KillingOwn? || code == 0
       || s.handlers[h].pid >= |s.workers| then None
    else
      var next := Recording(s.handlers[h].id, Outcome(false, Cancelled));
      Some(Terminate(s, s.handlers[h].pid, dies, code).(handlers := s.handlers[h := next]))
  }

  function DoJoin(s: State, h: nat): Option<State> {
    if h !in s.handlers || !s.handlers[h].Joining? || s.handlers[h].pid >= |s.workers|
       || s.workers[s.handlers[h].pid].status.Alive? then None
    else Some(s.(handlers := s.handlers[h := Checking(s.handlers[h].id, s.handlers[h].pid)]))
  }

  function DoCheck(s: State, h: nat): Option<State> {
    if h !in s.handlers || !s.handlers[h].Checking? then None
    else
      var id, pid := s.handlers[h].id, s.handlers[h].pid;
      var next := if JobTerminated(s.cell, id) then Recording(id, Outcome(false, Cancelled))
                  else Reading(id, pid);
      Some(s.(handlers := s.handlers[h := next]))
  }

  /** What the handler makes of a worker that was not cancelled. */
  function Verdict(w: Status, received: bool): Outcome {
    if w.Dead? && w.code == 0 then
      if !received || w.result.None? then Outcome(false, Silent)
      else if w.result.value then Outcome(true, NoError)
      else Outcome(false, Reported)
    else Outcome(false, Crashed)
  }

  function DoRead(s: State, h: nat, received: bool): Option<State> {
    if h !in s.handlers || !s.handlers[h].Reading? || s.handlers[h].pid >= |s.workers| then None
    else
      var verdict := Verdict(s.workers[s.handlers[h].pid].status, received);
      Some(s.(handlers := s.handlers[h := Recording(s.handlers[h].id, verdict)]))
  }

  function DoRecord(s: State, h: nat): Option<State> {
    if h !in s.handlers || !s.handlers[h].Recording? then None
    else
      var id, o := s.handlers[h].id, s.handlers[h].outcome;
      Some(s.(cell := Recorded(s.cell, o), outcomes := s.outcomes[id := o],
              handlers := s.handlers[h := Restoring(id, o)]))
  }

  /** A failed restart is only logged, so the timer may end up either way. */
  function DoRestore(s: State, h: nat, timer: bool): Option<State> {
    if h !in s.handlers || !s.handlers[h].Restoring? then None
    else Some(s.(timerRunning := timer,
                 handlers := s.handlers[h := Clearing(s.handlers[h].id, s.handlers[h].outcome)]))
  }

  function DoClear(s: State, h: nat): Option<State> {
    if h !in s.handlers || !s.handlers[h].Clearing? then None
    else Some(s.(cell := Cleared(s.cell, s.handlers[h].id), handlers := s.handlers[h := Answered]))
  }

  function DoPostCancel(s: State, c: nat): Option<State> {
    if c in s.cancels then None else Some(s.(cancels := s.cancels[c := Marking]))
  }

  /** The jobs whose post-join check is still ahead. */
  function EarlyJobs(s: State): set<nat> {
    set t | t in s.handlers && s.handlers[t].BeforeCheck() :: s.handlers[t].id
  }

  function DoMark(s: State, c: nat): Option<State> {
    if c !in s.cancels || !s.cancels[c].Marking? then None
    else
      var proc := if s.cell.job.Some? then s.cell.job.value.process else None;
      var next := if proc.Some? then Killing(proc.value) else Replied(false);
      Some(s.(cell := Marked(s.cell), early := s.early + EarlyJobs(s),
              cancels := s.cancels[c := next]))
  }

  function DoKill(s: State, c: nat, dies: bool, code: int): Option<State> {
    if c !in s.cancels || !s.cancels[c].Killing? || code == 0
       || s.cancels[c].pid >= |s.workers| then None
    else Some(Terminate(s, s.cancels[c].pid, dies, code).(cancels := s.cancels[c := Replied(true)]))
  }

  function DoExit(s: State, p: nat, code: int, result: Option<bool>): Option<State> {
    if p >= |s.workers| || !s.workers[p].status.Alive? then None
    else Some(s.(workers := s.workers[p := s.workers[p].(status := Dead(code, result))]))
  }

  function Apply(s: State, st: Step): (r: Option<State>) {
    match st
    case Post(h) => DoPost(s, h)
    case Claim(h) => DoClaim(s, h)
    case StopService(h, ok, service) => DoStopService(s, h, ok, service)
    case StopTimer(h, ok, service, timer) => DoStopTimer(s, h, ok, service, timer)
    case GiveUp(h) => DoGiveUp(s, h)
    case Spawn(h) => DoSpawn(s, h)
    case Raise(h, service, timer) => DoRaise(s, h, service, timer)
    case Attach(h) => DoAttach(s, h)
    case KillOwn(h, dies, code) => DoKillOwn(s, h, dies, code)
    case Join(h) => DoJoin(s, h)
    case Check(h) => DoCheck(s, h)
    case Read(h, received) => DoRead(s, h, received)
    case Record(h) => DoRecord(s, h)
    case Restore(h, timer) => DoRestore(s, h, timer)
    case Clear(h) => DoClear(s, h)
    case PostCancel(c) => DoPostCancel(s, c)
    case Mark(c) => DoMark(s, c)
    case Kill(c, dies, code) => DoKill(s, c, dies, code)
    case Exit(p, code, result) => DoExit(s, p, code, result)
  }

  /** The state after a run, `None` when some step was not enabled. */
  function Run(s: State, steps: seq<Step>): (r: Option<State>)
    decreases |steps|
  {
    if steps == [] then Some(s)
    else match Apply(s, steps[0])
      case None => None
      case Some(s') => Run(s', steps[1..])
  }
}
