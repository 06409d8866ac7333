/** The connection that the stores of one database file share (storage/sqlite_storage.py). */
module SharedConnection {
  import opened Wrappers

  type Store = nat
  type Thread = nat

  /** The registry's entry for the file: a connection and how many references were handed out. */
  datatype Entry = Entry(conn: nat, refs: nat)

  /** One file: the registry entry, the connection each store holds, the open connections, the thread
      inside an open transaction, and the `with` blocks of the thread that owns the lock, outermost first. */
  datatype File = File(entry: Option<Entry>, held: map<Store, nat>, open: set<nat>, next: nat,
                       transaction: Option<Thread>, owner: Option<Thread>, blocks: seq<Store>)

  const CLOSED := File(None, map[], {}, 0, None, None, [])

  // ------------------------------------------------------------------- the registry

  /** `_shared_connection`: one more reference, or a new connection. */
  function Shared(f: File): File {
    if f.entry.Some? then f.(entry := Some(f.entry.value.(refs := f.entry.value.refs + 1)))
    else f.(entry := Some(Entry(f.next, 1)), open := f.open + {f.next}, next := f.next + 1)
  }

  /** `_release_connection`: the last reference closes the connection, and with it its transaction. */
  function Released(f: File): File {
    if f.entry.None? then f
    else if f.entry.value.refs > 1 then f.(entry := Some(f.entry.value.(refs := f.entry.value.refs - 1)))
    else f.(entry := None, open := f.open - {f.entry.value.conn}, transaction := None)
  }

  // ----------------------------------------------------------------------- the stores

  /** `connect`: a store that is connected stays so; creating its table commits, and where that
      fails the reference is given back. */
  function Connected(f: File, s: Store, fails: bool): File {
    if s in f.held then f
    else
      var g := Shared(f);
      if fails then Released(g) else g.(held := g.held[s := g.entry.value.conn], transaction := None)
  }

  /** `close` */
  function Closed(f: File, s: Store): File {
    if s !in f.held then f else Released(f.(held := f.held - {s}))
  }

  /** `__enter__`: it fails where the table cannot be made or a transaction is already open. */
  function Entered(f: File, t: Thread, s: Store, fails: bool): File {
    var g := Connected(f, s, fails);
    if s !in g.held || g.transaction.Some? then g
    else g.(transaction := Some(t), owner := Some(t), blocks := g.blocks + [s])
  }

  predicate Enters(f: File, s: Store, fails: bool) {
    s in Connected(f, s, fails).held && Connected(f, s, fails).transaction.None?
  }

  /** `__exit__`: the transaction ends if the store still holds the connection. */
  function Exited(f: File, s: Store): File
    requires f.blocks != []
  {
    var g := if s in f.held then f.(transaction := None) else f;
    var rest := f.blocks[..|f.blocks| - 1];
    Closed(g, s).(blocks := rest, owner := if rest == [] then None else f.owner)
  }

  /** `commit` */
  function Committed(f: File, s: Store): File {
    if s in f.held then f.(transaction := None) else f
  }

  // ------------------------------------------------------------------------------ steps

  datatype Step =
    | Connect(t: Thread, s: Store, fails: bool)
    | Close(t: Thread, s: Store)
    | Enter(t: Thread, s: Store, fails: bool)
    | Exit(t: Thread, s: Store)
    | Commit(t: Thread, s: Store)
    | Statement(t: Thread, s: Store, fails: bool)

  /** A thread runs under the file's lock; a `with` block ends innermost first. */
  predicate Enabled(f: File, step: Step) {
    && (f.owner == None || f.owner == Some(step.t))
    && (step.Exit? ==> f.owner == Some(step.t) && f.blocks != [] && f.blocks[|f.blocks| - 1] == step.s)
  }

  function Apply(f: File, step: Step): File
    requires Enabled(f, step)
  {
    match step
    case Connect(_, s, fails) => Connected(f, s, fails)
    case Close(_, s) => Closed(f, s)
    case Enter(t, s, fails) => Entered(f, t, s, fails)
    case Exit(_, s) => Exited(f, s)
    case Commit(_, s) => Committed(f, s)
    case Statement(_, s, fails) => Connected(f, s, fails)
  }

  predicate CanRun(f: File, steps: seq<Step>)
    decreases |steps|
  {
    steps == [] || (Enabled(f, steps[0]) && CanRun(Apply(f, steps[0]), steps[1..]))
  }

  function Run(f: File, steps: seq<Step>): File
    requires CanRun(f, steps)
    decreases |steps|
  {
    if steps == [] then f else Run(Apply(f, steps[0]), steps[1..])
  }

  // ------------------------------------------------------------------------- counting

  /** The count is the number of stores that hold a connection; they all hold the same one, which is
      the only open one; without any, nothing is open. */
  ghost predicate Counted(f: File) {
    && (f.entry.Some? <==> f.held != map[])
    && (f.entry.Some? ==>
          f.entry.value.refs == |f.held| && f.open == {f.entry.value.conn} && f.entry.value.conn < f.next)
    && (forall s :: s in f.held ==> f.entry.Some? && f.held[s] == f.entry.value.conn)
    && (f.entry.None? ==> f.open == {} && f.transaction == None)
    && (f.owner.Some? <==> f.blocks != [])
  }

  lemma {:induction false} HeldSize(held: map<Store, nat>, s: Store, c: nat)
    ensures s in held ==> |held - {s}| == |held| - 1
    ensures s in held ==> (held - {s} == map[] <==> |held| == 1)
    ensures s !in held ==> |held[s := c]| == |held| + 1
  {
    assert held - {s} == map k | k in held && k != s :: held[k];
    assert (held - {s}).Keys == held.Keys - {s};
    assert held[s := c].Keys == held.Keys + {s};
    if s in held && |held| == 1 {
      assert |(held - {s}).Keys| == 0;
    }
  }

  lemma {:induction false} ConnectedCounts(f: File, s: Store, fails: bool)
    requires Counted(f)
    ensures Counted(Connected(f, s, fails))
    ensures fails ==> Connected(f, s, fails).(next := f.next) == f
    ensures !fails ==> s in Connected(f, s, fails).held
  {
    HeldSize(f.held, s, Shared(f).entry.value.conn);
  }

  lemma {:induction false} ClosedCounts(f: File, s: Store)
    requires Counted(f)
    ensures Counted(Closed(f, s)) && s !in Closed(f, s).held
    ensures Closed(f, s).open == {} <==> f.held.Keys <= {s}
  {
    HeldSize(f.held, s, 0);
    if s in f.held && f.held.Keys <= {s} {
      assert f.held.Keys == {s};
    }
    if s !in f.held && f.held.Keys <= {s} {
      assert f.held.Keys == {};
    }
    if s in f.held && |f.held| == 1 {
      assert |f.held.Keys - {s}| == 0;
    }
  }

  /** Every step keeps the count; the connection closes exactly when its last holder lets go. */
  lemma {:induction false} StepCounts(f: File, step: Step)
    requires Counted(f) && Enabled(f, step)
    ensures Counted(Apply(f, step))
  {
    match step
    case Connect(_, s, fails) => ConnectedCounts(f, s, fails);
    case Close(_, s) => ClosedCounts(f, s);
    case Enter(t, s, fails) => ConnectedCounts(f, s, fails);
    case Exit(_, s) => ClosedCounts(if s in f.held then f.(transaction := None) else f, s);
    case Commit(_, s) =>
    case Statement(_, s, fails) => ConnectedCounts(f, s, fails);
  }

  lemma {:induction false} RunCounts(f: File, steps: seq<Step>)
    requires Counted(f) && CanRun(f, steps)
    ensures Counted(Run(f, steps))
    decreases |steps|
  {
    if steps != [] {
      StepCounts(f, steps[0]);
      RunCounts(Apply(f, steps[0]), steps[1..]);
    }
  }

  // ------------------------------------------------------------------------ transactions

  /** A transaction is open only while its thread owns the lock. */
  predicate Guarded(f: File) {
    f.transaction.Some? ==> f.owner == f.transaction
  }

  /** The outermost block ends while its store holds no connection and a transaction is open. */
  predicate Leaks(f: File, step: Step) {
    step.Exit? && |f.blocks| == 1 && step.s !in f.held && f.transaction.Some?
  }

  /** A step leaves the transaction unguarded exactly when it leaks it. */
  lemma {:induction false} StepGuardsIff(f: File, step: Step)
    requires Counted(f) && Guarded(f) && Enabled(f, step)
    ensures Guarded(Apply(f, step)) <==> !Leaks(f, step)
  {
    match step
    case Connect(_, s, fails) => ConnectedCounts(f, s, fails);
    case Close(_, s) =>
    case Enter(t, s, fails) => ConnectedCounts(f, s, fails);
    case Exit(_, s) =>
    case Commit(_, s) =>
    case Statement(_, s, fails) => ConnectedCounts(f, s, fails);
  }

  predicate NoLeak(f: File, steps: seq<Step>)
    requires CanRun(f, steps)
    decreases |steps|
  {
    steps == [] || (!Leaks(f, steps[0]) && NoLeak(Apply(f, steps[0]), steps[1..]))
  }

  /** Some thread can run a statement while another thread's transaction is open. */
  ghost predicate Open(f: File) {
    exists t, s, fails :: Intrudes(f, Statement(t, s, fails))
  }

  /** The statement can run now, and lands inside another thread's transaction. A store without a
      connection would connect first, which commits. */
  predicate Intrudes(f: File, step: Step) {
    step.Statement? && Enabled(f, step) && step.s in f.held
    && f.transaction.Some? && f.transaction != Some(step.t)
  }

  /** A statement can land inside another thread's transaction exactly while that is unguarded. */
  lemma {:induction false} OpenIff(f: File)
    requires Counted(f)
    ensures Open(f) <==> !Guarded(f)
  {
    if !Guarded(f) {
      var t := if f.owner.Some? then f.owner.value else f.transaction.value + 1;
      var s :| s in f.held;
      assert Intrudes(f, Statement(t, s, false));
    }
  }

  /** After a leak the next statement of any other thread lands in the transaction, through every store that
      is connected; one that has to connect first ends the transaction, which was not its own. */
  lemma {:induction false} LeakAdmitsIntrusion(f: File, step: Step, t: Thread, s: Store, fails: bool)
    requires Counted(f) && Enabled(f, step) && Leaks(f, step) && f.transaction != Some(t)
    ensures var g := Apply(f, step);
            && g.held != map[] && Enabled(g, Statement(t, s, fails))
            && (s in g.held ==> Intrudes(g, Statement(t, s, fails)))
            && (s !in g.held && !fails ==> Apply(g, Statement(t, s, fails)).transaction == None)
  {
  }

  /** The state after the first `n` steps. */
  function StateAt(f: File, steps: seq<Step>, n: nat): File
    requires CanRun(f, steps) && n <= |steps|
    decreases n
  {
    if n == 0 then f else StateAt(Apply(f, steps[0]), steps[1..], n - 1)
  }

  lemma {:induction false} GuardedThroughout(f: File, steps: seq<Step>, n: nat)
    requires Counted(f) && Guarded(f) && CanRun(f, steps) && NoLeak(f, steps) && n <= |steps|
    ensures Counted(StateAt(f, steps, n)) && Guarded(StateAt(f, steps, n))
    decreases n
  {
    if n > 0 {
      StepCounts(f, steps[0]);
      StepGuardsIff(f, steps[0]);
      GuardedThroughout(Apply(f, steps[0]), steps[1..], n - 1);
    }
  }

  lemma {:induction false} LeakUnguards(f: File, steps: seq<Step>) returns (n: nat)
    requires Counted(f) && Guarded(f) && CanRun(f, steps) && !NoLeak(f, steps)
    ensures n <= |steps| && Counted(StateAt(f, steps, n)) && !Guarded(StateAt(f, steps, n))
    decreases |steps|
  {
    StepCounts(f, steps[0]);
    StepGuardsIff(f, steps[0]);
    if Leaks(f, steps[0]) {
      n := 1;
      assert StateAt(f, steps, 1) == StateAt(Apply(f, steps[0]), steps[1..], 0);
    } else {
      n := LeakUnguards(Apply(f, steps[0]), steps[1..]);
      n := n + 1;
    }
  }

  /** No thread's statement can land inside another thread's transaction at any point of a run, exactly
      when no step of the run leaks. */
  lemma {:induction false} NoStatementIntrudesIff(f: File, steps: seq<Step>)
    requires Counted(f) && Guarded(f) && CanRun(f, steps)
    ensures NoLeak(f, steps) <==> forall n | 0 <= n <= |steps| :: !Open(StateAt(f, steps, n))
  {
    if NoLeak(f, steps) {
      forall n | 0 <= n <= |steps| ensures !Open(StateAt(f, steps, n)) {
        GuardedThroughout(f, steps, n);
        OpenIff(StateAt(f, steps, n));
      }
    } else {
      var n := LeakUnguards(f, steps);
      OpenIff(StateAt(f, steps, n));
    }
  }

  // --------------------------------------------------------------------- careful callers

  /** No store is closed inside its own innermost block. */
  predicate Careful(f: File, step: Step) {
    step.Close? && f.blocks != [] ==> f.blocks[|f.blocks| - 1] != step.s
  }

  predicate CarefulRun(f: File, steps: seq<Step>)
    requires CanRun(f, steps)
    decreases |steps|
  {
    steps == [] || (Careful(f, steps[0]) && CarefulRun(Apply(f, steps[0]), steps[1..]))
  }

  /** An open transaction belongs to the innermost block, and that block's store is connected. */
  predicate Backed(f: File) {
    f.transaction.Some? ==> f.blocks != [] && f.blocks[|f.blocks| - 1] in f.held
  }

  lemma {:induction false} CarefulStep(f: File, step: Step)
    requires Counted(f) && Backed(f) && Enabled(f, step) && Careful(f, step)
    ensures Backed(Apply(f, step)) && !Leaks(f, step)
  {
    match step
    case Connect(_, s, fails) => ConnectedCounts(f, s, fails);
    case Close(_, s) =>
    case Enter(t, s, fails) => ConnectedCounts(f, s, fails);
    case Exit(_, s) =>
    case Commit(_, s) =>
    case Statement(_, s, fails) => ConnectedCounts(f, s, fails);
  }

  /** As long as no thread closes a store inside that store's innermost block, nothing leaks. */
  lemma {:induction false} CarefulRunsAreSafe(f: File, steps: seq<Step>)
    requires Counted(f) && Backed(f) && CanRun(f, steps) && CarefulRun(f, steps)
    ensures NoLeak(f, steps)
    decreases |steps|
  {
    if steps != [] {
      StepCounts(f, steps[0]);
      CarefulStep(f, steps[0]);
      CarefulRunsAreSafe(Apply(f, steps[0]), steps[1..]);
    }
  }

  /** Closing a store inside its own outermost block makes the end of the block leak exactly when another
      store keeps the connection open. */
  lemma {:induction false} CloseInsideLeaksIff(f: File, t: Thread, s: Store)
    requires Counted(f) && f.blocks == [s] && f.owner == f.transaction == Some(t) && s in f.held
    ensures Enabled(f, Close(t, s)) && Enabled(Closed(f, s), Exit(t, s))
    ensures Leaks(Closed(f, s), Exit(t, s)) <==> exists o :: o in f.held && o != s
  {
    HeldSize(f.held, s, 0);
    if o :| o in f.held && o != s {
      assert o in f.held - {s};
    } else {
      assert f.held - {s} == map[];
    }
  }

  /** Two stores, and one is closed inside its own block: from nothing to a statement in another
      thread's transaction. */
  lemma {:induction false} ClosingInsideLeaks()
    ensures var steps := [Connect(1, 1, false), Enter(1, 0, false), Close(1, 0), Exit(1, 0)];
            CanRun(CLOSED, steps) && !NoLeak(CLOSED, steps) && Intrudes(Run(CLOSED, steps), Statement(2, 1, false))
  {
    var f1 := File(Some(Entry(0, 1)), map[1 := 0], {0}, 1, None, None, []);
    var f2 := File(Some(Entry(0, 2)), map[1 := 0, 0 := 0], {0}, 1, Some(1), Some(1), [0]);
    var f3 := File(Some(Entry(0, 1)), map[1 := 0], {0}, 1, Some(1), Some(1), [0]);
    var f4 := f3.(owner := None, blocks := []);
    assert {} + {0} == {0} && [] + [0] == [0] && [0][..0] == [];
    assert Apply(CLOSED, Connect(1, 1, false)) == f1 && Apply(f1, Enter(1, 0, false)) == f2;
    assert map[1 := 0, 0 := 0] - {0} == map[1 := 0];
    assert Apply(f2, Close(1, 0)) == f3 && Apply(f3, Exit(1, 0)) == f4;
    LeakAtFourth(CLOSED, f1, f2, f3, Connect(1, 1, false), Enter(1, 0, false), Close(1, 0), Exit(1, 0));
  }

  lemma {:induction false} LeakAtFourth(f: File, f1: File, f2: File, f3: File, a: Step, b: Step, c: Step, d: Step)
    requires Enabled(f, a) && Enabled(f1, b) && Enabled(f2, c) && Enabled(f3, d) && Leaks(f3, d)
    requires f1 == Apply(f, a) && f2 == Apply(f1, b) && f3 == Apply(f2, c)
    ensures CanRun(f, [a, b, c, d]) && !NoLeak(f, [a, b, c, d]) && Run(f, [a, b, c, d]) == Apply(f3, d)
  {
    RunCons(f3, d, []);
    RunCons(f2, c, [d]);
    RunCons(f1, b, [c, d]);
    RunCons(f, a, [b, c, d]);
    assert [a] + [b, c, d] == [a, b, c, d] && [b] + [c, d] == [b, c, d] && [c] + [d] == [c, d] && [d] + [] == [d];
  }

  lemma {:induction false} RunCons(f: File, step: Step, rest: seq<Step>)
    requires Enabled(f, step) && CanRun(Apply(f, step), rest)
    ensures var steps := [step] + rest;
            && CanRun(f, steps) && Run(f, steps) == Run(Apply(f, step), rest)
            && (NoLeak(f, steps) <==> !Leaks(f, step) && NoLeak(Apply(f, step), rest))
  {
    assert ([step] + rest)[1..] == rest;
  }

  // -------------------------------------------------------------------- begin and end

  /** A block begins its own thread's transaction with its store connected; it is refused where the table cannot
      be made or a transaction is open. */
  lemma {:induction false} EnterBegins(f: File, t: Thread, s: Store, fails: bool)
    requires Counted(f)
    ensures var g := Entered(f, t, s, fails);
            && (Enters(f, s, fails) <==> if s in f.held then f.transaction == None else !fails)
            && (Enters(f, s, fails) ==>
                  g.transaction == Some(t) && g.owner == Some(t) && g.blocks == f.blocks + [s] && s in g.held)
            && (!Enters(f, s, fails) ==> g.transaction == f.transaction && g.owner == f.owner && g.blocks == f.blocks
                                         && g.held == f.held)
  {
    ConnectedCounts(f, s, fails);
  }

  /** The end of a block ends the transaction and lets the store's connection go; where the store has none, the
      transaction is left as it is. */
  lemma {:induction false} ExitEnds(f: File, s: Store)
    requires Counted(f) && f.blocks != []
    ensures var g := Exited(f, s);
            && s !in g.held && (forall o :: o != s ==> (o in g.held <==> o in f.held))
            && (s in f.held ==> g.transaction == None)
            && (s !in f.held ==> g.transaction == f.transaction && g.held == f.held)
            && g.blocks == f.blocks[..|f.blocks| - 1] && (g.owner == None <==> |f.blocks| == 1)
  {
    ClosedCounts(if s in f.held then f.(transaction := None) else f, s);
  }

  /** A commit through a connected store ends the transaction and changes nothing else; a statement through one
      changes nothing; a store that connects commits. */
  lemma {:induction false} CommitEnds(f: File, s: Store, fails: bool)
    ensures s in f.held ==> Committed(f, s) == f.(transaction := None) && Connected(f, s, fails) == f
    ensures s !in f.held ==> Committed(f, s) == f
    ensures Counted(f) && s !in f.held && !fails ==>
              Connected(f, s, fails).transaction == None && s in Connected(f, s, fails).held
  {
  }

  // ---------------------------------------------------------------------- the stores' code

  /** The stores of one file as they run: the registry and the fields are updated in place. */
  class Database {
    var entry: Option<Entry>
    var held: map<Store, nat>
    var open: set<nat>
    var next: nat
    var transaction: Option<Thread>
    var owner: Option<Thread>
    var blocks: seq<Store>

    ghost function State(): File
      reads this
    {
      File(entry, held, open, next, transaction, owner, blocks)
    }

    constructor ()
      ensures State() == CLOSED && Counted(State()) && Guarded(State()) && Backed(State())
    {
      entry, held, open, next, transaction, owner, blocks := None, map[], {}, 0, None, None, [];
    }

    method ShareConnection() returns (conn: nat)
      modifies `entry, `open, `next
      ensures State() == Shared(old(State())) && entry.Some? && conn == entry.value.conn
    {
      if entry.Some? {
        entry := Some(Entry(entry.value.conn, entry.value.refs + 1));
      } else {
        entry, open, next := Some(Entry(next, 1)), open + {next}, next + 1;
      }
      conn := entry.value.conn;
    }

    method ReleaseConnection()
      modifies `entry, `open, `transaction
      ensures State() == Released(old(State()))
    {
      if entry == None {
        return;
      }
      if entry.value.refs > 1 {
        entry := Some(Entry(entry.value.conn, entry.value.refs - 1));
        return;
      }
      open, transaction := open - {entry.value.conn}, None;
      entry := None;
    }

    method ConnectStore(s: Store, fails: bool) returns (ok: bool)
      requires Counted(State())
      modifies this
      ensures State() == Connected(old(State()), s, fails) && Counted(State())
      ensures ok == (s in held)
    {
      ConnectedCounts(State(), s, fails);
      if s in held {
        return true;
      }
      ok := ConnectNew(s, fails);
    }

    /** The store takes the shared connection, and gives it back where its table cannot be made. */
    method ConnectNew(s: Store, fails: bool) returns (ok: bool)
      requires s !in held
      modifies this
      ensures State() == Connected(old(State()), s, fails) && ok == !fails
    {
      ghost var before := State();
      var conn := ShareConnection();
      held := held[s := conn];
      if fails {
        held := held - {s};
        assert held == before.held;
        ReleaseConnection();
        return false;
      }
      transaction := None;
      ok := true;
    }

    method CloseStore(s: Store)
      requires Counted(State())
      modifies this
      ensures State() == Closed(old(State()), s) && Counted(State())
      ensures open == {} <==> old(held.Keys) <= {s}
    {
      ClosedCounts(State(), s);
      if s in held {
        held := held - {s};
        ReleaseConnection();
      }
    }

    method EnterBlock(t: Thread, s: Store, fails: bool) returns (ok: bool)
      requires Counted(State()) && Enabled(State(), Enter(t, s, fails))
      modifies this
      ensures State() == Entered(old(State()), t, s, fails) && Counted(State())
      ensures ok == Enters(old(State()), s, fails)
    {
      StepCounts(State(), Enter(t, s, fails));
      ok := ConnectStore(s, fails);
      if ok && transaction.Some? {
        ok := false;
      }
      if ok {
        transaction, owner, blocks := Some(t), Some(t), blocks + [s];
      }
    }

    method ExitBlock(t: Thread, s: Store)
      requires Counted(State()) && Enabled(State(), Exit(t, s))
      modifies this
      ensures State() == Exited(old(State()), s) && Counted(State())
    {
      StepCounts(State(), Exit(t, s));
      if s in held {
        transaction := None;
      }
      CloseStore(s);
      blocks := blocks[..|blocks| - 1];
      if blocks == [] {
        owner := None;
      }
    }
  }
}
