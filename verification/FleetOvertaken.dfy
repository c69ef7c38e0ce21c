/**
 A run in which a superseded process is promoted again: its reconcile check read
 the registry just before the next revision registered, and the answer arrived
 after a fence had already read the loss and stopped the boss.
 */
module FleetOvertaken {
  import opened Wrappers
  import opened Fleet
  import R = Registry
  import S = SchedulerProtocol

  /** Some run ends in this state. */
  ghost predicate Reachable(f: State) {
    exists states: seq<State>, events: seq<Event> :: Behavior(states, events) && states[|events|] == f
  }

  lemma Reach(f: State, e: Event) returns (g: State)
    requires Reachable(f) && Enabled(f, e)
    ensures g == Apply(f, e) && Reachable(g)
  {
    g := Apply(f, e);
    var states: seq<State>, events: seq<Event> :| Behavior(states, events) && states[|events|] == f;
    Extend(states, events, e);
    assert (states + [g])[|events + [e]|] == g;
  }

  lemma Extend(states: seq<State>, events: seq<Event>, e: Event)
    requires Behavior(states, events) && Enabled(states[|events|], e)
    ensures Behavior(states + [Apply(states[|events|], e)], events + [e])
  {
  }

  lemma RegistryReach(f: State, p: nat, step: R.Step) returns (g: State)
    requires Reachable(f) && R.Enabled(f.registry, R.Event(p, step))
    ensures g == f.(registry := R.Apply(f.registry, R.Event(p, step))) && Reachable(g)
  {
    g := Reach(f, RegistryStep(R.Event(p, step)));
  }

  lemma ReachableAscends(f: State)
    requires Reachable(f)
    ensures R.Ascending(f.registry.rows)
  {
    var states: seq<State>, events: seq<Event> :| Behavior(states, events) && states[|events|] == f;
    InvAt(states, events, |events|);
  }

  /** A first registration that nothing disturbs, up to the drawing of its generation. */
  lemma DrawUndisturbed(f: State, p: nat) returns (g: State, created: bool, n: nat, next: nat)
    requires Reachable(f) && p in f.registry.clients && f.registry.lock.None?
    requires f.registry.clients[p].registration.NotRegistered? && f.registry.clients[p].tx.NoTransaction?
    ensures Reachable(g) && g == f.(registry := g.registry)
    ensures g.registry ==
      R.State(f.registry.tableExists, f.registry.rows, next, Some(p), f.registry.clients[p :=
                R.Client(f.registry.clients[p].revision, R.Pending, R.Drawn(created, n))])
  {
    var f1 := RegistryReach(f, p, R.RegisterCall);
    var f2 := RegistryReach(f1, p, R.AcquireLock);
    var f3 := RegistryReach(f2, p, R.EnsureTable);
    g := RegistryReach(f3, p, R.DrawGeneration);
    created, n, next := !f.registry.tableExists, f3.registry.nextGeneration, g.registry.nextGeneration;
    assert g.registry.clients == f.registry.clients[p := g.registry.clients[p]];
  }

  /** A first registration that nothing disturbs adds its row and is acknowledged. */
  lemma RegisterUndisturbed(f: State, p: nat) returns (g: State, n: nat, next: nat)
    requires Reachable(f) && p in f.registry.clients && f.registry.lock.None?
    requires f.registry.clients[p].registration.NotRegistered? && f.registry.clients[p].tx.NoTransaction?
    requires !R.HasRevision(f.registry.rows, f.registry.clients[p].revision)
    ensures Reachable(g) && g == f.(registry := g.registry)
    ensures g.registry ==
      R.State(true, f.registry.rows + [R.Row(n, f.registry.clients[p].revision)], next, None, f.registry.clients[p :=
                R.Client(f.registry.clients[p].revision, R.Registered, R.NoTransaction)])
  {
    var f4, _, m, k := DrawUndisturbed(f, p);
    n, next := m, k;
    g := CommitUndisturbed(f4, p);
    assert g.registry.clients == f.registry.clients[p := g.registry.clients[p]];
  }

  /** A drawn registration with a new revision, once it is acknowledged. */
  function Committed(r: R.State, p: nat): R.State
    requires p in r.clients && r.clients[p].tx.Drawn?
  {
    var c := r.clients[p];
    R.State(true, r.rows + [R.Row(c.tx.generation, c.revision)], r.nextGeneration, None,
            r.clients[p := R.Client(c.revision, R.Registered, R.NoTransaction)])
  }

  /** And from there to its acknowledgement. */
  lemma CommitUndisturbed(f: State, p: nat) returns (g: State)
    requires Reachable(f) && p in f.registry.clients && f.registry.lock == Some(p)
    requires f.registry.clients[p].registration.Pending? && f.registry.clients[p].tx.Drawn?
    requires !R.HasRevision(f.registry.rows, f.registry.clients[p].revision)
    ensures Reachable(g) && g == f.(registry := g.registry)
    ensures g.registry == Committed(f.registry, p)
  {
    var f5 := RegistryReach(f, p, R.Insert);
    var f6 := RegistryReach(f5, p, R.Commit);
    g := RegistryReach(f6, p, R.Acknowledge);
    assert g.registry.clients == f.registry.clients[p := g.registry.clients[p]];
  }

  const OLD: nat := 0
  const NEW: nat := 1

  function Fresh(revision: string): R.Client {
    R.Client(revision, R.NotRegistered, R.NoTransaction)
  }

  /** Two processes of two revisions, nothing registered yet. */
  function TwoProcesses(): State {
    State(R.State(false, [], 0, None, map[OLD := Fresh("r1"), NEW := Fresh("r2")]),
          map[OLD := Process(S.Init(true), map[], {}), NEW := Process(S.Init(true), map[], {})],
          [])
  }

  /** The scheduler of the old process while its reconcile check and the fence of a batch are pending. */
  function Checked(): S.State {
    S.State(true, S.Instances(Some(0), [0], 0), true, true, false, S.StartDone, S.Checking, S.NotRequested,
            map[0 := S.AwaitingOwnership(1)], [])
  }

  /** The scheduler of the old process once it has started. */
  function Started(): S.State {
    S.State(true, S.Instances(Some(0), [0], 0), true, false, false, S.StartDone, S.Idle, S.NotRequested, map[], [])
  }

  lemma BatchAndTick()
    ensures S.Enabled(Started(), S.BatchArrives(0, 1))
    ensures S.Enabled(S.Apply(Started(), S.BatchArrives(0, 1)), S.Tick)
    ensures S.Apply(S.Apply(Started(), S.BatchArrives(0, 1)), S.Tick) == Checked()
  {
  }

  lemma OldRegistered() returns (f: State, n: nat, next: nat)
    ensures Reachable(f) && f == TwoProcesses().(registry := f.registry)
    ensures f.registry == R.State(true, [R.Row(n, "r1")], next, None,
                                  map[OLD := R.Client("r1", R.Registered, R.NoTransaction), NEW := Fresh("r2")])
  {
    assert Behavior([TwoProcesses()], []);
    f, n, next := RegisterUndisturbed(TwoProcesses(), OLD);
  }

  lemma OldAsked() returns (f: State, n: nat)
    ensures Reachable(f) && f.registry.rows == [R.Row(n, "r1")] && f.registry.lock.None?
    ensures f.processes.Keys == {OLD, NEW} && f.processes[NEW] == Process(S.Init(true), map[], {})
    ensures f.registry.clients == map[OLD := R.Client("r1", R.Registered, R.NoTransaction), NEW := Fresh("r2")]
    ensures OLD in f.processes && f.log == [Read(OLD, StartCheck, true, n)]
    ensures f.processes[OLD] == Process(S.Init(true).(start := S.StartChecking), map[StartCheck := 0], {})
  {
    var f0, m, _ := OldRegistered();
    n := m;
    var f1 := Reach(f0, Local(OLD, S.StartCall));
    R.LatestIsLast(f1.registry.rows);
    f := Reach(f1, ReadOwnership(OLD, StartCheck));
  }

  /** The old process owns the jobs: its scheduler has started. */
  lemma OldStarted() returns (f: State, n: nat)
    ensures Reachable(f) && f.registry.rows == [R.Row(n, "r1")] && f.registry.lock.None?
    ensures f.processes.Keys == {OLD, NEW} && f.processes[NEW] == Process(S.Init(true), map[], {})
    ensures f.registry.clients == map[OLD := R.Client("r1", R.Registered, R.NoTransaction), NEW := Fresh("r2")]
    ensures OLD in f.processes && f.log == [Read(OLD, StartCheck, true, n)]
    ensures f.processes[OLD].answers == map[] && f.processes[OLD].scheduler == Started()
  {
    var f0, m := OldAsked();
    n := m;
    var f1 := Reach(f0, Deliver(OLD, StartCheck));
    f := Reach(f1, Local(OLD, S.StartOwnerSettled(true)));
  }

  /** Then a batch arrives, and its reconcile check reads true. */
  lemma OldChecking() returns (f: State, n: nat)
    ensures Reachable(f) && f.registry.rows == [R.Row(n, "r1")] && f.registry.lock.None?
    ensures f.processes.Keys == {OLD, NEW} && f.processes[NEW] == Process(S.Init(true), map[], {})
    ensures f.registry.clients == map[OLD := R.Client("r1", R.Registered, R.NoTransaction), NEW := Fresh("r2")]
    ensures OLD in f.processes && |f.log| == 2 && f.log[1].owner
    ensures f.processes[OLD].answers == map[ReconcileCheck := 1] && f.processes[OLD].scheduler == Checked()
  {
    var f0, m := OldStarted();
    n := m;
    BatchAndTick();
    var f1 := Reach(f0, Local(OLD, S.BatchArrives(0, 1)));
    var f2 := Reach(f1, Local(OLD, S.Tick));
    R.LatestIsLast(f2.registry.rows);
    f := Reach(f2, ReadOwnership(OLD, ReconcileCheck));
  }

  /** The new revision registers, and the fence of the old process reads the loss before it hears its check. */
  lemma OldFenced() returns (f: State)
    ensures Reachable(f) && R.LatestRevision(f.registry) == Some("r2")
    ensures f.processes.Keys == {OLD, NEW} && f.processes[NEW] == Process(S.Init(true), map[], {})
    ensures f.registry.clients.Keys == {OLD, NEW} && f.registry.clients[OLD].revision == "r1"
    ensures f.registry.clients[NEW] == R.Client("r2", R.Registered, R.NoTransaction)
    ensures OLD in f.processes && |f.log| == 3 && f.log[1].owner && !f.log[2].owner
    ensures f.processes[OLD].answers == map[ReconcileCheck := 1, BatchCheck(0) := 2]
    ensures f.processes[OLD].scheduler == Checked()
  {
    var f0, _ := OldChecking();
    assert f0.registry.rows[0].revision != "r2";
    var f1, _, _ := RegisterUndisturbed(f0, NEW);
    ReachableAscends(f1);
    R.LatestIsLast(f1.registry.rows);
    f := Reach(f1, ReadOwnership(OLD, BatchCheck(0)));
  }

  function Demoted(): S.State {
    Checked().(pool := S.Instances(None, [1], 1), batches := map[0 := S.Rejected])
  }

  lemma FenceDemotes()
    ensures S.Enabled(Checked(), S.FenceAnswer(0, S.Owned(false)))
    ensures S.Apply(Checked(), S.FenceAnswer(0, S.Owned(false))) == Demoted()
  {
  }

  lemma CheckPromotes()
    ensures S.Enabled(Demoted(), S.ReconcileAnswer(S.Owned(true)))
    ensures S.Apply(Demoted(), S.ReconcileAnswer(S.Owned(true))) ==
      Demoted().(pool := S.Instances(Some(1), [1, 0], 1), reconcile := S.Promoting(1))
  {
  }

  /** The fence hears the loss and stops the boss. */
  lemma OldDemoted() returns (f: State)
    ensures Reachable(f) && R.LatestRevision(f.registry) == Some("r2")
    ensures f.processes.Keys == {OLD, NEW} && f.processes[NEW] == Process(S.Init(true), map[], {})
    ensures f.registry.clients.Keys == {OLD, NEW} && f.registry.clients[OLD].revision == "r1"
    ensures f.registry.clients[NEW] == R.Client("r2", R.Registered, R.NoTransaction)
    ensures OLD in f.processes && |f.log| == 3 && f.log[1].owner
    ensures f.processes[OLD].answers == map[ReconcileCheck := 1]
    ensures f.processes[OLD].scheduler == Demoted()
  {
    var f0 := OldFenced();
    FenceDemotes();
    f := Reach(f0, Deliver(OLD, BatchCheck(0)));
    assert map[ReconcileCheck := 1, BatchCheck(0) := 2] - {BatchCheck(0)} == map[ReconcileCheck := 1];
  }

  /**
   The promotion branch fires for a revision that is no longer the latest, after
   its scheduler was demoted: two instances of it were created.
   */
  lemma SupersededProcessPromoted() returns (f: State)
    ensures Reachable(f) && OLD in f.processes && OLD in f.registry.clients
    ensures f.processes.Keys == {OLD, NEW} && f.processes[NEW] == Process(S.Init(true), map[], {})
    ensures R.LatestRevision(f.registry) == Some("r2") && f.registry.clients[OLD].revision == "r1"
    ensures NEW in f.registry.clients && f.registry.clients[NEW] == R.Client("r2", R.Registered, R.NoTransaction)
    ensures f.processes[OLD].scheduler.reconcile == S.Promoting(1)
    ensures f.processes[OLD].scheduler.pool == S.Instances(Some(1), [1, 0], 1)
  {
    var f0 := OldDemoted();
    CheckPromotes();
    f := Reach(f0, Deliver(OLD, ReconcileCheck));
  }

  /** While the old process is promoted again, the new one is told that it owns the jobs, and starts too. */
  lemma BothStarting() returns (f: State)
    ensures Reachable(f) && f.processes.Keys == {OLD, NEW}
    ensures R.LatestRevision(f.registry) == Some("r2") && OLD in f.registry.clients
    ensures f.registry.clients[OLD].revision == "r1"
    ensures f.processes[OLD].scheduler.reconcile.Promoting? && f.processes[OLD].scheduler.pool.Created() == 2
    ensures f.processes[NEW].scheduler.start == S.StartOwning(0) && f.processes[NEW].scheduler.pool.Created() == 1
  {
    var f0 := SupersededProcessPromoted();
    var f1 := Reach(f0, Local(NEW, S.StartCall));
    var f2 := Reach(f1, ReadOwnership(NEW, StartCheck));
    f := Reach(f2, Deliver(NEW, StartCheck));
  }
}
