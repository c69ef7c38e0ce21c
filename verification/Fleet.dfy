/**
 The whole deployment: any number of processes of any revisions, each running one
 scheduler whose `isOwned` is its tracker's `isLatest`, over one shared registry.

 An ownership check has three steps: it is issued, the database reads the latest
 revision, and the answer is delivered to the suspended task. Other tasks and
 processes run between them, and answers may be delivered in another order than
 they were read, since a tracker queries over a pool of connections.
 */
module Fleet {
  import R = Registry
  import S = SchedulerProtocol

  /** The ownership checks a scheduler can have pending. */
  datatype Check = StartCheck | ReconcileCheck | BatchCheck(batch: nat)

  /** One read of the registry: who asked, whether it was told it owns the jobs, and its generation if so. */
  datatype Read = Read(process: nat, check: Check, owner: bool, generation: nat)

  /**
   A process: its scheduler, the read that answers each pending check that was
   already read, and the reads delivered so far (both as indices of the read log).
   */
  datatype Process = Process(scheduler: S.State, answers: map<Check, nat>, delivered: set<nat>)

  datatype State = State(registry: R.State, processes: map<nat, Process>, log: seq<Read>)

  /** Process `p` registers as client `p` of the registry. */
  ghost predicate Init(f: State) {
    && R.Init(f.registry)
    && f.processes.Keys == f.registry.clients.Keys
    && f.log == []
    && forall p :: p in f.processes ==> f.processes[p] == Process(S.Init(true), map[], {})
  }

  datatype Event =
    | RegistryStep(step: R.Event)
    | Local(process: nat, event: S.Event)
    | ReadOwnership(process: nat, check: Check)
    | Deliver(process: nat, check: Check)
    | Reject(process: nat, check: Check)

  predicate Pending(s: S.State, c: Check) {
    match c
    case StartCheck => s.start.StartChecking?
    case ReconcileCheck => s.reconcile.Checking?
    case BatchCheck(b) => b in s.batches && s.batches[b].AwaitingOwnership?
  }

  function AnswerEvent(c: Check, a: S.Answer): S.Event {
    match c
    case StartCheck => S.StartAnswer(a)
    case ReconcileCheck => S.ReconcileAnswer(a)
    case BatchCheck(b) => S.FenceAnswer(b, a)
  }

  predicate IsAnswer(e: S.Event) {
    e.StartAnswer? || e.ReconcileAnswer? || e.FenceAnswer?
  }

  predicate Enabled(f: State, e: Event) {
    match e
    case RegistryStep(r) => R.Enabled(f.registry, r)
    case Local(p, l) =>
      // A scheduler is started only after its revision was registered.
      && p in f.processes && p in f.registry.clients
      && S.Enabled(f.processes[p].scheduler, l) && !IsAnswer(l)
      && (l.StartCall? ==> f.registry.clients[p].registration.Registered?)
    case ReadOwnership(p, c) =>
      && p in f.processes && p in f.registry.clients
      && Pending(f.processes[p].scheduler, c) && c !in f.processes[p].answers
    case Deliver(p, c) =>
      && p in f.processes && Pending(f.processes[p].scheduler, c)
      && c in f.processes[p].answers && f.processes[p].answers[c] < |f.log|
    case Reject(p, c) => p in f.processes && Pending(f.processes[p].scheduler, c)
  }

  /** What the database answers to process `p` now. */
  function ReadNow(f: State, p: nat, c: Check): Read
    requires p in f.registry.clients
  {
    match R.Latest(f.registry.rows)
    case None => Read(p, c, false, 0)
    case Some(row) =>
      if row.revision == f.registry.clients[p].revision then Read(p, c, true, row.generation) else Read(p, c, false, 0)
  }

  /** Process `proc` after the answer `a` of check `c` reached it. */
  function Answered(proc: Process, c: Check, a: S.Answer): Process
    requires Pending(proc.scheduler, c)
  {
    proc.(scheduler := S.Apply(proc.scheduler, AnswerEvent(c, a)), answers := proc.answers - {c})
  }

  function Apply(f: State, e: Event): State
    requires Enabled(f, e)
  {
    match e
    case RegistryStep(r) => f.(registry := R.Apply(f.registry, r))
    case Local(p, l) =>
      f.(processes := f.processes[p := f.processes[p].(scheduler := S.Apply(f.processes[p].scheduler, l))])
    case ReadOwnership(p, c) =>
      f.(log := f.log + [ReadNow(f, p, c)],
         processes := f.processes[p := f.processes[p].(answers := f.processes[p].answers[c := |f.log|])])
    case Deliver(p, c) =>
      var proc := f.processes[p];
      var k := proc.answers[c];
      f.(processes := f.processes[p := Answered(proc, c, S.Owned(f.log[k].owner)).(delivered := proc.delivered + {k})])
    case Reject(p, c) => f.(processes := f.processes[p := Answered(f.processes[p], c, S.CheckFailed)])
  }

  ghost predicate Behavior(states: seq<State>, events: seq<Event>) {
    && |states| == |events| + 1
    && Init(states[0])
    && forall i :: 0 <= i < |events| ==> Enabled(states[i], events[i]) && states[i + 1] == Apply(states[i], events[i])
  }

  // ------------------------------------------------- invariant of the read log

  /** A revision that registered and is not the last one to have done so. */
  ghost predicate Superseded(rows: seq<R.Row>, revision: string) {
    R.HasRevision(rows, revision) && rows[|rows| - 1].revision != revision
  }

  ghost predicate ReadBacked(rows: seq<R.Row>, clients: map<nat, R.Client>, r: Read) {
    && r.process in clients
    && (r.owner ==> R.Row(r.generation, clients[r.process].revision) in rows)
    && (!r.owner ==> Superseded(rows, clients[r.process].revision))
  }

  ghost predicate OwnersAscend(log: seq<Read>) {
    forall i, j :: 0 <= i < j < |log| && log[i].owner && log[j].owner ==> log[i].generation <= log[j].generation
  }

  /** A process once told it is not the owner is never told again that it is. */
  ghost predicate OneTermEach(log: seq<Read>) {
    forall i, j :: 0 <= i < j < |log| && log[i].process == log[j].process && log[j].owner ==> log[i].owner
  }

  ghost predicate ReadsInv(rows: seq<R.Row>, clients: map<nat, R.Client>, log: seq<Read>) {
    && (forall i :: 0 <= i < |log| ==> ReadBacked(rows, clients, log[i]))
    && OwnersAscend(log)
    && OneTermEach(log)
  }

  // --------------------------------------------------- invariant of one process

  ghost predicate IsReadOf(log: seq<Read>, k: nat, p: nat, c: Check, owner: bool) {
    k < |log| && log[k].process == p && log[k].check == c && log[k].owner == owner
  }

  /** Process `p` was told, by a read of the check of batch `b`, that it owns the jobs. */
  ghost predicate AdmittedByRead(log: seq<Read>, p: nat, b: nat) {
    exists k :: IsReadOf(log, k, p, BatchCheck(b), true)
  }

  /** An answer `owner` reached the process. */
  ghost predicate Heard(log: seq<Read>, delivered: set<nat>, owner: bool) {
    exists k :: k in delivered && k < |log| && log[k].owner == owner
  }

  ghost predicate ChecksRecorded(log: seq<Read>, p: nat, proc: Process) {
    && (forall c :: c in proc.answers ==>
          Pending(proc.scheduler, c) && proc.answers[c] < |log|
          && log[proc.answers[c]].process == p && log[proc.answers[c]].check == c)
    && (forall k :: k in proc.delivered ==> k < |log| && log[k].process == p)
  }

  ghost predicate BatchesAdmitted(log: seq<Read>, p: nat, s: S.State) {
    && (s.pool.Created() == 0 ==> s.batches == map[])
    && (forall b :: b in s.batches && s.batches[b].Handling? ==> AdmittedByRead(log, p, b))
    && (forall i :: 0 <= i < |s.handled| ==> AdmittedByRead(log, p, s.handled[i]))
  }

  /** While it is neither stopped nor starting, a scheduler without a boss has heard that it lost the jobs. */
  ghost predicate LossHeard(log: seq<Read>, proc: Process) {
    var s := proc.scheduler;
    && (s.pool.Created() > 0 ==> Heard(log, proc.delivered, true))
    && ((s.timer || s.start.StartOwning?) && !s.stopped && s.pool.boss.None? ==> Heard(log, proc.delivered, false))
    && ((s.timer || !s.reconcile.Idle?) && s.pool.Created() == 0 ==> Heard(log, proc.delivered, false))
    && (s.pool.Created() >= 2 ==> Heard(log, proc.delivered, false))
    && (s.reconcile.Promoting? ==> s.pool.Created() >= 2)
    && (!s.reconcile.Idle? && !s.stopped ==> s.timer)
  }

  /** What is known about a reconcile check that was read true and not yet delivered. */
  ghost predicate PromotionPossible(log: seq<Read>, proc: Process) {
    ReconcileCheck in proc.answers && proc.answers[ReconcileCheck] < |log| &&
      log[proc.answers[ReconcileCheck]].owner ==>
      && proc.scheduler.pool.Created() == 1
      && (Heard(log, proc.delivered, false) ==> proc.scheduler.pool.boss.None?)
  }

  ghost predicate ProcessInv(log: seq<Read>, p: nat, proc: Process) {
    && proc.scheduler.fenced
    && S.Inv(proc.scheduler)
    && ChecksRecorded(log, p, proc)
    && BatchesAdmitted(log, p, proc.scheduler)
    && LossHeard(log, proc)
    && PromotionPossible(log, proc)
    && proc.scheduler.pool.Created() <= 2
  }

  /** A scheduler runs only for a revision whose row is committed. */
  ghost predicate RunsRegistered(registry: R.State, p: nat, proc: Process) {
    p in registry.clients &&
      (!proc.scheduler.start.NotStarted? ==> R.HasRevision(registry.rows, registry.clients[p].revision))
  }

  ghost predicate AllRunRegistered(f: State) {
    forall p :: p in f.processes ==> RunsRegistered(f.registry, p, f.processes[p])
  }

  ghost predicate ProcessesInv(f: State) {
    forall p :: p in f.processes ==> ProcessInv(f.log, p, f.processes[p])
  }

  ghost predicate Inv(f: State) {
    && R.Inv(f.registry)
    && f.processes.Keys == f.registry.clients.Keys
    && ReadsInv(f.registry.rows, f.registry.clients, f.log)
    && AllRunRegistered(f)
    && ProcessesInv(f)
  }

  // ------------------------------------------------------------------- log step

  /** What the read log alone has to do with the registry. */
  ghost predicate LogInv(f: State) {
    && R.TableInv(f.registry)
    && f.processes.Keys == f.registry.clients.Keys
    && ReadsInv(f.registry.rows, f.registry.clients, f.log)
  }

  lemma ReadsKeptByRegistry(f: State, r: R.Event)
    requires LogInv(f) && R.Enabled(f.registry, r) && R.TableInv(R.Apply(f.registry, r))
    ensures var g := R.Apply(f.registry, r); ReadsInv(g.rows, g.clients, f.log)
  {
    var g := R.Apply(f.registry, r);
    R.RowsAppend(f.registry, r);
    forall i | 0 <= i < |f.log|
      ensures ReadBacked(g.rows, g.clients, f.log[i])
    {
      assert ReadBacked(f.registry.rows, f.registry.clients, f.log[i]);
      var revision := f.registry.clients[f.log[i].process].revision;
      if !f.log[i].owner {
        var k :| 0 <= k < |f.registry.rows| && f.registry.rows[k].revision == revision;
        assert g.rows[k].revision == revision;
      } else {
        var k :| 0 <= k < |f.registry.rows| && f.registry.rows[k] == R.Row(f.log[i].generation, revision);
        assert g.rows[k] == f.registry.rows[k];
      }
    }
  }

  lemma ReadNowBacked(f: State, p: nat, c: Check)
    requires LogInv(f) && p in f.processes && R.HasRevision(f.registry.rows, f.registry.clients[p].revision)
    ensures ReadBacked(f.registry.rows, f.registry.clients, ReadNow(f, p, c))
    ensures var last := f.registry.rows[|f.registry.rows| - 1];
      ReadNow(f, p, c).owner <==> last.revision == f.registry.clients[p].revision
    ensures ReadNow(f, p, c).owner ==> R.AllBelow(f.registry.rows, ReadNow(f, p, c).generation + 1)
  {
    R.LatestIsLast(f.registry.rows);
  }

  /** A read made now fits after a read made before. */
  lemma ReadFits(f: State, p: nat, c: Check, i: nat)
    requires LogInv(f) && p in f.processes && R.HasRevision(f.registry.rows, f.registry.clients[p].revision)
    requires i < |f.log| && ReadNow(f, p, c).owner
    ensures f.log[i].owner ==> f.log[i].generation <= ReadNow(f, p, c).generation
    ensures f.log[i].process == p ==> f.log[i].owner
  {
    ReadNowBacked(f, p, c);
    assert ReadBacked(f.registry.rows, f.registry.clients, f.log[i]);
  }

  lemma LogAppends(rows: seq<R.Row>, clients: map<nat, R.Client>, log: seq<Read>, r: Read)
    requires ReadsInv(rows, clients, log) && ReadBacked(rows, clients, r)
    requires forall i :: 0 <= i < |log| && r.owner && log[i].owner ==> log[i].generation <= r.generation
    requires forall i :: 0 <= i < |log| && r.owner && log[i].process == r.process ==> log[i].owner
    ensures ReadsInv(rows, clients, log + [r])
  {
  }

  lemma ReadAppends(f: State, p: nat, c: Check)
    requires LogInv(f) && p in f.processes && R.HasRevision(f.registry.rows, f.registry.clients[p].revision)
    ensures ReadsInv(f.registry.rows, f.registry.clients, f.log + [ReadNow(f, p, c)])
  {
    var r := ReadNow(f, p, c);
    ReadNowBacked(f, p, c);
    forall i: nat | i < |f.log| && r.owner
      ensures f.log[i].owner ==> f.log[i].generation <= r.generation
      ensures f.log[i].process == p ==> f.log[i].owner
    {
      ReadFits(f, p, c, i);
    }
    LogAppends(f.registry.rows, f.registry.clients, f.log, r);
  }

  /** Once a process was told false, it is told false now. */
  lemma LostForGood(f: State, p: nat, c: Check, k: nat)
    requires LogInv(f) && p in f.processes && R.HasRevision(f.registry.rows, f.registry.clients[p].revision)
    requires k < |f.log| && f.log[k].process == p && !f.log[k].owner
    ensures !ReadNow(f, p, c).owner
  {
    if ReadNow(f, p, c).owner {
      ReadFits(f, p, c, k);
    }
  }

  // --------------------------------------------------------------- process step

  lemma HeardGrows(log: seq<Read>, log': seq<Read>, delivered: set<nat>, owner: bool)
    requires log <= log' && forall k :: k in delivered ==> k < |log|
    ensures Heard(log', delivered, owner) <==> Heard(log, delivered, owner)
  {
  }

  lemma AdmissionKept(log: seq<Read>, log': seq<Read>, p: nat, b: nat)
    requires log <= log' && AdmittedByRead(log, p, b)
    ensures AdmittedByRead(log', p, b)
  {
    var k :| IsReadOf(log, k, p, BatchCheck(b), true);
    assert IsReadOf(log', k, p, BatchCheck(b), true);
  }

  /** A process that does not step keeps its invariant while the log grows. */
  lemma ProcessKept(log: seq<Read>, log': seq<Read>, p: nat, proc: Process)
    requires ProcessInv(log, p, proc) && log <= log'
    ensures ProcessInv(log', p, proc)
  {
    HeardGrows(log, log', proc.delivered, true);
    HeardGrows(log, log', proc.delivered, false);
    forall b | AdmittedByRead(log, p, b)
      ensures AdmittedByRead(log', p, b)
    {
      AdmissionKept(log, log', p, b);
    }
  }

  lemma LocalAdmissions(log: seq<Read>, p: nat, s: S.State, l: S.Event)
    requires BatchesAdmitted(log, p, s) && s.fenced && S.Enabled(s, l) && !IsAnswer(l)
    ensures BatchesAdmitted(log, p, S.Apply(s, l))
  {
  }

  lemma LocalStep(log: seq<Read>, p: nat, proc: Process, l: S.Event)
    requires ProcessInv(log, p, proc) && S.Enabled(proc.scheduler, l) && !IsAnswer(l)
    ensures ProcessInv(log, p, proc.(scheduler := S.Apply(proc.scheduler, l)))
  {
    S.InvStep(proc.scheduler, l);
    LocalAdmissions(log, p, proc.scheduler, l);
    LocalPool(proc.scheduler, l);
    LocalChecks(log, p, proc, l);
    LocalLoss(log, proc, l);
  }

  /** Without an answer no instance is created, and none becomes boss. */
  lemma LocalPool(s: S.State, l: S.Event)
    requires s.fenced && S.Inv(s) && S.Enabled(s, l) && !IsAnswer(l)
    ensures S.Apply(s, l).pool.Created() == s.pool.Created()
    ensures s.pool.boss.None? ==> S.Apply(s, l).pool.boss.None?
  {
    S.StopKeepsAccounts(s.pool);
  }

  lemma LocalChecks(log: seq<Read>, p: nat, proc: Process, l: S.Event)
    requires ChecksRecorded(log, p, proc) && S.Enabled(proc.scheduler, l) && !IsAnswer(l)
    ensures ChecksRecorded(log, p, proc.(scheduler := S.Apply(proc.scheduler, l)))
  {
  }

  lemma LocalLoss(log: seq<Read>, proc: Process, l: S.Event)
    requires LossHeard(log, proc) && proc.scheduler.fenced && S.Inv(proc.scheduler)
    requires S.Enabled(proc.scheduler, l) && !IsAnswer(l)
    ensures LossHeard(log, proc.(scheduler := S.Apply(proc.scheduler, l)))
  {
    LocalPool(proc.scheduler, l);
  }

  /** Recording a read of a pending check; a process that heard it lost the jobs reads false. */
  lemma ReadRecorded(log: seq<Read>, p: nat, proc: Process, c: Check, r: Read)
    requires ProcessInv(log + [r], p, proc) && Pending(proc.scheduler, c)
    requires r.process == p && r.check == c && (Heard(log + [r], proc.delivered, false) ==> !r.owner)
    ensures ProcessInv(log + [r], p, proc.(answers := proc.answers[c := |log|]))
  {
  }

  lemma ReadStep(f: State, p: nat, c: Check)
    requires LogInv(f) && Enabled(f, ReadOwnership(p, c))
    requires ProcessInv(f.log, p, f.processes[p]) && RunsRegistered(f.registry, p, f.processes[p])
    ensures ProcessInv(Apply(f, ReadOwnership(p, c)).log, p, Apply(f, ReadOwnership(p, c)).processes[p])
  {
    var proc := f.processes[p];
    var r := ReadNow(f, p, c);
    ProcessKept(f.log, f.log + [r], p, proc);
    if Heard(f.log + [r], proc.delivered, false) {
      HeardGrows(f.log, f.log + [r], proc.delivered, false);
      var k :| k in proc.delivered && k < |f.log| && !f.log[k].owner;
      CheckedAfterStart(f, p, c);
      LostForGood(f, p, c, k);
    }
    ReadRecorded(f.log, p, proc, c, r);
  }

  lemma HeardAfter(log: seq<Read>, delivered: set<nat>, k: nat, owner: bool)
    requires k < |log|
    ensures Heard(log, delivered + {k}, owner) <==> Heard(log, delivered, owner) || log[k].owner == owner
  {
  }

  lemma DeliverStart(log: seq<Read>, p: nat, proc: Process)
    requires ProcessInv(log, p, proc) && StartCheck in proc.answers
    ensures var k := proc.answers[StartCheck];
      ProcessInv(log, p, Answered(proc, StartCheck, S.Owned(log[k].owner)).(delivered := proc.delivered + {k}))
  {
    var k := proc.answers[StartCheck];
    S.InvStep(proc.scheduler, S.StartAnswer(S.Owned(log[k].owner)));
    HeardAfter(log, proc.delivered, k, true);
    HeardAfter(log, proc.delivered, k, false);
  }

  lemma DeliverReconcile(log: seq<Read>, p: nat, proc: Process)
    requires ProcessInv(log, p, proc) && ReconcileCheck in proc.answers
    ensures var k := proc.answers[ReconcileCheck];
      ProcessInv(log, p, Answered(proc, ReconcileCheck, S.Owned(log[k].owner)).(delivered := proc.delivered + {k}))
  {
    var k := proc.answers[ReconcileCheck];
    S.InvStep(proc.scheduler, S.ReconcileAnswer(S.Owned(log[k].owner)));
    HeardAfter(log, proc.delivered, k, true);
    HeardAfter(log, proc.delivered, k, false);
  }

  lemma DeliverFence(log: seq<Read>, p: nat, proc: Process, b: nat)
    requires ProcessInv(log, p, proc) && BatchCheck(b) in proc.answers
    ensures var k := proc.answers[BatchCheck(b)];
      ProcessInv(log, p, Answered(proc, BatchCheck(b), S.Owned(log[k].owner)).(delivered := proc.delivered + {k}))
  {
    var k := proc.answers[BatchCheck(b)];
    S.InvStep(proc.scheduler, S.FenceAnswer(b, S.Owned(log[k].owner)));
    HeardAfter(log, proc.delivered, k, true);
    HeardAfter(log, proc.delivered, k, false);
    if log[k].owner {
      assert IsReadOf(log, k, p, BatchCheck(b), true);
    }
  }

  lemma RejectStep(log: seq<Read>, p: nat, proc: Process, c: Check)
    requires ProcessInv(log, p, proc) && Pending(proc.scheduler, c)
    ensures ProcessInv(log, p, Answered(proc, c, S.CheckFailed))
  {
    S.InvStep(proc.scheduler, AnswerEvent(c, S.CheckFailed));
  }

  // ------------------------------------------------------------ invariant step

  /** Rows are never pruned, so a registered revision stays registered. */
  lemma RegistrationKept(registry: R.State, r: R.Event, p: nat, proc: Process)
    requires RunsRegistered(registry, p, proc) && R.Enabled(registry, r)
    ensures RunsRegistered(R.Apply(registry, r), p, proc)
  {
    R.RowsAppend(registry, r);
    if !proc.scheduler.start.NotStarted? {
      var revision := registry.clients[p].revision;
      var k :| 0 <= k < |registry.rows| && registry.rows[k].revision == revision;
      assert R.Apply(registry, r).rows[k].revision == revision;
    }
  }

  lemma StepOfRegistered(registry: R.State, p: nat, proc: Process, l: S.Event)
    requires RunsRegistered(registry, p, proc) && R.TransactionInv(registry, registry.clients[p])
    requires S.Enabled(proc.scheduler, l) && (l.StartCall? ==> registry.clients[p].registration.Registered?)
    ensures RunsRegistered(registry, p, proc.(scheduler := S.Apply(proc.scheduler, l)))
  {
  }

  lemma AllStayRegistered(f: State, e: Event)
    requires R.Inv(f.registry) && AllRunRegistered(f) && Enabled(f, e)
    ensures AllRunRegistered(Apply(f, e))
  {
    match e
    case RegistryStep(r) =>
      forall p | p in f.processes
        ensures RunsRegistered(R.Apply(f.registry, r), p, f.processes[p])
      {
        RegistrationKept(f.registry, r, p, f.processes[p]);
      }
    case Local(p, l) =>
      StepOfRegistered(f.registry, p, f.processes[p], l);
    case Deliver(p, c) =>
      StepOfRegistered(f.registry, p, f.processes[p], AnswerEvent(c, S.Owned(f.log[f.processes[p].answers[c]].owner)));
    case Reject(p, c) =>
      StepOfRegistered(f.registry, p, f.processes[p], AnswerEvent(c, S.CheckFailed));
    case ReadOwnership(_, _) =>
  }

  lemma SteppingProcessKept(f: State, e: Event)
    requires LogInv(f) && Enabled(f, e) && !e.RegistryStep?
    requires ProcessInv(f.log, e.process, f.processes[e.process])
    requires RunsRegistered(f.registry, e.process, f.processes[e.process])
    ensures ProcessInv(Apply(f, e).log, e.process, Apply(f, e).processes[e.process])
  {
    var proc := f.processes[e.process];
    match e
    case Local(p, l) => LocalStep(f.log, p, proc, l);
    case ReadOwnership(p, c) => ReadStep(f, p, c);
    case Reject(p, c) => RejectStep(f.log, p, proc, c);
    case Deliver(p, c) =>
      match c
      case StartCheck => DeliverStart(f.log, p, proc);
      case ReconcileCheck => DeliverReconcile(f.log, p, proc);
      case BatchCheck(b) => DeliverFence(f.log, p, proc, b);
  }

  lemma LogStep(f: State, e: Event)
    requires Inv(f) && Enabled(f, e)
    ensures ReadsInv(Apply(f, e).registry.rows, Apply(f, e).registry.clients, Apply(f, e).log)
    ensures f.log <= Apply(f, e).log
  {
    match e
    case RegistryStep(r) => R.InvStep(f.registry, r); ReadsKeptByRegistry(f, r);
    case ReadOwnership(p, c) => CheckedAfterStart(f, p, c); ReadAppends(f, p, c);
    case Local(_, _) =>
    case Deliver(_, _) =>
    case Reject(_, _) =>
  }

  /** Only a started scheduler has a check to answer. */
  lemma CheckedAfterStart(f: State, p: nat, c: Check)
    requires p in f.processes && Pending(f.processes[p].scheduler, c)
    requires ProcessInv(f.log, p, f.processes[p]) && RunsRegistered(f.registry, p, f.processes[p])
    ensures R.HasRevision(f.registry.rows, f.registry.clients[p].revision)
  {
  }

  lemma ProcessStep(f: State, e: Event, p: nat)
    requires LogInv(f) && Enabled(f, e) && p in f.processes && f.log <= Apply(f, e).log
    requires ProcessInv(f.log, p, f.processes[p]) && RunsRegistered(f.registry, p, f.processes[p])
    ensures p in Apply(f, e).processes && ProcessInv(Apply(f, e).log, p, Apply(f, e).processes[p])
  {
    if !e.RegistryStep? && e.process == p {
      SteppingProcessKept(f, e);
    } else {
      ProcessKept(f.log, Apply(f, e).log, p, f.processes[p]);
    }
  }

  lemma ProcessesStep(f: State, e: Event)
    requires Inv(f) && Enabled(f, e) && f.log <= Apply(f, e).log
    ensures ProcessesInv(Apply(f, e))
  {
    forall p | p in Apply(f, e).processes
      ensures ProcessInv(Apply(f, e).log, p, Apply(f, e).processes[p])
    {
      ProcessStep(f, e, p);
    }
  }

  lemma RegistryInvStep(f: State, e: Event)
    requires R.Inv(f.registry) && Enabled(f, e)
    ensures R.Inv(Apply(f, e).registry)
  {
    if e.RegistryStep? {
      R.InvStep(f.registry, e.step);
    }
  }

  lemma KeysStep(f: State, e: Event)
    requires f.processes.Keys == f.registry.clients.Keys && Enabled(f, e)
    ensures Apply(f, e).processes.Keys == Apply(f, e).registry.clients.Keys
  {
  }

  lemma PartsStep(f: State, e: Event)
    requires Inv(f) && Enabled(f, e)
    ensures R.Inv(Apply(f, e).registry) && AllRunRegistered(Apply(f, e))
    ensures Apply(f, e).processes.Keys == Apply(f, e).registry.clients.Keys
  {
    RegistryInvStep(f, e);
    KeysStep(f, e);
    AllStayRegistered(f, e);
  }

  lemma InvStep(f: State, e: Event)
    requires Inv(f) && Enabled(f, e)
    ensures Inv(Apply(f, e))
  {
    PartsStep(f, e);
    LogStep(f, e);
    ProcessesStep(f, e);
  }

  lemma InitInv(f: State)
    requires Init(f)
    ensures Inv(f)
  {
    forall p | p in f.processes
      ensures ProcessInv(f.log, p, f.processes[p])
    {
      FreshFits(f.log, p);
    }
  }

  lemma FreshFits(log: seq<Read>, p: nat)
    ensures ProcessInv(log, p, Process(S.Init(true), map[], {}))
  {
  }

  lemma {:induction false} InvAt(states: seq<State>, events: seq<Event>, i: nat)
    requires Behavior(states, events) && i < |states|
    ensures Inv(states[i])
  {
    if i == 0 {
      InitInv(states[0]);
    } else {
      InvAt(states, events, i - 1);
      InvStep(states[i - 1], events[i - 1]);
    }
  }
}
