/** What holds over whole runs of the deployment. */
module FleetSafety {
  import opened Fleet
  import R = Registry
  import S = SchedulerProtocol

  // ------------------------------------------------------------------- fencing

  /** Every handler call comes after a read, made for its own batch, that found its process the owner. */
  lemma HandlerCallsAreAdmitted(states: seq<State>, events: seq<Event>, i: nat, p: nat, batch: nat, ok: bool)
    requires Behavior(states, events) && i < |events|
    requires events[i] == Local(p, S.HandlerCall(batch, ok))
    ensures exists k :: IsReadOf(states[i].log, k, p, BatchCheck(batch), true)
  {
    InvAt(states, events, i);
    HandlerCallAdmitted(states[i], p, batch, ok);
  }

  lemma HandlerCallAdmitted(f: State, p: nat, batch: nat, ok: bool)
    requires ProcessesInv(f) && Enabled(f, Local(p, S.HandlerCall(batch, ok)))
    ensures exists k :: IsReadOf(f.log, k, p, BatchCheck(batch), true)
  {
    assert ProcessInv(f.log, p, f.processes[p]);
    assert AdmittedByRead(f.log, p, batch);
  }

  /**
   The reads that found their process the owner have non-decreasing generations,
   and a process once found not to be the owner is never found to be it again.
   */
  lemma OwnershipMovesForward(states: seq<State>, events: seq<Event>, i: nat)
    requires Behavior(states, events) && i < |states|
    ensures OwnersAscend(states[i].log) && OneTermEach(states[i].log)
  {
    InvAt(states, events, i);
  }

  /** A step appends at most one read, whose owner, if found, no committed row is ahead of. */
  ghost predicate LogGrows(log: seq<Read>, rows: seq<R.Row>, log': seq<Read>, rows': seq<R.Row>) {
    && log <= log' && rows <= rows'
    && (|log'| > |log| ==>
          && |log'| == |log| + 1
          && (log'[|log|].owner ==> R.AllBelow(rows, log'[|log|].generation + 1)))
  }

  lemma LogGrowsByReads(f: State, e: Event)
    requires Inv(f) && Enabled(f, e)
    ensures LogGrows(f.log, f.registry.rows, Apply(f, e).log, Apply(f, e).registry.rows)
  {
    match e
    case RegistryStep(r) => R.RowsAppend(f.registry, r);
    case ReadOwnership(p, c) => CheckedAfterStart(f, p, c); ReadNowBacked(f, p, c);
    case Local(_, _) =>
    case Deliver(_, _) =>
    case Reject(_, _) =>
  }

  lemma LogGrowsAt(states: seq<State>, events: seq<Event>, i: nat)
    requires Behavior(states, events) && i < |events|
    ensures LogGrows(states[i].log, states[i].registry.rows, states[i + 1].log, states[i + 1].registry.rows)
  {
    InvAt(states, events, i);
    LogGrowsByReads(states[i], events[i]);
  }

  /** Every read after the first `n` that finds an owner finds it at or past all of `rows`. */
  ghost predicate OwnersPast(rows: seq<R.Row>, log: seq<Read>, n: nat) {
    forall k :: n <= k < |log| && log[k].owner ==> R.AllBelow(rows, log[k].generation + 1)
  }

  lemma OwnersPastGrows(past: seq<R.Row>, n: nat, log: seq<Read>, rows: seq<R.Row>, log': seq<Read>, rows': seq<R.Row>)
    requires LogGrows(log, rows, log', rows') && OwnersPast(past, log, n) && past <= rows
    ensures OwnersPast(past, log', n)
  {
  }

  /** What a history of logs and of committed rows that grow step by step keeps. */
  lemma {:induction false} GrowthKeeps(logs: seq<seq<Read>>, rows: seq<seq<R.Row>>, i: nat, j: nat)
    requires i <= j < |logs| == |rows|
    requires forall k :: 0 <= k < j ==> LogGrows(logs[k], rows[k], logs[k + 1], rows[k + 1])
    ensures logs[i] <= logs[j] && rows[i] <= rows[j] && OwnersPast(rows[i], logs[j], |logs[i]|)
    decreases j
  {
    if i < j {
      GrowthKeeps(logs, rows, i, j - 1);
      OwnersPastGrows(rows[i], |logs[i]|, logs[j - 1], rows[j - 1], logs[j], rows[j]);
    }
  }

  /** Once a revision has registered, no process of an earlier one is found to be the owner again. */
  lemma NoOwnerBehindRegistered(states: seq<State>, events: seq<Event>, i: nat, j: nat)
    requires Behavior(states, events) && i <= j < |states|
    ensures states[i].log <= states[j].log
    ensures OwnersPast(states[i].registry.rows, states[j].log, |states[i].log|)
  {
    var logs := seq(|states|, k requires 0 <= k < |states| => states[k].log);
    var rows := seq(|states|, k requires 0 <= k < |states| => states[k].registry.rows);
    forall k | 0 <= k < j
      ensures LogGrows(logs[k], rows[k], logs[k + 1], rows[k + 1])
    {
      LogGrowsAt(states, events, k);
    }
    GrowthKeeps(logs, rows, i, j);
  }

  // -------------------------------------------------------------- one owner term

  lemma OwnershipHeard(f: State, p: nat)
    requires Inv(f) && p in f.processes && f.processes[p].scheduler.pool.Created() > 0
    ensures exists k :: k in f.processes[p].delivered && k < |f.log| && f.log[k].process == p && f.log[k].owner
  {
    assert ProcessInv(f.log, p, f.processes[p]);
    var k :| k in f.processes[p].delivered && k < |f.log| && f.log[k].owner;
    assert f.log[k].process == p;
  }

  /** A pg-boss instance needs a check that answered true. */
  lemma InstancesNeedOwnership(states: seq<State>, events: seq<Event>, i: nat, p: nat)
    requires Behavior(states, events) && i < |states| && p in states[i].processes
    requires states[i].processes[p].scheduler.pool.Created() > 0
    ensures exists k :: k in states[i].processes[p].delivered && k < |states[i].log|
                        && states[i].log[k].process == p && states[i].log[k].owner
  {
    InvAt(states, events, i);
    OwnershipHeard(states[i], p);
  }

  /** A false answer read after read `r` reached the process before it. */
  ghost predicate Overtaken(log: seq<Read>, proc: Process, r: nat) {
    exists k :: k in proc.delivered && r < k < |log| && !log[k].owner
  }

  lemma FalseReadsComeLater(log: seq<Read>, p: nat, proc: Process, r: nat)
    requires OneTermEach(log) && ChecksRecorded(log, p, proc)
    requires r < |log| && log[r].process == p && log[r].owner
    ensures Overtaken(log, proc, r) <==> Heard(log, proc.delivered, false)
  {
  }

  lemma ProcessFacts(states: seq<State>, events: seq<Event>, i: nat, p: nat)
    requires Behavior(states, events) && i < |states| && p in states[i].processes
    ensures ProcessInv(states[i].log, p, states[i].processes[p]) && OneTermEach(states[i].log)
  {
    InvAt(states, events, i);
  }

  lemma PromotionOfOvertaken(log: seq<Read>, p: nat, proc: Process)
    requires ProcessInv(log, p, proc) && OneTermEach(log)
    requires ReconcileCheck in proc.answers && log[proc.answers[ReconcileCheck]].owner && !proc.scheduler.stopped
    ensures proc.scheduler.pool.boss.None? <==> Overtaken(log, proc, proc.answers[ReconcileCheck])
  {
    FalseReadsComeLater(log, p, proc, proc.answers[ReconcileCheck]);
  }

  /**
   When a reconcile check answers true to a scheduler that is not stopped, the
   promotion branch fires if and only if the answer was overtaken: a fence of the
   same process read the registry later, found the jobs lost, and was heard first.
   */
  lemma PromotionIffOvertaken(states: seq<State>, events: seq<Event>, i: nat, p: nat)
    requires Behavior(states, events) && i < |events|
    requires events[i] == Deliver(p, ReconcileCheck) && !states[i].processes[p].scheduler.stopped
    requires states[i].log[states[i].processes[p].answers[ReconcileCheck]].owner
    ensures states[i + 1].processes[p].scheduler.reconcile.Promoting? <==>
      Overtaken(states[i].log, states[i].processes[p], states[i].processes[p].answers[ReconcileCheck])
    ensures states[i + 1].processes[p].scheduler.pool.Created() ==
      states[i].processes[p].scheduler.pool.Created() +
      if states[i + 1].processes[p].scheduler.reconcile.Promoting? then 1 else 0
  {
    var proc := states[i].processes[p];
    assert proc.scheduler.pool.boss.None? <==> Overtaken(states[i].log, proc, proc.answers[ReconcileCheck]) by {
      ProcessFacts(states, events, i, p);
      PromotionOfOvertaken(states[i].log, p, proc);
    }
    assert states[i + 1] == Apply(states[i], events[i]);
  }

  /** A process runs at most two instances in its life, whatever is overtaken. */
  lemma AtMostTwoInstances(states: seq<State>, events: seq<Event>, i: nat, p: nat)
    requires Behavior(states, events) && i < |states| && p in states[i].processes
    ensures states[i].processes[p].scheduler.pool.Created() <= 2
  {
    ProcessFacts(states, events, i, p);
  }

  /** Every process hears its answers in the order in which they were read. */
  ghost predicate InOrder(states: seq<State>, events: seq<Event>)
    requires Behavior(states, events)
  {
    forall i :: 0 <= i < |events| && events[i].Deliver? ==> HeardNext(states[i], events[i].process, events[i].check)
  }

  ghost predicate HeardNext(f: State, p: nat, c: Check) {
    && p in f.processes && c in f.processes[p].answers
    && forall d :: d in f.processes[p].answers ==> f.processes[p].answers[c] <= f.processes[p].answers[d]
  }

  ghost predicate AnswersAhead(proc: Process) {
    && (forall c, k :: c in proc.answers && k in proc.delivered ==> k < proc.answers[c])
    && proc.scheduler.pool.Created() <= 1
  }

  lemma LocalCreatesNone(s: S.State, l: S.Event)
    requires s.fenced && S.Inv(s) && S.Enabled(s, l) && !IsAnswer(l)
    ensures S.Apply(s, l).pool.Created() == s.pool.Created()
  {
    S.StopKeepsAccounts(s.pool);
  }

  lemma InOrderStep(f: State, e: Event, p: nat)
    requires Enabled(f, e) && p in f.processes && AnswersAhead(f.processes[p])
    requires ProcessInv(f.log, p, f.processes[p]) && OneTermEach(f.log)
    requires e.Deliver? ==> HeardNext(f, e.process, e.check)
    ensures p in Apply(f, e).processes && AnswersAhead(Apply(f, e).processes[p])
  {
    var proc := f.processes[p];
    match e
    case RegistryStep(_) =>
    case ReadOwnership(_, _) =>
    case Local(q, l) => if q == p { LocalCreatesNone(proc.scheduler, l); }
    case Deliver(q, c) => if q == p { InOrderDelivery(f.log, p, proc, c); }
    case Reject(q, _) => if q == p { S.StopKeepsAccounts(proc.scheduler.pool); }
  }

  lemma InOrderDelivery(log: seq<Read>, p: nat, proc: Process, c: Check)
    requires ProcessInv(log, p, proc) && OneTermEach(log) && AnswersAhead(proc) && c in proc.answers
    requires forall d :: d in proc.answers ==> proc.answers[c] <= proc.answers[d]
    ensures var k := proc.answers[c];
      AnswersAhead(Answered(proc, c, S.Owned(log[k].owner)).(delivered := proc.delivered + {k}))
  {
    var k := proc.answers[c];
    match c
    case StartCheck => StartCreatesFirst(proc.scheduler, log[k].owner);
    case ReconcileCheck =>
      if log[k].owner {
        FalseReadsComeLater(log, p, proc, k);
      }
      CheckCreatesNone(proc.scheduler, log[k].owner);
    case BatchCheck(_) => S.OthersCreateNone(proc.scheduler, AnswerEvent(c, S.Owned(log[k].owner)));
  }

  lemma StartCreatesFirst(s: S.State, owner: bool)
    requires S.TasksCoherent(s) && S.Enabled(s, S.StartAnswer(S.Owned(owner)))
    ensures S.Apply(s, S.StartAnswer(S.Owned(owner))).pool.Created() <= 1
  {
  }

  /** A check that finds the process as it is, or the scheduler stopped, creates no instance. */
  lemma CheckCreatesNone(s: S.State, owner: bool)
    requires S.Accounted(s.pool) && S.Enabled(s, S.ReconcileAnswer(S.Owned(owner)))
    requires owner ==> s.stopped || s.pool.boss.Some?
    ensures S.Apply(s, S.ReconcileAnswer(S.Owned(owner))).pool.Created() == s.pool.Created()
  {
    S.StopKeepsAccounts(s.pool);
  }

  /** Without overtaking, a scheduler has one owner term: it never runs a second instance. */
  lemma {:induction false} OneTermWhenInOrder(states: seq<State>, events: seq<Event>, i: nat, p: nat)
    requires Behavior(states, events) && InOrder(states, events) && i < |states| && p in states[0].processes
    ensures p in states[i].processes && AnswersAhead(states[i].processes[p])
    ensures states[i].processes[p].scheduler.pool.Created() <= 1
  {
    if i > 0 {
      OneTermWhenInOrder(states, events, i - 1, p);
      ProcessFacts(states, events, i - 1, p);
      InOrderStep(states[i - 1], events[i - 1], p);
    }
  }
}
