/**
 A run in which a superseded process overwrites the schedules of the revision that
 owns the jobs: both start up at once, and the superseded one writes last.
 */
module FleetOverwritten {
  import opened Wrappers
  import opened Schedules
  import opened ScheduleWrites
  import opened FleetSchedules
  import F = Fleet
  import R = Registry
  import S = SchedulerProtocol
  import Overtaken = FleetOvertaken

  /** Some run ends in this state. */
  ghost predicate Reachable(jobs: Jobs, s: State) {
    exists states: seq<State>, events: seq<Event> :: Behavior(jobs, states, events) && states[|events|] == s
  }

  lemma Extend(jobs: Jobs, states: seq<State>, events: seq<Event>, e: Event)
    requires Behavior(jobs, states, events) && Enabled(states[|events|], e)
    ensures Behavior(jobs, states + [Apply(jobs, states[|events|], e)], events + [e])
  {
  }

  lemma ReachableSteps(jobs: Jobs, s: State, e: Event)
    requires Reachable(jobs, s) && Enabled(s, e)
    ensures Reachable(jobs, Apply(jobs, s, e))
  {
    var states: seq<State>, events: seq<Event> :| Behavior(jobs, states, events) && states[|events|] == s;
    Extend(jobs, states, events, e);
    assert (states + [Apply(jobs, s, e)])[|events + [e]|] == Apply(jobs, s, e);
  }

  /** A set of states that no step leaves. */
  ghost predicate Closed(jobs: Jobs, within: State -> bool) {
    forall s, e :: within(s) && Enabled(s, e) ==> within(Apply(jobs, s, e))
  }

  lemma Step(jobs: Jobs, within: State -> bool, s: State, e: Event) returns (s': State)
    requires Closed(jobs, within) && within(s) && Enabled(s, e)
    ensures s' == Apply(jobs, s, e) && within(s')
  {
    s' := Apply(jobs, s, e);
  }

  // ------------------------------------------------- a start-up left to itself

  /** How many names a start-up has to deal with at most. */
  function Ahead(sync: Sync, jobs: map<string, Job>): nat {
    match sync
    case Waiting => 0
    case Removing(todo) => |todo| + |jobs.Keys|
    case Upserting(todo) => |todo|
  }

  /** Every write since the start-up's read is its own. */
  ghost predicate Undisturbed(s: State, u: StartUp) {
    forall k :: From(s, u) <= k < |s.writes| ==> s.writes[k].maker == u
  }

  /** One more write of a start-up. */
  lemma WritesOne(jobs: Jobs, s: State, u: StartUp, name: string)
    requires Enabled(s, Handle(u, name)) && Undisturbed(s, u)
    ensures var s' := Apply(jobs, s, Handle(u, name));
      && s'.fleet == s.fleet && s'.syncs == s.syncs[u := Less(s.syncs[u], jobs(u.process), name)] && Undisturbed(s', u)
      && Ahead(s'.syncs[u], jobs(u.process)) <= Ahead(s.syncs[u], jobs(u.process))
      && (s.syncs[u].Upserting? ==> Ahead(s'.syncs[u], jobs(u.process)) < Ahead(s.syncs[u], jobs(u.process)))
      && (s'.syncs[u].Removing? ==>
            s'.syncs[u].todo != {} && Ahead(s'.syncs[u], jobs(u.process)) < Ahead(s.syncs[u], jobs(u.process)))
  {
    assert |s.syncs[u].todo - {name}| < |s.syncs[u].todo|;
  }

  /** From its read on, left to itself, a start-up makes all its writes. */
  lemma WritesToEnd(jobs: Jobs, within: State -> bool, s: State, u: StartUp) returns (s': State)
    requires Closed(jobs, within) && within(s) && u in s.syncs && !s.syncs[u].Waiting? && Undisturbed(s, u)
    requires s.syncs[u].Removing? ==> s.syncs[u].todo != {}
    ensures within(s') && s'.fleet == s.fleet && s'.syncs == s.syncs[u := Upserting({})] && Undisturbed(s', u)
    decreases Ahead(s.syncs[u], jobs(u.process)), if s.syncs[u].Removing? then 1 else 0
  {
    if s.syncs[u] == Upserting({}) {
      s' := s;
    } else {
      var name :| name in s.syncs[u].todo;
      WritesOne(jobs, s, u, name);
      var s1 := Step(jobs, within, s, Handle(u, name));
      s' := WritesToEnd(jobs, within, s1, u);
    }
  }

  lemma RunsToEnd(jobs: Jobs, within: State -> bool, s: State, u: StartUp) returns (s': State)
    requires Closed(jobs, within) && within(s) && u in s.syncs && s.syncs[u].Waiting?
    ensures within(s') && s'.fleet == s.fleet && s'.syncs == s.syncs[u := Upserting({})] && Undisturbed(s', u)
  {
    var s1 := Step(jobs, within, s, ReadSchedules(u));
    s' := WritesToEnd(jobs, within, s1, u);
  }

  /** A start-up left to itself leaves exactly the jobs of its process. */
  lemma LeavesItsJobs(jobs: Jobs, s: State, u: StartUp)
    requires Reachable(jobs, s) && Complete(s, u) && Undisturbed(s, u)
    ensures Stored(s) == Registered(jobs(u.process))
  {
    var states: seq<State>, events: seq<Event> :| Behavior(jobs, states, events) && states[|events|] == s;
    StoredIffUndisturbed(jobs, states, events, |events|, u);
  }

  // ------------------------------------------------------ every run of the fleet

  /** The scheduler waits for a start-up. */
  predicate Starting(s: S.State) {
    s.start.StartOwning? || s.reconcile.Promoting?
  }

  /** After a step a scheduler waits for a start-up only if it did before, and this did not succeed, or it began one. */
  lemma StartingStep(s: S.State, e: S.Event)
    requires S.Inv(s) && S.Enabled(s, e) && Starting(S.Apply(s, e))
    ensures S.Apply(s, e).pool.Created() == s.pool.Created() + 1 ||
      (S.Apply(s, e).pool.Created() == s.pool.Created() && Starting(s) &&
              e != S.StartOwnerSettled(true) && e != S.PromotionSettled(true))
  {
    if S.OfStart(e) {
      StartStarts(s, e);
    } else if S.OfReconcile(e) {
      CheckStarts(s, e);
    } else {
      OthersStartNone(s, e);
    }
  }

  lemma StartStarts(s: S.State, e: S.Event)
    requires S.TasksCoherent(s) && S.Accounted(s.pool) && S.Enabled(s, e) && S.OfStart(e) && Starting(S.Apply(s, e))
    ensures S.Apply(s, e).pool.Created() == s.pool.Created() + 1
         || (S.Apply(s, e).pool.Created() == s.pool.Created() && Starting(s) && e != S.StartOwnerSettled(true))
  {
    S.StopKeepsAccounts(s.pool);
  }

  lemma CheckStarts(s: S.State, e: S.Event)
    requires S.TasksCoherent(s) && S.Accounted(s.pool) && S.Enabled(s, e) && S.OfReconcile(e) && Starting(S.Apply(s, e))
    ensures S.Apply(s, e).pool.Created() == s.pool.Created() + 1
         || (S.Apply(s, e).pool.Created() == s.pool.Created() && Starting(s) && e != S.PromotionSettled(true))
  {
    S.StopKeepsAccounts(s.pool);
  }

  lemma OthersStartNone(s: S.State, e: S.Event)
    requires S.Enabled(s, e) && !S.OfStart(e) && !S.OfReconcile(e) && Starting(S.Apply(s, e))
    ensures S.Apply(s, e).pool.Created() == s.pool.Created() && Starting(s)
  {
    S.OthersCreateNone(s, e);
  }

  /**
   Every start-up has yet to read or has made all its writes; the one a scheduler waits for
   has yet to read, but for `but`.
   */
  ghost predicate Calm(s: State, but: Option<nat>) {
    && Named(s)
    && (forall u :: u in s.syncs ==> s.syncs[u].Waiting? || s.syncs[u] == Upserting({}))
    && (forall p :: p in s.fleet.processes && Starting(s.fleet.processes[p].scheduler) && but != Some(p) ==>
          YetToRead(s, p))
  }

  /** There is a start-up for each instance that was created. */
  ghost predicate Named(s: State) {
    forall p: nat, n: nat :: StartUp(p, n) in s.syncs <==> n < Created(s.fleet, p)
  }

  /** The newest start-up of the process has not read the schedules. */
  predicate YetToRead(s: State, p: nat) {
    Created(s.fleet, p) > 0 && Newest(s.fleet, p) in s.syncs && s.syncs[Newest(s.fleet, p)].Waiting?
  }

  /** The step that a scheduler takes in a step of the fleet. */
  function SchedulerStep(f: F.State, e: F.Event, p: nat): Option<S.Event>
    requires F.Enabled(f, e)
  {
    match e
    case Local(q, l) => if q == p then Some(l) else None
    case Deliver(q, c) =>
      if q == p then Some(F.AnswerEvent(c, S.Owned(f.log[f.processes[p].answers[c]].owner))) else None
    case Reject(q, c) => if q == p then Some(F.AnswerEvent(c, S.CheckFailed)) else None
    case _ => None
  }

  lemma SchedulerSteps(f: F.State, e: F.Event, p: nat)
    requires F.Enabled(f, e) && p in F.Apply(f, e).processes
    ensures p in f.processes
    ensures var s, s', step := f.processes[p].scheduler, F.Apply(f, e).processes[p].scheduler, SchedulerStep(f, e, p);
      && (step.None? ==> s' == s)
      && (step.Some? ==> S.Enabled(s, step.value) && s' == S.Apply(s, step.value))
      && (Settles(e) == Some(p) <==> step == Some(S.StartOwnerSettled(true)) || step == Some(S.PromotionSettled(true)))
  {
  }

  ghost predicate SchedulersInv(f: F.State) {
    forall p :: p in f.processes ==> S.Inv(f.processes[p].scheduler)
  }

  lemma SchedulersInvAt(fleets: seq<F.State>, steps: seq<F.Event>, i: nat)
    requires F.Behavior(fleets, steps) && i < |fleets|
    ensures SchedulersInv(fleets[i])
  {
    F.InvAt(fleets, steps, i);
    forall p | p in fleets[i].processes
      ensures S.Inv(fleets[i].processes[p].scheduler)
    {
      assert F.ProcessInv(fleets[i].log, p, fleets[i].processes[p]);
    }
  }

  lemma StartingInFleet(f: F.State, e: F.Event, p: nat)
    requires F.Enabled(f, e) && p in F.Apply(f, e).processes && p in f.processes && S.Inv(f.processes[p].scheduler)
    requires Starting(F.Apply(f, e).processes[p].scheduler)
    ensures Created(F.Apply(f, e), p) == Created(f, p) + 1
         || (Created(F.Apply(f, e), p) == Created(f, p) && Starting(f.processes[p].scheduler) && Settles(e) != Some(p))
  {
    SchedulerSteps(f, e, p);
    if SchedulerStep(f, e, p).Some? {
      StartingStep(f.processes[p].scheduler, SchedulerStep(f, e, p).value);
    }
  }

  /**
   Whoever waits for a start-up after the step did before, for another than the one that
   succeeds, or begins one by it.
   */
  ghost predicate StartingKept(f: F.State, f': F.State, begun: Option<nat>, settles: Option<nat>) {
    forall p :: p in f'.processes && Starting(f'.processes[p].scheduler) && begun != Some(p) ==>
      p in f.processes && Starting(f.processes[p].scheduler) && settles != Some(p)
  }

  lemma CalmKept(s: State, s': State, begun: Option<nat>, settles: Option<nat>)
    requires Calm(s, settles) && StartUpsGrow(s, s', begun) && CreatedGrows(s.fleet, s'.fleet, begun)
    requires StartingKept(s.fleet, s'.fleet, begun, settles)
    ensures Calm(s', None)
  {
    NamedKept(s, s', begun);
    forall p | p in s'.fleet.processes && Starting(s'.fleet.processes[p].scheduler)
      ensures YetToRead(s', p)
    {
      YetToReadKept(s, s', begun, p);
    }
  }

  lemma NamedKept(s: State, s': State, begun: Option<nat>)
    requires Named(s) && StartUpsGrow(s, s', begun) && CreatedGrows(s.fleet, s'.fleet, begun)
    ensures Named(s')
  {
    forall p: nat, n: nat
      ensures StartUp(p, n) in s'.syncs <==> n < Created(s'.fleet, p)
    {
      assert StartUp(p, n) in s.syncs <==> n < Created(s.fleet, p);
    }
  }

  lemma YetToReadKept(s: State, s': State, begun: Option<nat>, p: nat)
    requires Named(s) && StartUpsGrow(s, s', begun) && CreatedGrows(s.fleet, s'.fleet, begun)
    requires begun == Some(p) || YetToRead(s, p)
    ensures YetToRead(s', p)
  {
    assert begun == Some(p) <==> Created(s'.fleet, p) == Created(s.fleet, p) + 1;
  }

  lemma StartingIsKept(f: F.State, e: F.Event)
    requires SchedulersInv(f) && F.Enabled(f, e)
    ensures StartingKept(f, F.Apply(f, e), Begun(f, e), Settles(e))
  {
    CreatedStep(f, e);
    forall p | p in F.Apply(f, e).processes && Starting(F.Apply(f, e).processes[p].scheduler) && Begun(f, e) != Some(p)
      ensures p in f.processes && Starting(f.processes[p].scheduler) && Settles(e) != Some(p)
    {
      SchedulerSteps(f, e, p);
      StartingInFleet(f, e, p);
    }
  }

  /** Before a start-up succeeds it is run to its end. */
  lemma ReadyToSettle(jobs: Jobs, within: State -> bool, s: State, p: nat) returns (s': State)
    requires Closed(jobs, within) && within(s) && Calm(s, None)
    requires p in s.fleet.processes && Starting(s.fleet.processes[p].scheduler)
    ensures within(s') && s'.fleet == s.fleet && Calm(s', Some(p)) && Complete(s', Newest(s.fleet, p))
  {
    s' := RunsToEnd(jobs, within, s, Newest(s.fleet, p));
  }

  lemma FollowsStep(jobs: Jobs, within: State -> bool, s: State, e: F.Event) returns (s': State)
    requires Closed(jobs, within) && within(s) && Calm(s, None) && F.Enabled(s.fleet, e)
    requires StartingKept(s.fleet, F.Apply(s.fleet, e), Begun(s.fleet, e), Settles(e))
    requires Settles(e).Some? ==>
      Settles(e).value in s.fleet.processes && Starting(s.fleet.processes[Settles(e).value].scheduler)
    ensures within(s') && s'.fleet == F.Apply(s.fleet, e) && Calm(s', None)
  {
    var s1 := s;
    if Settles(e).Some? {
      s1 := ReadyToSettle(jobs, within, s, Settles(e).value);
    }
    s' := Step(jobs, within, s1, FleetStep(e));
    FleetStepGrows(jobs, s1, e);
    CalmKept(s1, s', Begun(s1.fleet, e), Settles(e));
  }

  lemma StepFacts(fleets: seq<F.State>, steps: seq<F.Event>, i: nat)
    requires F.Behavior(fleets, steps) && i < |steps|
    ensures F.Enabled(fleets[i], steps[i]) && fleets[i + 1] == F.Apply(fleets[i], steps[i])
    ensures StartingKept(fleets[i], F.Apply(fleets[i], steps[i]), Begun(fleets[i], steps[i]), Settles(steps[i]))
    ensures Settles(steps[i]).Some? ==>
      Settles(steps[i]).value in fleets[i].processes && Starting(fleets[i].processes[Settles(steps[i]).value].scheduler)
  {
    SchedulersInvAt(fleets, steps, i);
    StartingIsKept(fleets[i], steps[i]);
  }

  lemma StartsCalm(f: F.State, initial: map<string, Entry>)
    requires F.Init(f)
    ensures Calm(State(f, initial, [], map[], map[]), None)
  {
    assert forall p :: p in f.processes ==> f.processes[p] == F.Process(S.Init(true), map[], {});
  }

  /** Every run of the fleet is one with schedules: each start-up that succeeds has been run to its end just before. */
  lemma {:induction false} FollowsFleet(jobs: Jobs, within: State -> bool, fleets: seq<F.State>, steps: seq<F.Event>,
          i: nat, initial: map<string, Entry>)
    returns (s: State)
    requires Closed(jobs, within) && F.Behavior(fleets, steps) && i < |fleets|
    requires within(State(fleets[0], initial, [], map[], map[]))
    ensures within(s) && s.fleet == fleets[i] && Calm(s, None)
    decreases i
  {
    if i == 0 {
      s := State(fleets[0], initial, [], map[], map[]);
      StartsCalm(fleets[0], initial);
    } else {
      var s1 := FollowsFleet(jobs, within, fleets, steps, i - 1, initial);
      StepFacts(fleets, steps, i - 1);
      s := FollowsStep(jobs, within, s1, steps[i - 1]);
    }
  }

  // -------------------------------------------------------------------- the run

  const OLD: nat := 0
  const NEW: nat := 1

  lemma FollowsToBothStarting(jobs: Jobs, initial: map<string, Entry>) returns (s: State)
    ensures Reachable(jobs, s) && Calm(s, None) && OLD in s.fleet.processes && NEW in s.fleet.processes
    ensures R.LatestRevision(s.fleet.registry) == Some("r2")
    ensures OLD in s.fleet.registry.clients && s.fleet.registry.clients[OLD].revision == "r1"
    ensures Starting(s.fleet.processes[OLD].scheduler) && Created(s.fleet, OLD) == 2
    ensures s.fleet.processes[NEW].scheduler.start == S.StartOwning(0) && Created(s.fleet, NEW) == 1
  {
    var f := Overtaken.BothStarting();
    var fleets: seq<F.State>, steps: seq<F.Event> :| F.Behavior(fleets, steps) && fleets[|steps|] == f;
    forall s, e | Reachable(jobs, s) && Enabled(s, e)
      ensures Reachable(jobs, Apply(jobs, s, e))
    {
      ReachableSteps(jobs, s, e);
    }
    var s0 := State(fleets[0], initial, [], map[], map[]);
    var none: seq<Event> := [];
    assert Behavior(jobs, [s0], none) && [s0][|none|] == s0;
    s := FollowsFleet(jobs, s => Reachable(jobs, s), fleets, steps, |steps|, initial);
  }

  /**
   Whatever jobs the two revisions register, the start-up of the latest one can make
   all its writes, and the table then still end up with exactly the jobs of the
   superseded one.
   */
  lemma SupersededOverwrites(jobs: Jobs, initial: map<string, Entry>) returns (before: State, after: State)
    ensures Reachable(jobs, before) && Complete(before, StartUp(NEW, 0)) && Stored(before) == Registered(jobs(NEW))
    ensures Reachable(jobs, after) && after.fleet == before.fleet
    ensures R.LatestRevision(after.fleet.registry) == Some("r2")
    ensures OLD in after.fleet.registry.clients && after.fleet.registry.clients[OLD].revision == "r1"
    ensures Complete(after, StartUp(NEW, 0)) && Stored(after) == Registered(jobs(OLD))
  {
    var s := FollowsToBothStarting(jobs, initial);
    forall s, e | Reachable(jobs, s) && Enabled(s, e)
      ensures Reachable(jobs, Apply(jobs, s, e))
    {
      ReachableSteps(jobs, s, e);
    }
    before := RunsToEnd(jobs, s => Reachable(jobs, s), s, StartUp(NEW, 0));
    LeavesItsJobs(jobs, before, StartUp(NEW, 0));
    after := RunsToEnd(jobs, s => Reachable(jobs, s), before, StartUp(OLD, 1));
    LeavesItsJobs(jobs, after, StartUp(OLD, 1));
  }
}
