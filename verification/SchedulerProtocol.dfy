/**
 The protocol of one scheduler as a step system.

 The scheduler is a set of overlapping async tasks (one `start`, one `reconcile`
 at a time, any number of job batches, one effective `stop`) over shared mutable
 variables. Code between two awaits is one atomic step, so a task is represented
 by the await it is suspended at, and an event resumes one task.
 */
module SchedulerProtocol {
  import opened Wrappers
  import opened Histories

  /** What an `isOwned` check resolved to. `CheckFailed` stands for a rejection. */
  datatype Answer = Owned(owner: bool) | CheckFailed

  /** Where the single `start` call is. The instance is the one `startAsOwner` is starting. */
  datatype StartPhase =
    | NotStarted
    | StartChecking
    | StartOwning(inst: nat)
    | StartFailing(inst: nat)
    | StartDone

  /** Where the ownership check in flight is, if any. */
  datatype ReconcilePhase =
    | Idle
    | Checking
    | Promoting(inst: nat)
    | PromotionFailing(inst: nat)
    | Demoting(inst: nat)
    | Settling

  /** Where the first `stop` call is. */
  datatype StopPhase = NotRequested | AwaitingReconcile | AwaitingBossStop | StopDone

  /** Where the worker callback of one job batch is. */
  datatype BatchPhase = AwaitingOwnership(jobs: nat) | Handling(left: nat) | Rejected | Finished

  /**
   The `boss` variable and what was done to the instances, numbered in order of
   creation: `stopRequests[i]` counts the `stop` calls made on instance `i`.
   */
  datatype Instances = Instances(boss: Option<nat>, stopRequests: seq<nat>, demotions: nat) {
    function Created(): nat { |stopRequests| }

    /** The synchronous part of `startAsOwner`: a new instance becomes the boss. */
    function Create(): Instances {
      this.(boss := Some(|stopRequests|), stopRequests := stopRequests + [0])
    }

    /** The synchronous part of `stopBoss`: forget the instance, then ask it to stop. */
    function StopBoss(): Instances {
      match boss
      case None => this
      case Some(i) =>
        this.(boss := None,
              stopRequests := if i < |stopRequests| then stopRequests[i := stopRequests[i] + 1] else stopRequests)
    }

    /** The synchronous part of `demote`: reported only while there is something to stop. */
    function Demote(): Instances {
      if boss.None? then this else this.(demotions := demotions + 1).StopBoss()
    }
  }

  /**
   The variables of one scheduler and the tasks suspended on them; `handled`
   lists the batch of every handler call.
   */
  datatype State = State(
    fenced: bool,
    pool: Instances,
    timer: bool,
    inFlight: bool,
    stopped: bool,
    start: StartPhase,
    reconcile: ReconcilePhase,
    stopping: StopPhase,
    batches: map<nat, BatchPhase>,
    handled: seq<nat>)
  {
    function StartsInFlight(): nat {
      (if start.StartOwning? || start.StartFailing? then 1 else 0) +
      (if reconcile.Promoting? || reconcile.PromotionFailing? then 1 else 0)
    }
  }

  function Init(fenced: bool): State {
    State(fenced, Instances(None, [], 0), false, false, false, NotStarted, Idle, NotRequested, map[], [])
  }

  datatype Event =
    | StartCall
    | StartAnswer(answer: Answer)
    | StartOwnerSettled(ok: bool)
    | StartFailureStopped
    | Tick
    | ReconcileAnswer(answer: Answer)
    | PromotionSettled(ok: bool)
    | PromotionFailureStopped
    | DemotionStopped
    | ReconcileSettled
    | BatchArrives(batch: nat, jobs: nat)
    | FenceAnswer(batch: nat, answer: Answer)
    | HandlerCall(batch: nat, ok: bool)
    | StopCall
    | StopResumes
    | StopEnds

  predicate Enabled(s: State, e: Event) {
    match e
    case StartCall => s.start.NotStarted?
    case StartAnswer(_) => s.start.StartChecking?
    case StartOwnerSettled(_) => s.start.StartOwning?
    case StartFailureStopped => s.start.StartFailing?
    case Tick => s.timer
    case ReconcileAnswer(_) => s.reconcile.Checking?
    case PromotionSettled(_) => s.reconcile.Promoting?
    case PromotionFailureStopped => s.reconcile.PromotionFailing?
    case DemotionStopped => s.reconcile.Demoting?
    case ReconcileSettled => s.reconcile.Settling?
    case BatchArrives(b, _) => b !in s.batches && s.pool.Created() > 0
    case FenceAnswer(b, _) => b in s.batches && s.batches[b].AwaitingOwnership?
    case HandlerCall(b, _) => b in s.batches && s.batches[b].Handling? && s.batches[b].left > 0
    case StopCall => true
    case StopResumes => s.stopping.AwaitingReconcile? && s.reconcile.Idle?
    case StopEnds => s.stopping.AwaitingBossStop?
  }

  function Apply(s: State, e: Event): State
    requires Enabled(s, e)
  {
    match e
    case StartCall =>
      if s.fenced then s.(start := StartChecking)
      else if s.stopped then s.(start := StartDone)
      else s.(pool := s.pool.Create(), start := StartOwning(s.pool.Created()))
    case StartAnswer(a) =>
      if a.CheckFailed? || s.stopped then s.(start := StartDone)
      else if a.owner then s.(pool := s.pool.Create(), start := StartOwning(s.pool.Created()))
      else s.(start := StartDone, timer := true)
    case StartOwnerSettled(ok) =>
      if ok then s.(start := StartDone, timer := s.timer || s.fenced)
      else s.(pool := s.pool.StopBoss(), start := StartFailing(s.start.inst))
    case StartFailureStopped => s.(start := StartDone)
    case Tick =>
      if !s.fenced || s.inFlight || s.stopped then s
      else s.(inFlight := true, reconcile := Checking)
    case ReconcileAnswer(a) =>
      if a.CheckFailed? || s.stopped then s.(reconcile := Settling)
      else if a.owner && s.pool.boss.None? then s.(pool := s.pool.Create(), reconcile := Promoting(s.pool.Created()))
      else if !a.owner && s.pool.boss.Some? then s.(pool := s.pool.Demote(), reconcile := Demoting(s.pool.boss.value))
      else s.(reconcile := Settling)
    case PromotionSettled(ok) =>
      if ok then s.(reconcile := Settling)
      else s.(pool := s.pool.StopBoss(), reconcile := PromotionFailing(s.reconcile.inst))
    case PromotionFailureStopped => s.(reconcile := Settling)
    case DemotionStopped => s.(reconcile := Settling)
    case ReconcileSettled => s.(reconcile := Idle, inFlight := false)
    case BatchArrives(b, n) =>
      s.(batches := s.batches[b := if s.fenced then AwaitingOwnership(n) else Handling(n)])
    case FenceAnswer(b, a) =>
      (match a
       case CheckFailed => s.(batches := s.batches[b := Finished])
       case Owned(true) => s.(batches := s.batches[b := Handling(s.batches[b].jobs)])
       case Owned(false) => s.(pool := s.pool.Demote(), batches := s.batches[b := Rejected]))
    case HandlerCall(b, ok) =>
      s.(handled := s.handled + [b],
         batches := s.batches[b := if ok then Handling(s.batches[b].left - 1) else Finished])
    case StopCall =>
      if s.stopped then s
      else s.(stopped := true, timer := false, stopping := AwaitingReconcile)
    case StopResumes => s.(pool := s.pool.StopBoss(), stopping := AwaitingBossStop)
    case StopEnds => s.(stopping := StopDone)
  }

  // ---------------------------------------------------------------- behaviours

  /** A finite run: states linked by enabled events, from the initial state. */
  ghost predicate Behavior(fenced: bool, states: seq<State>, events: seq<Event>) {
    && |states| == |events| + 1
    && states[0] == Init(fenced)
    && forall i :: 0 <= i < |events| ==> Enabled(states[i], events[i]) && states[i + 1] == Apply(states[i], events[i])
  }

  // ---------------------------------------------------------------- invariant

  /** `boss` is the one created instance whose stop was not requested; every other was asked once. */
  ghost predicate Accounted(p: Instances) {
    && (p.boss.Some? ==> p.boss.value + 1 == p.Created())
    && (forall i :: 0 <= i < p.Created() ==> p.stopRequests[i] == if p.boss == Some(i) then 0 else 1)
    && p.demotions + (if p.boss.Some? then 1 else 0) <= p.Created()
  }

  /** Which tasks can be suspended together, and on which instance. */
  ghost predicate TasksCoherent(s: State) {
    && (s.inFlight <==> !s.reconcile.Idle?)
    && (s.timer || !s.reconcile.Idle? ==> s.start.StartDone? && s.fenced)
    && (s.start.StartChecking? ==> s.fenced)
    && (s.start.NotStarted? || s.start.StartChecking? ==> s.pool.Created() == 0)
    && (s.start.StartOwning? || s.start.StartFailing? ==> s.pool.Created() == 1)
    && (s.reconcile.Promoting? ==> s.reconcile.inst + 1 == s.pool.Created())
  }

  ghost predicate StopCoherent(s: State) {
    && (s.stopped <==> !s.stopping.NotRequested?)
    && (s.stopping.AwaitingBossStop? || s.stopping.StopDone? ==> s.pool.boss.None? && s.reconcile.Idle?)
  }

  ghost predicate Inv(s: State) {
    Accounted(s.pool) && TasksCoherent(s) && StopCoherent(s)
  }

  lemma StopKeepsAccounts(p: Instances)
    requires Accounted(p)
    ensures Accounted(p.StopBoss()) && p.StopBoss().boss.None? && p.StopBoss().Created() == p.Created()
    ensures Accounted(p.Demote()) && p.Demote().boss.None? && p.Demote().Created() == p.Created()
  {
  }

  lemma CreateKeepsAccounts(p: Instances)
    requires Accounted(p) && p.boss.None?
    ensures Accounted(p.Create())
  {
  }

  predicate OfStart(e: Event) {
    e.StartCall? || e.StartAnswer? || e.StartOwnerSettled? || e.StartFailureStopped?
  }

  predicate OfReconcile(e: Event) {
    || e.Tick? || e.ReconcileAnswer? || e.PromotionSettled? || e.PromotionFailureStopped?
    || e.DemotionStopped? || e.ReconcileSettled?
  }

  /** What can become of the instances in one step. */
  predicate PoolStep(p: Instances, p': Instances) {
    p' == p || (p.boss.None? && p' == p.Create()) || p' == p.StopBoss() || p' == p.Demote()
  }

  lemma StartPool(s: State, e: Event)
    requires Accounted(s.pool) && TasksCoherent(s) && Enabled(s, e) && OfStart(e)
    ensures PoolStep(s.pool, Apply(s, e).pool)
  {
  }

  lemma ReconcilePool(s: State, e: Event)
    requires Enabled(s, e) && OfReconcile(e)
    ensures PoolStep(s.pool, Apply(s, e).pool)
  {
  }

  lemma OtherPool(s: State, e: Event)
    requires Enabled(s, e) && !OfStart(e) && !OfReconcile(e)
    ensures PoolStep(s.pool, Apply(s, e).pool)
  {
  }

  lemma PoolAccounts(p: Instances, p': Instances)
    requires Accounted(p) && PoolStep(p, p')
    ensures Accounted(p')
  {
    StopKeepsAccounts(p);
    if p.boss.None? {
      CreateKeepsAccounts(p);
    }
  }

  lemma AccountsStep(s: State, e: Event)
    requires Accounted(s.pool) && TasksCoherent(s) && Enabled(s, e)
    ensures Accounted(Apply(s, e).pool)
  {
    if OfStart(e) {
      StartPool(s, e);
    } else if OfReconcile(e) {
      ReconcilePool(s, e);
    } else {
      OtherPool(s, e);
    }
    PoolAccounts(s.pool, Apply(s, e).pool);
  }

  lemma StartTasksStep(s: State, e: Event)
    requires Accounted(s.pool) && TasksCoherent(s) && Enabled(s, e) && OfStart(e)
    ensures TasksCoherent(Apply(s, e))
  {
    StopKeepsAccounts(s.pool);
  }

  lemma ReconcileTasksStep(s: State, e: Event)
    requires Accounted(s.pool) && TasksCoherent(s) && Enabled(s, e) && OfReconcile(e)
    ensures TasksCoherent(Apply(s, e))
  {
    StopKeepsAccounts(s.pool);
  }

  lemma OtherTasksStep(s: State, e: Event)
    requires Accounted(s.pool) && TasksCoherent(s) && Enabled(s, e) && !OfStart(e) && !OfReconcile(e)
    ensures TasksCoherent(Apply(s, e))
  {
    StopKeepsAccounts(s.pool);
  }

  lemma TasksStep(s: State, e: Event)
    requires Accounted(s.pool) && TasksCoherent(s) && Enabled(s, e)
    ensures TasksCoherent(Apply(s, e))
  {
    if OfStart(e) {
      StartTasksStep(s, e);
    } else if OfReconcile(e) {
      ReconcileTasksStep(s, e);
    } else {
      OtherTasksStep(s, e);
    }
  }

  lemma StartsKeepStopping(s: State, e: Event)
    requires Enabled(s, e) && OfStart(e)
    ensures Apply(s, e).stopping == s.stopping && Apply(s, e).stopped == s.stopped
  {
  }

  lemma ChecksKeepStopping(s: State, e: Event)
    requires Enabled(s, e) && OfReconcile(e)
    ensures Apply(s, e).stopping == s.stopping && Apply(s, e).stopped == s.stopped
  {
  }

  /** Before `stop` has got past the check there is nothing to keep but the flag. */
  lemma EarlyStopStep(s: State, e: Event)
    requires StopCoherent(s) && Enabled(s, e) && (s.stopping.NotRequested? || s.stopping.AwaitingReconcile?)
    requires Accounted(s.pool)
    ensures StopCoherent(Apply(s, e))
  {
    if OfStart(e) {
      StartsKeepStopping(s, e);
    } else if OfReconcile(e) {
      ChecksKeepStopping(s, e);
    } else {
      StopKeepsAccounts(s.pool);
    }
  }

  /** After that no instance comes back: a start does not create one any more, and no check begins. */
  lemma LateStopStep(s: State, e: Event)
    requires StopCoherent(s) && Enabled(s, e) && (s.stopping.AwaitingBossStop? || s.stopping.StopDone?)
    ensures StopCoherent(Apply(s, e))
  {
  }

  lemma StopStep(s: State, e: Event)
    requires Accounted(s.pool) && StopCoherent(s) && Enabled(s, e)
    ensures StopCoherent(Apply(s, e))
  {
    if s.stopping.NotRequested? || s.stopping.AwaitingReconcile? {
      EarlyStopStep(s, e);
    } else {
      LateStopStep(s, e);
    }
  }

  lemma InvStep(s: State, e: Event)
    requires Inv(s) && Enabled(s, e)
    ensures Inv(Apply(s, e))
  {
    AccountsStep(s, e);
    TasksStep(s, e);
    StopStep(s, e);
  }

  lemma {:induction false} InvAt(fenced: bool, states: seq<State>, events: seq<Event>, i: nat)
    requires Behavior(fenced, states, events) && i < |states|
    ensures Inv(states[i])
  {
    if i > 0 {
      InvAt(fenced, states, events, i - 1);
      InvStep(states[i - 1], events[i - 1]);
    }
  }

  // ---------------------------------------------------------------- theorems

  /**
   Instance lifecycle, in every interleaving: at most one instance has not been
   asked to stop and it is `boss`; no instance is asked twice; at most one
   `startAsOwner` is in flight; demotions never outnumber instances.
   */
  lemma InstanceLifecycle(fenced: bool, states: seq<State>, events: seq<Event>, i: nat)
    requires Behavior(fenced, states, events) && i < |states|
    ensures var p := states[i].pool;
      && (forall k :: 0 <= k < p.Created() ==> p.stopRequests[k] <= 1)
      && (forall k :: 0 <= k < p.Created() ==> (p.stopRequests[k] == 0 <==> p.boss == Some(k)))
      && (p.boss.Some? ==> p.boss.value < p.Created())
      && p.demotions <= p.Created()
      && states[i].StartsInFlight() <= 1
  {
    InvAt(fenced, states, events, i);
  }

  lemma StartCreates(s: State, e: Event)
    requires Enabled(s, e) && OfStart(e)
    ensures s.pool.Created() <= Apply(s, e).pool.Created() <= s.pool.Created() + 1
  {
  }

  lemma ReconcileCreates(s: State, e: Event)
    requires Enabled(s, e) && OfReconcile(e)
    ensures s.pool.Created() <= Apply(s, e).pool.Created() <= s.pool.Created() + 1
  {
  }

  lemma OthersCreateNone(s: State, e: Event)
    requires Enabled(s, e) && !OfStart(e) && !OfReconcile(e)
    ensures Apply(s, e).pool.Created() == s.pool.Created()
  {
  }

  /** A step creates one instance at most. */
  lemma CreatedStep(s: State, e: Event)
    requires Enabled(s, e)
    ensures s.pool.Created() <= Apply(s, e).pool.Created() <= s.pool.Created() + 1
  {
    if OfStart(e) {
      StartCreates(s, e);
    } else if OfReconcile(e) {
      ReconcileCreates(s, e);
    } else {
      OthersCreateNone(s, e);
    }
  }

  lemma StoppedStep(s: State, e: Event)
    requires Inv(s) && Enabled(s, e) && s.stopped
    ensures Apply(s, e).stopped && Apply(s, e).pool.Created() == s.pool.Created()
    ensures s.stopping.StopDone? ==> Apply(s, e).stopping.StopDone?
  {
    StopKeepsAccounts(s.pool);
  }

  /** Once `stopped` is set no instance is created, whatever was pending. */
  lemma {:induction false} NoInstanceAfterStop(fenced: bool, states: seq<State>, events: seq<Event>, i: nat, j: nat)
    requires Behavior(fenced, states, events) && i <= j < |states|
    requires states[i].stopped
    ensures states[j].stopped && states[j].pool.Created() == states[i].pool.Created()
    ensures states[i].stopping.StopDone? ==> states[j].stopping.StopDone?
    decreases j - i
  {
    if i < j {
      InvAt(fenced, states, events, i);
      StoppedStep(states[i], events[i]);
      NoInstanceAfterStop(fenced, states, events, i + 1, j);
    }
  }

  /**
   When the first `stop()` has ended, and ever after, there is no boss and every
   instance ever created was asked to stop exactly once.
   */
  lemma StopDrains(fenced: bool, states: seq<State>, events: seq<Event>, i: nat, j: nat)
    requires Behavior(fenced, states, events) && i <= j < |states|
    requires states[i].stopping.StopDone?
    ensures states[j].pool.boss.None?
    ensures states[j].pool.stopRequests == seq(states[i].pool.Created(), _ => 1)
  {
    InvAt(fenced, states, events, i);
    NoInstanceAfterStop(fenced, states, events, i, j);
    InvAt(fenced, states, events, j);
  }

  /**
   The event arms the timer of a scheduler that is stopped: the start-up of an owner that
   was under way has succeeded.
   */
  predicate RearmsTimer(s: State, e: Event) {
    e == StartOwnerSettled(true) && s.fenced
  }

  lemma TimerStep(s: State, e: Event)
    requires Enabled(s, e) && s.stopped
    ensures Apply(s, e).stopped && (Apply(s, e).timer <==> s.timer || RearmsTimer(s, e))
  {
    if OfStart(e) {
      StartArmsTimer(s, e);
    } else {
      OthersLeaveTimer(s, e);
    }
  }

  lemma StartArmsTimer(s: State, e: Event)
    requires Enabled(s, e) && s.stopped && OfStart(e)
    ensures Apply(s, e).stopped && (Apply(s, e).timer <==> s.timer || RearmsTimer(s, e))
  {
  }

  lemma OthersLeaveTimer(s: State, e: Event)
    requires Enabled(s, e) && s.stopped && !OfStart(e)
    ensures Apply(s, e).stopped && Apply(s, e).timer == s.timer
  {
  }

  /**
   The first `stop` disarms the timer, and from then on it is armed if and only if
   the start-up of an owner has succeeded since: `start` looks at `stopped` before it
   becomes owner and not after. The ticks of such a timer do nothing.
   */
  lemma TimerAfterStopIff(fenced: bool, states: seq<State>, events: seq<Event>, i: nat, j: nat)
    requires Behavior(fenced, states, events) && i < j < |states|
    requires events[i].StopCall? && !states[i].stopped
    ensures states[j].timer <==> exists k :: i < k < j && RearmsTimer(states[k], events[k])
    ensures states[j].timer ==> Enabled(states[j], Tick) && Apply(states[j], Tick) == states[j]
  {
    var unarmed := seq(|states|, k requires 0 <= k < |states| => !states[k].timer);
    var arms := seq(|events|, k requires 0 <= k < |events| => RearmsTimer(states[k], events[k]));
    forall k | i < k < j
      ensures unarmed[k + 1] <==> unarmed[k] && !arms[k]
    {
      StaysStopped(fenced, states, events, i + 1, k);
      TimerStep(states[k], events[k]);
    }
    ThereUntilTaken(unarmed, arms, i + 1, j);
    StaysStopped(fenced, states, events, i + 1, j);
    assert forall k :: i < k < j ==> (arms[k] <==> RearmsTimer(states[k], events[k]));
  }

  lemma StaysStopped(fenced: bool, states: seq<State>, events: seq<Event>, i: nat, j: nat)
    requires Behavior(fenced, states, events) && i <= j < |states| && states[i].stopped
    ensures states[j].stopped
  {
    var holds := seq(|states|, k requires 0 <= k < |states| => states[k].stopped);
    forall k | i <= k < j && holds[k]
      ensures holds[k + 1]
    {
      TimerStep(states[k], events[k]);
    }
    Lasts(holds, i, j);
  }

  /** It happens, and lasts after a whole `stop`: an owner's start-up succeeds when `stop` has ended. */
  lemma TimerOutlivesStop() returns (states: seq<State>, events: seq<Event>)
    ensures Behavior(true, states, events)
    ensures var s := states[|events|]; s.stopping.StopDone? && s.pool.boss.None? && s.timer
  {
    var s0 := Init(true);
    var s1 := Apply(s0, Event.StartCall);
    var s2 := Apply(s1, StartAnswer(Owned(true)));
    var s3 := Apply(s2, StopCall);
    var s4 := Apply(s3, StopResumes);
    var s5 := Apply(s4, StopEnds);
    states := [s0, s1, s2, s3, s4, s5, Apply(s5, StartOwnerSettled(true))];
    events := [Event.StartCall, StartAnswer(Owned(true)), StopCall, StopResumes, StopEnds, StartOwnerSettled(true)];
  }

  /** How many steps the check in flight still has to take at most. */
  function ReconcileDistance(r: ReconcilePhase): nat {
    match r
    case Idle => 0
    case Settling => 1
    case PromotionFailing(_) => 2
    case Demoting(_) => 2
    case Promoting(_) => 3
    case Checking => 4
  }

  /** While `stop()` waits, every step of the check in flight brings it strictly closer to its end. */
  lemma ReconcileAdvances(s: State, e: Event)
    requires Inv(s) && Enabled(s, e) && s.stopped
    ensures ReconcileDistance(Apply(s, e).reconcile) <= ReconcileDistance(s.reconcile)
    ensures OfReconcile(e) && !e.Tick? ==>
      ReconcileDistance(Apply(s, e).reconcile) < ReconcileDistance(s.reconcile)
  {
  }

  /** `stop()` is never stuck behind the check it waits for: it resumes, or that check has a step to take. */
  lemma StopCanAdvance(s: State) returns (e: Event)
    requires Inv(s) && s.stopping.AwaitingReconcile?
    ensures Enabled(s, e)
    ensures e == StopResumes || ReconcileDistance(Apply(s, e).reconcile) < ReconcileDistance(s.reconcile)
  {
    e := match s.reconcile
      case Idle => StopResumes
      case Checking => ReconcileAnswer(CheckFailed)
      case Promoting(_) => PromotionSettled(true)
      case PromotionFailing(_) => PromotionFailureStopped
      case Demoting(_) => DemotionStopped
      case Settling => ReconcileSettled;
  }
}
