/**
 What the answers that reach a scheduler lead to, told over its runs by what was
 answered and which instances there are, and not step by step.
 */
module SchedulerOutcomes {
  import opened Wrappers
  import opened Histories
  import opened SchedulerProtocol

  // ------------------------------------------------------------------ failed start-ups

  predicate StartUpFails(e: Event) {
    e == StartOwnerSettled(false) || e == PromotionSettled(false)
  }

  /** Every instance was asked to stop, once each. */
  predicate AllStopped(p: Instances) {
    p.boss.None? && p.stopRequests == seq(p.Created(), _ => 1)
  }

  lemma NoBossAllStopped(p: Instances)
    requires Accounted(p) && p.boss.None?
    ensures AllStopped(p)
  {
  }

  /** A start-up that fails, the first or that of a promotion, leaves no instance running. */
  lemma FailedStartUpStops(fenced: bool, states: seq<State>, events: seq<Event>, i: nat)
    requires Behavior(fenced, states, events) && i < |events| && StartUpFails(events[i])
    ensures AllStopped(states[i + 1].pool) && states[i + 1].pool.Created() == states[i].pool.Created()
  {
    InvAt(fenced, states, events, i);
    StopKeepsAccounts(states[i].pool);
    NoBossAllStopped(states[i + 1].pool);
  }

  /** Nothing runs, and `start` is over. */
  predicate Idling(s: State) {
    s.pool.boss.None? && s.start.StartDone?
  }

  lemma IdlingStep(s: State, e: Event)
    requires Enabled(s, e) && Idling(s) && e != ReconcileAnswer(Owned(true))
    ensures Idling(Apply(s, e))
  {
  }

  lemma IdlingUntilOwner(fenced: bool, states: seq<State>, events: seq<Event>, i: nat, j: nat)
    requires Behavior(fenced, states, events) && i <= j < |states| && Idling(states[i])
    requires forall k :: i <= k < j ==> events[k] != ReconcileAnswer(Owned(true))
    ensures Idling(states[j])
  {
    var holds := seq(|states|, k requires 0 <= k < |states| => Idling(states[k]));
    forall k | i <= k < j && holds[k]
      ensures holds[k + 1]
    {
      IdlingStep(states[k], events[k]);
    }
    Lasts(holds, i, j);
  }

  /**
   A promotion that failed is tried again: the next answer that finds the process the owner
   creates a new instance.
   */
  lemma PromotionRetried(fenced: bool, states: seq<State>, events: seq<Event>, i: nat, j: nat)
    requires Behavior(fenced, states, events) && i < j < |events| && events[i] == PromotionSettled(false)
    requires events[j] == ReconcileAnswer(Owned(true)) && !states[j].stopped
    requires forall k :: i < k < j ==> events[k] != ReconcileAnswer(Owned(true))
    ensures states[j + 1].pool.stopRequests == states[j].pool.stopRequests + [0]
    ensures states[j + 1].pool.boss == Some(states[j].pool.Created())
    ensures states[j + 1].reconcile == Promoting(states[j].pool.Created())
  {
    InvAt(fenced, states, events, i);
    FailedStartUpStops(fenced, states, events, i);
    assert states[i + 1].start == states[i].start;
    IdlingUntilOwner(fenced, states, events, i + 1, j);
  }

  // -------------------------------------------------------------------- lost ownership

  /** The scheduler hears that its process is not the owner, and takes notice. */
  predicate HearsLoss(s: State, e: Event) {
    (e == ReconcileAnswer(Owned(false)) && !s.stopped) || (e.FenceAnswer? && e.answer == Owned(false))
  }

  /** After a loss was heard no instance is left running. */
  lemma LossStops(fenced: bool, states: seq<State>, events: seq<Event>, i: nat)
    requires Behavior(fenced, states, events) && i < |events| && HearsLoss(states[i], events[i])
    ensures AllStopped(states[i + 1].pool) && states[i + 1].pool.Created() == states[i].pool.Created()
  {
    InvAt(fenced, states, events, i);
    StopKeepsAccounts(states[i].pool);
    NoBossAllStopped(states[i + 1].pool);
  }

  /** Why a running instance is asked to stop. */
  predicate Stops(s: State, e: Event) {
    StartUpFails(e) || HearsLoss(s, e) || e.StopResumes?
  }

  lemma BossStopped(s: State, e: Event)
    requires Inv(s) && Enabled(s, e) && s.pool.boss.Some?
    ensures Apply(s, e).pool.boss.None? <==> Stops(s, e)
    ensures !Stops(s, e) ==> Apply(s, e).pool == s.pool
  {
  }

  /** A running instance goes on running, the only one, until its start-up fails, a loss is heard or `stop` ends it. */
  lemma BossStoppedIff(fenced: bool, states: seq<State>, events: seq<Event>, i: nat)
    requires Behavior(fenced, states, events) && i < |events| && states[i].pool.boss.Some?
    ensures states[i + 1].pool.boss.None? <==> Stops(states[i], events[i])
    ensures !Stops(states[i], events[i]) ==> states[i + 1].pool == states[i].pool
  {
    InvAt(fenced, states, events, i);
    BossStopped(states[i], events[i]);
  }

  /** How many times so far a loss was heard with an instance running. */
  function LossesOfBoss(states: seq<State>, events: seq<Event>, n: nat): nat
    requires n <= |events| <= |states|
  {
    if n == 0 then 0
    else
      LossesOfBoss(states, events, n - 1) +
      if HearsLoss(states[n - 1], events[n - 1]) && states[n - 1].pool.boss.Some? then 1 else 0
  }

  lemma StartDemotesNone(s: State, e: Event)
    requires Enabled(s, e) && OfStart(e)
    ensures Apply(s, e).pool.demotions == s.pool.demotions
  {
  }

  lemma CheckDemotes(s: State, e: Event)
    requires Enabled(s, e) && OfReconcile(e)
    ensures Apply(s, e).pool.demotions == s.pool.demotions + if HearsLoss(s, e) && s.pool.boss.Some? then 1 else 0
  {
  }

  lemma FenceDemotes(s: State, e: Event)
    requires Enabled(s, e) && !OfStart(e) && !OfReconcile(e)
    ensures Apply(s, e).pool.demotions == s.pool.demotions + if HearsLoss(s, e) && s.pool.boss.Some? then 1 else 0
  {
  }

  /** A demotion is reported for exactly each loss that found an instance running. */
  lemma {:induction false} DemotionsCounted(fenced: bool, states: seq<State>, events: seq<Event>, n: nat)
    requires Behavior(fenced, states, events) && n < |states|
    ensures states[n].pool.demotions == LossesOfBoss(states, events, n)
  {
    if n > 0 {
      DemotionsCounted(fenced, states, events, n - 1);
      if OfStart(events[n - 1]) {
        StartDemotesNone(states[n - 1], events[n - 1]);
      } else if OfReconcile(events[n - 1]) {
        CheckDemotes(states[n - 1], events[n - 1]);
      } else {
        FenceDemotes(states[n - 1], events[n - 1]);
      }
    }
  }

  // ------------------------------------------------------------------- start and ticks

  /** The role that `start` takes on: it is told, or there is no ownership to ask for. */
  function Role(s: State, e: Event): Option<bool> {
    if e == StartAnswer(Owned(true)) || (e.StartCall? && !s.fenced) then Some(true)
    else if e == StartAnswer(Owned(false)) then Some(false)
    else None
  }

  /**
   `start` creates the first instance as an owner, arms the timer as another, and does
   neither once stopped, or without an answer.
   */
  lemma StartOutcome(fenced: bool, states: seq<State>, events: seq<Event>, i: nat)
    requires Behavior(fenced, states, events) && i < |events| && (events[i].StartCall? || events[i].StartAnswer?)
    ensures var s, s' := states[i], states[i + 1];
      && s.pool.Created() == 0 && !s.timer
      && (s'.pool.stopRequests == if Role(s, events[i]) == Some(true) && !s.stopped then [0] else [])
      && (s'.pool.boss == if Role(s, events[i]) == Some(true) && !s.stopped then Some(0) else None)
      && (s'.timer <==> Role(s, events[i]) == Some(false) && !s.stopped)
  {
    InvAt(fenced, states, events, i);
  }

  /** The event arms the timer. */
  predicate Arms(s: State, e: Event) {
    (e == StartOwnerSettled(true) && s.fenced) || (e == StartAnswer(Owned(false)) && !s.stopped)
  }

  lemma TimerArmed(s: State, e: Event)
    requires Enabled(s, e) && !Apply(s, e).stopped
    ensures !s.stopped && (Apply(s, e).timer <==> s.timer || Arms(s, e))
  {
    if OfStart(e) {
      StartArms(s, e);
    } else {
      OthersArmNone(s, e);
    }
  }

  lemma StartArms(s: State, e: Event)
    requires Enabled(s, e) && OfStart(e)
    ensures Apply(s, e).stopped == s.stopped && (Apply(s, e).timer <==> s.timer || Arms(s, e))
  {
  }

  lemma OthersArmNone(s: State, e: Event)
    requires Enabled(s, e) && !OfStart(e) && !Apply(s, e).stopped
    ensures !s.stopped && Apply(s, e).timer == s.timer
  {
  }

  /** Until `stop` is called the timer is armed if and only if `start` has come to a good end. */
  lemma TimerBeforeStopIff(fenced: bool, states: seq<State>, events: seq<Event>, n: nat)
    requires Behavior(fenced, states, events) && n < |states| && !states[n].stopped
    ensures states[n].timer <==> exists k :: 0 <= k < n && Arms(states[k], events[k])
  {
    var unarmed := seq(|states|, k requires 0 <= k < |states| => !states[k].timer);
    var arms := seq(|events|, k requires 0 <= k < |events| => Arms(states[k], events[k]));
    forall k | 0 <= k < n
      ensures unarmed[k + 1] <==> unarmed[k] && !arms[k]
    {
      if states[k + 1].stopped {
        StaysStopped(fenced, states, events, k + 1, n);
      }
      TimerArmed(states[k], events[k]);
    }
    ThereUntilTaken(unarmed, arms, 0, n);
    assert forall k :: 0 <= k < n ==> (arms[k] <==> Arms(states[k], events[k]));
  }

  /** After a tick a check is in flight, unless the scheduler is stopped; one that was already goes on as it was. */
  lemma TickChecks(fenced: bool, states: seq<State>, events: seq<Event>, i: nat)
    requires Behavior(fenced, states, events) && i < |events| && events[i].Tick?
    ensures !states[i].stopped ==> !states[i + 1].reconcile.Idle?
    ensures states[i].stopped || !states[i].reconcile.Idle? ==> states[i + 1] == states[i]
  {
    InvAt(fenced, states, events, i);
  }

  // -------------------------------------------------------------------------- batches

  /** The calls of a handler for a batch, from step `from` on. */
  function Calls(events: seq<Event>, b: nat, from: nat, n: nat): nat
    requires from <= n <= |events|
  {
    if n == from then 0
    else Calls(events, b, from, n - 1) + if events[n - 1].HandlerCall? && events[n - 1].batch == b then 1 else 0
  }

  /** Where a batch of `jobs` jobs is after this many handler calls; `told` whether it was told that it may go on,
      `failed` whether one of the calls failed. */
  predicate BatchFits(s: State, b: nat, jobs: nat, calls: nat, told: bool, failed: bool) {
    && b in s.batches
    && match s.batches[b]
       case AwaitingOwnership(n) => s.fenced && n == jobs && calls == 0 && !failed
       case Handling(left) => (s.fenced ==> told) && !failed && calls + left == jobs
       case Rejected => calls == 0 && !failed
       case Finished => if failed then 0 < calls <= jobs else calls == 0
  }

  lemma BatchFitsStep(s: State, e: Event, b: nat, jobs: nat, calls: nat, told: bool, failed: bool)
    requires Enabled(s, e) && BatchFits(s, b, jobs, calls, told, failed)
    ensures BatchFits(Apply(s, e), b, jobs,
      calls + if e.HandlerCall? && e.batch == b then 1 else 0, told || e == FenceAnswer(b, Owned(true)),
      failed || e == HandlerCall(b, false))
  {
    if OfStart(e) {
      StartKeepsBatch(s, e);
    } else if !e.BatchArrives? && !e.FenceAnswer? && !e.HandlerCall? {
      OthersKeepBatch(s, e);
    }
  }

  lemma StartKeepsBatch(s: State, e: Event)
    requires Enabled(s, e) && OfStart(e)
    ensures Apply(s, e).batches == s.batches && Apply(s, e).fenced == s.fenced && Apply(s, e).handled == s.handled
  {
  }

  lemma OthersKeepBatch(s: State, e: Event)
    requires Enabled(s, e) && !OfStart(e) && !e.BatchArrives? && !e.FenceAnswer? && !e.HandlerCall?
    ensures Apply(s, e).batches == s.batches && Apply(s, e).fenced == s.fenced && Apply(s, e).handled == s.handled
  {
  }

  /** Whether some event from step `from` on was this one. */
  predicate Happened(events: seq<Event>, e: Event, from: nat, n: nat)
    requires n <= |events|
  {
    e in events[if from <= n then from else n..n]
  }

  /** The batch that arrived at step `i` fits what has happened up to state `n`. */
  ghost predicate FitsAt(states: seq<State>, events: seq<Event>, b: nat, jobs: nat, i: nat, n: nat) {
    && i < n <= |events| && n < |states|
    && BatchFits(states[n], b, jobs, Calls(events, b, i + 1, n),
        Happened(events, FenceAnswer(b, Owned(true)), i + 1, n),
         Happened(events, HandlerCall(b, false), i + 1, n))
  }

  lemma ArrivalFits(states: seq<State>, events: seq<Event>, b: nat, jobs: nat, i: nat)
    requires i < |events| && i + 1 < |states| && events[i] == BatchArrives(b, jobs)
    requires Enabled(states[i], events[i]) && states[i + 1] == Apply(states[i], events[i])
    ensures FitsAt(states, events, b, jobs, i, i + 1)
  {
  }

  lemma FitsAtStep(states: seq<State>, events: seq<Event>, b: nat, jobs: nat, i: nat, n: nat)
    requires FitsAt(states, events, b, jobs, i, n) && n < |events| && n + 1 < |states|
    requires Enabled(states[n], events[n]) && states[n + 1] == Apply(states[n], events[n])
    ensures FitsAt(states, events, b, jobs, i, n + 1)
  {
    var told, failed := FenceAnswer(b, Owned(true)), HandlerCall(b, false);
    BatchFitsStep(states[n], events[n], b, jobs, Calls(events, b, i + 1, n), Happened(events, told, i + 1, n),
      Happened(events, failed, i + 1, n));
    assert events[i + 1..n + 1] == events[i + 1..n] + [events[n]];
  }

  /** The batches of the handler calls among some events, in order. */
  function HandlerCalls(events: seq<Event>): seq<nat> {
    if events == [] then []
    else
      var last := events[|events| - 1];
      HandlerCalls(events[..|events| - 1]) + if last.HandlerCall? then [last.batch] else []
  }

  /** The log of handled jobs is exactly the handler calls of the run. */
  lemma {:induction false} HandledIsTheCalls(fenced: bool, states: seq<State>, events: seq<Event>, n: nat)
    requires Behavior(fenced, states, events) && n <= |events|
    ensures states[n].handled == HandlerCalls(events[..n])
  {
    if n > 0 {
      HandledIsTheCalls(fenced, states, events, n - 1);
      assert events[..n][..n - 1] == events[..n - 1];
      LogsCall(states[n - 1], events[n - 1]);
    }
  }

  lemma LogsCall(s: State, e: Event)
    requires Enabled(s, e)
    ensures Apply(s, e).handled == s.handled + if e.HandlerCall? then [e.batch] else []
  {
    if OfStart(e) {
      StartKeepsBatch(s, e);
    } else if !e.BatchArrives? && !e.FenceAnswer? && !e.HandlerCall? {
      OthersKeepBatch(s, e);
    }
  }

  /**
   A batch is handled job by job after it was told that its process is the owner, or
   if there is no ownership: the calls made and the jobs left add up to its jobs, and
   one that waits or was rejected has had none. One that is finished had a call that
   failed, its last, or its check failed before any.
   */
  lemma BatchAccounted(fenced: bool, states: seq<State>, events: seq<Event>, b: nat, jobs: nat, i: nat, n: nat)
    requires Behavior(fenced, states, events) && i < n < |states| && events[i] == BatchArrives(b, jobs)
    ensures FitsAt(states, events, b, jobs, i, n)
  {
    FitsOnArrival(fenced, states, events, b, jobs, i);
    forall k | i < k < n
      ensures FitsAt(states, events, b, jobs, i, k) ==> FitsAt(states, events, b, jobs, i, k + 1)
    {
      FitsAtNext(fenced, states, events, b, jobs, i, k);
    }
    FitsOn(states, events, b, jobs, i, n);
  }

  lemma {:induction false} FitsOn(states: seq<State>, events: seq<Event>, b: nat, jobs: nat, i: nat, n: nat)
    requires i < n < |states| && FitsAt(states, events, b, jobs, i, i + 1)
    requires forall k :: i < k < n ==> FitsAt(states, events, b, jobs, i, k) ==>
      FitsAt(states, events, b, jobs, i, k + 1)
    ensures FitsAt(states, events, b, jobs, i, n)
    decreases n
  {
    if i + 1 < n {
      FitsOn(states, events, b, jobs, i, n - 1);
    }
  }

  lemma FitsOnArrival(fenced: bool, states: seq<State>, events: seq<Event>, b: nat, jobs: nat, i: nat)
    requires Behavior(fenced, states, events) && i < |events| && events[i] == BatchArrives(b, jobs)
    ensures FitsAt(states, events, b, jobs, i, i + 1)
  {
    ArrivalFits(states, events, b, jobs, i);
  }

  lemma FitsAtNext(fenced: bool, states: seq<State>, events: seq<Event>, b: nat, jobs: nat, i: nat, n: nat)
    requires Behavior(fenced, states, events) && n < |events|
    ensures FitsAt(states, events, b, jobs, i, n) ==> FitsAt(states, events, b, jobs, i, n + 1)
  {
    if FitsAt(states, events, b, jobs, i, n) {
      FitsAtStep(states, events, b, jobs, i, n);
    }
  }
}
