/**
 The scheduler object: the mutable variables of `createScheduler` and, as
 methods, the stretches of its functions that run between two awaits. Every
 method is proved to be the step of `SchedulerProtocol` of the same name.
 */
module Scheduler {
  import opened Wrappers
  import opened SchedulerProtocol

  class Scheduler {
    const fenced: bool  // whether `isOwned` is configured
    var boss: Option<nat>
    var ownershipTimer: bool
    var reconcileInFlight: bool
    var stopped: bool

    // The tasks suspended on this scheduler, and what was done to its instances.
    var startTask: StartPhase
    var reconcileTask: ReconcilePhase
    var stopTask: StopPhase
    var batches: map<nat, BatchPhase>
    var stopRequests: seq<nat>
    var demotions: nat
    var handled: seq<nat>

    function Pool(): Instances
      reads this
    {
      Instances(boss, stopRequests, demotions)
    }

    function Snapshot(): State
      reads this
    {
      State(fenced, Pool(), ownershipTimer, reconcileInFlight, stopped, startTask, reconcileTask, stopTask,
            batches, handled)
    }

    ghost predicate Valid()
      reads this
    {
      Inv(Snapshot())
    }

    constructor (fenced: bool)
      ensures Valid() && Snapshot() == Init(fenced)
    {
      this.fenced := fenced;
      boss, ownershipTimer, reconcileInFlight, stopped := None, false, false, false;
      startTask, reconcileTask, stopTask := NotStarted, Idle, NotRequested;
      batches, stopRequests, demotions, handled := map[], [], 0, [];
    }

    method StopBoss()
      requires boss.Some? ==> boss.value < |stopRequests|
      modifies this`boss, this`stopRequests
      ensures Pool() == old(Pool()).StopBoss()
    {
      var instance := boss;
      boss := None;
      if instance.None? {
        return;
      }
      stopRequests := stopRequests[instance.value := stopRequests[instance.value] + 1];
    }

    method Demote()
      requires boss.Some? ==> boss.value < |stopRequests|
      modifies this`boss, this`stopRequests, this`demotions
      ensures Pool() == old(Pool()).Demote()
    {
      if boss.None? {
        return;
      }
      demotions := demotions + 1;
      StopBoss();
    }

    /** Constructs the instance and publishes it; the caller then awaits its start-up. */
    method CreateInstance() returns (instance: nat)
      modifies this`boss, this`stopRequests
      ensures Pool() == old(Pool()).Create()
      ensures instance == old(|stopRequests|)
    {
      instance := |stopRequests|;
      stopRequests := stopRequests + [0];
      boss := Some(instance);
    }

    // ------------------------------------------------------------------- start

    method Start()
      requires Valid() && Enabled(Snapshot(), Event.StartCall)
      modifies this
      ensures Valid() && Snapshot() == Apply(old(Snapshot()), Event.StartCall)
      ensures stopRequests == if !fenced && !old(stopped) then [0] else []
      ensures startTask.StartChecking? <==> fenced
    {
      InvStep(Snapshot(), Event.StartCall);
      if fenced {
        startTask := StartChecking;
      } else {
        StartWithRole(true);
      }
    }

    method StartChecked(answer: Answer)
      requires Valid() && Enabled(Snapshot(), StartAnswer(answer))
      modifies this
      ensures Valid() && Snapshot() == Apply(old(Snapshot()), StartAnswer(answer))
      ensures stopRequests == if answer == Owned(true) && !old(stopped) then [0] else []
      ensures ownershipTimer <==> answer == Owned(false) && !old(stopped)
    {
      InvStep(Snapshot(), StartAnswer(answer));
      match answer
      case CheckFailed => startTask := StartDone;
      case Owned(owner) => StartWithRole(owner);
    }

    /** `start` from the point where its role is known. */
    method StartWithRole(owner: bool)
      requires Valid() && (owner || fenced)
      modifies this
      ensures Snapshot() ==
        var s := old(Snapshot());
        if s.stopped then s.(start := StartDone)
        else if owner then s.(pool := s.pool.Create(), start := StartOwning(s.pool.Created()))
        else s.(start := StartDone, timer := true)
    {
      if stopped {
        startTask := StartDone;
        return;
      }
      if owner {
        var instance := CreateInstance();
        startTask := StartOwning(instance);
      } else {
        startTask := StartDone;
        ownershipTimer := true;
      }
    }

    method StartAsOwnerSettled(ok: bool)
      requires Valid() && Enabled(Snapshot(), StartOwnerSettled(ok))
      modifies this
      ensures Valid() && Snapshot() == Apply(old(Snapshot()), StartOwnerSettled(ok))
      ensures !ok ==> boss.None? && stopRequests == seq(|stopRequests|, _ => 1)
      ensures ok ==> boss == old(boss) && stopRequests == old(stopRequests) && (fenced ==> ownershipTimer)
    {
      InvStep(Snapshot(), StartOwnerSettled(ok));
      if !ok {
        StopBoss();
        startTask := StartFailing(startTask.inst);
        return;
      }
      startTask := StartDone;
      if !fenced {
        return;
      }
      ownershipTimer := true;
    }

    // --------------------------------------------------------------- reconcile

    method Reconcile()
      requires Valid() && Enabled(Snapshot(), Tick)
      modifies this
      ensures Valid() && Snapshot() == Apply(old(Snapshot()), Tick)
      ensures reconcileTask == if old(reconcileTask).Idle? && !stopped then Checking else old(reconcileTask)
    {
      InvStep(Snapshot(), Tick);
      if !fenced || reconcileInFlight || stopped {
        return;
      }
      reconcileInFlight := true;
      reconcileTask := Checking;
    }

    method ReconcileChecked(answer: Answer)
      requires Valid() && Enabled(Snapshot(), ReconcileAnswer(answer))
      modifies this
      ensures Valid() && Snapshot() == Apply(old(Snapshot()), ReconcileAnswer(answer))
      ensures answer == Owned(true) && !old(stopped) ==>
        boss.Some? && stopRequests == if old(boss).None? then old(stopRequests) + [0] else old(stopRequests)
      ensures answer == Owned(false) && !old(stopped) ==>
        boss.None? && stopRequests == seq(|old(stopRequests)|, _ => 1)
      ensures answer.CheckFailed? || old(stopped) ==> boss == old(boss) && stopRequests == old(stopRequests)
    {
      InvStep(Snapshot(), ReconcileAnswer(answer));
      reconcileTask := Settling;
      if answer.CheckFailed? || stopped {
        return;
      }
      if answer.owner && boss.None? {
        var instance := CreateInstance();
        reconcileTask := Promoting(instance);
      } else if !answer.owner && boss.Some? {
        reconcileTask := Demoting(boss.value);
        Demote();
      }
    }

    method PromotionStartSettled(ok: bool)
      requires Valid() && Enabled(Snapshot(), PromotionSettled(ok))
      modifies this
      ensures Valid() && Snapshot() == Apply(old(Snapshot()), PromotionSettled(ok))
      ensures !ok ==> boss.None? && stopRequests == seq(|stopRequests|, _ => 1)
      ensures ok ==> boss == old(boss) && stopRequests == old(stopRequests)
    {
      InvStep(Snapshot(), PromotionSettled(ok));
      if ok {
        reconcileTask := Settling;
      } else {
        StopBoss();
        reconcileTask := PromotionFailing(reconcileTask.inst);
      }
    }

    // ------------------------------------------------------------------- fence

    method WorkBatch(batch: nat, jobs: nat)
      requires Valid() && Enabled(Snapshot(), BatchArrives(batch, jobs))
      modifies this`batches
      ensures Valid() && Snapshot() == Apply(old(Snapshot()), BatchArrives(batch, jobs))
      ensures batches == old(batches)[batch := if fenced then AwaitingOwnership(jobs) else Handling(jobs)]
    {
      InvStep(Snapshot(), BatchArrives(batch, jobs));
      batches := batches[batch := if fenced then AwaitingOwnership(jobs) else Handling(jobs)];
    }

    method FenceChecked(batch: nat, answer: Answer)
      requires Valid() && Enabled(Snapshot(), FenceAnswer(batch, answer))
      modifies this
      ensures Valid() && Snapshot() == Apply(old(Snapshot()), FenceAnswer(batch, answer))
      ensures answer == Owned(true) ==> batches == old(batches)[batch := Handling(old(batches)[batch].jobs)]
      ensures answer == Owned(false) ==>
        && batches == old(batches)[batch := Rejected] && boss.None? && stopRequests == seq(|old(stopRequests)|, _ => 1)
        && demotions == old(demotions) + if old(boss).Some? then 1 else 0
      ensures answer.CheckFailed? ==> batches == old(batches)[batch := Finished]
      ensures answer != Owned(false) ==> boss == old(boss) && stopRequests == old(stopRequests)
    {
      InvStep(Snapshot(), FenceAnswer(batch, answer));
      if answer.CheckFailed? {
        batches := batches[batch := Finished];
        return;
      }
      if !answer.owner {
        batches := batches[batch := Rejected];
        Demote();
        return;
      }
      batches := batches[batch := Handling(batches[batch].jobs)];
    }

    // -------------------------------------------------------------------- stop

    method Stop()
      requires Valid()
      modifies this
      ensures Valid() && Snapshot() == Apply(old(Snapshot()), StopCall)
      ensures stopped && boss == old(boss) && stopRequests == old(stopRequests)
      ensures ownershipTimer <==> old(stopped) && old(ownershipTimer)
    {
      InvStep(Snapshot(), StopCall);
      if stopped {
        return;
      }
      stopped := true;
      ownershipTimer := false;
      stopTask := AwaitingReconcile;
    }

    method StopResumed()
      requires Valid() && Enabled(Snapshot(), StopResumes)
      modifies this
      ensures Valid() && Snapshot() == Apply(old(Snapshot()), StopResumes)
      ensures boss.None? && stopRequests == seq(|old(stopRequests)|, _ => 1)
    {
      InvStep(Snapshot(), StopResumes);
      StopBoss();
      stopTask := AwaitingBossStop;
    }

    /** The awaits of the check in flight whose settling runs no code of their own, and its last one. */
    method ReconcileAwaited(e: Event)
      requires Valid() && Enabled(Snapshot(), e)
      requires e == PromotionFailureStopped || e == DemotionStopped || e == ReconcileSettled
      modifies this`reconcileTask, this`reconcileInFlight
      ensures Valid() && Snapshot() == Apply(old(Snapshot()), e)
    {
      InvStep(Snapshot(), e);
      if e.ReconcileSettled? {
        reconcileTask, reconcileInFlight := Idle, false;
      } else {
        reconcileTask := Settling;
      }
    }

    /** The check in flight goes on by one step, while `stop` waits for it. */
    method ReconcileGoesOn(answer: Answer, ok: bool)
      requires Valid() && stopped && stopTask.AwaitingReconcile? && !reconcileTask.Idle?
      modifies this
      ensures Valid() && stopped && stopTask.AwaitingReconcile? && |stopRequests| == |old(stopRequests)|
      ensures ReconcileDistance(reconcileTask) < ReconcileDistance(old(reconcileTask))
    {
      ghost var before := Snapshot();
      ghost var e := if reconcileTask.Checking? then ReconcileAnswer(answer)
                     else if reconcileTask.Promoting? then PromotionSettled(ok)
                     else if reconcileTask.PromotionFailing? then PromotionFailureStopped
                     else if reconcileTask.Demoting? then DemotionStopped
                     else ReconcileSettled;
      ReconcileAdvances(before, e);
      StoppedStep(before, e);
      ChecksKeepStopping(before, e);
      match reconcileTask {
        case Checking => ReconcileChecked(answer);
        case Promoting(_) => PromotionStartSettled(ok);
        case PromotionFailing(_) => ReconcileAwaited(PromotionFailureStopped);
        case Demoting(_) => ReconcileAwaited(DemotionStopped);
        case Settling => ReconcileAwaited(ReconcileSettled);
      }
    }

    /**
     A whole first `stop` with nothing else going on, whatever the check it waits for
     answers: it ends, no instance was created for it, none is left, and every
     instance ever created was asked to stop exactly once.
     */
    method StopToItsEnd(answer: Answer, ok: bool)
      requires Valid() && !stopped
      modifies this
      ensures Valid() && stopped && stopTask.StopDone? && boss.None? && reconcileTask.Idle?
      ensures stopRequests == seq(|old(stopRequests)|, _ => 1)
    {
      Stop();
      while !reconcileTask.Idle?
        invariant Valid() && stopped && stopTask.AwaitingReconcile? && |stopRequests| == |old(stopRequests)|
        decreases ReconcileDistance(reconcileTask)
      {
        ReconcileGoesOn(answer, ok);
      }
      StopResumed();
      InvStep(Snapshot(), StopEnds);
      stopTask := StopDone;
    }
  }

  /**
   The worker callback once its batch was admitted: one handler call per job, in
   order, until one fails (`failsAt`, at or past the end when none does).
   */
  method HandleBatch(s: State, batch: nat, failsAt: nat) returns (s': State, calls: nat)
    requires batch in s.batches && s.batches[batch].Handling?
    ensures calls == if failsAt < s.batches[batch].left then failsAt + 1 else s.batches[batch].left
    ensures s'.handled == s.handled + seq(calls, _ => batch)
    ensures s' == s.(handled := s'.handled, batches := s'.batches)
    ensures s'.batches == s.batches[batch := if failsAt < s.batches[batch].left then Finished else Handling(0)]
  {
    s', calls := s, 0;
    var n := s.batches[batch].left;
    while calls < n
      invariant calls <= n && calls <= failsAt
      invariant s'.handled == s.handled + seq(calls, _ => batch)
      invariant s' == s.(handled := s'.handled, batches := s'.batches)
      invariant s'.batches == s.batches[batch := Handling(n - calls)]
    {
      var ok := calls != failsAt;
      s' := Apply(s', HandlerCall(batch, ok));
      calls := calls + 1;
      if !ok {
        return;
      }
    }
  }
}
