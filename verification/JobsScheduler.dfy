/**
 The jobs of one process: for each of the two environments a tracker and a
 scheduler, started and stopped in order. The methods are the stretches between
 two awaits; what happens to trackers and schedulers in between is their own affair.
 */
module JobsScheduler {
  import R = Registry
  import S = SchedulerProtocol
  import T = Tracker
  import C = Scheduler

  class Environment {
    const tracker: T.Tracker
    const scheduler: C.Scheduler

    constructor (tracker: T.Tracker, scheduler: C.Scheduler)
      ensures this.tracker == tracker && this.scheduler == scheduler
    {
      this.tracker, this.scheduler := tracker, scheduler;
    }
  }

  /** The scheduler may be started: it has not been before, and its revision is registered. */
  predicate MayStart(e: Environment)
    reads e.tracker, e.scheduler
  {
    e.tracker.registration.Registered? && e.scheduler.startTask.NotStarted?
  }

  class Jobs {
    const prod: Environment
    const test: Environment

    constructor (prod: Environment, test: Environment)
      ensures this.prod == prod && this.test == test
    {
      this.prod, this.test := prod, test;
    }

    ghost predicate Valid()
      reads prod.tracker, test.tracker, prod.scheduler, test.scheduler
    {
      && prod.tracker != test.tracker && prod.scheduler != test.scheduler
      && prod.scheduler.Valid() && test.scheduler.Valid()
      && (prod.tracker.tx.NoTransaction? <==> !prod.tracker.registration.Pending?)
      && (test.tracker.tx.NoTransaction? <==> !test.tracker.registration.Pending?)
    }

    /** Only a process that is ready registers its revision, and it starts nothing yet. */
    method ReadinessAnswered(ready: bool, ghost prodTable: R.State, ghost testTable: R.State)
      requires Valid()
      modifies prod.tracker`registration, prod.tracker`tx, test.tracker`registration, test.tracker`tx
      ensures Valid()
      ensures prod.tracker.Snapshot() ==
        if ready then R.ClientStep(prodTable, old(prod.tracker.Snapshot()), R.RegisterCall)
          else old(prod.tracker.Snapshot())
      ensures test.tracker.Snapshot() ==
        if ready then R.ClientStep(testTable, old(test.tracker.Snapshot()), R.RegisterCall)
          else old(test.tracker.Snapshot())
    {
      if !ready {
        return;
      }
      var prodBegins := prod.tracker.Register(prodTable);
      var testBegins := test.tracker.Register(testTable);
    }

    /** Both registrations were awaited: either scheduler is started if and only if both revisions are registered. */
    method RegistrationsSettled()
      requires Valid() && prod.scheduler.startTask.NotStarted? && test.scheduler.startTask.NotStarted?
      modifies prod.scheduler, test.scheduler
      ensures Valid()
      ensures var both := prod.tracker.registration.Registered? && test.tracker.registration.Registered?;
        && prod.scheduler.Snapshot() ==
          (if both then S.Apply(old(prod.scheduler.Snapshot()), S.Event.StartCall) else old(prod.scheduler.Snapshot()))
        && test.scheduler.Snapshot() ==
          (if both then S.Apply(old(test.scheduler.Snapshot()), S.Event.StartCall) else old(test.scheduler.Snapshot()))
    {
      if MayStart(prod) && MayStart(test) {
        prod.scheduler.Start();
        test.scheduler.Start();
      }
    }

    method Stop()
      requires Valid()
      modifies prod.scheduler, test.scheduler
      ensures Valid()
      ensures prod.scheduler.Snapshot() == S.Apply(old(prod.scheduler.Snapshot()), S.StopCall)
      ensures test.scheduler.Snapshot() == S.Apply(old(test.scheduler.Snapshot()), S.StopCall)
    {
      prod.scheduler.Stop();
      test.scheduler.Stop();
    }
  }

  /**
   The end of a `stop` of one environment: its tracker is closed. The first `stop`
   gets here when its scheduler has stopped, so no instance is left and no reconcile
   check is in flight; a later one gets here at once. What checks the tracker may
   still owe an answer then is told by `EnvironmentStop`.
   */
  method SchedulerStopped(e: Environment, ghost first: bool) returns (endsPool: bool)
    requires e.scheduler.Valid() && e.scheduler.stopped && (first ==> e.scheduler.stopTask.StopDone?)
    modifies e.tracker`closed
    ensures e.tracker.closed && (endsPool <==> !old(e.tracker.closed))
    ensures first ==> e.scheduler.boss.None? && e.scheduler.reconcileTask.Idle?
  {
    endsPool := e.tracker.Close();
  }
}
