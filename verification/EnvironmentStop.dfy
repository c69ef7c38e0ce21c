/**
 The `stop` of one environment of the jobs as a step system: it awaits the `stop`
 of its scheduler and then closes the tracker, which the scheduler's ownership
 checks read. It may be called again while a first call still waits.
 */
module EnvironmentStop {
  import opened Histories
  import opened SchedulerProtocol

  /** `waiting` tells whether the first call is under way, `later` counts the others that are. */
  datatype Env = Env(scheduler: State, waiting: bool, later: nat, closed: bool)

  function Start(fenced: bool): Env {
    Env(Init(fenced), false, 0, false)
  }

  datatype Step = Inner(event: Event) | StopCalled | FirstCloses | LaterCloses

  predicate CanTake(v: Env, x: Step) {
    match x
    case Inner(e) => !e.StopCall? && Enabled(v.scheduler, e)
    case StopCalled => true
    case FirstCloses => v.waiting && v.scheduler.stopping.StopDone?
    case LaterCloses => v.later > 0
  }

  /** The scheduler's `stop` waits only when it is called first. */
  function Take(v: Env, x: Step): Env
    requires CanTake(v, x)
  {
    match x
    case Inner(e) => v.(scheduler := Apply(v.scheduler, e))
    case StopCalled =>
      if v.scheduler.stopped then v.(later := v.later + 1)
      else v.(scheduler := Apply(v.scheduler, StopCall), waiting := true)
    case FirstCloses => v.(waiting := false, closed := true)
    case LaterCloses => v.(later := v.later - 1, closed := true)
  }

  ghost predicate Run(fenced: bool, envs: seq<Env>, steps: seq<Step>) {
    && |envs| == |steps| + 1
    && envs[0] == Start(fenced)
    && forall i :: 0 <= i < |steps| ==> CanTake(envs[i], steps[i]) && envs[i + 1] == Take(envs[i], steps[i])
  }

  /** The step closes the tracker. */
  predicate Closes(v: Env, x: Step) {
    CanTake(v, x) && !v.closed && Take(v, x).closed
  }

  // -------------------------------------------------------------- checks under way

  predicate BatchReads(s: State, b: nat) {
    b in s.batches && s.batches[b].AwaitingOwnership?
  }

  /** An ownership check has asked the tracker and has no answer yet. */
  ghost predicate Reads(s: State) {
    s.start.StartChecking? || s.reconcile.Checking? || exists b :: BatchReads(s, b)
  }

  /** The step asks for the start check, and the one that answers it. */
  predicate AsksStart(x: Step) {
    x == Inner(Event.StartCall)
  }

  predicate AnswersStart(x: Step) {
    x.Inner? && x.event.StartAnswer?
  }

  predicate AsksBatch(x: Step, b: nat) {
    x.Inner? && x.event.BatchArrives? && x.event.batch == b
  }

  predicate AnswersBatch(x: Step, b: nat) {
    x.Inner? && x.event.FenceAnswer? && x.event.batch == b
  }

  predicate AnswersReconcile(x: Step) {
    x.Inner? && x.event.ReconcileAnswer?
  }

  /** `start` has been called, and its check has not been answered. */
  ghost predicate StartUnanswered(steps: seq<Step>, n: nat)
    requires n <= |steps|
  {
    (exists i :: 0 <= i < n && AsksStart(steps[i])) && forall i :: 0 <= i < n ==> !AnswersStart(steps[i])
  }

  /** A batch has arrived, and its check has not been answered. */
  ghost predicate BatchUnanswered(steps: seq<Step>, n: nat, b: nat)
    requires n <= |steps|
  {
    (exists i :: 0 <= i < n && AsksBatch(steps[i], b)) && forall i :: 0 <= i < n ==> !AnswersBatch(steps[i], b)
  }

  /** The first call of `stop`. */
  predicate FirstCall(v: Env, x: Step) {
    x.StopCalled? && !v.scheduler.stopped
  }

  /** The call of `stop` at step `i` was the first and found a reconcile check unanswered, which it still is. */
  ghost predicate StoppedDuringCheck(envs: seq<Env>, steps: seq<Step>, i: nat, n: nat)
    requires n <= |steps| < |envs|
  {
    && i < n && FirstCall(envs[i], steps[i]) && envs[i].scheduler.reconcile.Checking?
    && forall k :: i < k < n ==> !AnswersReconcile(steps[k])
  }

  // -------------------------------------------------------------------- invariant

  ghost predicate EnvInv(v: Env) {
    && Inv(v.scheduler)
    && (v.waiting ==> v.scheduler.stopped)
    && (v.later > 0 || v.closed ==> v.scheduler.stopped)
  }

  lemma EnvStep(v: Env, x: Step)
    requires EnvInv(v) && CanTake(v, x)
    ensures EnvInv(Take(v, x)) && Take(v, x).scheduler.fenced == v.scheduler.fenced
    ensures v.scheduler.stopped ==> Take(v, x).scheduler.stopped
  {
    var e := if x.Inner? then x.event else StopCall;
    InvStep(v.scheduler, e);
    if v.scheduler.stopped {
      StoppedStep(v.scheduler, e);
    }
  }

  lemma EnvAt(fenced: bool, envs: seq<Env>, steps: seq<Step>, i: nat)
    requires Run(fenced, envs, steps) && i < |envs|
    ensures EnvInv(envs[i]) && envs[i].scheduler.fenced == fenced
  {
    var holds := seq(|envs|, k requires 0 <= k < |envs| => EnvInv(envs[k]) && envs[k].scheduler.fenced == fenced);
    forall k | 0 <= k < i && holds[k]
      ensures holds[k + 1]
    {
      EnvStep(envs[k], steps[k]);
    }
    Lasts(holds, 0, i);
  }

  // ------------------------------------------------------------- one kind at a time

  lemma StartEvent(s: State, e: Event)
    requires Enabled(s, e) && s.fenced && OfStart(e)
    ensures Apply(s, e).start.NotStarted? <==> s.start.NotStarted? && e != Event.StartCall
    ensures Apply(s, e).start.StartChecking? <==> e == Event.StartCall
  {
  }

  lemma ChecksKeepStart(s: State, e: Event)
    requires Enabled(s, e) && OfReconcile(e)
    ensures Apply(s, e).start == s.start
  {
  }

  lemma OthersKeepStart(s: State, e: Event)
    requires Enabled(s, e) && !OfStart(e) && !OfReconcile(e)
    ensures Apply(s, e).start == s.start
  {
  }

  lemma StartStep(v: Env, x: Step)
    requires CanTake(v, x) && v.scheduler.fenced
    ensures Take(v, x).scheduler.start.NotStarted? <==> v.scheduler.start.NotStarted? && !AsksStart(x)
    ensures Take(v, x).scheduler.start.StartChecking? <==>
      AsksStart(x) || (v.scheduler.start.StartChecking? && !AnswersStart(x))
    ensures AsksStart(x) ==> v.scheduler.start.NotStarted?
    ensures AnswersStart(x) ==> v.scheduler.start.StartChecking?
  {
    var s, e := v.scheduler, if x.Inner? then x.event else StopCall;
    if OfStart(e) {
      StartEvent(s, e);
      assert s.start.StartChecking? ==> e.StartAnswer?;
    } else if OfReconcile(e) {
      ChecksKeepStart(s, e);
    } else {
      OthersKeepStart(s, e);
    }
  }

  lemma StartAt(envs: seq<Env>, steps: seq<Step>, n: nat)
    requires Run(true, envs, steps) && n < |envs|
    ensures envs[n].scheduler.start.StartChecking? <==> StartUnanswered(steps, n)
  {
    var unasked := seq(|envs|, k requires 0 <= k < |envs| => envs[k].scheduler.start.NotStarted?);
    var pending := seq(|envs|, k requires 0 <= k < |envs| => envs[k].scheduler.start.StartChecking?);
    var asks := seq(|steps|, k requires 0 <= k < |steps| => AsksStart(steps[k]));
    var answers := seq(|steps|, k requires 0 <= k < |steps| => AnswersStart(steps[k]));
    forall k | 0 <= k < n
      ensures unasked[k + 1] <==> unasked[k] && !asks[k]
      ensures pending[k + 1] <==> asks[k] || (pending[k] && !answers[k])
      ensures (asks[k] ==> unasked[k]) && (answers[k] ==> pending[k])
    {
      EnvAt(true, envs, steps, k);
      StartStep(envs[k], steps[k]);
    }
    Unanswered(unasked, pending, asks, answers, n);
    assert forall i :: 0 <= i < n ==> (AsksStart(steps[i]) <==> asks[i]) && (AnswersStart(steps[i]) <==> answers[i]);
  }

  predicate OfBatch(e: Event) {
    e.BatchArrives? || e.FenceAnswer? || e.HandlerCall?
  }

  lemma StartsKeepBatches(s: State, e: Event)
    requires Enabled(s, e) && OfStart(e)
    ensures Apply(s, e).batches == s.batches
  {
  }

  lemma OthersKeepBatches(s: State, e: Event)
    requires Enabled(s, e) && !OfStart(e) && !OfBatch(e)
    ensures Apply(s, e).batches == s.batches
  {
  }

  /** What becomes of the check of one batch. */
  lemma BatchEvent(s: State, e: Event, b: nat)
    requires Enabled(s, e) && s.fenced && OfBatch(e)
    ensures b in Apply(s, e).batches <==> b in s.batches || (e.BatchArrives? && e.batch == b)
    ensures BatchReads(Apply(s, e), b) <==>
      if OfBatch(e) && e.batch == b then e.BatchArrives? else BatchReads(s, b)
  {
  }

  lemma BatchStep(v: Env, x: Step, b: nat)
    requires CanTake(v, x) && v.scheduler.fenced
    ensures b in Take(v, x).scheduler.batches <==> b in v.scheduler.batches || AsksBatch(x, b)
    ensures BatchReads(Take(v, x).scheduler, b) <==>
      AsksBatch(x, b) || (BatchReads(v.scheduler, b) && !AnswersBatch(x, b))
    ensures AsksBatch(x, b) ==> b !in v.scheduler.batches
    ensures AnswersBatch(x, b) ==> BatchReads(v.scheduler, b)
  {
    if x.Inner? {
      if OfBatch(x.event) {
        BatchEvent(v.scheduler, x.event, b);
      } else if OfStart(x.event) {
        StartsKeepBatches(v.scheduler, x.event);
      } else {
        OthersKeepBatches(v.scheduler, x.event);
      }
    }
  }

  lemma BatchAt(envs: seq<Env>, steps: seq<Step>, n: nat, b: nat)
    requires Run(true, envs, steps) && n < |envs|
    ensures BatchReads(envs[n].scheduler, b) <==> BatchUnanswered(steps, n, b)
  {
    var unasked := seq(|envs|, k requires 0 <= k < |envs| => b !in envs[k].scheduler.batches);
    var pending := seq(|envs|, k requires 0 <= k < |envs| => BatchReads(envs[k].scheduler, b));
    var asks := seq(|steps|, k requires 0 <= k < |steps| => AsksBatch(steps[k], b));
    var answers := seq(|steps|, k requires 0 <= k < |steps| => AnswersBatch(steps[k], b));
    forall k | 0 <= k < n
      ensures unasked[k + 1] <==> unasked[k] && !asks[k]
      ensures pending[k + 1] <==> asks[k] || (pending[k] && !answers[k])
      ensures (asks[k] ==> unasked[k]) && (answers[k] ==> pending[k])
    {
      EnvAt(true, envs, steps, k);
      BatchStep(envs[k], steps[k], b);
    }
    Unanswered(unasked, pending, asks, answers, n);
    assert forall i :: 0 <= i < n ==>
      (AsksBatch(steps[i], b) <==> asks[i]) && (AnswersBatch(steps[i], b) <==> answers[i]);
  }

  lemma StartsKeepCheck(s: State, e: Event)
    requires Enabled(s, e) && OfStart(e)
    ensures Apply(s, e).reconcile == s.reconcile && Apply(s, e).stopped == s.stopped
  {
  }

  lemma CheckEvent(s: State, e: Event)
    requires Enabled(s, e) && OfReconcile(e)
    ensures Apply(s, e).stopped == s.stopped
    ensures s.stopped ==> (Apply(s, e).reconcile.Checking? <==> s.reconcile.Checking? && !e.ReconcileAnswer?)
  {
  }

  lemma OthersKeepCheck(s: State, e: Event)
    requires Enabled(s, e) && !OfStart(e) && !OfReconcile(e) && !e.StopCall?
    ensures Apply(s, e).reconcile == s.reconcile && Apply(s, e).stopped == s.stopped
  {
  }

  lemma CheckStep(v: Env, x: Step)
    requires CanTake(v, x)
    ensures Take(v, x).scheduler.stopped <==> v.scheduler.stopped || FirstCall(v, x)
    ensures FirstCall(v, x) ==> Take(v, x).scheduler.reconcile == v.scheduler.reconcile
    ensures v.scheduler.stopped ==>
      (Take(v, x).scheduler.reconcile.Checking? <==> v.scheduler.reconcile.Checking? && !AnswersReconcile(x))
  {
    if x.Inner? {
      if OfStart(x.event) {
        StartsKeepCheck(v.scheduler, x.event);
      } else if OfReconcile(x.event) {
        CheckEvent(v.scheduler, x.event);
      } else {
        OthersKeepCheck(v.scheduler, x.event);
      }
    }
  }

  /** A check that is unanswered after `stop` was called is the one that the first call found. */
  lemma CheckAt(envs: seq<Env>, steps: seq<Step>, n: nat)
    requires Run(true, envs, steps) && n < |envs| && envs[n].scheduler.stopped
    ensures envs[n].scheduler.reconcile.Checking? <==> exists i :: StoppedDuringCheck(envs, steps, i, n)
  {
    var after := seq(|envs|, k requires 0 <= k < |envs| => envs[k].scheduler.stopped);
    var there := seq(|envs|, k requires 0 <= k < |envs| => envs[k].scheduler.reconcile.Checking?);
    var firsts := seq(|steps|, k requires 0 <= k < |steps| => FirstCall(envs[k], steps[k]));
    var removes := seq(|steps|, k requires 0 <= k < |steps| => AnswersReconcile(steps[k]));
    forall k | 0 <= k < n
      ensures (after[k + 1] <==> after[k] || firsts[k]) && (firsts[k] ==> !after[k])
      ensures firsts[k] ==> (there[k + 1] <==> there[k])
      ensures after[k] ==> (there[k + 1] <==> there[k] && !removes[k])
    {
      CheckStep(envs[k], steps[k]);
    }
    FoundFirst(after, there, firsts, removes, n);
    forall i | 0 <= i < n
      ensures StoppedDuringCheck(envs, steps, i, n) <==> firsts[i] && there[i] && forall k :: i < k < n ==> !removes[k]
    {
      assert forall k :: i < k < n ==> (AnswersReconcile(steps[k]) <==> removes[k]);
    }
  }

  // --------------------------------------------------------------------- theorems

  /**
   When a `stop` closes the tracker under a check that has no answer yet. The first
   call does if and only if the check is that of a `start` or of a job batch, for
   which `stop` does not wait. A later call also does if the first call found a
   reconcile check unanswered and it still is: the first waits for it, the later do not.
   */
  lemma ClosesUnderCheckIff(envs: seq<Env>, steps: seq<Step>, n: nat)
    requires Run(true, envs, steps) && n < |steps| && Closes(envs[n], steps[n])
    ensures Reads(envs[n].scheduler) <==>
      || StartUnanswered(steps, n)
      || (exists b :: BatchUnanswered(steps, n, b))
      || (steps[n].LaterCloses? && exists i :: StoppedDuringCheck(envs, steps, i, n))
    ensures steps[n].FirstCloses? ==> envs[n].scheduler.reconcile.Idle?
    ensures !envs[n].scheduler.reconcile.Idle? ==> envs[n].scheduler.stopping.AwaitingReconcile?
  {
    EnvAt(true, envs, steps, n);
    StartAt(envs, steps, n);
    CheckAt(envs, steps, n);
    forall b
      ensures BatchReads(envs[n].scheduler, b) <==> BatchUnanswered(steps, n, b)
    {
      BatchAt(envs, steps, n, b);
    }
  }

  const STARTS := Inner(Event.StartCall)
  const PASSIVE := Inner(StartAnswer(Owned(false)))
  const OWNS := Inner(StartAnswer(Owned(true)))
  const TICKS := Inner(Tick)
  const ARRIVES := Inner(BatchArrives(0, 1))
  const RESUMES := Inner(StopResumes)
  const ENDS := Inner(StopEnds)

  /** A first call closes the tracker under the check of a `start` that came before it. */
  lemma FirstStopClosesUnderStart() returns (envs: seq<Env>, steps: seq<Step>)
    ensures Run(true, envs, steps + [FirstCloses]) && Closes(envs[|steps|], FirstCloses)
    ensures envs[|steps|].scheduler.start.StartChecking?
  {
    var v0 := Start(true);
    var v1 := Take(v0, STARTS);
    var v2 := Take(v1, StopCalled);
    var v3 := Take(v2, RESUMES);
    var v4 := Take(v3, ENDS);
    envs, steps := [v0, v1, v2, v3, v4, Take(v4, FirstCloses)], [STARTS, StopCalled, RESUMES, ENDS];
  }

  /** And under that of a job batch. */
  lemma FirstStopClosesUnderBatch() returns (envs: seq<Env>, steps: seq<Step>)
    ensures Run(true, envs, steps + [FirstCloses]) && Closes(envs[|steps|], FirstCloses)
    ensures BatchReads(envs[|steps|].scheduler, 0)
  {
    var v0 := Start(true);
    var v1 := Take(v0, STARTS);
    var v2 := Take(v1, OWNS);
    var v3 := Take(v2, ARRIVES);
    var v4 := Take(v3, StopCalled);
    var v5 := Take(v4, RESUMES);
    var v6 := Take(v5, ENDS);
    envs := [v0, v1, v2, v3, v4, v5, v6, Take(v6, FirstCloses)];
    steps := [STARTS, OWNS, ARRIVES, StopCalled, RESUMES, ENDS];
  }

  /** A second call closes it while the first still waits for a reconcile check. */
  lemma SecondStopClosesEarly() returns (envs: seq<Env>, steps: seq<Step>)
    ensures Run(true, envs, steps + [LaterCloses]) && Closes(envs[|steps|], LaterCloses)
    ensures envs[|steps|].waiting && envs[|steps|].scheduler.reconcile.Checking?
  {
    var v0 := Start(true);
    var v1 := Take(v0, STARTS);
    var v2 := Take(v1, PASSIVE);
    var v3 := Take(v2, TICKS);
    var v4 := Take(v3, StopCalled);
    var v5 := Take(v4, StopCalled);
    envs, steps := [v0, v1, v2, v3, v4, v5, Take(v5, LaterCloses)], [STARTS, PASSIVE, TICKS, StopCalled, StopCalled];
  }
}
