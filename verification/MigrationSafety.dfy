/** What holds over whole runs of concurrent, crashing migrations. */
module MigrationSafety {
  import opened FileNames
  import opened Histories
  import M = Migrations
  import opened MigrationRuns

  ghost predicate Inv(s: State) {
    && (forall r :: r in s.runners ==> KindAgrees(s.runners[r]))
    && LocksInv(s) && AllVersioned(s)
  }

  lemma InitInv(s: State)
    requires Init(s)
    ensures Inv(s)
  {
  }

  lemma {:induction false} InvAt(states: seq<State>, events: seq<Event>, i: nat)
    requires Behavior(states, events) && i < |states|
    ensures Inv(states[i])
  {
    if i == 0 {
      InitInv(states[0]);
    } else {
      InvAt(states, events, i - 1);
      KindStep(states[i - 1], events[i - 1]);
      LocksStep(states[i - 1], events[i - 1]);
      VersionedStep(states[i - 1], events[i - 1]);
    }
  }

  // ----------------------------------------------------------------- versioned

  /**
   Over any runs, crashes and concurrent runners, and even if locks are dropped,
   each versioned file is applied at most once, and is recorded if and only if it was.
   */
  lemma VersionedExactlyOnce(states: seq<State>, events: seq<Event>, i: nat)
    requires Behavior(states, events) && i < |states|
    ensures forall f :: f in states[i].db.recorded <==> f in states[i].db.versioned
    ensures forall a, b :: 0 <= a < b < |states[i].db.versioned| ==>
      states[i].db.versioned[a] != states[i].db.versioned[b]
  {
    InvAt(states, events, i);
  }

  /** The step commits the file that run `id` stands at, and the run is not told. */
  predicate UnheardCommit(s: State, e: Event, id: nat) {
    e.runner == id && id in s.runners && e.action == Execute(Unheard) && Commits(s.runners[id], s.db, Unheard)
  }

  lemma UnheardStep(s: State, e: Event, id: nat)
    requires Enabled(s, e) && id in s.runners
    ensures Apply(s, e).runners[id].unheard <==> s.runners[id].unheard || UnheardCommit(s, e, id)
  {
  }

  ghost predicate EverUnheard(states: seq<State>, events: seq<Event>, i: nat, id: nat)
    requires i <= |events| < |states|
  {
    exists j :: 0 <= j < i && UnheardCommit(states[j], events[j], id)
  }

  lemma {:induction false} UnheardAt(states: seq<State>, events: seq<Event>, i: nat, id: nat)
    requires Behavior(states, events) && i < |states| && id in states[0].runners
    ensures id in states[i].runners && (states[i].runners[id].unheard <==> EverUnheard(states, events, i, id))
  {
    if i == 0 {
      assert Fresh(states[0].runners[id]);
    } else {
      UnheardAt(states, events, i - 1, id);
      UnheardStep(states[i - 1], events[i - 1], id);
    }
  }

  lemma PositionsDiffer(files: seq<string>, n: nat)
    requires Sorted(files) && n <= |files|
    ensures forall j :: n <= j < |files| ==> files[j] !in files[..n]
  {
    forall j | n <= j < |files|
      ensures files[j] !in files[..n]
    {
      LessTotal(files[j], files[j]);
    }
  }

  /**
   A run standing at a file, whether it goes on, failed there or died there, has
   every earlier file of its folder recorded and committed no later one; it has
   committed that file if and only if the reply to that commit was lost. What it
   committed it committed in order.
   */
  lemma StoppedRunLeavesPrefix(states: seq<State>, events: seq<Event>, i: nat, id: nat)
    requires Behavior(states, events) && i < |states| && id in states[0].runners && id in states[i].runners
    ensures var r := states[i].runners[id];
      && r.vpos <= |r.vfiles|
      && (forall j :: 0 <= j < r.vpos ==> r.vfiles[j] in states[i].db.recorded)
      && (forall j :: r.vpos < j < |r.vfiles| ==> r.vfiles[j] !in r.mine)
      && (r.vpos < |r.vfiles| ==> (r.vfiles[r.vpos] in r.mine <==> EverUnheard(states, events, i, id)))
      && (forall f :: f in r.mine ==> f in r.vfiles && f in states[i].db.recorded)
      && Sorted(r.mine)
  {
    InvAt(states, events, i);
    UnheardAt(states, events, i, id);
    var r := states[i].runners[id];
    assert VersionedInv(states[i].db, r);
    PositionsDiffer(r.vfiles, Reached(r));
  }

  /** Every way on from the versioned phase leads through its end. */
  predicate PhaseComplete(r: Runner) {
    !r.kind.RecurrentOnly? &&
    (r.pc == VersionedUnlock(true) || r.pc.AwaitRecurrent? || Inside(r, RecurrentLock) ||
     r.pc == PipelineUnlock(true) || r.pc == Done(true)) ==>
      r.vpos >= |r.vfiles|
  }

  predicate PhaseOf(r: Runner) {
    PhaseComplete(r) && (r.pc.AwaitPipeline? || r.pc.Idle? ==> r.vpos == 0)
  }

  lemma PhaseStep(s: State, e: Event, id: nat)
    requires Enabled(s, e) && id in s.runners && KindAgrees(s.runners[id]) && PhaseOf(s.runners[id])
    ensures PhaseOf(Apply(s, e).runners[id])
  {
    if e.runner == id && e.action.Execute? {
      PhaseExecutes(s.runners[id], s.db, s.hash, e.action.outcome);
    }
  }

  lemma PhaseExecutes(r: Runner, db: M.State, hash: string -> string, o: Outcome)
    requires Live(r) && (Waiting(r) ==> o.Failure?) && KindAgrees(r) && PhaseOf(r)
    ensures PhaseOf(RunnerExecutes(r, db, hash, o))
  {
  }

  ghost predicate InPhase(s: State, id: nat) {
    id in s.runners && PhaseOf(s.runners[id])
  }

  lemma PhaseAt(states: seq<State>, events: seq<Event>, i: nat, id: nat)
    requires Behavior(states, events) && i < |states| && id in states[0].runners
    ensures InPhase(states[i], id)
  {
    var holds := seq(|states|, k requires 0 <= k < |states| => InPhase(states[k], id));
    assert Fresh(states[0].runners[id]);
    forall k | 0 <= k < i && holds[k]
      ensures holds[k + 1]
    {
      InvAt(states, events, k);
      PhaseStep(states[k], events[k], id);
    }
    Lasts(holds, 0, i);
  }

  /** A run with a versioned phase that ends well has every file of its folder recorded. */
  lemma CompletedRunRecordsAll(states: seq<State>, events: seq<Event>, i: nat, id: nat, f: string)
    requires Behavior(states, events) && i < |states| && id in states[0].runners && id in states[i].runners
    requires states[i].runners[id].pc == Done(true) && !states[i].runners[id].kind.RecurrentOnly?
    requires f in states[i].runners[id].vfiles
    ensures f in states[i].db.recorded
  {
    PhaseAt(states, events, i, id);
    InvAt(states, events, i);
    assert VersionedInv(states[i].db, states[i].runners[id]);
  }

  // ------------------------------------------------------------------- failures

  /** The run is on its way out, and will not end well. */
  predicate Doomed(r: Runner) {
    r.pc in {VersionedUnlock(false), RecurrentUnlock(false), PipelineUnlock(false), Done(false), Dead}
  }

  lemma FailureDooms(s: State, e: Event)
    requires Enabled(s, e) && e.action.Execute? && !e.action.outcome.Success?
    ensures Doomed(Apply(s, e).runners[e.runner])
  {
  }

  lemma DoomedStep(s: State, e: Event, id: nat)
    requires Enabled(s, e) && id in s.runners && Doomed(s.runners[id])
    ensures Doomed(Apply(s, e).runners[id])
  {
  }

  /**
   Whichever statement of a run fails, its unlocks included, or takes effect unheard, the run
   does not end well: no failure is swallowed on the way out.
   */
  lemma {:induction false} NoFailureIsSwallowed(states: seq<State>, events: seq<Event>, k: nat, i: nat)
    requires Behavior(states, events) && k < i < |states|
    requires events[k].action.Execute? && !events[k].action.outcome.Success?
    ensures var id := events[k].runner;
      id in states[i].runners && Doomed(states[i].runners[id]) && states[i].runners[id].pc != Done(true)
    decreases i
  {
    if k + 1 == i {
      FailureDooms(states[k], events[k]);
    } else {
      NoFailureIsSwallowed(states, events, k, i - 1);
      DoomedStep(states[i - 1], events[i - 1], events[k].runner);
    }
  }

  // --------------------------------------------------------------------- locks

  /** Two runs are inside one part only if one of them lost the lock of that part. */
  lemma PartsExclude(states: seq<State>, events: seq<Event>, i: nat, a: nat, b: nat, k: Key)
    requires Behavior(states, events) && i < |states|
    requires a in states[i].runners && b in states[i].runners && a != b
    requires Inside(states[i].runners[a], k) && Inside(states[i].runners[b], k)
    ensures k in states[i].runners[a].lost || k in states[i].runners[b].lost
  {
    InvAt(states, events, i);
    assert Agrees(states[i].locks, a, states[i].runners[a], k);
    assert Agrees(states[i].locks, b, states[i].runners[b], k);
  }

  predicate Ended(r: Runner) {
    r.pc.Done? || r.pc.Dead?
  }

  /**
   A run that is over, however it ended, holds no lock, but for a phase called alone
   whose unlock failed on a session that lives on.
   */
  lemma EndedHoldsNothing(states: seq<State>, events: seq<Event>, i: nat, id: nat, k: Key)
    requires Behavior(states, events) && i < |states| && id in states[i].runners && Ended(states[i].runners[id])
    ensures var r := states[i].runners[id];
      && (Holds(states[i].locks, k, id) <==> k in r.kept && k !in r.lost)
      && (r.kind.Pipeline? || r.pc.Dead? ==> !Holds(states[i].locks, k, id))
  {
    InvAt(states, events, i);
    EndedHolds(states[i], id, k);
  }

  lemma EndedHolds(s: State, id: nat, k: Key)
    requires LocksInv(s) && id in s.runners && KindAgrees(s.runners[id]) && Ended(s.runners[id])
    ensures Holds(s.locks, k, id) <==> k in s.runners[id].kept && k !in s.runners[id].lost
    ensures s.runners[id].kind.Pipeline? || s.runners[id].pc.Dead? ==> !Holds(s.locks, k, id)
  {
    assert Agrees(s.locks, id, s.runners[id], k);
  }

  lemma OutsideChangesNothing(s: State, e: Event)
    requires Enabled(s, e) && s.runners[e.runner].kind.Pipeline? && !Inside(s.runners[e.runner], PipelineLock)
    ensures Apply(s, e).db == s.db
  {
  }

  /**
   Pipelines serialise: while one is between its first and its last lock, a step of
   another run, of whatever kind, changes the database or enters the same part only
   if one of the two had its session replaced, or that run is a phase called alone.
   When it can, `MigrationOverlap.InterleavesIff` tells.
   */
  lemma PipelinesSerialise(states: seq<State>, events: seq<Event>, i: nat, id: nat)
    requires Behavior(states, events) && i < |events|
    requires id in states[i].runners && Inside(states[i].runners[id], PipelineLock) && id != events[i].runner
    ensures states[i + 1].db != states[i].db || Inside(states[i + 1].runners[events[i].runner], PipelineLock) ==>
      || !states[i].runners[events[i].runner].kind.Pipeline?
      || PipelineLock in states[i].runners[id].lost || PipelineLock in states[i].runners[events[i].runner].lost
  {
    var e, s := events[i], states[i];
    InvAt(states, events, i);
    assert Agrees(s.locks, id, s.runners[id], PipelineLock);
    assert Agrees(s.locks, e.runner, s.runners[e.runner], PipelineLock);
    if s.runners[e.runner].kind.Pipeline? && !Inside(s.runners[e.runner], PipelineLock) {
      OutsideChangesNothing(s, e);
      match e.action
      case Begin =>
      case Execute(o) => InsideExecutes(s.runners[e.runner], s.db, s.hash, o, PipelineLock);
      case Acquire =>
      case Die =>
      case Reconnect =>
    }
  }

  /**
   Where the exclusion ends: while run `a` is inside a part and no third run holds
   its lock, a run that waits for the lock can enter beside it if and only if `a` lost it.
   */
  lemma EntersIffLost(states: seq<State>, events: seq<Event>, i: nat, a: nat, b: nat, k: Key)
    requires Behavior(states, events) && i < |states| && a in states[i].runners && b in states[i].runners
    requires Inside(states[i].runners[a], k) && Waiting(states[i].runners[b]) && Wanted(states[i].runners[b]) == k
    requires k in states[i].locks ==> states[i].locks[k] == a
    ensures Enabled(states[i], Event(b, Acquire)) <==> k in states[i].runners[a].lost
    ensures Enabled(states[i], Event(b, Acquire)) ==>
      a != b && Inside(Apply(states[i], Event(b, Acquire)).runners[a], k) &&
        Inside(Apply(states[i], Event(b, Acquire)).runners[b], k)
  {
    InvAt(states, events, i);
    assert Agrees(states[i].locks, a, states[i].runners[a], k);
    InsideAcquires(states[i].runners[b], k);
  }

  /** No run that is over kept a lock. */
  ghost predicate NothingKept(s: State) {
    forall k :: k in s.locks && s.locks[k] in s.runners ==> !Ended(s.runners[s.locks[k]])
  }

  /** The run can acquire the lock it waits for, or execute its statement. */
  predicate CanStep(s: State, id: nat) {
    id in s.runners && Live(s.runners[id]) && (Waiting(s.runners[id]) ==> Wanted(s.runners[id]) !in s.locks)
  }

  /** The run waits for a lock that a run which is over kept. */
  ghost predicate WaitsForEnded(s: State, id: nat) {
    && id in s.runners && Waiting(s.runners[id]) && Wanted(s.runners[id]) in s.locks
    && s.locks[Wanted(s.runners[id])] in s.runners && Ended(s.runners[s.locks[Wanted(s.runners[id])]])
  }

  /** The run waits for such a lock, or for one whose holder does. */
  ghost predicate BlockedByEnded(s: State, id: nat) {
    || WaitsForEnded(s, id)
    || (id in s.runners && Waiting(s.runners[id]) && Wanted(s.runners[id]) in s.locks &&
        WaitsForEnded(s, s.locks[Wanted(s.runners[id])]))
  }

  /**
   Whoever holds a lock another waits for is over, or waits at most for a lock of a phase,
   whose holder is over or waits for none.
   */
  lemma HolderOf(s: State, id: nat) returns (holder: nat)
    requires Inv(s) && id in s.runners && Waiting(s.runners[id]) && Wanted(s.runners[id]) in s.locks
    ensures holder == s.locks[Wanted(s.runners[id])] && holder in s.runners
    ensures Ended(s.runners[holder]) || Live(s.runners[holder])
    ensures Waiting(s.runners[holder]) ==>
      Wanted(s.runners[id]) == PipelineLock && Wanted(s.runners[holder]) != PipelineLock
  {
    holder := s.locks[Wanted(s.runners[id])];
    assert Agrees(s.locks, holder, s.runners[holder], Wanted(s.runners[id]));
  }

  lemma StuckIsBlocked(s: State, id: nat)
    requires Inv(s) && id in s.runners && Live(s.runners[id]) && forall other :: !CanStep(s, other)
    ensures BlockedByEnded(s, id)
  {
    assert !CanStep(s, id);
    var holder := HolderOf(s, id);
    if Live(s.runners[holder]) {
      assert !CanStep(s, holder);
      var last := HolderOf(s, holder);
      assert !CanStep(s, last);
    }
  }

  /**
   Exactly when all is stuck: no run can take its next step if and only if every
   live one waits for a lock kept by a run that is over, or for a run that does.
   */
  lemma StuckIffBlocked(states: seq<State>, events: seq<Event>, i: nat)
    requires Behavior(states, events) && i < |states|
    ensures (forall id :: !CanStep(states[i], id)) <==>
      forall id :: id in states[i].runners && Live(states[i].runners[id]) ==> BlockedByEnded(states[i], id)
  {
    InvAt(states, events, i);
    if forall other :: !CanStep(states[i], other) {
      forall id | id in states[i].runners && Live(states[i].runners[id])
        ensures BlockedByEnded(states[i], id)
      {
        StuckIsBlocked(states[i], id);
      }
    }
  }

  /** So there is no deadlock while no run that is over kept a lock: some live run can take its next step. */
  lemma NoDeadlock(states: seq<State>, events: seq<Event>, i: nat, id: nat) returns (e: Event)
    requires Behavior(states, events) && i < |states| && id in states[i].runners && Live(states[i].runners[id])
    requires NothingKept(states[i])
    ensures e.runner in states[i].runners && Live(states[i].runners[e.runner])
    ensures e.action == Acquire || e.action == Execute(Success)
    ensures Enabled(states[i], e)
  {
    StuckIffBlocked(states, events, i);
    assert !BlockedByEnded(states[i], id);
    var next :| CanStep(states[i], next);
    e := Event(next, if Waiting(states[i].runners[next]) then Acquire else Execute(Success));
  }

  // ------------------------------------------------------- order of the apply log

  /** Every file of `files` not recorded yet sorts after all that were applied. */
  ghost predicate NewFilesLast(db: M.State, files: seq<string>) {
    forall f, g :: f in files && f !in db.recorded && g in db.versioned ==> Less(g, f)
  }

  /**
   No session is replaced in the versioned part, and every run that enters it brings only
   new files that sort last.
   */
  ghost predicate Orderly(states: seq<State>, events: seq<Event>)
    requires Behavior(states, events)
  {
    forall i :: 0 <= i < |events| ==> OrderlyStep(states[i], events[i])
  }

  ghost predicate OrderlyStep(s: State, e: Event) {
    && (e.action.Reconnect? && e.runner in s.runners ==> !Inside(s.runners[e.runner], VersionedLock))
    && (e.action.Acquire? && e.runner in s.runners && s.runners[e.runner].pc.AwaitVersioned? ==>
          NewFilesLast(s.db, s.runners[e.runner].vfiles))
  }

  /** Every run in the part that a lock protects holds the lock. */
  ghost predicate Held(s: State, k: Key) {
    forall id :: id in s.runners && Inside(s.runners[id], k) ==> k !in s.runners[id].lost
  }

  /** The rest of the run's folder, if it is inside the versioned part, is new files that sort last. */
  ghost predicate RestLast(db: M.State, r: Runner) {
    Inside(r, VersionedLock) && r.vpos <= |r.vfiles| ==> NewFilesLast(db, r.vfiles[r.vpos..])
  }

  ghost predicate LogOrdered(s: State) {
    Sorted(s.db.versioned) && forall id :: id in s.runners ==> RestLast(s.db, s.runners[id])
  }

  lemma HeldStep(s: State, e: Event, k: Key)
    requires Enabled(s, e) && Held(s, k) && KindAgrees(s.runners[e.runner])
    requires e.action.Reconnect? ==> !Inside(s.runners[e.runner], k)
    ensures Held(Apply(s, e), k)
  {
    var r := s.runners[e.runner];
    match e.action
    case Begin =>
    case Acquire => InsideAcquires(r, k);
    case Execute(o) => InsideExecutes(r, s.db, s.hash, o, k);
    case Die =>
    case Reconnect =>
  }

  /** Committing the file a run stands at keeps the log sorted and the rest of its folder last. */
  lemma CommitKeepsOrder(db: M.State, files: seq<string>, pos: nat)
    requires Sorted(db.versioned) && Sorted(files) && pos < |files| && files[pos] !in db.recorded
    requires NewFilesLast(db, files[pos..])
    ensures var db' := db.(versioned := db.versioned + [files[pos]], recorded := db.recorded + {files[pos]});
      Sorted(db'.versioned) && NewFilesLast(db', files[pos..]) && NewFilesLast(db', files[pos + 1..])
  {
  }

  lemma SkipKeepsOrder(db: M.State, files: seq<string>, pos: nat)
    requires pos < |files| && NewFilesLast(db, files[pos..])
    ensures NewFilesLast(db, files[pos + 1..])
  {
  }

  /** The runner inside the versioned part keeps the order by its own step. */
  lemma OrderOwnStep(s: State, e: Event)
    requires Inv(s) && LogOrdered(s) && Enabled(s, e) && OrderlyStep(s, e)
    ensures Sorted(Apply(s, e).db.versioned)
    ensures RestLast(Apply(s, e).db, Apply(s, e).runners[e.runner])
  {
    var r := s.runners[e.runner];
    assert VersionedInv(s.db, r);
    match e.action
    case Begin =>
    case Acquire => OrderAcquires(s.db, r);
    case Execute(o) => OrderExecutes(r, s.db, s.hash, o);
    case Die =>
    case Reconnect =>
  }

  lemma OrderAcquires(db: M.State, r: Runner)
    requires Waiting(r) && KindAgrees(r) && RestLast(db, r)
    requires r.pc.AwaitVersioned? ==> NewFilesLast(db, r.vfiles)
    ensures RestLast(db, Acquired(r).(lost := r.lost - {Wanted(r)}))
  {
    InsideAcquires(r, VersionedLock);
    if r.vpos <= |r.vfiles| {
      assert forall x :: x in r.vfiles[r.vpos..] ==> x in r.vfiles;
    }
  }

  lemma OrderExecutes(r: Runner, db: M.State, hash: string -> string, o: Outcome)
    requires VersionedInv(db, r) && Live(r) && (Waiting(r) ==> o.Failure?) && Sorted(db.versioned) && RestLast(db, r)
    ensures Sorted(DatabaseExecutes(r, db, hash, o).versioned)
    ensures RestLast(DatabaseExecutes(r, db, hash, o), RunnerExecutes(r, db, hash, o))
  {
    InsideExecutes(r, db, hash, o, VersionedLock);
    if Commits(r, db, o) {
      CommitKeepsOrder(db, r.vfiles, r.vpos);
    } else if Skips(r, db, o) {
      SkipKeepsOrder(db, r.vfiles, r.vpos);
    } else {
      OtherStatements(r, db, hash, o);
    }
  }

  /** While one runner is inside the versioned part, no other commits a versioned file. */
  lemma OrderOtherStep(s: State, e: Event, id: nat)
    requires Inv(s) && Held(s, VersionedLock) && Enabled(s, e) && id in s.runners && id != e.runner
    requires Inside(s.runners[id], VersionedLock)
    ensures Apply(s, e).db.versioned == s.db.versioned && Apply(s, e).db.recorded == s.db.recorded
  {
    assert Agrees(s.locks, id, s.runners[id], VersionedLock);
    assert Agrees(s.locks, e.runner, s.runners[e.runner], VersionedLock);
  }

  lemma OrderStep(s: State, e: Event)
    requires Inv(s) && LogOrdered(s) && Held(s, VersionedLock) && Enabled(s, e) && OrderlyStep(s, e)
    ensures LogOrdered(Apply(s, e))
  {
    OrderOwnStep(s, e);
    forall id | id in s.runners && id != e.runner
      ensures RestLast(Apply(s, e).db, s.runners[id])
    {
      if Inside(s.runners[id], VersionedLock) {
        OrderOtherStep(s, e, id);
      }
    }
  }

  /** In an orderly history the whole log of versioned files, over all runs, is sorted. */
  lemma {:induction false} ApplyLogSorted(states: seq<State>, events: seq<Event>, i: nat)
    requires Behavior(states, events) && Orderly(states, events) && i < |states|
    ensures LogOrdered(states[i]) && Held(states[i], VersionedLock) && Sorted(states[i].db.versioned)
  {
    if i == 0 {
      forall id | id in states[0].runners
        ensures !Inside(states[0].runners[id], VersionedLock) && states[0].runners[id].lost == {}
      {
        assert Fresh(states[0].runners[id]);
      }
    } else {
      ApplyLogSorted(states, events, i - 1);
      InvAt(states, events, i - 1);
      assert OrderlyStep(states[i - 1], events[i - 1]);
      OrderStep(states[i - 1], events[i - 1]);
      HeldStep(states[i - 1], events[i - 1], VersionedLock);
    }
  }
}
