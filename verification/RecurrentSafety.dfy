/**
 Recurrent files under crashes: a file is applied first and recorded second, so
 an interruption between the two leaves its record behind what was applied.
 */
module RecurrentSafety {
  import opened Histories
  import opened Wrappers
  import M = Migrations
  import opened MigrationRuns
  import Safety = MigrationSafety

  /** The content last applied is not the one recorded. */
  predicate Dirty(db: M.State, hash: string -> string, f: string) {
    match M.LastApplication(db.applied, f)
    case None => false
    case Some(a) => !M.Unchanged(db, f, hash(a.content))
  }

  /** A run that applied `f` and did not record it: it was interrupted there, or is about to. */
  predicate Owes(r: Runner, f: string) {
    r.left == Some(f) || (r.pc.RecurrentRecord? && Current(r) == Some(f))
  }

  /** Some of the databases that files are run on; the connection's own has no name. */
  type Databases = Option<string> -> bool

  /** The database that the run has a file run on is one of these. */
  predicate RunsOn(r: Runner, f: Option<string>, on: Databases) {
    f.Some? && f.value in r.folder && on(r.override(r.folder[f.value]))
  }

  /** The file was run on one of these databases last. */
  predicate LastRanOn(db: M.State, f: string, on: Databases) {
    M.LastApplication(db.applied, f).Some? && on(M.LastApplication(db.applied, f).value.database)
  }

  /** A run that left a file unrecorded is on its way out. */
  predicate LeavesAfter(r: Runner) {
    r.left.Some? ==>
      r.pc == RecurrentUnlock(false) || r.pc == PipelineUnlock(false) || r.pc == Done(false) || r.pc.Dead?
  }

  /** What a run knows of the file it stands at. */
  ghost predicate RecurrentInv(db: M.State, r: Runner) {
    && (forall f :: f in r.rfiles ==> f in r.folder)
    && (r.pc.RecurrentApply? || r.pc.RecurrentRecord? ==> r.rpos < |r.rfiles|)
    && (r.pc.RecurrentRecord? ==>
          M.LastApplication(db.applied, r.rfiles[r.rpos]) == Some(Application(r, r.folder[r.rfiles[r.rpos]])))
    && LeavesAfter(r)
  }

  ghost predicate AllRecurrent(s: State) {
    forall id :: id in s.runners ==> RecurrentInv(s.db, s.runners[id])
  }

  /** A run owes each dirty file, and had it run where it was run last. */
  ghost predicate OwedBy(s: State, f: string, id: nat) {
    && id in s.runners && Owes(s.runners[id], f) && f in s.runners[id].folder
    && M.LastApplication(s.db.applied, f).Some?
    && M.LastApplication(s.db.applied, f).value.database == s.runners[id].override(s.runners[id].folder[f])
  }

  ghost predicate DirtyOwed(s: State) {
    forall f :: Dirty(s.db, s.hash, f) ==> exists id :: OwedBy(s, f, id)
  }

  lemma AppliedOne(db: M.State, a: M.Application, f: string)
    ensures M.LastApplication(db.applied + [a], f) == if a.file == f then Some(a) else M.LastApplication(db.applied, f)
  {
    assert (db.applied + [a])[..|db.applied|] == db.applied;
  }

  lemma ApplicationKept(db: M.State, r: Runner, hash: string -> string, o: Outcome)
    requires RecurrentInv(db, r) && r.pc.RecurrentApply? && !o.Failure?
    ensures RecurrentInv(DatabaseExecutes(r, db, hash, o), RunnerExecutes(r, db, hash, o))
  {
    AppliedOne(db, Application(r, r.folder[r.rfiles[r.rpos]]), r.rfiles[r.rpos]);
  }

  /** The stepping runner keeps its own invariant. */
  lemma OwnRecurrentStep(s: State, e: Event)
    requires Enabled(s, e) && RecurrentInv(s.db, s.runners[e.runner])
    ensures RecurrentInv(Apply(s, e).db, Apply(s, e).runners[e.runner])
  {
    var r := s.runners[e.runner];
    if e.action.Execute? {
      if r.pc.RecurrentApply? && !e.action.outcome.Failure? {
        ApplicationKept(s.db, r, s.hash, e.action.outcome);
      }
    }
  }

  /** No run applies or records a file while another is inside the recurrent part. */
  lemma OtherRecurrentStep(s: State, e: Event, id: nat)
    requires Safety.Inv(s) && Safety.Held(s, RecurrentLock) && Enabled(s, e) && id in s.runners && id != e.runner
    requires Inside(s.runners[id], RecurrentLock)
    ensures Apply(s, e).db.applied == s.db.applied && Apply(s, e).db.checksums == s.db.checksums
  {
    assert Agrees(s.locks, id, s.runners[id], RecurrentLock);
    assert Agrees(s.locks, e.runner, s.runners[e.runner], RecurrentLock);
  }

  lemma AllRecurrentStep(s: State, e: Event)
    requires Safety.Inv(s) && Safety.Held(s, RecurrentLock) && Enabled(s, e) && AllRecurrent(s)
    ensures AllRecurrent(Apply(s, e))
  {
    OwnRecurrentStep(s, e);
    forall id | id in s.runners && id != e.runner
      ensures RecurrentInv(Apply(s, e).db, s.runners[id])
    {
      assert RecurrentInv(s.db, s.runners[id]);
      if s.runners[id].pc.RecurrentRecord? {
        OtherRecurrentStep(s, e, id);
      }
    }
  }

  /** A dirty file was dirty already, and not applied again, or the step applied it. */
  lemma NewlyDirty(s: State, e: Event, f: string)
    requires Enabled(s, e) && RecurrentInv(s.db, s.runners[e.runner])
    requires Dirty(Apply(s, e).db, s.hash, f)
    ensures var s' := Apply(s, e);
      || OwedBy(s', f, e.runner)
      || (Dirty(s.db, s.hash, f) && M.LastApplication(s'.db.applied, f) == M.LastApplication(s.db.applied, f))
  {
    var r := s.runners[e.runner];
    if e.action.Execute? && r.pc.RecurrentApply? && !e.action.outcome.Failure? {
      AppliedOne(s.db, Application(r, r.folder[r.rfiles[r.rpos]]), f);
    }
  }

  /** What a run owes it still owes when it has gone on, as long as the file is dirty. */
  lemma StillOwed(s: State, e: Event, f: string)
    requires Enabled(s, e) && RecurrentInv(s.db, s.runners[e.runner]) && Dirty(Apply(s, e).db, s.hash, f)
    requires Owes(s.runners[e.runner], f)
    ensures Owes(Apply(s, e).runners[e.runner], f)
  {
  }

  lemma DirtyOwedStep(s: State, e: Event)
    requires Enabled(s, e) && AllRecurrent(s) && DirtyOwed(s)
    ensures DirtyOwed(Apply(s, e))
  {
    var s' := Apply(s, e);
    forall f | Dirty(s'.db, s'.hash, f)
      ensures exists id :: OwedBy(s', f, id)
    {
      assert RecurrentInv(s.db, s.runners[e.runner]);
      NewlyDirty(s, e, f);
      if !OwedBy(s', f, e.runner) {
        var id :| OwedBy(s, f, id);
        OwedStep(s, e, f, id);
      }
    }
  }

  /** Who owes a file that is not applied again owes it still. */
  lemma OwedStep(s: State, e: Event, f: string, id: nat)
    requires Enabled(s, e) && RecurrentInv(s.db, s.runners[e.runner]) && Dirty(Apply(s, e).db, s.hash, f)
    requires OwedBy(s, f, id) && M.LastApplication(Apply(s, e).db.applied, f) == M.LastApplication(s.db.applied, f)
    ensures OwedBy(Apply(s, e), f, id)
  {
    if id == e.runner {
      StillOwed(s, e, f);
    }
  }

  /** No session is replaced in the part that the recurrent lock protects. */
  ghost predicate RecurrentUndisturbed(states: seq<State>, events: seq<Event>, n: nat)
    requires n <= |events| < |states|
  {
    forall i :: 0 <= i < n && events[i].action.Reconnect? && events[i].runner in states[i].runners ==>
      !Inside(states[i].runners[events[i].runner], RecurrentLock)
  }

  /** Every record is of a file that was applied. */
  ghost predicate RecordsApplied(db: M.State) {
    forall f :: f in db.checksums ==> M.LastApplication(db.applied, f).Some?
  }

  lemma RecordsAppliedStep(s: State, e: Event)
    requires Enabled(s, e) && RecurrentInv(s.db, s.runners[e.runner]) && RecordsApplied(s.db)
    ensures RecordsApplied(Apply(s, e).db)
  {
    var r := s.runners[e.runner];
    if e.action.Execute? && r.pc.RecurrentApply? && !e.action.outcome.Failure? {
      forall f | f in s.db.checksums
        ensures M.LastApplication(Apply(s, e).db.applied, f).Some?
      {
        AppliedOne(s.db, Application(r, r.folder[r.rfiles[r.rpos]]), f);
      }
    }
  }

  lemma InitRecurrent(s: State)
    requires Init(s)
    ensures Safety.Held(s, RecurrentLock) && AllRecurrent(s) && DirtyOwed(s) && RecordsApplied(s.db)
  {
    forall id | id in s.runners
      ensures RecurrentInv(s.db, s.runners[id]) && s.runners[id].lost == {}
    {
      assert Fresh(s.runners[id]);
    }
  }

  lemma {:induction false} RecurrentAt(states: seq<State>, events: seq<Event>, i: nat)
    requires Behavior(states, events) && i < |states| && RecurrentUndisturbed(states, events, i)
    ensures Safety.Inv(states[i]) && Safety.Held(states[i], RecurrentLock)
    ensures AllRecurrent(states[i]) && DirtyOwed(states[i])
    ensures RecordsApplied(states[i].db)
  {
    Safety.InvAt(states, events, i);
    if i == 0 {
      InitRecurrent(states[0]);
    } else {
      RecurrentAt(states, events, i - 1);
      Safety.HeldStep(states[i - 1], events[i - 1], RecurrentLock);
      AllRecurrentStep(states[i - 1], events[i - 1]);
      DirtyOwedStep(states[i - 1], events[i - 1]);
      RecordsAppliedStep(states[i - 1], events[i - 1]);
    }
  }

  // -------------------------------------------------------------------- counting

  function FilesApplied(applied: seq<M.Application>): set<string> {
    set a | a in applied :: a.file
  }

  /** The dirty files that were run on one of these databases last. */
  function DirtyFiles(s: State, on: Databases): set<string> {
    set f | f in FilesApplied(s.db.applied) && Dirty(s.db, s.hash, f) && LastRanOn(s.db, f, on)
  }

  /** The runs interrupted between applying a file on one of these databases and recording it. */
  function InterruptedRuns(s: State, on: Databases): set<nat> {
    set id | id in s.runners && RunsOn(s.runners[id], s.runners[id].left, on)
  }

  /** The runs that are about to record a file run on one of these databases. */
  function RunsRecording(s: State, on: Databases): set<nat> {
    set id | id in s.runners && s.runners[id].pc.RecurrentRecord? && RunsOn(s.runners[id], Current(s.runners[id]), on)
  }

  lemma {:induction false} AppliedFile(applied: seq<M.Application>, f: string)
    ensures M.LastApplication(applied, f).Some? ==> f in FilesApplied(applied)
  {
    if applied != [] {
      var front := applied[..|applied| - 1];
      AppliedFile(front, f);
      assert applied[|applied| - 1] in applied;
      assert forall a :: a in front ==> a in applied;
    }
  }

  /** If each file is owed by some run, and no run owes two, there are no more files than runs. */
  lemma {:induction false} NoMoreThanOwers(files: set<string>, owers: set<nat>, runners: map<nat, Runner>)
    requires forall f :: f in files ==> exists id :: id in owers && id in runners && Owes(runners[id], f)
    requires forall id :: id in owers && id in runners ==> !(runners[id].left.Some? && runners[id].pc.RecurrentRecord?)
    ensures |files| <= |owers|
    decreases owers
  {
    if files != {} {
      var f :| f in files;
      var id :| id in owers && id in runners && Owes(runners[id], f);
      forall g | g in files - {f}
        ensures exists d :: d in owers - {id} && d in runners && Owes(runners[d], g)
      {
        var d :| d in owers && d in runners && Owes(runners[d], g);
        assert d != id;
      }
      NoMoreThanOwers(files - {f}, owers - {id}, runners);
    }
  }

  /** At most one run at a time has a file applied and not yet recorded, on whatever database. */
  lemma AtMostOneRecording(s: State, on: Databases)
    requires Safety.Inv(s) && Safety.Held(s, RecurrentLock)
    ensures |RunsRecording(s, on)| <= 1
  {
    if RunsRecording(s, on) != {} {
      var a :| a in RunsRecording(s, on);
      forall b | b in RunsRecording(s, on)
        ensures b == a
      {
        assert Agrees(s.locks, a, s.runners[a], RecurrentLock);
        assert Agrees(s.locks, b, s.runners[b], RecurrentLock);
      }
      assert RunsRecording(s, on) == {a};
    }
  }

  /** A dirty file on these databases has a run that owes it there. */
  lemma OwerCounted(s: State, f: string, on: Databases) returns (id: nat)
    requires AllRecurrent(s) && DirtyOwed(s) && Dirty(s.db, s.hash, f) && LastRanOn(s.db, f, on)
    ensures id in InterruptedRuns(s, on) + RunsRecording(s, on) && id in s.runners && Owes(s.runners[id], f)
  {
    id :| OwedBy(s, f, id);
    assert RecurrentInv(s.db, s.runners[id]);
    if s.runners[id].left == Some(f) {
      assert id in InterruptedRuns(s, on);
    } else {
      assert id in RunsRecording(s, on);
    }
  }

  /**
   On any choice of databases, all of them or one, the files whose last applied
   content differs from their record never outnumber the runs interrupted after
   applying one there, before they knew it recorded, plus the one in progress.
   */
  lemma DirtyFilesBounded(states: seq<State>, events: seq<Event>, i: nat, on: Databases)
    requires Behavior(states, events) && i < |states| && RecurrentUndisturbed(states, events, i)
    ensures forall f :: f in DirtyFiles(states[i], on) <==>
      Dirty(states[i].db, states[i].hash, f) && LastRanOn(states[i].db, f, on)
    ensures |DirtyFiles(states[i], on)| <= |InterruptedRuns(states[i], on)| + |RunsRecording(states[i], on)|
    ensures |RunsRecording(states[i], on)| <= 1
  {
    var s := states[i];
    forall f | Dirty(s.db, s.hash, f) && LastRanOn(s.db, f, on)
      ensures f in DirtyFiles(s, on)
    {
      AppliedFile(s.db.applied, f);
    }
    RecurrentAt(states, events, i);
    AtMostOneRecording(s, on);
    var owers := InterruptedRuns(s, on) + RunsRecording(s, on);
    forall f | f in DirtyFiles(s, on)
      ensures exists id :: id in owers && id in s.runners && Owes(s.runners[id], f)
    {
      var id := OwerCounted(s, f, on);
    }
    forall id | id in owers && id in s.runners
      ensures !(s.runners[id].left.Some? && s.runners[id].pc.RecurrentRecord?)
    {
      assert RecurrentInv(s.db, s.runners[id]);
    }
    NoMoreThanOwers(DirtyFiles(s, on), owers, s.runners);
  }

  // --------------------------------------------------------------- hidden contents

  /** The event drops the recurrent lock of a run inside the part it protects. */
  predicate LosesRecurrentLock(s: State, e: Event) {
    && e.action.Reconnect? && e.runner in s.runners
    && Inside(s.runners[e.runner], RecurrentLock) && Holds(s.locks, RecurrentLock, e.runner)
  }

  /** The first session replaced in the part that the recurrent lock protects held the lock. */
  lemma {:induction false} FirstDisturbance(states: seq<State>, events: seq<Event>, i: nat) returns (j: nat)
    requires Behavior(states, events) && i < |states| && !RecurrentUndisturbed(states, events, i)
    ensures j < i && LosesRecurrentLock(states[j], events[j])
  {
    if !RecurrentUndisturbed(states, events, i - 1) {
      j := FirstDisturbance(states, events, i - 1);
    } else {
      j := i - 1;
      RecurrentAt(states, events, j);
      assert Agrees(states[j].locks, events[j].runner, states[j].runners[events[j].runner], RecurrentLock);
    }
  }

  /**
   Across runs, a record hides another content applied since only if some run was
   interrupted at that very file, or is there now, or some run lost the recurrent
   lock inside the part it protects.
   */
  lemma MaskedOnlyIfInterrupted(states: seq<State>, events: seq<Event>, i: nat, f: string, content: string)
    requires Behavior(states, events) && i < |states|
    requires M.Masked(states[i].db, f, content, states[i].hash(content))
    requires forall other ::
      M.LastApplied(states[i].db.applied, f) == Some(other) && states[i].hash(other) == states[i].hash(content) ==>
        other == content
    ensures
      || (exists id :: id in states[i].runners && Owes(states[i].runners[id], f))
      || (exists j :: 0 <= j < i && LosesRecurrentLock(states[j], events[j]))
  {
    if RecurrentUndisturbed(states, events, i) {
      RecurrentAt(states, events, i);
      var applied := M.LastApplied(states[i].db.applied, f);
      assert states[i].hash(applied.value) != states[i].hash(content);
      assert Dirty(states[i].db, states[i].hash, f);
      var id :| OwedBy(states[i], f, id);
    } else {
      var j := FirstDisturbance(states, events, i);
    }
  }

  // ------------------------------------------------------------- runs that end well

  /** A run stands at a file of its folder when it applies or records one, and ends well only past the last. */
  ghost predicate PositionFits(r: Runner) {
    && (forall f :: f in r.rfiles ==> f in r.folder)
    && (r.pc.RecurrentApply? || r.pc.RecurrentRecord? ==> r.rpos < |r.rfiles|)
    && (!r.kind.VersionedOnly? &&
          (r.pc == RecurrentUnlock(true) || r.pc == PipelineUnlock(true) || r.pc == Done(true)) ==>
          r.rpos >= |r.rfiles|)
    && (r.kind.RecurrentOnly? ==> !r.pc.AwaitVersioned? && !Inside(r, VersionedLock))
  }

  lemma PositionExecutes(r: Runner, db: M.State, hash: string -> string, o: Outcome)
    requires PositionFits(r) && KindAgrees(r) && Live(r)
    ensures PositionFits(RunnerExecutes(r, db, hash, o))
  {
  }

  lemma PositionMoves(s: State, e: Event)
    requires Enabled(s, e) && !e.action.Execute? && PositionFits(s.runners[e.runner]) && KindAgrees(s.runners[e.runner])
    ensures PositionFits(Apply(s, e).runners[e.runner])
  {
  }

  lemma PositionStep(s: State, e: Event, id: nat)
    requires Enabled(s, e) && id in s.runners && PositionFits(s.runners[id]) && KindAgrees(s.runners[id])
    ensures PositionFits(Apply(s, e).runners[id])
  {
    if id == e.runner {
      if e.action.Execute? {
        PositionExecutes(s.runners[id], s.db, s.hash, e.action.outcome);
      } else {
        PositionMoves(s, e);
      }
    }
  }

  ghost predicate Positioned(s: State, id: nat) {
    id in s.runners && PositionFits(s.runners[id])
  }

  lemma PositionAt(states: seq<State>, events: seq<Event>, i: nat, id: nat)
    requires Behavior(states, events) && i < |states| && id in states[0].runners
    ensures Positioned(states[i], id)
  {
    var holds := seq(|states|, k requires 0 <= k < |states| => Positioned(states[k], id));
    assert Fresh(states[0].runners[id]);
    forall k | 0 <= k < i && holds[k]
      ensures holds[k + 1]
    {
      Safety.InvAt(states, events, k);
      PositionStep(states[k], events[k], id);
    }
    Lasts(holds, 0, i);
  }

  /** At some moment so far the record of the file was that of this content. */
  ghost predicate WasRecorded(states: seq<State>, n: nat, f: string, content: string) {
    exists k :: 0 <= k <= n && k < |states| && M.Unchanged(states[k].db, f, states[k].hash(content))
  }

  ghost predicate PassedRecorded(states: seq<State>, n: nat, id: nat) {
    && n < |states| && id in states[n].runners
    && var r := states[n].runners[id];
    forall j :: 0 <= j < r.rpos && j < |r.rfiles| && r.rfiles[j] in r.folder ==>
      WasRecorded(states, n, r.rfiles[j], r.folder[r.rfiles[j]])
  }

  /** A run goes past a file only when the record is that of its content. */
  lemma PassesRecorded(s: State, e: Event, id: nat)
    requires Enabled(s, e) && id in s.runners && PositionFits(s.runners[id])
    ensures var r, s' := s.runners[id], Apply(s, e);
      && s'.hash == s.hash && s'.runners[id].rfiles == r.rfiles && s'.runners[id].folder == r.folder
      && (s'.runners[id].rpos == r.rpos ||
          (s'.runners[id].rpos == r.rpos + 1 && r.rpos < |r.rfiles| &&
           (M.Unchanged(s.db, r.rfiles[r.rpos], s.hash(r.folder[r.rfiles[r.rpos]])) ||
            M.Unchanged(s'.db, r.rfiles[r.rpos], s.hash(r.folder[r.rfiles[r.rpos]])))))
  {
  }

  lemma PassedStep(states: seq<State>, events: seq<Event>, n: nat, id: nat)
    requires Behavior(states, events) && n < |events| && PassedRecorded(states, n, id) && Positioned(states[n], id)
    ensures PassedRecorded(states, n + 1, id)
  {
    PassesRecorded(states[n], events[n], id);
    var r, r' := states[n].runners[id], states[n + 1].runners[id];
    forall j | 0 <= j < r'.rpos && j < |r'.rfiles| && r'.rfiles[j] in r'.folder
      ensures WasRecorded(states, n + 1, r'.rfiles[j], r'.folder[r'.rfiles[j]])
    {
      if j < r.rpos {
        assert WasRecorded(states, n, r.rfiles[j], r.folder[r.rfiles[j]]);
      }
    }
  }

  /** A run with a recurrent phase that ends well saw every file of its folder recorded as it is, at some moment. */
  lemma CompletedRunRecorded(states: seq<State>, events: seq<Event>, i: nat, id: nat, f: string)
    requires Behavior(states, events) && i < |states| && id in states[0].runners && id in states[i].runners
    requires states[i].runners[id].pc == Done(true) && !states[i].runners[id].kind.VersionedOnly?
    requires f in states[i].runners[id].rfiles
    ensures f in states[i].runners[id].folder && WasRecorded(states, i, f, states[i].runners[id].folder[f])
  {
    PositionAt(states, events, i, id);
    PassedAt(states, events, i, id);
  }

  lemma PassedAt(states: seq<State>, events: seq<Event>, i: nat, id: nat)
    requires Behavior(states, events) && i < |states| && id in states[0].runners
    ensures PassedRecorded(states, i, id)
  {
    var holds := seq(|states|, k requires 0 <= k < |states| => PassedRecorded(states, k, id));
    assert Fresh(states[0].runners[id]);
    forall k | 0 <= k < i && holds[k]
      ensures holds[k + 1]
    {
      PositionAt(states, events, k, id);
      PassedStep(states, events, k, id);
    }
    Lasts(holds, 0, i);
  }
}
