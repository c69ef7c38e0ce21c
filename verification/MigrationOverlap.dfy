/**
 When the runs of a database do interleave. A pipeline keeps other pipelines away
 for as long as it holds its lock, but a phase called alone asks for its own lock
 only, and so can work between the two phases of a pipeline.
 */
module MigrationOverlap {
  import opened Histories
  import opened Wrappers
  import M = Migrations
  import opened MigrationRuns
  import opened MigrationReach
  import Safety = MigrationSafety

  // ---------------------------------------------------------- steps of one run alone

  /** Steps of run `id` alone lead from `s` through these states. */
  ghost predicate Alone(s: State, id: nat, states: seq<State>, events: seq<Event>) {
    && |states| == |events| + 1 && states[0] == s
    && forall i :: 0 <= i < |events| ==>
      events[i].runner == id && Enabled(states[i], events[i]) && states[i + 1] == Apply(states[i], events[i])
  }

  /** The run can change the database while all others stand still. */
  ghost predicate CanChange(s: State, id: nat) {
    exists states: seq<State>, events: seq<Event> :: Alone(s, id, states, events) && states[|events|].db != s.db
  }

  lemma ChangesNow(s: State, e: Event)
    requires Enabled(s, e) && Apply(s, e).db != s.db
    ensures CanChange(s, e.runner)
  {
    assert Alone(s, e.runner, [s, Apply(s, e)], [e]);
  }

  lemma ChangesLater(s: State, e: Event)
    requires Enabled(s, e) && Apply(s, e).db == s.db && CanChange(Apply(s, e), e.runner)
    ensures CanChange(s, e.runner)
  {
    var states: seq<State>, events: seq<Event> :|
      Alone(Apply(s, e), e.runner, states, events) && states[|events|].db != Apply(s, e).db;
    assert Alone(s, e.runner, [s] + states, [e] + events);
    assert ([s] + states)[|[e] + events|] == states[|events|];
  }

  // -------------------------------------------------------------------- what can be

  /** The loop over versioned files comes to the first that is not recorded, and commits it. */
  lemma {:induction false} VersionedLoopChanges(s: State, id: nat, j: nat)
    requires id in s.runners && s.runners[id].pc.VersionedSelect?
    requires s.runners[id].vpos <= j < |s.runners[id].vfiles| && s.runners[id].vfiles[j] !in s.db.recorded
    ensures CanChange(s, id)
    decreases j - s.runners[id].vpos
  {
    var r, e := s.runners[id], Event(id, Execute(Success));
    var s' := Apply(s, e);
    if Skips(r, s.db, Success) {
      VersionedLoopChanges(s', id, j);
    } else {
      assert Apply(s', e).db.versioned == s.db.versioned + [r.vfiles[r.vpos]];
      ChangesNow(s', e);
    }
    ChangesLater(s, e);
  }

  /** The loop over recurrent files comes to the first that is not recorded as it is, and applies it. */
  lemma {:induction false} RecurrentLoopChanges(s: State, id: nat, j: nat)
    requires id in s.runners && s.runners[id].pc.RecurrentSelect?
    requires forall f :: f in s.runners[id].rfiles ==> f in s.runners[id].folder
    requires s.runners[id].rpos <= j < |s.runners[id].rfiles| && Differs(s, id, j)
    ensures CanChange(s, id)
    decreases j - s.runners[id].rpos
  {
    var r, e := s.runners[id], Event(id, Execute(Success));
    var s' := Apply(s, e);
    if SkipsRecurrent(r, s.db, s.hash, Success) {
      RecurrentLoopChanges(s', id, j);
    } else {
      assert |Apply(s', e).db.applied| == |s.db.applied| + 1;
      ChangesNow(s', e);
    }
    ChangesLater(s, e);
  }

  /** The record of the run's `j`-th recurrent file is not that of its content. */
  predicate Differs(s: State, id: nat, j: nat) {
    && id in s.runners && j < |s.runners[id].rfiles| && s.runners[id].rfiles[j] in s.runners[id].folder
    && !M.Unchanged(s.db, s.runners[id].rfiles[j], s.hash(s.runners[id].folder[s.runners[id].rfiles[j]]))
  }

  /** The first phase of the run has a file to apply, and its lock is free. */
  ghost predicate HasWork(s: State, id: nat) {
    && id in s.runners
    && if s.runners[id].kind.RecurrentOnly?
       then RecurrentLock !in s.locks && exists j :: s.runners[id].rpos <= j && Differs(s, id, j)
       else VersionedLock !in s.locks && exists j ::
         s.runners[id].vpos <= j < |s.runners[id].vfiles| && s.runners[id].vfiles[j] !in s.db.recorded
  }

  /** The run has not got a lock yet. */
  predicate Outside(r: Runner) {
    r.pc.Idle? || r.pc.AwaitPipeline?
  }

  lemma PhaseChanges(s: State, id: nat)
    requires id in s.runners && HasWork(s, id) && forall f :: f in s.runners[id].rfiles ==> f in s.runners[id].folder
    requires if s.runners[id].kind.RecurrentOnly? then s.runners[id].pc.AwaitRecurrent?
      else s.runners[id].pc.AwaitVersioned?
    ensures CanChange(s, id)
  {
    var e := Event(id, Acquire);
    var s' := Apply(s, e);
    if s.runners[id].kind.RecurrentOnly? {
      var j :| s.runners[id].rpos <= j && Differs(s, id, j);
      assert Differs(s', id, j);
      RecurrentLoopChanges(s', id, j);
    } else {
      var j :| s.runners[id].vpos <= j < |s.runners[id].vfiles| && s.runners[id].vfiles[j] !in s.db.recorded;
      VersionedLoopChanges(s', id, j);
    }
    ChangesLater(s, e);
  }

  lemma WorkKept(s: State, s': State, id: nat)
    requires HasWork(s, id) && id in s'.runners && s'.db == s.db && s'.hash == s.hash
    requires s'.runners[id] == s.runners[id].(pc := s'.runners[id].pc, lost := s'.runners[id].lost)
    requires VersionedLock in s'.locks ==> VersionedLock in s.locks
    requires RecurrentLock in s'.locks ==> RecurrentLock in s.locks
    ensures HasWork(s', id)
  {
    if s.runners[id].kind.RecurrentOnly? {
      var j :| s.runners[id].rpos <= j && Differs(s, id, j);
      assert Differs(s', id, j);
    } else {
      var j :| s.runners[id].vpos <= j < |s.runners[id].vfiles| && s.runners[id].vfiles[j] !in s.db.recorded;
    }
  }

  /** Past the pipeline lock, or without a need for it. */
  lemma WaitingPipelineChanges(s: State, id: nat)
    requires id in s.runners && HasWork(s, id) && forall f :: f in s.runners[id].rfiles ==> f in s.runners[id].folder
    requires s.runners[id].kind.Pipeline? && s.runners[id].pc.AwaitPipeline? && PipelineLock !in s.locks
    ensures CanChange(s, id)
  {
    var e := Event(id, Acquire);
    WorkKept(s, Apply(s, e), id);
    PhaseChanges(Apply(s, e), id);
    ChangesLater(s, e);
  }

  lemma OutsideChanges(s: State, id: nat)
    requires id in s.runners && HasWork(s, id) && forall f :: f in s.runners[id].rfiles ==> f in s.runners[id].folder
    requires Outside(s.runners[id]) && KindAgrees(s.runners[id])
    requires s.runners[id].kind.Pipeline? ==> PipelineLock !in s.locks
    ensures CanChange(s, id)
  {
    if s.runners[id].pc.Idle? {
      var e := Event(id, Begin);
      WorkKept(s, Apply(s, e), id);
      if s.runners[id].kind.Pipeline? {
        WaitingPipelineChanges(Apply(s, e), id);
      } else {
        PhaseChanges(Apply(s, e), id);
      }
      ChangesLater(s, e);
    } else {
      WaitingPipelineChanges(s, id);
    }
  }

  // ----------------------------------------------------------------- what cannot be

  /** A pipeline that finds its lock held by another. */
  predicate Kept(s: State, id: nat, holder: nat) {
    && id in s.runners && s.runners[id].kind.Pipeline? && id != holder
    && (Outside(s.runners[id]) || s.runners[id].pc.Done? || s.runners[id].pc.Dead?)
    && Holds(s.locks, PipelineLock, holder)
  }

  lemma KeptStep(s: State, e: Event, holder: nat)
    requires Enabled(s, e) && Kept(s, e.runner, holder)
    ensures Kept(Apply(s, e), e.runner, holder) && Apply(s, e).db == s.db
  {
  }

  lemma {:induction false} KeptAlone(s: State, id: nat, holder: nat, states: seq<State>, events: seq<Event>, i: nat)
    requires Alone(s, id, states, events) && Kept(s, id, holder) && i < |states|
    ensures Kept(states[i], id, holder) && states[i].db == s.db
  {
    if i > 0 {
      KeptAlone(s, id, holder, states, events, i - 1);
      KeptStep(states[i - 1], events[i - 1], holder);
    }
  }

  /** Every run has the contents of its files. */
  ghost predicate FoldersFit(s: State) {
    forall id :: id in s.runners ==> forall f :: f in s.runners[id].rfiles ==> f in s.runners[id].folder
  }

  lemma FoldersStep(s: State, e: Event)
    requires Enabled(s, e) && FoldersFit(s)
    ensures FoldersFit(Apply(s, e))
  {
  }

  lemma FoldersAt(states: seq<State>, events: seq<Event>, i: nat)
    requires Behavior(states, events) && i < |states|
    ensures FoldersFit(states[i])
  {
    var holds := seq(|states|, k requires 0 <= k < |states| => FoldersFit(states[k]));
    forall k | 0 <= k < i && holds[k]
      ensures holds[k + 1]
    {
      FoldersStep(states[k], events[k]);
    }
    Lasts(holds, 0, i);
  }

  /**
   While run `a` is between the first and the last lock of its pipeline, and no third
   run has the pipeline lock, another run that has yet to get a lock and has something
   to apply can do so if and only if it is a phase called alone, or `a` lost the lock.
   */
  lemma InterleavesIff(states: seq<State>, events: seq<Event>, i: nat, a: nat, b: nat)
    requires Behavior(states, events) && i < |states| && a in states[i].runners && b in states[i].runners && a != b
    requires Inside(states[i].runners[a], PipelineLock) && Outside(states[i].runners[b]) && HasWork(states[i], b)
    requires PipelineLock in states[i].locks ==> states[i].locks[PipelineLock] == a
    ensures CanChange(states[i], b) <==>
      !states[i].runners[b].kind.Pipeline? || PipelineLock in states[i].runners[a].lost
  {
    var s := states[i];
    Safety.InvAt(states, events, i);
    FoldersAt(states, events, i);
    assert Agrees(s.locks, a, s.runners[a], PipelineLock);
    if s.runners[b].kind.Pipeline? && PipelineLock !in s.runners[a].lost {
      if CanChange(s, b) {
        var ss: seq<State>, es: seq<Event> :| Alone(s, b, ss, es) && ss[|es|].db != s.db;
        KeptAlone(s, b, a, ss, es, |es|);
      }
    } else {
      OutsideChanges(s, b);
    }
  }

  // -------------------------------------------------------------------- two such runs

  function NewRun(kind: Kind, file: string): Runner {
    Runner(kind, [file], ["R__x.sql"], map["R__x.sql" := ""], _ => None, Idle, 0, 0, [], false, None, {}, {})
  }

  function TwoRuns(hash: string -> string, second: Kind): State {
    State(hash, M.State([], {}, [], map[]), map[], map[0 := NewRun(Pipeline, "a.sql"), 1 := NewRun(second, "b.sql")])
  }

  /** The first run, a pipeline, stands between its phases. */
  lemma FirstBetweenPhases(within: State -> bool, hash: string -> string, second: Kind) returns (s: State)
    requires Closed(within) && within(TwoRuns(hash, second))
    ensures within(s) && s.locks == map[PipelineLock := 0] && s.db == M.State(["a.sql"], {"a.sql"}, [], map[])
    ensures s.runners.Keys == {0, 1} && s.runners[1] == NewRun(second, "b.sql")
    ensures s.runners[0].kind.Pipeline? && s.runners[0].pc.AwaitRecurrent? && s.runners[0].lost == {}
  {
    var s1 := Starts(within, TwoRuns(hash, second), 0);
    var s2 := EntersPipeline(within, s1, 0);
    s := RunsVersioned(within, s2, 0);
    assert s.locks == map[PipelineLock := 0];
  }

  /** The versioned phase of a pipeline with one new file. */
  lemma RunsVersioned(within: State -> bool, s: State, id: nat) returns (s': State)
    requires Closed(within) && within(s) && id in s.runners
    requires s.runners[id].pc.AwaitVersioned? && VersionedLock !in s.locks
    requires |s.runners[id].vfiles| == 1 && s.runners[id].vpos == 0 && s.runners[id].vfiles[0] !in s.db.recorded
    requires s.runners[id].kind.Pipeline? && s.runners[id].rfiles != []
    requires s.runners[id].lost == s.runners[id].kept == {}
    ensures within(s') && s'.locks == s.locks && s'.db == s.db.(
      versioned := s.db.versioned + s.runners[id].vfiles, recorded := s.db.recorded + {s.runners[id].vfiles[0]})
    ensures id in s'.runners && s'.runners == s.runners[id := s'.runners[id]]
    ensures s'.runners[id].kind.Pipeline? && s'.runners[id].pc.AwaitRecurrent? && s'.runners[id].lost == {}
  {
    var s1 := ReachesCommit(within, s, id);
    var s2 := CommitsLast(within, s1, id);
    s' := Step(within, s2, id, Execute(Success));
    assert s'.locks == s.locks;
  }

  /** The state with a run between the phases of another, and a step of that run that commits a versioned file. */
  ghost predicate Interleaves(s: State, e: Event) {
    && s.runners.Keys == {0, 1} && Enabled(s, e) && e.runner == 1
    && s.runners[0].kind.Pipeline? && s.runners[0].pc.AwaitRecurrent?
    && s.db.versioned == ["a.sql"] && Apply(s, e).db.versioned == ["a.sql", "b.sql"]
  }

  lemma SecondPipelineCommits(within: State -> bool, hash: string -> string) returns (s: State, e: Event)
    requires Closed(within) && within(TwoRuns(hash, Pipeline))
    ensures within(s) && Interleaves(s, e) && s.runners[1].kind.Pipeline?
  {
    var s0 := FirstBetweenPhases(within, hash, Pipeline);
    var s1 := Step(within, s0, 0, Reconnect);
    var s2 := Starts(within, s1, 1);
    var s3 := EntersPipeline(within, s2, 1);
    s := ReachesCommit(within, s3, 1);
    e := Event(1, Execute(Success));
    assert ["a.sql"] + ["b.sql"] == ["a.sql", "b.sql"];
  }

  /** Between the two phases of one pipeline, whose session was replaced, another pipeline commits a versioned file. */
  lemma DroppedLockOverlaps(hash: string -> string) returns (s: State, e: Event)
    ensures Reachable(s) && Interleaves(s, e) && s.runners[1].kind.Pipeline?
  {
    InitReachable(TwoRuns(hash, Pipeline));
    ReachableClosed();
    s, e := SecondPipelineCommits(s => Reachable(s), hash);
  }

  lemma PhaseAloneCommits(within: State -> bool, hash: string -> string) returns (s: State, e: Event)
    requires Closed(within) && within(TwoRuns(hash, VersionedOnly))
    ensures within(s) && Interleaves(s, e) && s.runners[1].kind.VersionedOnly?
    ensures Holds(s.locks, PipelineLock, 0) && s.runners[0].lost == s.runners[1].lost == {}
  {
    var s0 := FirstBetweenPhases(within, hash, VersionedOnly);
    var s1 := Starts(within, s0, 1);
    s := ReachesCommit(within, s1, 1);
    e := Event(1, Execute(Success));
    assert ["a.sql"] + ["b.sql"] == ["a.sql", "b.sql"];
  }

  /** Without any lock lost, a versioned phase called alone commits a file between the two phases of a pipeline. */
  lemma PhaseAloneOverlaps(hash: string -> string) returns (s: State, e: Event)
    ensures Reachable(s) && Interleaves(s, e) && s.runners[1].kind.VersionedOnly?
    ensures Holds(s.locks, PipelineLock, 0) && s.runners[0].lost == s.runners[1].lost == {}
  {
    InitReachable(TwoRuns(hash, VersionedOnly));
    ReachableClosed();
    s, e := PhaseAloneCommits(s => Reachable(s), hash);
  }
}
