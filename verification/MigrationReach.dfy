/** How to show that a state is reachable, one step at a time, and the moves that runs of one file make. */
module MigrationReach {
  import opened Wrappers
  import M = Migrations
  import opened MigrationRuns

  /** Some run ends in this state. */
  ghost predicate Reachable(s: State) {
    exists states: seq<State>, events: seq<Event> :: Behavior(states, events) && states[|events|] == s
  }

  lemma Extend(states: seq<State>, events: seq<Event>, e: Event)
    requires Behavior(states, events) && Enabled(states[|events|], e)
    ensures Behavior(states + [Apply(states[|events|], e)], events + [e])
  {
  }

  lemma ReachableSteps(s: State, e: Event)
    requires Reachable(s) && Enabled(s, e)
    ensures Reachable(Apply(s, e))
  {
    var states: seq<State>, events: seq<Event> :| Behavior(states, events) && states[|events|] == s;
    Extend(states, events, e);
    assert (states + [Apply(s, e)])[|events + [e]|] == Apply(s, e);
  }

  /** A set of states that no step leaves. */
  ghost predicate Closed(within: State -> bool) {
    forall s, e :: within(s) && Enabled(s, e) ==> within(Apply(s, e))
  }

  lemma ReachableClosed()
    ensures Closed(s => Reachable(s))
  {
    forall s, e | Reachable(s) && Enabled(s, e)
      ensures Reachable(Apply(s, e))
    {
      ReachableSteps(s, e);
    }
  }

  lemma InitReachable(s: State)
    requires Init(s)
    ensures Reachable(s)
  {
    assert Behavior([s], []);
  }

  lemma Step(within: State -> bool, s: State, id: nat, action: Action) returns (s': State)
    requires Closed(within) && within(s) && Enabled(s, Event(id, action))
    ensures s' == Apply(s, Event(id, action)) && within(s')
  {
    s' := Apply(s, Event(id, action));
  }

  /** A run that begins waits for the first lock it needs. */
  lemma Starts(within: State -> bool, s: State, id: nat) returns (s': State)
    requires Closed(within) && within(s) && id in s.runners && s.runners[id].pc.Idle?
    requires if s.runners[id].kind.RecurrentOnly? then s.runners[id].rfiles != [] else s.runners[id].vfiles != []
    ensures within(s') && s' == s.(runners := s.runners[id := s.runners[id].(pc := match s.runners[id].kind
      case Pipeline => AwaitPipeline
      case VersionedOnly => AwaitVersioned
      case RecurrentOnly => AwaitRecurrent)])
  {
    s' := Step(within, s, id, Begin);
  }

  /** A free pipeline lock lets a pipeline into its versioned phase. */
  lemma EntersPipeline(within: State -> bool, s: State, id: nat) returns (s': State)
    requires Closed(within) && within(s) && id in s.runners
    requires s.runners[id].pc.AwaitPipeline? && PipelineLock !in s.locks
    requires s.runners[id].vfiles != [] && s.runners[id].lost == {}
    ensures within(s') && s' ==
      s.(runners := s.runners[id := s.runners[id].(pc := AwaitVersioned)], locks := s.locks[PipelineLock := id])
  {
    s' := Step(within, s, id, Acquire);
    assert s.runners[id].lost - {PipelineLock} == s.runners[id].lost;
    assert s'.runners[id] == s.runners[id].(pc := AwaitVersioned);
  }

  /** The versioned phase of one new file, up to its commit. */
  lemma ReachesCommit(within: State -> bool, s: State, id: nat) returns (s': State)
    requires Closed(within) && within(s) && id in s.runners
    requires s.runners[id].pc.AwaitVersioned? && VersionedLock !in s.locks
    requires |s.runners[id].vfiles| == 1 && s.runners[id].vpos == 0 && s.runners[id].vfiles[0] !in s.db.recorded
    requires s.runners[id].lost == {}
    ensures within(s') && s' ==
      s.(runners := s.runners[id := s.runners[id].(pc := VersionedCommit)], locks := s.locks[VersionedLock := id])
  {
    var s1 := Step(within, s, id, Acquire);
    s' := Step(within, s1, id, Execute(Success));
    assert s.runners[id].lost - {VersionedLock} == s.runners[id].lost;
    assert s'.runners[id] == s.runners[id].(pc := VersionedCommit);
  }

  /** From the commit of the one file to the unlock. */
  lemma CommitsLast(within: State -> bool, s: State, id: nat) returns (s': State)
    requires Closed(within) && within(s) && id in s.runners && s.runners[id].pc.VersionedCommit?
    requires |s.runners[id].vfiles| == 1 && s.runners[id].vpos == 0 && s.runners[id].vfiles[0] !in s.db.recorded
    ensures within(s') && s'.hash == s.hash && s'.locks == s.locks && s'.db == s.db.(
      versioned := s.db.versioned + s.runners[id].vfiles, recorded := s.db.recorded + {s.runners[id].vfiles[0]})
    ensures s'.runners == s.runners[id :=
      s.runners[id].(pc := VersionedUnlock(true), vpos := 1, mine := s.runners[id].mine + s.runners[id].vfiles)]
  {
    var r := s.runners[id];
    assert r.vfiles == [r.vfiles[0]];
    var s1 := Step(within, s, id, Execute(Success));
    assert s1.runners[id] == r.(pc := VersionedSelect, vpos := 1, mine := r.mine + r.vfiles);
    s' := Step(within, s1, id, Execute(Success));
    assert s'.runners[id] == s1.runners[id].(pc := VersionedUnlock(true));
  }

  /** The recurrent phase of one changed file, up to its application. */
  lemma ReachesApply(within: State -> bool, s: State, id: nat) returns (s': State)
    requires Closed(within) && within(s) && id in s.runners
    requires s.runners[id].pc.AwaitRecurrent? && RecurrentLock !in s.locks
    requires |s.runners[id].rfiles| == 1 && s.runners[id].rpos == 0 && s.runners[id].lost == {}
    requires Content(s.runners[id]).Some?
    requires !M.Unchanged(s.db, s.runners[id].rfiles[0], s.hash(Content(s.runners[id]).value))
    ensures within(s') && s' == s.(
      runners := s.runners[id := s.runners[id].(pc := RecurrentApply)], locks := s.locks[RecurrentLock := id])
  {
    var s1 := Step(within, s, id, Acquire);
    assert s.runners[id].lost - {RecurrentLock} == s.runners[id].lost;
    assert s1.runners[id] == s.runners[id].(pc := RecurrentSelect);
    s' := Step(within, s1, id, Execute(Success));
    assert s'.runners[id] == s.runners[id].(pc := RecurrentApply);
  }

  /** And up to its record. */
  lemma ReachesRecord(within: State -> bool, s: State, id: nat) returns (s': State)
    requires Closed(within) && within(s) && id in s.runners
    requires s.runners[id].pc.AwaitRecurrent? && RecurrentLock !in s.locks
    requires |s.runners[id].rfiles| == 1 && s.runners[id].rpos == 0 && s.runners[id].lost == {}
    requires Content(s.runners[id]).Some?
    requires !M.Unchanged(s.db, s.runners[id].rfiles[0], s.hash(Content(s.runners[id]).value))
    ensures within(s') && s' == s.(
      runners := s.runners[id := s.runners[id].(pc := RecurrentRecord)],
      locks := s.locks[RecurrentLock := id],
      db := s.db.(applied := s.db.applied + [Application(s.runners[id], Content(s.runners[id]).value)]))
  {
    var s1 := ReachesApply(within, s, id);
    s' := Step(within, s1, id, Execute(Success));
    assert s'.runners[id] == s.runners[id].(pc := RecurrentRecord);
  }
}
