/** Runs that show what an unheard reply, a failed unlock and a replaced session leave behind. */
module MigrationMishaps {
  import opened Wrappers
  import M = Migrations
  import opened MigrationRuns
  import opened MigrationReach
  import Safety = MigrationSafety
  import Recurrent = RecurrentSafety

  const FILE := "a.sql"

  /** A versioned phase called alone on one file. */
  const VERSIONED_RUN := Runner(VersionedOnly, [FILE], [], map[], _ => None, Idle, 0, 0, [], false, None, {}, {})

  function VersionedRuns(hash: string -> string): State {
    State(hash, M.State([], {}, [], map[]), map[], map[0 := VERSIONED_RUN, 1 := VERSIONED_RUN])
  }

  lemma CommitUnheard(within: State -> bool, hash: string -> string) returns (s: State)
    requires Closed(within) && within(VersionedRuns(hash))
    ensures within(s) && s.runners.Keys == {0, 1} && s.runners[0].pc == Done(false) && s.runners[0].unheard
    ensures s.runners[0].vpos == 0 && s.runners[0].vfiles == [FILE] && FILE in s.db.recorded
  {
    var s1 := Starts(within, VersionedRuns(hash), 0);
    var s2 := ReachesCommit(within, s1, 0);
    var s3 := Step(within, s2, 0, Execute(Unheard));
    s := Step(within, s3, 0, Execute(Success));
  }

  /** A run fails at a file and yet has committed and recorded it: the reply to the commit was lost. */
  lemma UnheardCommitIsRecorded(hash: string -> string) returns (states: seq<State>, events: seq<Event>)
    ensures Behavior(states, events) && Safety.EverUnheard(states, events, |events|, 0)
    ensures var s := states[|events|];
      && 0 in s.runners && s.runners[0].pc == Done(false)
      && s.runners[0].vpos == 0 && s.runners[0].vfiles == [FILE] && FILE in s.db.recorded
  {
    InitReachable(VersionedRuns(hash));
    ReachableClosed();
    var s := CommitUnheard(s => Reachable(s), hash);
    states, events :| Behavior(states, events) && states[|events|] == s;
    assert 0 in states[0].runners by {
      RunnersKept(states, events, |events|);
    }
    Safety.UnheardAt(states, events, |events|, 0);
  }

  /** No run comes or goes. */
  lemma {:induction false} RunnersKept(states: seq<State>, events: seq<Event>, i: nat)
    requires Behavior(states, events) && i < |states|
    ensures states[i].runners.Keys == states[0].runners.Keys
  {
    if i > 0 {
      RunnersKept(states, events, i - 1);
    }
  }

  lemma UnlockFails(within: State -> bool, hash: string -> string) returns (s: State)
    requires Closed(within) && within(VersionedRuns(hash))
    ensures within(s) && s.runners.Keys == {0, 1} && s.runners[0].pc == Done(false) && Holds(s.locks, VersionedLock, 0)
    ensures s.runners[1].pc.AwaitVersioned?
  {
    var s1 := Starts(within, VersionedRuns(hash), 0);
    var s2 := ReachesCommit(within, s1, 0);
    var s3 := CommitsLast(within, s2, 0);
    var s4 := Step(within, s3, 0, Execute(Failure));
    s := Starts(within, s4, 1);
  }

  /**
   A phase called alone is over and holds its lock still; a run that waits for it can go no
   further, nor can any other.
   */
  lemma KeptLockBlocks(hash: string -> string) returns (s: State)
    ensures Reachable(s) && 0 in s.runners && Safety.Ended(s.runners[0]) && Holds(s.locks, VersionedLock, 0)
    ensures 1 in s.runners && Live(s.runners[1]) && forall id :: !Safety.CanStep(s, id)
  {
    InitReachable(VersionedRuns(hash));
    ReachableClosed();
    s := UnlockFails(s => Reachable(s), hash);
  }

  // -------------------------------------------------------------- a hidden content

  const RECURRENT := "R__x.sql"

  function RecurrentRunOf(content: string): Runner {
    Runner(RecurrentOnly, [], [RECURRENT], map[RECURRENT := content], _ => None, Idle, 0, 0, [], false, None, {}, {})
  }

  function TwoContents(hash: string -> string, c0: string, c1: string): State {
    State(hash, M.State([], {}, [], map[]), map[], map[0 := RecurrentRunOf(c0), 1 := RecurrentRunOf(c1)])
  }

  /** The session of a run that has applied its file is replaced. */
  lemma FirstLosesLock(within: State -> bool, hash: string -> string, c0: string, c1: string) returns (s: State)
    requires Closed(within) && within(TwoContents(hash, c0, c1))
    ensures within(s) && s.locks == map[] && s.hash == hash
    ensures s.db == M.State([], {}, [M.Application(RECURRENT, c0, None)], map[])
    ensures s.runners == map[
      0 := RecurrentRunOf(c0).(pc := RecurrentRecord, lost := {RecurrentLock}), 1 := RecurrentRunOf(c1)]
  {
    var s1 := Starts(within, TwoContents(hash, c0, c1), 0);
    var s2 := ReachesRecord(within, s1, 0);
    s := Step(within, s2, 0, Reconnect);
    assert (set k | k in s2.locks && s2.locks[k] == 0) == {RecurrentLock};
    assert s.runners[0] == RecurrentRunOf(c0).(pc := RecurrentRecord, lost := {RecurrentLock});
  }

  lemma RecordsCross(within: State -> bool, hash: string -> string, c0: string, c1: string) returns (s: State)
    requires Closed(within) && within(TwoContents(hash, c0, c1)) && c0 != c1
    ensures within(s) && M.Masked(s.db, RECURRENT, c0, hash(c0))
    ensures forall id :: id in s.runners ==> !Recurrent.Owes(s.runners[id], RECURRENT)
  {
    var s1 := FirstLosesLock(within, hash, c0, c1);
    var s2 := Starts(within, s1, 1);
    var s3 := ReachesRecord(within, s2, 1);
    s := BothRecord(within, s3, c0, c1);
  }

  /** Two runs record the content they applied, the one that applied last first. */
  lemma BothRecord(within: State -> bool, s: State, c0: string, c1: string) returns (s': State)
    requires Closed(within) && within(s) && s.runners.Keys == {0, 1} && c0 != c1
    requires s.runners[0] == RecurrentRunOf(c0).(pc := RecurrentRecord, lost := {RecurrentLock})
    requires s.runners[1] == RecurrentRunOf(c1).(pc := RecurrentRecord)
    requires M.LastApplied(s.db.applied, RECURRENT) == Some(c1)
    ensures within(s') && M.Masked(s'.db, RECURRENT, c0, s.hash(c0))
    ensures forall id :: id in s'.runners ==> !Recurrent.Owes(s'.runners[id], RECURRENT)
  {
    var s1 := Step(within, s, 1, Execute(Success));
    s' := Step(within, s1, 0, Execute(Success));
  }

  /**
   A record hides the content applied since although no run was interrupted: the
   session of one was replaced after it applied its file, another applied and recorded
   its own, and then the first recorded.
   */
  lemma MaskedByLostLock(hash: string -> string, c0: string, c1: string) returns (s: State)
    requires c0 != c1
    ensures Reachable(s) && M.Masked(s.db, RECURRENT, c0, hash(c0))
    ensures forall id :: id in s.runners ==> !Recurrent.Owes(s.runners[id], RECURRENT)
  {
    InitReachable(TwoContents(hash, c0, c1));
    ReachableClosed();
    s := RecordsCross(s => Reachable(s), hash, c0, c1);
  }
}
