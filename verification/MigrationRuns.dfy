/**
 Any number of migration runs on one database, interleaved at every await.

 A run is a whole pipeline, or one of its phases called alone. Its process may die
 at any point, any statement may fail, and its database session may be replaced
 under it, which silently drops the advisory locks it held.
 */
module MigrationRuns {
  import opened Wrappers
  import opened FileNames
  import M = Migrations

  datatype Kind = Pipeline | VersionedOnly | RecurrentOnly

  datatype Key = PipelineLock | VersionedLock | RecurrentLock

  /** The statement a run is about to execute. */
  datatype Pc =
    | Idle
    | AwaitPipeline
    | AwaitVersioned
    | VersionedSelect
    | VersionedCommit
    | VersionedUnlock(ok: bool)
    | AwaitRecurrent
    | RecurrentSelect
    | RecurrentApply
    | RecurrentRecord
    | RecurrentUnlock(ok: bool)
    | PipelineUnlock(ok: bool)
    | Done(ok: bool)
    | Dead

  /**
   A run over sorted folders. `override` gives the other database that a content is to
   be run on, if it names one and the run was given a connection to open there.
   `vpos` and `rpos` are the files its loops stand at, `mine` what it committed,
   `unheard` whether it was never told of the last of these,
   and `left` a file it applied and never recorded. `lost` are the locks that were
   dropped while it relied on them, `kept` those it failed to unlock.
   */
  datatype Runner = Runner(
    kind: Kind,
    vfiles: seq<string>,
    rfiles: seq<string>,
    folder: map<string, string>,
    override: string -> Option<string>,
    pc: Pc,
    vpos: nat,
    rpos: nat,
    mine: seq<string>,
    unheard: bool,
    left: Option<string>,
    lost: set<Key>,
    kept: set<Key>)

  datatype State = State(hash: string -> string, db: M.State, locks: map<Key, nat>, runners: map<nat, Runner>)

  ghost predicate Fresh(r: Runner) {
    && r.pc.Idle? && r.vpos == 0 && r.rpos == 0 && r.mine == [] && !r.unheard && r.left.None?
    && r.lost == {} && r.kept == {}
    && Sorted(r.vfiles) && Sorted(r.rfiles) && (forall f :: f in r.rfiles ==> f in r.folder)
  }

  ghost predicate Init(s: State) {
    && s.db == M.State([], {}, [], map[]) && s.locks == map[]
    && forall r :: r in s.runners ==> Fresh(s.runners[r])
  }

  /** A statement succeeds, fails without effect, or takes effect although its reply is lost, which fails the run. */
  datatype Outcome = Success | Failure | Unheard

  datatype Action = Begin | Acquire | Execute(outcome: Outcome) | Die | Reconnect

  datatype Event = Event(runner: nat, action: Action)

  predicate Waiting(r: Runner) {
    r.pc.AwaitPipeline? || r.pc.AwaitVersioned? || r.pc.AwaitRecurrent?
  }

  function Wanted(r: Runner): Key {
    if r.pc.AwaitPipeline? then PipelineLock else if r.pc.AwaitVersioned? then VersionedLock else RecurrentLock
  }

  predicate Live(r: Runner) {
    !r.pc.Idle? && !r.pc.Done? && !r.pc.Dead?
  }

  predicate Enabled(s: State, e: Event) {
    && e.runner in s.runners
    && var r := s.runners[e.runner];
    match e.action
    case Begin => r.pc.Idle?
    case Acquire => Waiting(r) && Wanted(r) !in s.locks
    // A statement that waits for a lock can fail, but succeeds only by acquiring it.
    case Execute(outcome) => Live(r) && (Waiting(r) ==> outcome.Failure?)
    case Die => Live(r)
    case Reconnect => Live(r)
  }

  /** The part of its run in which a runner relies on a lock. */
  predicate Inside(r: Runner, k: Key) {
    match k
    case VersionedLock => r.pc.VersionedSelect? || r.pc.VersionedCommit? || r.pc.VersionedUnlock?
    case RecurrentLock =>
      r.pc.RecurrentSelect? || r.pc.RecurrentApply? || r.pc.RecurrentRecord? || r.pc.RecurrentUnlock?
    case PipelineLock => r.kind.Pipeline? && Live(r) && !r.pc.AwaitPipeline?
  }

  // ----------------------------------------------------- control flow of one run

  function PcAfterRecurrent(r: Runner, ok: bool): Pc {
    if r.kind.Pipeline? then PipelineUnlock(ok) else Done(ok)
  }

  function PcAtRecurrent(r: Runner): Pc {
    if r.rfiles == [] then PcAfterRecurrent(r, true) else AwaitRecurrent
  }

  function PcAfterVersioned(r: Runner, ok: bool): Pc {
    if !r.kind.Pipeline? then Done(ok) else if ok then PcAtRecurrent(r) else PipelineUnlock(false)
  }

  function PcAtVersioned(r: Runner): Pc {
    if r.vfiles == [] then PcAfterVersioned(r, true) else AwaitVersioned
  }

  function BeginRun(r: Runner): Runner {
    r.(pc := match r.kind
        case Pipeline => AwaitPipeline
        case VersionedOnly => PcAtVersioned(r)
        case RecurrentOnly => PcAtRecurrent(r))
  }

  function Acquired(r: Runner): Runner {
    r.(pc := if r.pc.AwaitPipeline? then PcAtVersioned(r)
             else if r.pc.AwaitVersioned? then VersionedSelect
             else RecurrentSelect)
  }

  /**
   The commit of the file the run stands at takes effect. The primary key of the record
   table rejects a file recorded meanwhile.
   */
  predicate Commits(r: Runner, db: M.State, o: Outcome) {
    r.pc.VersionedCommit? && !o.Failure? && r.vpos < |r.vfiles| && r.vfiles[r.vpos] !in db.recorded
  }

  /** The loop finds the versioned file it stands at recorded. */
  predicate Skips(r: Runner, db: M.State, o: Outcome) {
    r.pc.VersionedSelect? && o.Success? && r.vpos < |r.vfiles| && r.vfiles[r.vpos] in db.recorded
  }

  /** The loop finds the recurrent file it stands at recorded with its content. */
  predicate SkipsRecurrent(r: Runner, db: M.State, hash: string -> string, o: Outcome) {
    r.pc.RecurrentSelect? && o.Success? && Content(r).Some? && M.Unchanged(db, r.rfiles[r.rpos], hash(Content(r).value))
  }

  /** A recurrent file is applied, and the run ends without knowing that it is recorded. */
  predicate Leaves(r: Runner, o: Outcome) {
    (r.pc.RecurrentApply? && o.Unheard?) || (r.pc.RecurrentRecord? && o.Failure?)
  }

  /** Where a statement leads; one that is not known to have succeeded leads out. */
  function NextPc(r: Runner, db: M.State, hash: string -> string, o: Outcome): Pc {
    match r.pc
    case AwaitPipeline => Done(false)
    case AwaitVersioned => PcAfterVersioned(r, false)
    case VersionedSelect =>
      if !o.Success? then VersionedUnlock(false)
      else if r.vpos >= |r.vfiles| then VersionedUnlock(true)
      else if Skips(r, db, o) then VersionedSelect
      else VersionedCommit
    case VersionedCommit => if Commits(r, db, o) && o.Success? then VersionedSelect else VersionedUnlock(false)
    case VersionedUnlock(done) => PcAfterVersioned(r, done && o.Success?)
    case AwaitRecurrent => PcAfterRecurrent(r, false)
    case RecurrentSelect =>
      if !o.Success? then RecurrentUnlock(false)
      else if r.rpos >= |r.rfiles| then RecurrentUnlock(true)
      else if SkipsRecurrent(r, db, hash, o) then RecurrentSelect
      else RecurrentApply
    case RecurrentApply => if o.Success? then RecurrentRecord else RecurrentUnlock(false)
    case RecurrentRecord => if o.Success? then RecurrentSelect else RecurrentUnlock(false)
    case RecurrentUnlock(done) => PcAfterRecurrent(r, done && o.Success?)
    case PipelineUnlock(done) => Done(done && o.Success?)
    case Idle => r.pc
    case Done(_) => r.pc
    case Dead => r.pc
  }

  /** A phase whose unlock fails keeps its lock, but a pipeline ends its session however its own unlock comes out. */
  function NextKept(r: Runner, o: Outcome): set<Key> {
    match r.pc
    case VersionedUnlock(_) => if o.Failure? then r.kept + {VersionedLock} else r.kept - {VersionedLock}
    case RecurrentUnlock(_) => if o.Failure? then r.kept + {RecurrentLock} else r.kept - {RecurrentLock}
    case PipelineUnlock(_) => {}
    case _ => r.kept
  }

  /** The next state of the run alone; the database decides through `db`. */
  function RunnerExecutes(r: Runner, db: M.State, hash: string -> string, o: Outcome): Runner {
    r.(pc := NextPc(r, db, hash, o),
       vpos := if Skips(r, db, o) || (Commits(r, db, o) && o.Success?) then r.vpos + 1 else r.vpos,
       mine := if Commits(r, db, o) then r.mine + [r.vfiles[r.vpos]] else r.mine,
       unheard := r.unheard || (Commits(r, db, o) && o.Unheard?),
       rpos := if SkipsRecurrent(r, db, hash, o) || (r.pc.RecurrentRecord? && o.Success?) then r.rpos + 1 else r.rpos,
       left := if Leaves(r, o) then Current(r) else r.left,
       kept := NextKept(r, o))
  }

  /** The recurrent file the run stands at. */
  function Current(r: Runner): Option<string> {
    if r.rpos < |r.rfiles| then Some(r.rfiles[r.rpos]) else None
  }

  function Content(r: Runner): Option<string> {
    if r.rpos < |r.rfiles| && r.rfiles[r.rpos] in r.folder then Some(r.folder[r.rfiles[r.rpos]]) else None
  }

  /** The application of a content of the file the run stands at. */
  function Application(r: Runner, content: string): M.Application
    requires r.rpos < |r.rfiles|
  {
    M.Application(r.rfiles[r.rpos], content, r.override(content))
  }

  function DatabaseExecutes(r: Runner, db: M.State, hash: string -> string, o: Outcome): M.State {
    if Commits(r, db, o) then
      db.(versioned := db.versioned + [r.vfiles[r.vpos]], recorded := db.recorded + {r.vfiles[r.vpos]})
    else if r.pc.RecurrentApply? && !o.Failure? && Content(r).Some? then
      db.(applied := db.applied + [Application(r, Content(r).value)])
    else if r.pc.RecurrentRecord? && !o.Failure? && Content(r).Some? then
      db.(checksums := db.checksums[r.rfiles[r.rpos] := hash(Content(r).value)])
    else db
  }

  function Release(locks: map<Key, nat>, k: Key, id: nat): map<Key, nat> {
    if k in locks && locks[k] == id then locks - {k} else locks
  }

  function ReleaseAll(locks: map<Key, nat>, id: nat): map<Key, nat> {
    map k | k in locks && locks[k] != id :: locks[k]
  }

  function LocksExecute(r: Runner, id: nat, locks: map<Key, nat>, o: Outcome): map<Key, nat> {
    if r.pc.VersionedUnlock? && !o.Failure? then Release(locks, VersionedLock, id)
    else if r.pc.RecurrentUnlock? && !o.Failure? then Release(locks, RecurrentLock, id)
    else if r.pc.PipelineUnlock? then ReleaseAll(locks, id)
    else locks
  }

  function Apply(s: State, e: Event): State
    requires Enabled(s, e)
  {
    var id := e.runner;
    var r := s.runners[id];
    match e.action
    case Begin => s.(runners := s.runners[id := BeginRun(r)])
    case Acquire =>
      s.(runners := s.runners[id := Acquired(r).(lost := r.lost - {Wanted(r)})], locks := s.locks[Wanted(r) := id])
    case Execute(o) =>
      s.(runners := s.runners[id := RunnerExecutes(r, s.db, s.hash, o)],
         db := DatabaseExecutes(r, s.db, s.hash, o),
         locks := LocksExecute(r, id, s.locks, o))
    case Die =>
      s.(runners := s.runners[id :=
           r.(pc := Dead, kept := {}, left := if r.pc.RecurrentRecord? then Current(r) else r.left)],
         locks := ReleaseAll(s.locks, id))
    case Reconnect =>
      s.(runners := s.runners[id := r.(kept := {}, lost := r.lost + set k | k in s.locks && s.locks[k] == id)],
         locks := ReleaseAll(s.locks, id))
  }

  ghost predicate Behavior(states: seq<State>, events: seq<Event>) {
    && |states| == |events| + 1
    && Init(states[0])
    && forall i :: 0 <= i < |events| ==> Enabled(states[i], events[i]) && states[i + 1] == Apply(states[i], events[i])
  }

  // ------------------------------------------------------------------- locks

  /** No statement but an acquisition enters a part, and only its unlock leaves it. */
  lemma InsideExecutes(r: Runner, db: M.State, hash: string -> string, o: Outcome, k: Key)
    requires Live(r) && (Waiting(r) ==> o.Failure?)
    ensures Inside(RunnerExecutes(r, db, hash, o), k) <==> Inside(r, k) && !Unlocks(r, k)
  {
  }

  predicate Unlocks(r: Runner, k: Key) {
    match k
    case VersionedLock => r.pc.VersionedUnlock?
    case RecurrentLock => r.pc.RecurrentUnlock?
    case PipelineLock => r.pc.PipelineUnlock?
  }

  lemma InsideAcquires(r: Runner, k: Key)
    requires Waiting(r) && KindAgrees(r)
    ensures Inside(Acquired(r), k) <==> Inside(r, k) || k == Wanted(r)
    ensures !Inside(r, Wanted(r)) && Acquired(r).lost == r.lost && Acquired(r).kept == r.kept
  {
  }

  /**
   Only a pipeline waits for, and unlocks, the pipeline lock; a lock is kept on the way out
   only, and past the end by a phase alone.
   */
  predicate KindAgrees(r: Runner) {
    && (r.pc.AwaitPipeline? || r.pc.PipelineUnlock? ==> r.kind.Pipeline?)
    && (r.kept == {} || r.pc.PipelineUnlock? || (r.pc.Done? && !r.kind.Pipeline?))
  }

  lemma KindStep(s: State, e: Event)
    requires Enabled(s, e) && forall r :: r in s.runners ==> KindAgrees(s.runners[r])
    ensures forall r :: r in s.runners ==> KindAgrees(Apply(s, e).runners[r])
  {
    var r := s.runners[e.runner];
    assert KindAgrees(r);
    if e.action.Execute? {
      KindExecutes(r, s.db, s.hash, e.action.outcome);
    }
  }

  lemma KindExecutes(r: Runner, db: M.State, hash: string -> string, o: Outcome)
    requires KindAgrees(r) && Live(r)
    ensures KindAgrees(RunnerExecutes(r, db, hash, o))
  {
  }

  predicate Holds(locks: map<Key, nat>, k: Key, id: nat) {
    k in locks && locks[k] == id
  }

  /** The part that a lock protects, or its lock after a failed unlock. */
  predicate Relies(r: Runner, k: Key) {
    Inside(r, k) || k in r.kept
  }

  /** What one runner and the locks agree on: it holds exactly the locks it relies on that were not dropped. */
  predicate Agrees(locks: map<Key, nat>, id: nat, r: Runner, k: Key) {
    && (Holds(locks, k, id) ==> Relies(r, k) && k !in r.lost)
    && (Relies(r, k) ==> k in r.lost || Holds(locks, k, id))
  }

  ghost predicate LocksInv(s: State) {
    && (forall k :: k in s.locks ==> s.locks[k] in s.runners)
    && (forall id, k :: id in s.runners ==> Agrees(s.locks, id, s.runners[id], k))
  }

  lemma AgreesAcquire(locks: map<Key, nat>, id: nat, r: Runner, k: Key)
    requires Agrees(locks, id, r, k) && Waiting(r) && KindAgrees(r)
    ensures Agrees(locks[Wanted(r) := id], id, Acquired(r).(lost := r.lost - {Wanted(r)}), k)
  {
    InsideAcquires(r, k);
  }

  lemma AgreesExecute(locks: map<Key, nat>, id: nat, r: Runner, db: M.State, hash: string -> string, o: Outcome, k: Key)
    requires Agrees(locks, id, r, k) && Live(r) && (Waiting(r) ==> o.Failure?) && KindAgrees(r)
    ensures Agrees(LocksExecute(r, id, locks, o), id, RunnerExecutes(r, db, hash, o), k)
  {
    InsideExecutes(r, db, hash, o, k);
  }

  /** The stepping runner still agrees with the locks. */
  lemma OwnLocksStep(s: State, e: Event, k: Key)
    requires LocksInv(s) && Enabled(s, e) && KindAgrees(s.runners[e.runner])
    ensures Agrees(Apply(s, e).locks, e.runner, Apply(s, e).runners[e.runner], k)
  {
    var id, r := e.runner, s.runners[e.runner];
    assert Agrees(s.locks, id, r, k);
    match e.action
    case Begin =>
    case Acquire => AgreesAcquire(s.locks, id, r, k);
    case Execute(o) => AgreesExecute(s.locks, id, r, s.db, s.hash, o, k);
    case Die =>
    case Reconnect =>
  }

  lemma LocksStep(s: State, e: Event)
    requires LocksInv(s) && Enabled(s, e) && KindAgrees(s.runners[e.runner])
    ensures LocksInv(Apply(s, e))
  {
    var s' := Apply(s, e);
    forall id, k | id in s'.runners
      ensures Agrees(s'.locks, id, s'.runners[id], k)
    {
      assert Agrees(s.locks, id, s.runners[id], k);
      if id == e.runner {
        OwnLocksStep(s, e, k);
      }
    }
  }

  // --------------------------------------------------------------- versioned files

  /** How many files of its folder the run has committed or found recorded. */
  function Reached(r: Runner): nat {
    if r.unheard then r.vpos + 1 else r.vpos
  }

  /** A run that was not told of a commit is on its way out. */
  predicate LeavesVersioned(r: Runner) {
    r.pc == VersionedUnlock(false) || r.pc == PipelineUnlock(false) || r.pc == Done(false) || r.pc.Dead?
  }

  ghost predicate VersionedInv(db: M.State, r: Runner) {
    && Sorted(r.vfiles) && Reached(r) <= |r.vfiles|
    && (forall j :: 0 <= j < r.vpos ==> r.vfiles[j] in db.recorded)
    && (r.pc.VersionedCommit? ==> r.vpos < |r.vfiles|)
    && Sorted(r.mine) && (forall f :: f in r.mine ==> f in r.vfiles[..Reached(r)] && f in db.recorded)
    && (r.unheard ==> LeavesVersioned(r) && r.vfiles[r.vpos] in r.mine)
  }

  ghost predicate AllVersioned(s: State) {
    M.AppliedOnce(s.db) && forall r :: r in s.runners ==> VersionedInv(s.db, s.runners[r])
  }

  lemma OneMoreOfMine(r: Runner, f: string)
    requires Sorted(r.vfiles) && r.vpos < |r.vfiles| && r.vfiles[r.vpos] == f
    requires Sorted(r.mine) && forall x :: x in r.mine ==> x in r.vfiles[..r.vpos]
    ensures Sorted(r.mine + [f]) && forall x :: x in r.mine + [f] ==> x in r.vfiles[..r.vpos + 1]
  {
    assert r.vfiles[..r.vpos + 1] == r.vfiles[..r.vpos] + [f];
    forall i | 0 <= i < |r.mine|
      ensures Less(r.mine[i], f)
    {
      assert r.mine[i] in r.vfiles[..r.vpos];
    }
  }

  lemma CommitAdvances(db: M.State, r: Runner, hash: string -> string, o: Outcome)
    requires VersionedInv(db, r) && M.AppliedOnce(db) && Commits(r, db, o)
    ensures VersionedInv(DatabaseExecutes(r, db, hash, o), RunnerExecutes(r, db, hash, o))
    ensures M.AppliedOnce(DatabaseExecutes(r, db, hash, o))
  {
    OneMoreOfMine(r, r.vfiles[r.vpos]);
  }

  lemma SkipAdvances(db: M.State, r: Runner)
    requires VersionedInv(db, r) && r.vpos < |r.vfiles| && r.vfiles[r.vpos] in db.recorded && r.pc.VersionedSelect?
    ensures VersionedInv(db, r.(vpos := r.vpos + 1))
  {
  }

  lemma OtherStatements(r: Runner, db: M.State, hash: string -> string, o: Outcome)
    requires !Skips(r, db, o) && !Commits(r, db, o) && (r.pc.VersionedCommit? ==> r.vpos < |r.vfiles|)
    ensures var r' := RunnerExecutes(r, db, hash, o);
      && r'.vfiles == r.vfiles && r'.vpos == r.vpos && r'.mine == r.mine && r'.unheard == r.unheard
      && (r'.pc.VersionedCommit? ==> r'.vpos < |r'.vfiles|)
    ensures var db' := DatabaseExecutes(r, db, hash, o); db'.versioned == db.versioned && db'.recorded == db.recorded
  {
  }

  lemma OtherAdvances(db: M.State, r: Runner, hash: string -> string, o: Outcome)
    requires VersionedInv(db, r) && M.AppliedOnce(db) && Live(r) && !Skips(r, db, o) && !Commits(r, db, o)
    ensures VersionedInv(DatabaseExecutes(r, db, hash, o), RunnerExecutes(r, db, hash, o))
    ensures M.AppliedOnce(DatabaseExecutes(r, db, hash, o))
    ensures db.recorded <= DatabaseExecutes(r, db, hash, o).recorded
  {
    OtherStatements(r, db, hash, o);
    if r.unheard {
    }
  }

  lemma VersionedExecutes(db: M.State, r: Runner, hash: string -> string, o: Outcome)
    requires VersionedInv(db, r) && M.AppliedOnce(db) && Live(r)
    ensures VersionedInv(DatabaseExecutes(r, db, hash, o), RunnerExecutes(r, db, hash, o))
    ensures M.AppliedOnce(DatabaseExecutes(r, db, hash, o))
    ensures db.recorded <= DatabaseExecutes(r, db, hash, o).recorded
  {
    if Commits(r, db, o) {
      CommitAdvances(db, r, hash, o);
    } else if Skips(r, db, o) {
      SkipAdvances(db, r);
    } else {
      OtherAdvances(db, r, hash, o);
    }
  }

  lemma VersionedOwnStep(s: State, e: Event)
    requires AllVersioned(s) && Enabled(s, e)
    ensures VersionedInv(Apply(s, e).db, Apply(s, e).runners[e.runner]) && M.AppliedOnce(Apply(s, e).db)
    ensures s.db.recorded <= Apply(s, e).db.recorded
  {
    var r := s.runners[e.runner];
    assert VersionedInv(s.db, r);
    if e.action.Execute? {
      VersionedExecutes(s.db, r, s.hash, e.action.outcome);
    } else {
      OthersMove(s, e);
      VersionedMoves(s.db, r, Apply(s, e).runners[e.runner]);
    }
  }

  /** The run goes elsewhere, and its versioned files are as they were. */
  predicate Moves(r: Runner, r': Runner) {
    && r'.vfiles == r.vfiles && r'.vpos == r.vpos && r'.mine == r.mine && r'.unheard == r.unheard
    && (r'.pc.VersionedCommit? ==> r.pc.VersionedCommit?) && (LeavesVersioned(r) ==> LeavesVersioned(r'))
  }

  lemma OthersMove(s: State, e: Event)
    requires Enabled(s, e) && !e.action.Execute?
    ensures Moves(s.runners[e.runner], Apply(s, e).runners[e.runner]) && Apply(s, e).db == s.db
  {
  }

  lemma VersionedMoves(db: M.State, r: Runner, r': Runner)
    requires VersionedInv(db, r) && Moves(r, r')
    ensures VersionedInv(db, r')
  {
  }

  lemma VersionedStep(s: State, e: Event)
    requires AllVersioned(s) && Enabled(s, e)
    ensures AllVersioned(Apply(s, e))
  {
    VersionedOwnStep(s, e);
    forall id | id in s.runners && id != e.runner
      ensures VersionedInv(Apply(s, e).db, s.runners[id])
    {
    }
  }
}
