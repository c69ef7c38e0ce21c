/**
 The deployment with the table of schedules: every start as owner of every process
 reads and writes it in steps of its own, between all the other steps.
 */
module FleetSchedules {
  import opened Wrappers
  import opened Schedules
  import opened ScheduleWrites
  import F = Fleet
  import S = SchedulerProtocol
  import Safety = FleetSafety

  /** The jobs that each process registers. */
  type Jobs = nat -> map<string, Job>

  /**
   The fleet, the writes made to the initial table, and how far each start-up is; `froms`
   counts the writes before its read.
   */
  datatype State = State(
    fleet: F.State,
    initial: map<string, Entry>,
    writes: seq<Write>,
    syncs: map<StartUp, Sync>,
    froms: map<StartUp, nat>)

  /** The table of schedules. */
  function Stored(s: State): map<string, Entry> {
    Replay(s.initial, s.writes)
  }

  datatype Event =
    | FleetStep(step: F.Event)
    | ReadSchedules(startUp: StartUp)
    | Handle(startUp: StartUp, name: string)

  function Created(f: F.State, p: nat): nat {
    if p in f.processes then f.processes[p].scheduler.pool.Created() else 0
  }

  /** The process whose start-up the step lets succeed. */
  function Settles(e: F.Event): Option<nat> {
    if e.Local? && (e.event == S.StartOwnerSettled(true) || e.event == S.PromotionSettled(true))
      then Some(e.process) else None
  }

  /** The process whose scheduler takes the step. */
  function Actor(e: F.Event): Option<nat> {
    match e
    case Local(p, _) => Some(p)
    case Deliver(p, _) => Some(p)
    case Reject(p, _) => Some(p)
    case _ => None
  }

  predicate Complete(s: State, u: StartUp) {
    u in s.syncs && s.syncs[u] == Upserting({})
  }

  /** The start-up of the newest instance of a process. */
  function Newest(f: F.State, p: nat): StartUp {
    StartUp(p, if Created(f, p) > 0 then Created(f, p) - 1 else 0)
  }

  predicate Enabled(s: State, e: Event) {
    match e
    case FleetStep(step) =>
      F.Enabled(s.fleet, step) && (Settles(step).Some? ==> Complete(s, Newest(s.fleet, Settles(step).value)))
    case ReadSchedules(u) => u in s.syncs && s.syncs[u].Waiting?
    case Handle(u, name) => u in s.syncs && !s.syncs[u].Waiting? && name in s.syncs[u].todo
  }

  function Apply(jobs: Jobs, s: State, e: Event): State
    requires Enabled(s, e)
  {
    match e
    case FleetStep(step) =>
      var f := F.Apply(s.fleet, step);
      var p := Actor(step);
      if p.Some? && Created(f, p.value) > Created(s.fleet, p.value)
      then s.(fleet := f, syncs := s.syncs[StartUp(p.value, Created(s.fleet, p.value)) := Waiting])
      else s.(fleet := f)
    case ReadSchedules(u) =>
      s.(syncs := s.syncs[u := AfterRead(Stored(s), jobs(u.process))], froms := s.froms[u := |s.writes|])
    case Handle(u, name) =>
      s.(writes := s.writes + [Write(u, name, Wanted(jobs(u.process), name))],
         syncs := s.syncs[u := Less(s.syncs[u], jobs(u.process), name)])
  }

  ghost predicate Init(s: State) {
    F.Init(s.fleet) && s.writes == [] && s.syncs == map[] && s.froms == map[]
  }

  ghost predicate Behavior(jobs: Jobs, states: seq<State>, events: seq<Event>) {
    && |states| == |events| + 1
    && Init(states[0])
    && forall i :: 0 <= i < |events| ==>
        Enabled(states[i], events[i]) && states[i + 1] == Apply(jobs, states[i], events[i])
  }

  // ------------------------------------------------------------------ invariant

  function From(s: State, u: StartUp): nat {
    if u in s.froms then s.froms[u] else 0
  }

  ghost predicate StartUpFits(jobs: Jobs, s: State, u: StartUp)
    requires u in s.syncs
  {
    && u.instance < Created(s.fleet, u.process)
    && SyncFits(s.initial, s.writes, jobs(u.process), u, s.syncs[u], From(s, u))
    && OwnWritesFit(s.writes, jobs(u.process), u)
  }

  ghost predicate WritesFit(s: State) {
    && (forall k :: 0 <= k < |s.writes| ==> s.writes[k].maker in s.syncs)
    && (forall u :: u in s.froms ==> s.froms[u] <= |s.writes|)
  }

  ghost predicate Inv(jobs: Jobs, s: State) {
    F.Inv(s.fleet) && WritesFit(s) && forall u :: u in s.syncs ==> StartUpFits(jobs, s, u)
  }

  /** A step creates one instance at most, of the process that takes it. */
  lemma CreatedStep(f: F.State, e: F.Event)
    requires F.Enabled(f, e)
    ensures var f' := F.Apply(f, e);
      && (forall p: nat :: Actor(e) != Some(p) ==> Created(f', p) == Created(f, p))
      && (Actor(e).Some? ==>
            Created(f, Actor(e).value) <= Created(f', Actor(e).value) <= Created(f, Actor(e).value) + 1)
  {
    match e
    case Local(p, l) => S.CreatedStep(f.processes[p].scheduler, l);
    case Deliver(p, c) => S.CreatedStep(f.processes[p].scheduler,
      F.AnswerEvent(c, S.Owned(f.log[f.processes[p].answers[c]].owner)));
    case Reject(p, c) => S.CreatedStep(f.processes[p].scheduler, F.AnswerEvent(c, S.CheckFailed));
    case _ =>
  }

  /** What a step of the fleet does to the start-ups: none, or one more that has done nothing yet. */
  predicate StartUpsGrow(s: State, s': State, begun: Option<nat>) {
    && s' == s.(fleet := s'.fleet, syncs := s'.syncs)
    && s'.syncs ==
        if begun.Some? then s.syncs[StartUp(begun.value, Created(s.fleet, begun.value)) := Waiting] else s.syncs
  }

  ghost predicate CreatedGrows(f: F.State, f': F.State, begun: Option<nat>) {
    forall p: nat :: Created(f', p) == Created(f, p) + if begun == Some(p) then 1 else 0
  }

  /** The process that begins a start-up by the step. */
  function Begun(f: F.State, e: F.Event): Option<nat>
    requires F.Enabled(f, e)
  {
    var p := Actor(e);
    if p.Some? && Created(F.Apply(f, e), p.value) > Created(f, p.value) then p else None
  }

  lemma FleetStepGrows(jobs: Jobs, s: State, e: F.Event)
    requires Enabled(s, FleetStep(e))
    ensures var s' := Apply(jobs, s, FleetStep(e));
      s'.fleet == F.Apply(s.fleet, e) && StartUpsGrow(s, s', Begun(s.fleet, e)) &&
        CreatedGrows(s.fleet, s'.fleet, Begun(s.fleet, e))
  {
    CreatedStep(s.fleet, e);
  }

  lemma StartUpsKept(jobs: Jobs, s: State, s': State, begun: Option<nat>)
    requires WritesFit(s) && forall u :: u in s.syncs ==> StartUpFits(jobs, s, u)
    requires StartUpsGrow(s, s', begun) && CreatedGrows(s.fleet, s'.fleet, begun)
    ensures WritesFit(s') && forall u :: u in s'.syncs ==> StartUpFits(jobs, s', u)
  {
    forall u | u in s'.syncs
      ensures StartUpFits(jobs, s', u)
    {
      if u in s.syncs {
        assert StartUpFits(jobs, s, u);
      }
    }
  }

  lemma FleetInvStep(jobs: Jobs, s: State, e: F.Event)
    requires Inv(jobs, s) && Enabled(s, FleetStep(e))
    ensures Inv(jobs, Apply(jobs, s, FleetStep(e)))
  {
    F.InvStep(s.fleet, e);
    FleetStepGrows(jobs, s, e);
    StartUpsKept(jobs, s, Apply(jobs, s, FleetStep(e)), Begun(s.fleet, e));
  }

  lemma ReadKept(jobs: Jobs, s: State, u: StartUp)
    requires WritesFit(s) && (forall v :: v in s.syncs ==> StartUpFits(jobs, s, v)) && Enabled(s, ReadSchedules(u))
    ensures var s' := Apply(jobs, s, ReadSchedules(u));
      WritesFit(s') && forall v :: v in s'.syncs ==> StartUpFits(jobs, s', v)
  {
    var s' := Apply(jobs, s, ReadSchedules(u));
    ReadFits(s.initial, s.writes, jobs(u.process), u);
    forall v | v in s'.syncs
      ensures StartUpFits(jobs, s', v)
    {
      assert StartUpFits(jobs, s, v);
    }
  }

  lemma HandleKept(jobs: Jobs, s: State, u: StartUp, name: string)
    requires WritesFit(s) && (forall v :: v in s.syncs ==> StartUpFits(jobs, s, v)) && Enabled(s, Handle(u, name))
    ensures var s' := Apply(jobs, s, Handle(u, name));
      WritesFit(s') && forall v :: v in s'.syncs ==> StartUpFits(jobs, s', v)
  {
    var s' := Apply(jobs, s, Handle(u, name));
    var w := Write(u, name, Wanted(jobs(u.process), name));
    forall v | v in s'.syncs
      ensures StartUpFits(jobs, s', v)
    {
      assert StartUpFits(jobs, s, v);
      if v == u {
        SyncAdvances(s.initial, s.writes, jobs(u.process), u, s.syncs[u], From(s, u), name);
      } else {
        SyncFitsStays(s.initial, s.writes, w, jobs(v.process), v, s.syncs[v], From(s, v));
      }
    }
  }

  lemma InvStep(jobs: Jobs, s: State, e: Event)
    requires Enabled(s, e)
    ensures Inv(jobs, s) ==> Inv(jobs, Apply(jobs, s, e))
  {
    if Inv(jobs, s) {
      match e
      case FleetStep(step) => FleetInvStep(jobs, s, step);
      case ReadSchedules(u) => ReadKept(jobs, s, u);
      case Handle(u, name) => HandleKept(jobs, s, u, name);
    }
  }

  lemma InitInv(jobs: Jobs, s: State)
    requires Init(s)
    ensures Inv(jobs, s)
  {
    F.InitInv(s.fleet);
  }

  lemma {:induction false} Persists(holds: seq<bool>, i: nat)
    requires i < |holds| && holds[0] && forall k :: 0 <= k < i && holds[k] ==> holds[k + 1]
    ensures holds[i]
  {
    if i > 0 {
      Persists(holds, i - 1);
    }
  }

  lemma InvAt(jobs: Jobs, states: seq<State>, events: seq<Event>, i: nat)
    requires Behavior(jobs, states, events) && i < |states|
    ensures Inv(jobs, states[i])
  {
    var holds := seq(|states|, k requires 0 <= k < |states| => Inv(jobs, states[k]));
    InitInv(jobs, states[0]);
    forall k | 0 <= k < i && holds[k]
      ensures holds[k + 1]
    {
      InvStep(jobs, states[k], events[k]);
    }
    Persists(holds, i);
  }

  // ------------------------------------------------------------------- theorems

  /**
   When a start-up has made all its writes, the stored schedules are exactly the jobs
   of its process if and only if no other start-up, of whatever process, has since
   its read made the last write to some name, and another one than these jobs want.
   */
  lemma StoredIffUndisturbed(jobs: Jobs, states: seq<State>, events: seq<Event>, i: nat, u: StartUp)
    requires Behavior(jobs, states, events) && i < |states| && Complete(states[i], u)
    ensures Stored(states[i]) == Registered(jobs(u.process)) <==>
      !Disturbed(states[i].writes, jobs(u.process), u, From(states[i], u))
  {
    InvAt(jobs, states, events, i);
    var s := states[i];
    assert StartUpFits(jobs, s, u);
    TableIffUndisturbed(s.initial, s.writes, jobs(u.process), u, From(s, u));
  }

  /** Every write is by a process that heard a true ownership check, read for its own revision's generation. */
  lemma WritersHeardOwnership(jobs: Jobs, states: seq<State>, events: seq<Event>, i: nat, k: nat)
    requires Behavior(jobs, states, events) && i < |states| && k < |states[i].writes|
    ensures var f, p := states[i].fleet, states[i].writes[k].maker.process;
      && p in f.processes
      && exists r :: r in f.processes[p].delivered && r < |f.log| && f.log[r].process == p && f.log[r].owner
  {
    InvAt(jobs, states, events, i);
    var u := states[i].writes[k].maker;
    assert StartUpFits(jobs, states[i], u);
    Safety.OwnershipHeard(states[i].fleet, u.process);
  }
}
