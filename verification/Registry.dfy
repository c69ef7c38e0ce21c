/**
 The revision registry: one table shared by every process, filled by concurrent
 registration transactions.

 A transaction takes an advisory lock, creates the table if it is missing, draws
 a generation from the table's sequence, inserts (or does nothing when the
 revision is already there) and commits. Each of these is its own step, so any
 number of transactions interleave. A sequence is not transactional: a drawn
 generation is gone even if the insert conflicts or the transaction aborts.
 */
module Registry {
  import opened Histories
  import opened Wrappers

  datatype Row = Row(generation: nat, revision: string)

  /** Where a registration transaction is. `created` tells that it created the table itself. */
  datatype Transaction =
    | NoTransaction
    | WaitingForLock
    | Locked
    | TableReady(created: bool)
    | Drawn(created: bool, generation: nat)
    | Inserted(created: bool, pending: Option<nat>)
    | Committed

  /** The `registration` promise of a tracker. */
  datatype Registration = NotRegistered | Pending | Registered

  datatype Client = Client(revision: string, registration: Registration, tx: Transaction)
  {
    predicate HoldsLock() {
      tx.Locked? || tx.TableReady? || tx.Drawn? || tx.Inserted?
    }
  }

  /** `rows` are the committed rows in commit order. */
  datatype State = State(
    tableExists: bool,
    rows: seq<Row>,
    nextGeneration: nat,
    lock: Option<nat>,
    clients: map<nat, Client>)

  ghost predicate Init(s: State) {
    && !s.tableExists && s.rows == [] && s.lock.None?
    && forall c :: c in s.clients ==> s.clients[c].registration.NotRegistered? && s.clients[c].tx.NoTransaction?
  }

  datatype Step =
    | RegisterCall
    | AcquireLock
    | EnsureTable
    | DrawGeneration
    | Insert
    | Commit
    | Acknowledge
    | LoseAcknowledgement
    | Abort

  datatype Event = Event(client: nat, step: Step)

  predicate HasRevision(rows: seq<Row>, revision: string) {
    exists i :: 0 <= i < |rows| && rows[i].revision == revision
  }

  predicate Enabled(s: State, e: Event) {
    && e.client in s.clients
    && var c := s.clients[e.client];
    match e.step
    case RegisterCall => true
    case AcquireLock => c.tx.WaitingForLock? && s.lock.None?
    case EnsureTable => c.tx.Locked?
    case DrawGeneration => c.tx.TableReady?
    case Insert => c.tx.Drawn?
    case Commit => c.tx.Inserted?
    case Acknowledge => c.tx.Committed?
    case LoseAcknowledgement => c.tx.Committed?
    case Abort => c.tx.WaitingForLock? || c.HoldsLock()
  }

  /** The step of one client on its own record; what it does to the table is in `Apply`. */
  function ClientStep(s: State, c: Client, step: Step): Client {
    match step
    case RegisterCall =>
      // A call made while registering, or after, shares the promise already there.
      if c.registration.NotRegistered? && c.tx.NoTransaction?
      then c.(registration := Pending, tx := WaitingForLock)
      else c
    case AcquireLock => c.(tx := Locked)
    case EnsureTable => c.(tx := TableReady(!s.tableExists))
    case DrawGeneration => if c.tx.TableReady? then c.(tx := Drawn(c.tx.created, s.nextGeneration)) else c
    case Insert =>
      if c.tx.Drawn?
      then c.(tx := Inserted(c.tx.created, if HasRevision(s.rows, c.revision) then None else Some(c.tx.generation)))
      else c
    case Commit => c.(tx := Committed)
    case Acknowledge => c.(registration := Registered, tx := NoTransaction)
    case LoseAcknowledgement => c.(registration := NotRegistered, tx := NoTransaction)
    case Abort => c.(registration := NotRegistered, tx := NoTransaction)
  }

  function Apply(s: State, e: Event): State
    requires Enabled(s, e)
  {
    var c := s.clients[e.client];
    var s' := s.(clients := s.clients[e.client := ClientStep(s, c, e.step)]);
    match e.step
    case RegisterCall => s'
    case AcquireLock => s'.(lock := Some(e.client))
    case EnsureTable => if s.tableExists then s' else s'.(nextGeneration := 1)
    case DrawGeneration => s'.(nextGeneration := s.nextGeneration + 1)
    case Insert => s'
    case Commit =>
      s'.(tableExists := true, lock := None,
          rows := if c.tx.pending.Some? then s.rows + [Row(c.tx.pending.value, c.revision)] else s.rows)
    case Acknowledge => s'
    case LoseAcknowledgement => s'
    case Abort => if c.HoldsLock() then s'.(lock := None) else s'
  }

  /** The answer of `ORDER BY generation DESC LIMIT 1`. */
  function Latest(rows: seq<Row>): (r: Option<Row>)
    ensures r.None? <==> rows == []
    ensures r.Some? ==> r.value in rows && forall x :: x in rows ==> x.generation <= r.value.generation
  {
    if rows == [] then None
    else
      var rest := Latest(rows[1..]);
      assert rows == [rows[0]] + rows[1..];
      if rest.Some? && rest.value.generation > rows[0].generation then rest else Some(rows[0])
  }

  /** The revision `isLatest` compares with. */
  function LatestRevision(s: State): Option<string> {
    match Latest(s.rows)
    case None => None
    case Some(row) => Some(row.revision)
  }

  ghost predicate Behavior(states: seq<State>, events: seq<Event>) {
    && |states| == |events| + 1
    && Init(states[0])
    && forall i :: 0 <= i < |events| ==> Enabled(states[i], events[i]) && states[i + 1] == Apply(states[i], events[i])
  }

  // ---------------------------------------------------------------- invariant

  /** Generation order is commit order. */
  ghost predicate Ascending(rows: seq<Row>) {
    forall i, j :: 0 <= i < j < |rows| ==> rows[i].generation < rows[j].generation
  }

  ghost predicate DistinctRevisions(rows: seq<Row>) {
    forall i, j :: 0 <= i < j < |rows| ==> rows[i].revision != rows[j].revision
  }

  /** Every committed generation is below `g`. */
  ghost predicate AllBelow(rows: seq<Row>, g: nat) {
    forall i :: 0 <= i < |rows| ==> rows[i].generation < g
  }

  ghost predicate TableInv(s: State) {
    && Ascending(s.rows)
    && DistinctRevisions(s.rows)
    && (s.tableExists ==> AllBelow(s.rows, s.nextGeneration))
    && (!s.tableExists ==> s.rows == [])
  }

  ghost predicate TransactionInv(s: State, c: Client) {
    && (c.registration.Registered? || c.tx.Committed? ==> HasRevision(s.rows, c.revision))
    && (c.tx.Drawn? || c.tx.Inserted? ==> c.tx.created || s.tableExists)
    && (c.tx.TableReady? ==> c.tx.created || s.tableExists)
    && (c.tx.Drawn? ==> c.tx.generation < s.nextGeneration && AllBelow(s.rows, c.tx.generation))
    && (c.tx.Inserted? && c.tx.pending.Some? ==>
          && c.tx.pending.value < s.nextGeneration && AllBelow(s.rows, c.tx.pending.value)
          && !HasRevision(s.rows, c.revision))
    && (c.tx.Inserted? && c.tx.pending.None? ==> HasRevision(s.rows, c.revision))
    && (c.tx.NoTransaction? <==> !c.registration.Pending?)
  }

  ghost predicate LockInv(s: State) {
    forall c :: c in s.clients ==> (s.clients[c].HoldsLock() <==> s.lock == Some(c))
  }

  ghost predicate Inv(s: State) {
    && TableInv(s) && LockInv(s)
    && forall c :: c in s.clients ==> TransactionInv(s, s.clients[c])
  }

  lemma HasRevisionKept(rows: seq<Row>, row: Row, revision: string)
    ensures HasRevision(rows + [row], revision) <==> HasRevision(rows, revision) || row.revision == revision
  {
    if HasRevision(rows, revision) {
      var i :| 0 <= i < |rows| && rows[i].revision == revision;
      assert (rows + [row])[i].revision == revision;
    }
    if row.revision == revision {
      assert (rows + [row])[|rows|].revision == revision;
    }
  }

  lemma TableStep(s: State, e: Event)
    requires Inv(s) && Enabled(s, e)
    ensures TableInv(Apply(s, e))
  {
    assert TransactionInv(s, s.clients[e.client]);
  }

  /** The stepping client keeps its own invariant. */
  lemma OwnStep(s: State, e: Event)
    requires Inv(s) && Enabled(s, e)
    ensures TransactionInv(Apply(s, e), Apply(s, e).clients[e.client])
  {
    var c := s.clients[e.client];
    assert TransactionInv(s, c);
    if e.step.Commit? && c.tx.pending.Some? {
      HasRevisionKept(s.rows, Row(c.tx.pending.value, c.revision), c.revision);
    }
  }

  /** Every other client keeps its invariant, because the table only changes under the lock. */
  lemma OtherStep(s: State, e: Event, d: nat)
    requires Inv(s) && Enabled(s, e) && d in s.clients && d != e.client
    ensures TransactionInv(Apply(s, e), s.clients[d])
  {
    var c := s.clients[e.client];
    assert TransactionInv(s, s.clients[d]) && TransactionInv(s, c);
    assert !(c.HoldsLock() && s.clients[d].HoldsLock());
    if e.step.Commit? && c.tx.pending.Some? {
      HasRevisionKept(s.rows, Row(c.tx.pending.value, c.revision), s.clients[d].revision);
    }
  }

  lemma InvStep(s: State, e: Event)
    requires Inv(s) && Enabled(s, e)
    ensures Inv(Apply(s, e))
  {
    TableStep(s, e);
    OwnStep(s, e);
    forall d | d in s.clients && d != e.client
      ensures TransactionInv(Apply(s, e), s.clients[d])
    {
      OtherStep(s, e, d);
    }
  }

  lemma {:induction false} InvAt(states: seq<State>, events: seq<Event>, i: nat)
    requires Behavior(states, events) && i < |states|
    ensures Inv(states[i])
  {
    if i > 0 {
      InvAt(states, events, i - 1);
      InvStep(states[i - 1], events[i - 1]);
    }
  }

  // ---------------------------------------------------------------- theorems

  /** With ascending generations the latest row is the last one committed. */
  lemma LatestIsLast(rows: seq<Row>)
    requires Ascending(rows) && rows != []
    ensures Latest(rows) == Some(rows[|rows| - 1])
  {
    assert rows[|rows| - 1] in rows;
  }

  /** A step commits at most one row, after all others; committed rows never change. */
  lemma RowsAppend(s: State, e: Event)
    requires Enabled(s, e)
    ensures s.rows <= Apply(s, e).rows && |Apply(s, e).rows| <= |s.rows| + 1
    ensures forall c :: c in s.clients ==>
      c in Apply(s, e).clients && Apply(s, e).clients[c].revision == s.clients[c].revision
  {
  }

  lemma {:induction false} RowsGrow(states: seq<State>, events: seq<Event>, i: nat, j: nat)
    requires Behavior(states, events) && i <= j < |states|
    ensures states[i].rows <= states[j].rows
    decreases j - i
  {
    if i < j {
      RowsAppend(states[i], events[i]);
      RowsGrow(states, events, i + 1, j);
    }
  }

  /**
   Registry order: whatever the interleaving, retries and aborts, the committed
   generations ascend in commit order, each revision is committed once, and the
   latest revision is the last one committed.
   */
  lemma GenerationOrderIsCommitOrder(states: seq<State>, events: seq<Event>, i: nat)
    requires Behavior(states, events) && i < |states|
    ensures Ascending(states[i].rows) && DistinctRevisions(states[i].rows)
    ensures LatestRevision(states[i]) ==
      if states[i].rows == [] then None else Some(states[i].rows[|states[i].rows| - 1].revision)
  {
    InvAt(states, events, i);
    if states[i].rows != [] {
      LatestIsLast(states[i].rows);
    }
  }

  /** The latest revision never returns to one it has left. */
  lemma LatestNeverReturns(states: seq<State>, events: seq<Event>, i: nat, j: nat, k: nat)
    requires Behavior(states, events) && i <= j <= k < |states|
    requires LatestRevision(states[i]).Some? && LatestRevision(states[j]) != LatestRevision(states[i])
    ensures LatestRevision(states[k]) != LatestRevision(states[i])
  {
    GenerationOrderIsCommitOrder(states, events, i);
    GenerationOrderIsCommitOrder(states, events, j);
    GenerationOrderIsCommitOrder(states, events, k);
    RowsGrow(states, events, i, j);
    RowsGrow(states, events, j, k);
    var left := |states[i].rows| - 1;
    var last := |states[k].rows| - 1;
    assert states[k].rows[left].revision == states[i].rows[left].revision;
    assert left < last;
  }

  /** A registration acknowledged to its tracker is a committed row, for good. */
  lemma RegisteredIsCommitted(states: seq<State>, events: seq<Event>, i: nat, j: nat, c: nat)
    requires Behavior(states, events) && i <= j < |states|
    requires c in states[i].clients && states[i].clients[c].registration.Registered?
    ensures HasRevision(states[j].rows, states[i].clients[c].revision)
  {
    InvAt(states, events, i);
    RowsGrow(states, events, i, j);
    assert TransactionInv(states[i], states[i].clients[c]);
    var k :| 0 <= k < |states[i].rows| && states[i].rows[k].revision == states[i].clients[c].revision;
    assert states[j].rows[k] == states[i].rows[k];
  }

  /** A commit leaves the rows as they are if the revision is there already, and otherwise adds its one row. */
  lemma ReregistrationChangesNothing(s: State, e: Event)
    requires Inv(s) && Enabled(s, e) && e.step.Commit?
    ensures var rows, rows', revision := s.rows, Apply(s, e).rows, s.clients[e.client].revision;
      && (HasRevision(rows, revision) ==> rows' == rows)
      && (!HasRevision(rows, revision) ==>
            rows <= rows' && |rows'| == |rows| + 1 && rows'[|rows|].revision == revision)
  {
    assert TransactionInv(s, s.clients[e.client]);
  }

  predicate Unregistered(s: State, c: nat) {
    c in s.clients && s.clients[c].registration.NotRegistered? && s.clients[c].tx.NoTransaction?
  }

  lemma UnregisteredStays(s: State, e: Event, c: nat)
    requires Enabled(s, e) && Unregistered(s, c) && e != Event(c, RegisterCall)
    ensures Unregistered(Apply(s, e), c)
  {
  }

  /** After a registration that failed, or whose acknowledgement was lost, the next call begins a new transaction. */
  lemma FailureIsRetried(states: seq<State>, events: seq<Event>, i: nat, j: nat, c: nat)
    requires Behavior(states, events) && i < j < |events|
    requires events[i] == Event(c, Abort) || events[i] == Event(c, LoseAcknowledgement)
    requires events[j] == Event(c, RegisterCall) && forall k :: i < k < j ==> events[k] != Event(c, RegisterCall)
    ensures states[j + 1].clients[c].registration.Pending? && states[j + 1].clients[c].tx.WaitingForLock?
  {
    var holds := seq(|states|, k requires 0 <= k < |states| => Unregistered(states[k], c));
    forall k | i < k < j && holds[k]
      ensures holds[k + 1]
    {
      UnregisteredStays(states[k], events[k], c);
    }
    Lasts(holds, i + 1, j);
  }
}
