/** The revision tracker object of one process. */
module Tracker {
  import opened Wrappers
  import opened Registry

  class Tracker {
    const revision: string
    var registration: Registration
    var closed: bool
    // The transaction the registration promise waits for; the database steps it.
    var tx: Transaction

    function Snapshot(): Client
      reads this
    {
      Client(revision, registration, tx)
    }

    constructor (revision: string)
      ensures this.revision == revision && !closed
      ensures Snapshot() == Client(revision, NotRegistered, NoTransaction)
    {
      this.revision := revision;
      registration, closed, tx := NotRegistered, false, NoTransaction;
    }

    /** Calls made while a registration is pending, or after it succeeded, share it. */
    method Register(ghost table: State) returns (begins: bool)
      requires tx.NoTransaction? <==> !registration.Pending?
      modifies this`registration, this`tx
      ensures Snapshot() == ClientStep(table, old(Snapshot()), RegisterCall)
      ensures begins <==> old(registration).NotRegistered?
      ensures if begins then registration.Pending? && tx.WaitingForLock? else Snapshot() == old(Snapshot())
    {
      begins := registration.NotRegistered?;
      if begins {
        registration, tx := Pending, WaitingForLock;
      }
    }

    /** The transaction committed and its client heard so, or the client heard a failure and may try again. */
    method RegistrationSettled(ok: bool, ghost table: State)
      requires registration.Pending? && (ok ==> tx.Committed?)
      modifies this`registration, this`tx
      ensures Snapshot() == ClientStep(table, old(Snapshot()),
        if ok then Acknowledge else if old(tx).Committed? then LoseAcknowledgement else Abort)
      ensures tx.NoTransaction? && registration == if ok then Registered else NotRegistered
    {
      tx := NoTransaction;
      if ok {
        registration := Registered;
      } else {
        registration := NotRegistered;
      }
    }

    /** Fails while the table is missing; otherwise compares with the row of the greatest generation. */
    method IsLatest(table: State) returns (r: Result<bool, ()>)
      ensures r.Err? <==> !table.tableExists
      ensures Inv(table) && r.Ok? ==>
        (r.value <==> table.rows != [] && table.rows[|table.rows| - 1].revision == revision)
    {
      if !table.tableExists {
        return Err(());
      }
      var latest: Option<Row> := None;
      for i := 0 to |table.rows|
        invariant latest.None? <==> i == 0
        invariant latest.Some? ==> latest.value in table.rows[..i]
        invariant latest.Some? ==> forall k :: 0 <= k < i ==> table.rows[k].generation <= latest.value.generation
      {
        if latest.None? || latest.value.generation < table.rows[i].generation {
          latest := Some(table.rows[i]);
        }
      }
      return Ok(latest.Some? && latest.value.revision == revision);
    }

    method Close() returns (endsPool: bool)
      modifies this`closed
      ensures closed && (endsPool <==> !old(closed))
    {
      endsPool := !closed;
      closed := true;
    }
  }
}
