/**
 What several starts as owner do to one table of schedules when their remote calls
 interleave: each reads the table once, removes what it found stale, and then upserts
 its own jobs. The table is the outcome of the writes in their order.
 */
module ScheduleWrites {
  import opened Wrappers
  import opened Schedules

  /** A start as owner: the process and which of its instances. */
  datatype StartUp = StartUp(process: nat, instance: nat)

  datatype Write = Write(maker: StartUp, name: string, entry: Option<Entry>)

  /** How far a start-up is: before its read, or with these names still to remove, or to upsert. */
  datatype Sync = Waiting | Removing(todo: set<string>) | Upserting(todo: set<string>)

  function Wanted(jobs: map<string, Job>, name: string): Option<Entry> {
    if name in jobs then Some(jobs[name].Stored()) else None
  }

  function Found(table: map<string, Entry>, name: string): Option<Entry> {
    if name in table then Some(table[name]) else None
  }

  function Written(table: map<string, Entry>, w: Write): map<string, Entry> {
    if w.entry.Some? then table[w.name := w.entry.value] else table - {w.name}
  }

  function Replay(initial: map<string, Entry>, writes: seq<Write>): map<string, Entry> {
    if writes == [] then initial else Written(Replay(initial, writes[..|writes| - 1]), writes[|writes| - 1])
  }

  /** The last write to its name. */
  ghost predicate LastOfItsName(writes: seq<Write>, k: nat) {
    k < |writes| && forall j :: k < j < |writes| ==> writes[j].name != writes[k].name
  }

  /** The table holds what the last write to a name left there. */
  lemma {:induction false} LastWriteCounts(initial: map<string, Entry>, writes: seq<Write>, k: nat)
    requires LastOfItsName(writes, k)
    ensures Found(Replay(initial, writes), writes[k].name) == writes[k].entry
  {
    var n := |writes| - 1;
    if k < n {
      assert writes[n].name != writes[k].name;
      LastWriteCounts(initial, writes[..n], k);
    }
  }

  /** A name that was not written since is as it was. */
  lemma {:induction false} UnwrittenStays(initial: map<string, Entry>, writes: seq<Write>, from: nat, name: string)
    requires from <= |writes| && forall k :: from <= k < |writes| ==> writes[k].name != name
    ensures Found(Replay(initial, writes), name) == Found(Replay(initial, writes[..from]), name)
    decreases |writes|
  {
    if from == |writes| {
      assert writes[..from] == writes;
    } else {
      var n := |writes| - 1;
      UnwrittenStays(initial, writes[..n], from, name);
      assert writes[..n][..from] == writes[..from];
    }
  }

  lemma {:induction false} FindLast(writes: seq<Write>, from: nat, name: string) returns (last: Option<nat>)
    requires from <= |writes|
    ensures last.Some? ==>
      from <= last.value < |writes| && writes[last.value].name == name && LastOfItsName(writes, last.value)
    ensures last.None? ==> forall k :: from <= k < |writes| ==> writes[k].name != name
    decreases |writes|
  {
    if from == |writes| {
      last := None;
    } else if writes[|writes| - 1].name == name {
      last := Some(|writes| - 1);
    } else {
      last := FindLast(writes[..|writes| - 1], from, name);
      assert last.Some? ==> writes[..|writes| - 1][last.value] == writes[last.value];
    }
  }

  /** The start-up has made this write since its read. */
  ghost predicate Made(writes: seq<Write>, from: nat, w: Write) {
    exists k :: from <= k < |writes| && writes[k] == w
  }

  /** What a start-up that read the table after `from` writes has done since. */
  ghost predicate SyncFits(initial: map<string, Entry>, writes: seq<Write>, jobs: map<string, Job>, u: StartUp,
          sync: Sync, from: nat)
  {
    && from <= |writes|
    && var stale := Stale(Replay(initial, writes[..from]), jobs);
    match sync
    case Waiting => true
    case Removing(todo) =>
      todo <= stale && forall n :: n in stale ==> n in todo || Made(writes, from, Write(u, n, None))
    case Upserting(todo) =>
      && todo <= jobs.Keys
      && (forall n :: n in stale ==> Made(writes, from, Write(u, n, None)))
      && (forall n :: n in jobs ==> n in todo || Made(writes, from, Write(u, n, Wanted(jobs, n))))
  }

  /** Every write of a start-up is what its jobs want. */
  ghost predicate OwnWritesFit(writes: seq<Write>, jobs: map<string, Job>, u: StartUp) {
    forall k :: 0 <= k < |writes| && writes[k].maker == u ==> writes[k].entry == Wanted(jobs, writes[k].name)
  }

  /** After the read, another start-up made the last write to some name, and not the one that these jobs want. */
  ghost predicate Disturbed(writes: seq<Write>, jobs: map<string, Job>, u: StartUp, from: nat) {
    exists k ::
      && from <= k < |writes| && LastOfItsName(writes, k)
      && writes[k].maker != u && writes[k].entry != Wanted(jobs, writes[k].name)
  }

  lemma WantedIsRegistered(table: map<string, Entry>, jobs: map<string, Job>)
    ensures table == Registered(jobs) <==> forall n :: Found(table, n) == Wanted(jobs, n)
  {
    if forall n :: Found(table, n) == Wanted(jobs, n) {
      forall n
        ensures n in table <==> n in jobs
        ensures n in table ==> table[n] == jobs[n].Stored()
      {
        assert Found(table, n) == Wanted(jobs, n);
      }
    }
  }

  lemma UndisturbedName(initial: map<string, Entry>, writes: seq<Write>, jobs: map<string, Job>, u: StartUp, from: nat,
          name: string)
    requires SyncFits(initial, writes, jobs, u, Upserting({}), from) && OwnWritesFit(writes, jobs, u)
    requires !Disturbed(writes, jobs, u, from)
    ensures Found(Replay(initial, writes), name) == Wanted(jobs, name)
  {
    assert name in jobs ==> Made(writes, from, Write(u, name, Wanted(jobs, name)));
    assert name !in jobs && name in Replay(initial, writes[..from]) ==> Made(writes, from, Write(u, name, None));
    var last := FindLast(writes, from, name);
    if last.Some? {
      LastWriteCounts(initial, writes, last.value);
    } else {
      UnwrittenStays(initial, writes, from, name);
    }
  }

  /**
   When a start-up has made all its writes, the table holds exactly its jobs if and
   only if no other start-up made the last write to some name since its read, and
   another one than its jobs want.
   */
  lemma TableIffUndisturbed(initial: map<string, Entry>, writes: seq<Write>, jobs: map<string, Job>, u: StartUp,
          from: nat)
    requires SyncFits(initial, writes, jobs, u, Upserting({}), from) && OwnWritesFit(writes, jobs, u)
    ensures Replay(initial, writes) == Registered(jobs) <==> !Disturbed(writes, jobs, u, from)
  {
    WantedIsRegistered(Replay(initial, writes), jobs);
    if Disturbed(writes, jobs, u, from) {
      var k :| from <= k < |writes| && LastOfItsName(writes, k) && writes[k].maker != u &&
        writes[k].entry != Wanted(jobs, writes[k].name);
      LastWriteCounts(initial, writes, k);
    } else {
      forall n
        ensures Found(Replay(initial, writes), n) == Wanted(jobs, n)
      {
        UndisturbedName(initial, writes, jobs, u, from, n);
      }
    }
  }

  lemma MadeStays(writes: seq<Write>, more: Write, from: nat, w: Write)
    ensures Made(writes, from, w) ==> Made(writes + [more], from, w)
    ensures from <= |writes| ==> Made(writes + [more], from, more)
  {
    if Made(writes, from, w) {
      var k :| from <= k < |writes| && writes[k] == w;
      assert (writes + [more])[k] == w;
    }
    assert (writes + [more])[|writes|] == more;
  }

  /** A write, of whoever, keeps what a start-up has done. */
  lemma SyncFitsStays(initial: map<string, Entry>, writes: seq<Write>, more: Write, jobs: map<string, Job>, u: StartUp,
          sync: Sync, from: nat)
    requires SyncFits(initial, writes, jobs, u, sync, from)
    ensures SyncFits(initial, writes + [more], jobs, u, sync, from)
  {
    assert (writes + [more])[..from] == writes[..from];
    forall w
      ensures Made(writes, from, w) ==> Made(writes + [more], from, w)
    {
      MadeStays(writes, more, from, w);
    }
  }

  /** The state of a start-up after its read. */
  function AfterRead(table: map<string, Entry>, jobs: map<string, Job>): Sync {
    if Stale(table, jobs) == {} then Upserting(jobs.Keys) else Removing(Stale(table, jobs))
  }

  lemma ReadFits(initial: map<string, Entry>, writes: seq<Write>, jobs: map<string, Job>, u: StartUp)
    ensures SyncFits(initial, writes, jobs, u, AfterRead(Replay(initial, writes), jobs), |writes|)
  {
    assert writes[..|writes|] == writes;
  }

  /** The next state of a start-up that has one name less to deal with. */
  function Less(sync: Sync, jobs: map<string, Job>, name: string): Sync {
    match sync
    case Waiting => Waiting
    case Removing(todo) => if todo - {name} == {} then Upserting(jobs.Keys) else Removing(todo - {name})
    case Upserting(todo) => Upserting(todo - {name})
  }

  lemma SyncAdvances(initial: map<string, Entry>, writes: seq<Write>, jobs: map<string, Job>, u: StartUp, sync: Sync,
          from: nat, name: string)
    requires SyncFits(initial, writes, jobs, u, sync, from) && !sync.Waiting? && name in sync.todo
    ensures SyncFits(initial, writes + [Write(u, name, Wanted(jobs, name))], jobs, u, Less(sync, jobs, name), from)
  {
    var w := Write(u, name, Wanted(jobs, name));
    SyncFitsStays(initial, writes, w, jobs, u, sync, from);
    MadeStays(writes, w, from, w);
  }
}
