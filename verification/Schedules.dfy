/**
 What becoming the owner does to the cron schedules stored in the database:
 those no longer registered are removed, then every registered job is upserted.
 */
module Schedules {
  import opened Wrappers

  datatype Entry = Entry(cron: string, data: string, timezone: Option<string>)

  /** A registered job; without data, `{}` is stored. */
  datatype Job = Job(cron: string, data: Option<string>, timezone: Option<string>)
  {
    function Stored(): Entry {
      Entry(cron, if data.Some? then data.value else "{}", timezone)
    }
  }

  /** The entry has the job's cron expression, its time zone, and its data or else an empty object. */
  predicate StoredFor(entry: Entry, job: Job) {
    && entry.cron == job.cron && entry.timezone == job.timezone
    && (if job.data.Some? then entry.data == job.data.value else entry.data == "{}")
  }

  /** The schedules a revision registers. */
  function Registered(jobs: map<string, Job>): map<string, Entry> {
    map name | name in jobs :: jobs[name].Stored()
  }

  /** The remote calls of a start as owner. */
  datatype RemoteCall =
    | StartInstance
    | GetSchedules
    | Unschedule(name: string)
    | CreateQueue(name: string)
    | UpdateQueue(name: string)
    | UpsertSchedule(name: string)
    | StartWork(name: string)

  /** The calls for a job up to its upsert succeed. */
  predicate Upserts(name: string, fails: set<RemoteCall>) {
    CreateQueue(name) !in fails && UpdateQueue(name) !in fails && UpsertSchedule(name) !in fails
  }

  function Stale(stored: map<string, Entry>, jobs: map<string, Job>): set<string> {
    stored.Keys - jobs.Keys
  }

  /** Those of the names whose removal does not fail. */
  function Removable(names: set<string>, fails: set<RemoteCall>): set<string> {
    set n | n in names && Unschedule(n) !in fails
  }

  predicate AllRemovable(names: set<string>, fails: set<RemoteCall>) {
    forall n :: n in names ==> Unschedule(n) !in fails
  }

  /** Every schedule is still as it was, already as registered, or gone because it is stale. */
  ghost predicate Between(before: map<string, Entry>, jobs: map<string, Job>, now: map<string, Entry>) {
    && (forall n :: n in now ==>
          || (n in before && now[n] == before[n])
          || (n in jobs && now[n] == jobs[n].Stored()))
    && (forall n :: n in before && n !in now ==> n !in jobs)
  }

  function Only(jobs: map<string, Job>, names: set<string>): map<string, Job> {
    map n | n in jobs && n in names :: jobs[n]
  }

  /** No call of a start as owner fails. */
  predicate AllSucceed(stored: map<string, Entry>, jobs: map<string, Job>, fails: set<RemoteCall>) {
    && StartInstance !in fails && GetSchedules !in fails
    && AllRemovable(Stale(stored, jobs), fails)
    && (forall n :: n in jobs ==> Upserts(n, fails) && StartWork(n) !in fails)
  }

  class ScheduleTable {
    var stored: map<string, Entry>

    constructor (stored: map<string, Entry>)
      ensures this.stored == stored
    {
      this.stored := stored;
    }

    /** Concurrent removals: one failure does not keep the others from being made. */
    method RemoveAll(names: set<string>, fails: set<RemoteCall>) returns (ok: bool)
      modifies this
      ensures ok <==> AllRemovable(names, fails)
      ensures stored == old(stored) - Removable(names, fails)
    {
      var todo, done: set<string> := names, {};
      ok := true;
      while todo != {}
        invariant names == done + todo && done !! todo
        invariant stored == old(stored) - Removable(done, fails)
        invariant ok <==> AllRemovable(done, fails)
        decreases |todo|
      {
        var name :| name in todo;
        if Unschedule(name) in fails {
          ok := false;
        } else {
          stored := stored - {name};
        }
        todo, done := todo - {name}, done + {name};
      }
      assert names == done;
    }

    /** Removes exactly the schedules whose name is not registered and whose removal does not fail. */
    method UnscheduleStaleJobs(jobs: map<string, Job>, fails: set<RemoteCall>) returns (ok: bool)
      modifies this
      ensures ok <==> GetSchedules !in fails && AllRemovable(Stale(old(stored), jobs), fails)
      ensures stored == old(stored) - (if GetSchedules in fails then {} else Removable(Stale(old(stored), jobs), fails))
    {
      if GetSchedules in fails {
        return false;
      }
      ok := RemoveAll(stored.Keys - jobs.Keys, fails);
    }

    /** One job: its queue, its schedule and its worker, up to the first call that fails. */
    method RegisterWorker(name: string, job: Job, fails: set<RemoteCall>) returns (ok: bool)
      modifies this
      ensures ok <==> Upserts(name, fails) && StartWork(name) !in fails
      ensures stored == if Upserts(name, fails) then old(stored)[name := job.Stored()] else old(stored)
      ensures ok ==> name in stored && StoredFor(stored[name], job)
      ensures CreateQueue(name) in fails || UpdateQueue(name) in fails || UpsertSchedule(name) in fails ==>
        !ok && stored == old(stored)
    {
      if CreateQueue(name) in fails {
        return false;
      }
      if UpdateQueue(name) in fails {
        return false;
      }
      if UpsertSchedule(name) in fails {
        return false;
      }
      stored := stored[name := job.Stored()];
      return StartWork(name) !in fails;
    }

    /** Upserts every registered job whose calls do not fail, in some order, whatever happens to the others. */
    method RegisterWorkers(jobs: map<string, Job>, fails: set<RemoteCall>) returns (ok: bool)
      modifies this
      ensures ok <==> forall n :: n in jobs ==> Upserts(n, fails) && StartWork(n) !in fails
      ensures stored == old(stored) + Registered(Only(jobs, set n | n in jobs && Upserts(n, fails)))
    {
      var done: set<string> := {};
      var todo := jobs.Keys;
      ok := true;
      while todo != {}
        invariant done !! todo && done + todo == jobs.Keys
        invariant stored == old(stored) + Registered(Only(jobs, set n | n in done && Upserts(n, fails)))
        invariant ok <==> forall n :: n in done ==> Upserts(n, fails) && StartWork(n) !in fails
        decreases |todo|
      {
        var name :| name in todo;
        var registered := RegisterWorker(name, jobs[name], fails);
        ok := ok && registered;
        done, todo := done + {name}, todo - {name};
      }
    }

    /**
     A start as owner that nothing disturbs: it succeeds if and only if no remote call
     fails; then exactly the registered schedules are stored, whatever was stored
     before. A failed one leaves a mixture in which no registered schedule is missing
     that was there before.
     */
    method StartAsOwner(jobs: map<string, Job>, fails: set<RemoteCall>) returns (ok: bool)
      modifies this
      ensures ok <==> AllSucceed(old(stored), jobs, fails)
      ensures ok <==>
        && StartInstance !in fails && GetSchedules !in fails
        && (forall n :: n in old(stored) && n !in jobs ==> Unschedule(n) !in fails)
        && (forall n :: n in jobs ==> {CreateQueue(n), UpdateQueue(n), UpsertSchedule(n), StartWork(n)} !! fails)
      ensures ok ==> stored == Registered(jobs)
      ensures ok ==> stored.Keys == jobs.Keys && forall n :: n in jobs ==> StoredFor(stored[n], jobs[n])
      ensures Between(old(stored), jobs, stored)
    {
      if StartInstance in fails {
        return false;
      }
      ok := UnscheduleStaleJobs(jobs, fails);
      if !ok {
        return;
      }
      ok := RegisterWorkers(jobs, fails);
      assert ok ==> Only(jobs, set n | n in jobs && Upserts(n, fails)) == jobs;
    }
  }

  /** Upserts in some order; the workers of the jobs are registered concurrently. */
  function Upserted(stored: map<string, Entry>, jobs: map<string, Job>, order: seq<string>): map<string, Entry>
    requires forall n :: n in order ==> n in jobs
    decreases |order|
  {
    if order == [] then stored
    else Upserted(stored[order[0] := jobs[order[0]].Stored()], jobs, order[1..])
  }

  /** The order in which the jobs are upserted does not matter, nor does repeating one. */
  lemma {:induction false} UpsertOrderIrrelevant(stored: map<string, Entry>, jobs: map<string, Job>, order: seq<string>)
    requires forall n :: n in order ==> n in jobs
    ensures forall n :: n in Upserted(stored, jobs, order) <==> n in stored || n in order
    ensures forall n :: n in order ==> Upserted(stored, jobs, order)[n] == jobs[n].Stored()
    ensures forall n :: n in stored && n !in order ==> Upserted(stored, jobs, order)[n] == stored[n]
    decreases |order|
  {
    if order != [] {
      UpsertOrderIrrelevant(stored[order[0] := jobs[order[0]].Stored()], jobs, order[1..]);
      assert order == [order[0]] + order[1..];
    }
  }
}
