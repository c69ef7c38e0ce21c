/** The migrator loops as they are written, over the state of one database session. */
module Migrator {
  import opened Wrappers
  import opened FileNames
  import opened Migrations

  function Filter(names: seq<string>, recurrent: bool): (r: seq<string>)
    ensures forall x :: x in r <==> x in names && if recurrent then IsRecurrent(x) else IsVersioned(x)
    ensures Distinct(names) ==> Distinct(r)
  {
    if names == [] then []
    else
      var rest := Filter(names[1..], recurrent);
      assert ([names[0]] + rest)[1..] == rest;
      if if recurrent then IsRecurrent(names[0]) else IsVersioned(names[0]) then [names[0]] + rest else rest
  }

  /** The files a run goes through: none when the directory is missing. */
  function Files(entries: Option<seq<string>>, recurrent: bool): (files: seq<string>)
    ensures forall x :: x in files <==>
      entries.Some? && x in entries.value && if recurrent then IsRecurrent(x) else IsVersioned(x)
    ensures entries.Some? && Distinct(entries.value) ==> Sorted(files)
    // The names that end in `.sql`, and for recurrent ones begin with `R__` too.
    ensures forall x :: x in files <==>
      && entries.Some? && x in entries.value && |x| >= 4 && x[|x| - 4..] == ".sql"
      && (recurrent ==> |x| >= 3 && x[..3] == "R__")
  {
    match entries
    case None => []
    case Some(names) =>
      SortSorts(Filter(names, recurrent));
      Sort(Filter(names, recurrent))
  }

  /** Which of the statements around the loop of a phase succeed. */
  datatype Around = Around(lock: bool, table: bool, unlock: bool)

  /** What a phase leaves and answers: its loop runs between its lock and its unlock, if there is a file at all. */
  function Phase(s: State, files: seq<string>, around: Around, loop: (State, bool)): (State, bool) {
    if files == [] then (s, true)
    else if !around.lock || !around.table then (s, false)
    else (loop.0, loop.1 && around.unlock)
  }

  /** The lock that a phase leaves to its session: that of an unlock that failed. */
  function Left(files: seq<string>, around: Around, lock: int): multiset<int> {
    if files != [] && around.lock && !around.unlock then multiset{lock} else multiset{}
  }

  lemma {:induction false} RecurrentKeepsVersioned(s: State, files: seq<string>, input: RecurrentInput)
    requires forall f :: f in files ==> f in input.folder
    ensures RecurrentRun(s, files, input).0.versioned == s.versioned
    ensures RecurrentRun(s, files, input).0.recorded == s.recorded
    decreases |files|
  {
    if files != [] {
      RecurrentKeepsVersioned(AfterOne(s, files[0], input), files[1..], input);
    }
  }

  class Session {
    var versioned: seq<string>
    var recorded: set<string>
    var applied: seq<Application>
    var checksums: map<string, string>
    // Advisory locks this session holds, with how many times it took each.
    var locks: multiset<int>

    function Database(): State
      reads this
    {
      State(versioned, recorded, applied, checksums)
    }

    constructor (s: State)
      ensures Database() == s && locks == multiset{}
    {
      versioned, recorded, applied, checksums := s.versioned, s.recorded, s.applied, s.checksums;
      locks := multiset{};
    }

    method RunVersionedMigrations(entries: Option<seq<string>>, fails: Failures, around: Around) returns (ok: bool)
      modifies this
      ensures var files := Files(entries, false);
        && (Database(), ok) == Phase(old(Database()), files, around, VersionedRun(old(Database()), files, fails))
        && locks == old(locks) + Left(files, around, VERSIONED_LOCK)
      // It answers true exactly if there is nothing to do, or all goes well and no file stops it.
      ensures var files := Files(entries, false);
        && (ok <==>
              || files == []
              || (&& around.lock && around.table && around.unlock
                  && forall f :: f in files ==> !Stops(f, old(recorded), fails)))
        && (ok ==> forall f :: f in files ==> f in recorded)
        && (!around.lock || !around.table ==> Database() == old(Database()))
      ensures applied == old(applied) && checksums == old(checksums)
    {
      VersionedOkIff(Database(), Files(entries, false), fails);
      var files := Files(entries, false);
      if |files| == 0 {
        return true;
      }
      if !around.lock {
        return false;
      }
      locks := locks + multiset{VERSIONED_LOCK};
      ok := around.table;
      if ok {
        ok := ApplyVersioned(files, fails);
      }
      // The unlock runs on every way out; its own failure is one more.
      if around.unlock {
        locks := locks - multiset{VERSIONED_LOCK};
      } else {
        ok := false;
      }
    }

    /** The loop over the versioned files. */
    method ApplyVersioned(files: seq<string>, fails: Failures) returns (ok: bool)
      modifies this`versioned, this`recorded
      ensures (Database(), ok) == VersionedRun(old(Database()), files, fails)
      ensures ok <==> forall f :: f in files ==>
        f !in fails.lookUps && (f in old(recorded) || f !in fails.applications)
    {
      VersionedOkIff(Database(), files, fails);
      for i := 0 to |files|
        invariant VersionedRun(old(Database()), files, fails) == VersionedRun(Database(), files[i..], fails)
      {
        var file := files[i];
        if file in fails.lookUps {
          return false;
        }
        if file in recorded {
          continue;
        }
        if file in fails.applications {
          return false;
        }
        versioned, recorded := versioned + [file], recorded + {file};
      }
      return true;
    }

    method RunRecurrentMigrations(entries: Option<seq<string>>, input: RecurrentInput, around: Around)
      returns (ok: bool)
      requires entries.Some? ==> forall f :: f in entries.value ==> f in input.folder
      modifies this
      ensures var files := Files(entries, true);
        && (Database(), ok) == Phase(old(Database()), files, around, RecurrentRun(old(Database()), files, input))
        && locks == old(locks) + Left(files, around, RECURRENT_LOCK)
      // It answers true exactly if there is nothing to do, or all goes well and no file stops it.
      ensures var files := Files(entries, true);
        && (ok <==>
              || files == []
              || (&& around.lock && around.table && around.unlock
                  && forall f :: f in files ==> !StopsRecurrent(old(Database()), f, input)))
        && (ok ==> forall f :: f in files ==> f in checksums && checksums[f] == input.hash(input.folder[f]))
      ensures !around.lock || !around.table ==> Database() == old(Database())
      ensures versioned == old(versioned) && recorded == old(recorded)
    {
      RecurrentOkIff(Database(), Files(entries, true), input);
      RecurrentKeepsVersioned(Database(), Files(entries, true), input);
      var files := Files(entries, true);
      if |files| == 0 {
        return true;
      }
      if !around.lock {
        return false;
      }
      locks := locks + multiset{RECURRENT_LOCK};
      ok := around.table;
      if ok {
        ok := ApplyRecurrent(files, input);
      }
      if around.unlock {
        locks := locks - multiset{RECURRENT_LOCK};
      } else {
        ok := false;
      }
    }

    /** The loop over the recurrent files: apply first, record second. */
    method ApplyRecurrent(files: seq<string>, input: RecurrentInput) returns (ok: bool)
      requires forall f :: f in files ==> f in input.folder
      modifies this`applied, this`checksums
      ensures (Database(), ok) == RecurrentRun(old(Database()), files, input)
      ensures old(applied) <= applied
      ensures forall a :: a in applied[|old(applied)|..] ==>
        a.file in files && a.content == input.folder[a.file] && a.database == input.override(a.content)
      ensures ok <==> forall f :: f in files ==>
        && f !in input.readFails && f !in input.lookUpFails
        && ((f in old(checksums) && old(checksums)[f] == input.hash(input.folder[f])) ||
            (f !in input.applyFails && f !in input.recordFails))
    {
      RecurrentOkIff(Database(), files, input);
      for i := 0 to |files|
        invariant old(applied) <= applied
        invariant forall a :: a in applied[|old(applied)|..] ==>
          a.file in files && a.content == input.folder[a.file] && a.database == input.override(a.content)
        invariant RecurrentRun(old(Database()), files, input) == RecurrentRun(Database(), files[i..], input)
      {
        var file := files[i];
        if !input.Readable(file) {
          return false;
        }
        var content := input.folder[file];
        var checksum := input.hash(content);
        if file in checksums && checksums[file] == checksum {
          continue;
        }
        if file in input.applyFails {
          return false;
        }
        applied := applied + [Application(file, content, input.override(content))];
        if file in input.recordFails {
          return false;
        }
        checksums := checksums[file := checksum];
      }
      return true;
    }

    /**
     A pipeline on a session of its own: the recurrent phase runs only if the
     versioned phase succeeded, and every way out ends the session, so no lock is left
     even if an unlock failed.
     */
    method RunAllMigrations(migrations: Option<seq<string>>, fails: Failures, recurrent: Option<seq<string>>,
            input: RecurrentInput, pipeline: Around, first: Around, second: Around)
      returns (ok: bool)
      requires recurrent.Some? ==> forall f :: f in recurrent.value ==> f in input.folder
      requires locks == multiset{}
      modifies this
      ensures var files1, files2 := Files(migrations, false), Files(recurrent, true);
        var (s1, v) := Phase(old(Database()), files1, first, VersionedRun(old(Database()), files1, fails));
        var (s2, r) := Phase(s1, files2, second, RecurrentRun(s1, files2, input));
        (Database(), ok) ==
          if !pipeline.lock then (old(Database()), false)
          else if v then (s2, r && pipeline.unlock)
          else (s1, false)
      ensures locks == multiset{}
      // A pipeline that succeeds has recorded every versioned file, and every recurrent one as it is.
      ensures ok ==> forall f :: f in Files(migrations, false) ==> f in recorded
      ensures ok ==> forall f :: f in Files(recurrent, true) ==>
        f in checksums && checksums[f] == input.hash(input.folder[f])
      // One whose versioned phase fails, at whatever point, fails and leaves the recurrent files alone.
      ensures Files(migrations, false) != [] && (!first.lock || !first.table || !first.unlock) ==>
        !ok && applied == old(applied) && checksums == old(checksums)
      ensures (exists f :: f in Files(migrations, false) && Stops(f, old(recorded), fails)) ==>
        !ok && applied == old(applied) && checksums == old(checksums)
      ensures !pipeline.lock ==> Database() == old(Database())
      // It succeeds exactly if its lock and both its phases do.
      ensures var files1, files2 := Files(migrations, false), Files(recurrent, true);
        ok <==>
          && pipeline.lock && pipeline.unlock
          && (files1 != [] ==> first.lock && first.table && first.unlock)
          && (files2 != [] ==> second.lock && second.table && second.unlock)
          && (forall f :: f in files1 ==> !Stops(f, old(recorded), fails))
          && (forall f :: f in files2 ==> !StopsRecurrent(old(Database()), f, input))
    {
      if !pipeline.lock {
        return false;
      }
      locks := locks + multiset{PIPELINE_LOCK};
      ok := RunVersionedMigrations(migrations, fails, first);
      if ok {
        ok := RunRecurrentMigrations(recurrent, input, second);
      }
      if pipeline.unlock {
        locks := locks - multiset{PIPELINE_LOCK};
      } else {
        ok := false;
      }
      locks := multiset{};
    }
  }

  /** A whole pipeline that succeeds applies nothing when it is run again on the same folders. */
  lemma PipelineIdempotent(s: State, migrations: Option<seq<string>>, recurrent: Option<seq<string>>,
          input: RecurrentInput, fails: Failures)
    requires migrations.Some? ==> Distinct(migrations.value)
    requires recurrent.Some? ==> Distinct(recurrent.value) && forall f :: f in recurrent.value ==> f in input.folder
    requires VersionedRun(s, Files(migrations, false), fails).1
    requires RecurrentRun(VersionedRun(s, Files(migrations, false), fails).0, Files(recurrent, true), input).1
    ensures
      var s1 := VersionedRun(s, Files(migrations, false), fails).0;
      var s2 := RecurrentRun(s1, Files(recurrent, true), input).0;
      VersionedRun(s2, Files(migrations, false), fails) == (s2, true) &&
      RecurrentRun(s2, Files(recurrent, true), input) == (s2, true)
  {
    var v, r := Files(migrations, false), Files(recurrent, true);
    if v != [] {
      SortedDistinct(v);
    }
    if r != [] {
      SortedDistinct(r);
    }
    var s1 := VersionedRun(s, v, fails).0;
    VersionedStopsAt(s, v, fails);
    RecurrentConverges(s1, r, input);
    RerunAppliesNothing(s1, r, input, input);
    SucceededRead(s1, r, input);
    AllRecorded(RecurrentRun(s1, r, input).0, v, fails);
  }

  lemma {:induction false} AllRecorded(s: State, files: seq<string>, fails: Failures)
    requires forall f :: f in files ==> f in s.recorded && f !in fails.lookUps
    ensures VersionedRun(s, files, fails) == (s, true)
    decreases |files|
  {
    if files != [] {
      AllRecorded(s, files[1..], fails);
    }
  }
}
