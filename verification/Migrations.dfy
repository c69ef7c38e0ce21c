/**
 The migration runs of one process, alone on its database: the loops of the
 versioned and the recurrent migrator and the pipeline around them. What runs of
 several processes do to one another is in `MigrationRuns`.
 */
module Migrations {
  import opened Wrappers
  import opened FileNames

  const PIPELINE_LOCK := 789_012_344
  const RECURRENT_LOCK := 789_012_345
  const VERSIONED_LOCK := 789_012_346

  /** A recurrent file as it was run, on the database it names if it names one. */
  datatype Application = Application(file: string, content: string, database: Option<string>)

  /** `versioned` and `applied` log every committed application, oldest first. */
  datatype State = State(
    versioned: seq<string>,
    recorded: set<string>,
    applied: seq<Application>,
    checksums: map<string, string>)

  predicate IsVersioned(name: string) {
    EndsWith(name, ".sql")
  }

  predicate IsRecurrent(name: string) {
    "R__" <= name && EndsWith(name, ".sql")
  }

  // ------------------------------------------------------- specification: versioned

  /** The files whose look-up in the record table fails, and those that fail to be read, applied or recorded. */
  datatype Failures = Failures(lookUps: set<string>, applications: set<string>)

  function VersionedRun(s: State, files: seq<string>, fails: Failures): (State, bool)
    decreases |files|
  {
    if files == [] then (s, true)
    else if files[0] in fails.lookUps then (s, false)
    else if files[0] in s.recorded then VersionedRun(s, files[1..], fails)
    else if files[0] in fails.applications then (s, false)
    else VersionedRun(s.(versioned := s.versioned + [files[0]], recorded := s.recorded + {files[0]}), files[1..], fails)
  }

  /** Every committed application is recorded, every record is of a committed application, and none happened twice. */
  ghost predicate AppliedOnce(s: State) {
    && (forall f :: f in s.recorded <==> f in s.versioned)
    && (forall i, j :: 0 <= i < j < |s.versioned| ==> s.versioned[i] != s.versioned[j])
  }

  lemma {:induction false} VersionedKeepsOnce(s: State, files: seq<string>, fails: Failures)
    requires AppliedOnce(s)
    ensures AppliedOnce(VersionedRun(s, files, fails).0)
    decreases |files|
  {
    if files != [] {
      var s' := s.(versioned := s.versioned + [files[0]], recorded := s.recorded + {files[0]});
      if files[0] !in s.recorded {
        assert AppliedOnce(s');
        VersionedKeepsOnce(s', files[1..], fails);
      } else {
        VersionedKeepsOnce(s, files[1..], fails);
      }
    }
  }

  /** The run cannot get past the file. */
  predicate Stops(file: string, recorded: set<string>, fails: Failures) {
    file in fails.lookUps || (file !in recorded && file in fails.applications)
  }

  /** How many files a run gets past: all, unless it stops at one. */
  function StopAt(files: seq<string>, recorded: set<string>, fails: Failures): (n: nat)
    ensures n <= |files|
    ensures n < |files| ==> Stops(files[n], recorded, fails)
    ensures forall i :: 0 <= i < n ==> !Stops(files[i], recorded, fails)
  {
    if files == [] || Stops(files[0], recorded, fails) then 0
    else 1 + StopAt(files[1..], recorded, fails)
  }

  /** The files not yet recorded, in order. */
  function Unrecorded(files: seq<string>, recorded: set<string>): seq<string> {
    if files == [] then []
    else (if files[0] in recorded then [] else [files[0]]) + Unrecorded(files[1..], recorded)
  }

  lemma {:induction false} OneMoreRecord(files: seq<string>, recorded: set<string>, fails: Failures, f: string)
    requires f !in files
    ensures Unrecorded(files, recorded + {f}) == Unrecorded(files, recorded)
    ensures StopAt(files, recorded + {f}, fails) == StopAt(files, recorded, fails)
  {
    if files != [] {
      OneMoreRecord(files[1..], recorded, fails, f);
    }
  }

  /** What a run leaves when it gets past the first `n` files. */
  function Past(s: State, files: seq<string>, n: nat): State
    requires n <= |files|
  {
    s.(recorded := s.recorded + Elements(files[..n]), versioned := s.versioned + Unrecorded(files[..n], s.recorded))
  }

  lemma UnrecordedOne(versioned: seq<string>, files: seq<string>, recorded: set<string>)
    requires files != [] && files[0] !in recorded
    ensures versioned + [files[0]] + Unrecorded(files[1..], recorded) == versioned + Unrecorded(files, recorded)
  {
    assert Unrecorded(files, recorded) == [files[0]] + Unrecorded(files[1..], recorded);
  }

  lemma PastOne(s: State, files: seq<string>, n: nat)
    requires files != [] && n < |files| && files[0] !in files[1..]
    ensures var f := files[0];
      var s1 := if f in s.recorded then s else s.(versioned := s.versioned + [f], recorded := s.recorded + {f});
      Past(s1, files[1..], n) == Past(s, files, n + 1)
  {
    var f, rest, front := files[0], files[1..][..n], files[..n + 1];
    assert front[0] == f && front[1..] == rest;
    ElementsCons(front);
    assert f !in rest;
    OneMoreRecord(rest, s.recorded, Failures({}, {}), f);
    if f in s.recorded {
      assert s.recorded + Elements(rest) == s.recorded + Elements(front);
      assert Unrecorded(front, s.recorded) == Unrecorded(rest, s.recorded);
    } else {
      UnrecordedOne(s.versioned, front, s.recorded);
      assert s.recorded + {f} + Elements(rest) == s.recorded + Elements(front);
    }
  }

  /**
   A run stops at one file: all before it are recorded, it and all after it are
   untouched, and what was applied is exactly the files before it that were not
   recorded, in order. It is the end if nothing fails, else the first failing file.
   */
  lemma {:induction false} VersionedStopsAt(s: State, files: seq<string>, fails: Failures)
    requires Distinct(files)
    ensures var n := StopAt(files, s.recorded, fails);
      VersionedRun(s, files, fails) == (Past(s, files, n), n == |files|)
    decreases |files|
  {
    if files == [] {
      assert Past(s, files, 0) == s;
    } else if Stops(files[0], s.recorded, fails) {
      assert Past(s, files, 0) == s;
    } else {
      var f := files[0];
      var s1 := if f in s.recorded then s else s.(versioned := s.versioned + [f], recorded := s.recorded + {f});
      VersionedStopsAt(s1, files[1..], fails);
      OneMoreRecord(files[1..], s.recorded, fails, f);
      PastOne(s, files, StopAt(files[1..], s.recorded, fails));
    }
  }

  /** A run ends well if and only if it stops at no file, and then every file is recorded. */
  lemma {:induction false} VersionedOkIff(s: State, files: seq<string>, fails: Failures)
    ensures VersionedRun(s, files, fails).1 <==> forall f :: f in files ==> !Stops(f, s.recorded, fails)
    ensures VersionedRun(s, files, fails).1 ==> forall f :: f in files ==> f in VersionedRun(s, files, fails).0.recorded
    ensures s.recorded <= VersionedRun(s, files, fails).0.recorded
    ensures VersionedRun(s, files, fails).0.applied == s.applied
    ensures VersionedRun(s, files, fails).0.checksums == s.checksums
    decreases |files|
  {
    if files != [] {
      var f := files[0];
      var s' := if f in s.recorded then s else s.(versioned := s.versioned + [f], recorded := s.recorded + {f});
      VersionedOkIff(s', files[1..], fails);
      assert forall g :: g in files <==> g == f || g in files[1..];
      if !Stops(f, s.recorded, fails) {
        assert forall g :: Stops(g, s'.recorded, fails) <==> Stops(g, s.recorded, fails);
      }
    }
  }

  // ------------------------------------------------------ specification: recurrent

  /** What a recurrent run is given: the folder, the hash, and which statements fail. */
  datatype RecurrentInput = RecurrentInput(
    folder: map<string, string>,
    hash: string -> string,
    override: string -> Option<string>,
    readFails: set<string>,
    lookUpFails: set<string>,
    applyFails: set<string>,
    recordFails: set<string>)
  {
    /** The file can be read and its record looked up. */
    predicate Readable(file: string) {
      file !in readFails && file !in lookUpFails
    }
  }

  predicate Unchanged(s: State, file: string, checksum: string) {
    file in s.checksums && s.checksums[file] == checksum
  }

  function RecurrentRun(s: State, files: seq<string>, input: RecurrentInput): (State, bool)
    requires forall f :: f in files ==> f in input.folder
    decreases |files|
  {
    if files == [] then (s, true)
    else
      var f := files[0];
      var content := input.folder[f];
      if !input.Readable(f) then (s, false)
      else if Unchanged(s, f, input.hash(content)) then RecurrentRun(s, files[1..], input)
      else if f in input.applyFails then (s, false)
      else
        var s1 := s.(applied := s.applied + [Application(f, content, input.override(content))]);
        if f in input.recordFails then (s1, false)
        else RecurrentRun(s1.(checksums := s1.checksums[f := input.hash(content)]), files[1..], input)
  }

  /** The applications of the files whose recorded checksum differs from their content's, in order. */
  function Changed(s: State, files: seq<string>, input: RecurrentInput): seq<Application>
    requires forall f :: f in files ==> f in input.folder
  {
    if files == [] then []
    else
      var content := input.folder[files[0]];
      (if Unchanged(s, files[0], input.hash(content)) then []
       else [Application(files[0], content, input.override(content))]) + Changed(s, files[1..], input)
  }

  lemma {:induction false} ChangedLocal(s: State, s': State, files: seq<string>, input: RecurrentInput)
    requires forall f :: f in files ==> f in input.folder
    requires forall f :: f in files ==> (f in s.checksums <==> f in s'.checksums)
    requires forall f :: f in files && f in s.checksums ==> s.checksums[f] == s'.checksums[f]
    ensures Changed(s, files, input) == Changed(s', files, input)
  {
    if files != [] {
      ChangedLocal(s, s', files[1..], input);
    }
  }

  /** What a successful run leaves. */
  function Converged(s: State, files: seq<string>, input: RecurrentInput): State
    requires forall f :: f in files ==> f in input.folder
  {
    s.(applied := s.applied + Changed(s, files, input),
       checksums := s.checksums + Checksums(files, input))
  }

  /** The record each file should have. */
  function Checksums(files: seq<string>, input: RecurrentInput): map<string, string>
    requires forall f :: f in files ==> f in input.folder
  {
    map f | f in files :: input.hash(input.folder[f])
  }

  lemma ChecksumsOne(records: map<string, string>, files: seq<string>, input: RecurrentInput)
    requires files != [] && files[0] !in files[1..] && forall f :: f in files ==> f in input.folder
    ensures records[files[0] := input.hash(input.folder[files[0]])] + Checksums(files[1..], input) ==
      records + Checksums(files, input)
  {
  }

  /** The state after one file that is skipped, or applied and recorded. */
  function AfterOne(s: State, f: string, input: RecurrentInput): State
    requires f in input.folder
  {
    var content := input.folder[f];
    if Unchanged(s, f, input.hash(content)) then s
    else s.(applied := s.applied + [Application(f, content, input.override(content))],
            checksums := s.checksums[f := input.hash(content)])
  }

  lemma ConvergedOne(s: State, files: seq<string>, input: RecurrentInput)
    requires files != [] && files[0] !in files[1..] && forall f :: f in files ==> f in input.folder
    ensures Converged(AfterOne(s, files[0], input), files[1..], input) == Converged(s, files, input)
  {
    var s1, tail := AfterOne(s, files[0], input), Changed(s, files[1..], input);
    ChangedLocal(s, s1, files[1..], input);
    ChecksumsOne(s.checksums, files, input);
    assert s.checksums[files[0] := input.hash(input.folder[files[0]])] == s1.checksums;
    if s1 == s {
      assert Changed(s, files, input) == tail;
    } else {
      var head := [Application(files[0], input.folder[files[0]], input.override(input.folder[files[0]]))];
      assert Changed(s, files, input) == head + tail;
      assert s.applied + head + tail == s.applied + (head + tail);
    }
  }

  /** A run that succeeds applies exactly the changed files, in order, and leaves every record equal to its file. */
  lemma {:induction false} RecurrentConverges(s: State, files: seq<string>, input: RecurrentInput)
    requires Distinct(files) && forall f :: f in files ==> f in input.folder
    requires RecurrentRun(s, files, input).1
    ensures RecurrentRun(s, files, input).0 == Converged(s, files, input)
    decreases |files|
  {
    if files == [] {
      assert Converged(s, files, input) == s;
    } else {
      RecurrentConverges(AfterOne(s, files[0], input), files[1..], input);
      ConvergedOne(s, files, input);
    }
  }

  /** The run cannot get past the file. */
  predicate StopsRecurrent(s: State, file: string, input: RecurrentInput)
    requires file in input.folder
  {
    || !input.Readable(file)
    || (!Unchanged(s, file, input.hash(input.folder[file])) && (file in input.applyFails || file in input.recordFails))
  }

  /** A run ends well if and only if it stops at no file, and then every record is that of its file. */
  lemma {:induction false} RecurrentOkIff(s: State, files: seq<string>, input: RecurrentInput)
    requires forall f :: f in files ==> f in input.folder
    ensures RecurrentRun(s, files, input).1 <==> forall f :: f in files ==> !StopsRecurrent(s, f, input)
    ensures RecurrentRun(s, files, input).1 ==> forall f :: f in files ==>
      Unchanged(RecurrentRun(s, files, input).0, f, input.hash(input.folder[f]))
    ensures forall f :: f in input.folder && Unchanged(s, f, input.hash(input.folder[f])) ==>
      Unchanged(RecurrentRun(s, files, input).0, f, input.hash(input.folder[f]))
    decreases |files|
  {
    if files != [] {
      var f := files[0];
      assert forall g :: g in files <==> g == f || g in files[1..];
      if !StopsRecurrent(s, f, input) {
        var s' := AfterOne(s, f, input);
        GoesOn(s, files, input);
        RecurrentOkIff(s', files[1..], input);
        assert Unchanged(s', f, input.hash(input.folder[f]));
        assert forall g :: g in files[1..] ==> (StopsRecurrent(s', g, input) <==> StopsRecurrent(s, g, input));
      }
    }
  }

  /** How many files a run gets past: all, unless it stops at one. */
  function RecurrentStopAt(s: State, files: seq<string>, input: RecurrentInput): (n: nat)
    requires forall f :: f in files ==> f in input.folder
    ensures n <= |files|
    ensures n < |files| ==> StopsRecurrent(s, files[n], input)
    ensures forall i :: 0 <= i < n ==> !StopsRecurrent(s, files[i], input)
  {
    if files == [] || StopsRecurrent(s, files[0], input) then 0
    else 1 + RecurrentStopAt(s, files[1..], input)
  }

  /** The file a run stopped at was applied if and only if only its record failed. */
  function Half(s: State, file: string, input: RecurrentInput): seq<Application>
    requires file in input.folder
  {
    if input.Readable(file) && file !in input.applyFails
    then [Application(file, input.folder[file], input.override(input.folder[file]))]
    else []
  }

  lemma {:induction false} RecurrentStopLocal(s: State, s': State, files: seq<string>, input: RecurrentInput)
    requires forall f :: f in files ==> f in input.folder
    requires forall f :: f in files ==> (f in s.checksums <==> f in s'.checksums)
    requires forall f :: f in files && f in s.checksums ==> s.checksums[f] == s'.checksums[f]
    ensures RecurrentStopAt(s, files, input) == RecurrentStopAt(s', files, input)
  {
    if files != [] {
      RecurrentStopLocal(s, s', files[1..], input);
    }
  }

  /** What a run leaves when it gets past the first `n` files. */
  function PastRecurrent(s: State, files: seq<string>, n: nat, input: RecurrentInput): State
    requires n <= |files| && forall f :: f in files ==> f in input.folder
  {
    var past := Converged(s, files[..n], input);
    if n < |files| then past.(applied := past.applied + Half(s, files[n], input)) else past
  }

  /**
   A run stops at one file: the changed ones before it are applied and recorded, it is
   applied if only its record failed, and none after it is touched.
   */
  lemma {:induction false} RecurrentStopsAt(s: State, files: seq<string>, input: RecurrentInput)
    requires Distinct(files) && forall f :: f in files ==> f in input.folder
    ensures var n := RecurrentStopAt(s, files, input);
      RecurrentRun(s, files, input) == (PastRecurrent(s, files, n, input), n == |files|)
    decreases |files|
  {
    if files == [] || StopsRecurrent(s, files[0], input) {
      RecurrentStopsFirst(s, files, input);
    } else {
      GoesOn(s, files, input);
      var s', rest := AfterOne(s, files[0], input), files[1..];
      RecurrentStopLocal(s, s', rest, input);
      var n := RecurrentStopAt(s', rest, input);
      RecurrentStopsAt(s', rest, input);
      PastRecurrentOne(s, files, n, input);
    }
  }

  /** Without a file to get past, the run leaves at most one application that it did not record. */
  lemma RecurrentStopsFirst(s: State, files: seq<string>, input: RecurrentInput)
    requires forall f :: f in files ==> f in input.folder
    requires files == [] || StopsRecurrent(s, files[0], input)
    ensures RecurrentStopAt(s, files, input) == 0
    ensures RecurrentRun(s, files, input) == (PastRecurrent(s, files, 0, input), files == [])
  {
    var none: seq<string> := [];
    assert files[..0] == none && s.checksums + Checksums(none, input) == s.checksums;
    assert s.applied + Changed(s, none, input) == s.applied;
    assert Converged(s, none, input) == s;
  }

  lemma GoesOn(s: State, files: seq<string>, input: RecurrentInput)
    requires forall f :: f in files ==> f in input.folder
    requires files != [] && !StopsRecurrent(s, files[0], input)
    ensures RecurrentRun(s, files, input) == RecurrentRun(AfterOne(s, files[0], input), files[1..], input)
    ensures RecurrentStopAt(s, files, input) == 1 + RecurrentStopAt(s, files[1..], input)
  {
  }

  lemma PastRecurrentOne(s: State, files: seq<string>, n: nat, input: RecurrentInput)
    requires n < |files| && files[0] !in files[1..] && forall f :: f in files ==> f in input.folder
    ensures PastRecurrent(AfterOne(s, files[0], input), files[1..], n, input) == PastRecurrent(s, files, n + 1, input)
  {
    var front := files[..n + 1];
    assert front[1..] == files[1..][..n] && front[0] == files[0];
    ConvergedOne(s, front, input);
  }

  lemma {:induction false} NothingChanged(s: State, files: seq<string>, input: RecurrentInput)
    requires forall f :: f in files ==> f in input.folder && Unchanged(s, f, input.hash(input.folder[f]))
    ensures RecurrentRun(s, files, input).0 == s
    ensures RecurrentRun(s, files, input).1 <==> forall f :: f in files ==> input.Readable(f)
  {
    if files != [] {
      NothingChanged(s, files[1..], input);
      assert forall f :: f in files <==> f == files[0] || f in files[1..];
    }
  }

  /** A rerun on the same folder applies nothing, whichever statements fail, and ends well if it can read everything. */
  lemma RerunAppliesNothing(s: State, files: seq<string>, input: RecurrentInput, again: RecurrentInput)
    requires Distinct(files) && forall f :: f in files ==> f in input.folder
    requires RecurrentRun(s, files, input).1
    requires again.folder == input.folder && again.hash == input.hash
    ensures RecurrentRun(RecurrentRun(s, files, input).0, files, again).0 == RecurrentRun(s, files, input).0
    ensures RecurrentRun(RecurrentRun(s, files, input).0, files, again).1 <==>
      forall f :: f in files ==> again.Readable(f)
  {
    RecurrentConverges(s, files, input);
    NothingChanged(RecurrentRun(s, files, input).0, files, again);
  }

  /** A run that succeeds could read every file. */
  lemma {:induction false} SucceededRead(s: State, files: seq<string>, input: RecurrentInput)
    requires forall f :: f in files ==> f in input.folder
    requires RecurrentRun(s, files, input).1
    ensures forall f :: f in files ==> input.Readable(f)
    decreases |files|
  {
    if files != [] {
      SucceededRead(AfterOne(s, files[0], input), files[1..], input);
      assert forall f :: f in files <==> f == files[0] || f in files[1..];
    }
  }

  /** The last application of a file. */
  function LastApplication(applied: seq<Application>, file: string): Option<Application> {
    if applied == [] then None
    else if applied[|applied| - 1].file == file then Some(applied[|applied| - 1])
    else LastApplication(applied[..|applied| - 1], file)
  }

  /** The content of a file as it was last applied. */
  function LastApplied(applied: seq<Application>, file: string): Option<string> {
    match LastApplication(applied, file)
    case None => None
    case Some(a) => Some(a.content)
  }

  lemma {:induction false} LastAppliedAppend(a: seq<Application>, b: seq<Application>, file: string)
    ensures LastApplication(a + b, file) ==
      if LastApplication(b, file).Some? then LastApplication(b, file) else LastApplication(a, file)
  {
    if b == [] {
      assert a + b == a;
    } else {
      assert (a + b)[..|a + b| - 1] == a + b[..|b| - 1];
      LastAppliedAppend(a, b[..|b| - 1], file);
    }
  }

  lemma {:induction false} LastOfChanged(s: State, files: seq<string>, input: RecurrentInput, file: string)
    requires forall f :: f in files ==> f in input.folder
    ensures LastApplied(Changed(s, files, input), file) ==
      if file in files && !Unchanged(s, file, input.hash(input.folder[file])) then Some(input.folder[file]) else None
  {
    if files != [] {
      var head := Changed(s, files[..1], input);
      assert files[..1][1..] == [] && Changed(s, [], input) == [];
      LastOfChanged(s, files[1..], input, file);
      assert files == [files[0]] + files[1..];
      assert Changed(s, files, input) == head + Changed(s, files[1..], input);
      LastAppliedAppend(head, Changed(s, files[1..], input), file);
    }
  }

  /** The record already says what the folder holds, but something else was applied last. */
  ghost predicate Masked(s: State, file: string, content: string, checksum: string) {
    Unchanged(s, file, checksum) && LastApplied(s.applied, file) != Some(content)
  }

  /**
   A successful run leaves the database at the folder's content for exactly the
   files that are not masked: a record that equals the content's checksum, left by
   an older run, hides that another content was applied since and never recorded.
   */
  lemma ContentConvergesIffUnmasked(s: State, files: seq<string>, input: RecurrentInput, file: string)
    requires Distinct(files) && forall f :: f in files ==> f in input.folder
    requires RecurrentRun(s, files, input).1 && file in files
    ensures LastApplied(RecurrentRun(s, files, input).0.applied, file) == Some(input.folder[file]) <==>
      !Masked(s, file, input.folder[file], input.hash(input.folder[file]))
  {
    RecurrentConverges(s, files, input);
    LastAppliedAppend(s.applied, Changed(s, files, input), file);
    LastOfChanged(s, files, input, file);
  }

  lemma RunOfOne(s: State, f: string, input: RecurrentInput)
    requires f in input.folder && f !in input.applyFails && input.Readable(f)
    ensures var content := input.folder[f];
      var s1 := s.(applied := s.applied + [Application(f, content, input.override(content))]);
      RecurrentRun(s, [f], input) ==
        if Unchanged(s, f, input.hash(content)) then (s, true)
        else if f in input.recordFails then (s1, false)
        else (s1.(checksums := s1.checksums[f := input.hash(content)]), true)
  {
    assert [f][1..] == [];
  }

  /**
   Masking happens: a file is applied, its next content is applied but the run
   dies before recording it, and the folder goes back to the first content.
   */
  lemma RevertAfterInterruptionIsMissed(file: string, first: string, second: string, hash: string -> string)
    requires hash(first) != hash(second)
    ensures
      var empty := State([], {}, [], map[]);
      var input := RecurrentInput(map[file := first], hash, _ => None, {}, {}, {}, {});
      var (s1, ok1) := RecurrentRun(empty, [file], input);
      var (s2, ok2) := RecurrentRun(s1, [file], input.(folder := map[file := second], recordFails := {file}));
      var (s3, ok3) := RecurrentRun(s2, [file], input);
      ok1 && !ok2 && ok3 && LastApplied(s3.applied, file) == Some(second)
  {
    var empty := State([], {}, [], map[]);
    var input := RecurrentInput(map[file := first], hash, _ => None, {}, {}, {}, {});
    var s1 := State([], {}, [Application(file, first, None)], map[file := hash(first)]);
    RunOfOne(empty, file, input);
    RunOfOne(s1, file, input.(folder := map[file := second], recordFails := {file}));
    RunOfOne(s1.(applied := s1.applied + [Application(file, second, None)]), file, input);
  }
}
