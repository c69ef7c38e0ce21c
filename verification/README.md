# Stateful cores of the IO card and CED services, modelled and proved

These modules model the parts of the repository whose correctness is about order:
who may run scheduled jobs, when a migration counts as applied, what a login leaves
behind, what a cache may serve. Code between two awaits is one atomic step, and
every await is a point at which other tasks, processes and failures come in. Each
such part is a step system with its runs, and beside it a class with the fields of
the source and its functions as methods, proved to take the steps of that system.

| part | modules |
|---|---|
| scheduler of one process | `SchedulerProtocol`, `SchedulerOutcomes`, `Scheduler`, `Schedules`, `ScheduleWrites` |
| revision registry | `Registry`, `Tracker` |
| all processes over one registry | `Fleet`, `FleetSafety`, `FleetOvertaken`, `FleetSchedules`, `FleetOverwritten`, `JobsScheduler`, `EnvironmentStop` |
| migrations, one run and many | `FileNames`, `Migrations`, `Migrator`, `MigrationRuns`, `MigrationSafety`, `RecurrentSafety`, `MigrationReach`, `MigrationOverlap`, `MigrationMishaps` |
| FIMS login | `FimsProtocol`, `FimsSafety`, `FimsLogin`, `FimsRequests`, `Fims` |
| Redis reconnection | `Reconnection`, `ResilientClient` |
| ModI signed fetch | `ModiProtocol`, `ModiSafety`, `ModiCaches`, `ModiSigningCa`, `ModiRequests`, `SignedFetch` |
| response bodies | `Utf8`, `BodyReader` |
| dates | `CivilDate`, `FormStrings`, `FormDate`, `IsoDates`, `DisplayStatus` |
| shared | `Histories`, `Wrappers` |

`dafny verify dfyconfig.toml` checks the whole project.

## What the proofs found

Several properties one would expect of the code do not hold of it. Each has a run
or an input that shows it, and the exact condition under which the property holds.

- A demoted process can be promoted again, although a later revision has
  registered: its reconcile check read the registry first, and a fence that read it
  later was heard before it (`FleetOvertaken.SupersededProcessPromoted`). This is so
  if and only if a later read was heard first (`FleetSafety.PromotionIffOvertaken`);
  job batches stay fenced all the same (`FleetSafety.HandlerCallsAreAdmitted`).
- Such a process writes its own schedules over those of the latest revision, if it
  writes last (`FleetOverwritten.SupersededOverwrites`). A start-up leaves exactly its
  own jobs if and only if no other makes a last write against it since its read
  (`FleetSchedules.StoredIffUndisturbed`).
- A `stop` of the jobs can close a tracker under an ownership check that has no answer
  yet: the first call under that of a `start` or of a job batch, for which it does not
  wait, and a later call also under the reconcile check that the first still waits for
  (`EnvironmentStop.FirstStopClosesUnderStart`, `EnvironmentStop.FirstStopClosesUnderBatch`,
  `EnvironmentStop.SecondStopClosesEarly`), and in no other case
  (`EnvironmentStop.ClosesUnderCheckIff`).
- The ownership timer of a stopped scheduler can be armed again, even after a whole
  `stop` (`SchedulerProtocol.TimerOutlivesStop`): if and only if an owner's start-up
  succeeds after `stop` was called (`SchedulerProtocol.TimerAfterStopIff`). Its ticks do nothing.
- `migrator.ts:7-8` says that no other instance can interleave the two phases. Another run
  that has yet to get a lock, and has something to apply, can do so between them if and
  only if it is a phase called alone, or the database client replaced the session of the
  pipeline and so dropped its advisory locks
  (`MigrationOverlap.InterleavesIff`, `MigrationSafety.PipelinesSerialise`; the runs are
  `MigrationOverlap.PhaseAloneOverlaps` and `MigrationOverlap.DroppedLockOverlaps`).
  Versioned files are applied once even so.
- A run that fails at a versioned file has committed it all the same if the reply to
  the commit was lost (`MigrationMishaps.UnheardCommitIsRecorded`), and only then
  (`MigrationSafety.StoppedRunLeavesPrefix`).
- A phase called alone leaves its lock behind if its unlock fails and its session lives
  on (`MigrationSafety.EndedHoldsNothing`), and then blocks the others
  (`MigrationMishaps.KeptLockBlocks`). All runs are stuck if and only if every live one
  waits for such a lock, or for a run that does (`MigrationSafety.StuckIffBlocked`).
- A recurrent file that goes back to its recorded content after an interrupted run is
  skipped, although the database holds another content
  (`Migrations.RevertAfterInterruptionIsMissed`, `Migrations.ContentConvergesIffUnmasked`).
  Across runs this takes a run interrupted at that very file, or one whose session was
  replaced inside the recurrent part (`RecurrentSafety.MaskedOnlyIfInterrupted`,
  `MigrationMishaps.MaskedByLostLock`).
- A 2xx body that was not fully received is parsed if and only if the stream broke with
  a falsy reason (`BodyReader.CustomFetch`, `BodyReader.TruncatedSuccessAccepted`). The comment at
  `client.ts:60-62` of the INPS adapter also says that truncated bodies fall back to
  no data; for 2xx responses the code throws.
- The date field shows a year below 0100 nineteen centuries later
  (`FormDate.EarlyDateRedisplayed`, `FormDate.RoundTripIffFromYear100`).
- A nonce or an OTP is taken by two requests that overlap between reading and deleting
  it, or when a delete fails (`FimsLogin.OverlapTakesTwice`,
  `FimsLogin.FailedDeleteTakesTwice`), and in no other case (`FimsLogin.TakenAgain`).
- `signed-fetch.ts:225` says that the signing CA is always populated. It is if and only if
  a CA fetch has succeeded (`ModiCaches.VerifiesWithCaIff`); credentials are cached before
  the CA is fetched, so if that fails while no CA is known and no other call is fetching,
  no P3 call is answered until the credentials expire (`ModiCaches.FirstCallStrands`,
  `ModiCaches.NoAnswerUntilExpiry`).
- The CA is said to be refreshed with the same 24 hours as the credentials. It has no
  expiry: when a later refresh fails, calls go on with the old one
  (`ModiSigningCa.StaleCaAccepted`). It is younger than 24 hours when a response arrives
  if and only if the last call that got a CA stored its credentials in the 24 hours before
  (`ModiSigningCa.VerifiesWithLastCa`).
- A call whose credentials are overtaken while it waits for the CA can sign with some
  looked up after its own look-up (`ModiCaches.OvertakenIsNotFresh`,
  `ModiCaches.SignsWithLastStored`).
- For a body of another kind than the four the code looks at, the digest sent is that of
  no body (`ModiCaches.DigestCoversIff`).
- Closing the Redis client does not cancel a reconnection in flight, which then opens a
  client that nobody closes (`Reconnection.ClosedYetOpen`, `Reconnection.OpenAfter`).

## Model

| member | source | states |
|---|---|---|
| SchedulerProtocol.InstanceLifecycle | packages/io-core-adapter-pgboss/src/scheduler.ts:136-276 | in every interleaving of start, ticks, fences, promotions and stop, at most one instance has not been asked to stop and it is `boss`; none is asked twice; at most one `startAsOwner` is in flight; demotions never outnumber instances |
| SchedulerProtocol.NoInstanceAfterStop | packages/io-core-adapter-pgboss/src/scheduler.ts:229-286 | once `stopped` is set no instance is created, whatever start or check was pending |
| SchedulerProtocol.StopDrains | packages/io-core-adapter-pgboss/src/scheduler.ts:276-286 | when the first `stop()` has ended, and ever after, there is no `boss` and every instance ever created was asked to stop exactly once |
| SchedulerProtocol.ReconcileAdvances | packages/io-core-adapter-pgboss/src/scheduler.ts:229-255 | after `stopped`, every step of the check in flight brings it strictly closer to its end, so `stop()` waits for a bounded number of steps |
| SchedulerProtocol.StopCanAdvance | packages/io-core-adapter-pgboss/src/scheduler.ts:276-286 | a waiting `stop()` can go on, or the check it waits for has a step that brings it closer to its end |
| SchedulerProtocol.TimerAfterStopIff | packages/io-core-adapter-pgboss/src/scheduler.ts:257-283 | after the first `stop` the timer is armed if and only if the start-up of an owner has succeeded since, and its ticks change nothing |
| SchedulerProtocol.TimerOutlivesStop | packages/io-core-adapter-pgboss/src/scheduler.ts:257-286 | a run in which the timer is armed after a whole `stop` |
| SchedulerOutcomes.FailedStartUpStops | packages/io-core-adapter-pgboss/src/scheduler.ts:215-226 | in every run, a start-up that fails, the first or that of a promotion, leaves no `boss`, creates none, and every instance has been asked to stop exactly once |
| SchedulerOutcomes.PromotionRetried | packages/io-core-adapter-pgboss/src/scheduler.ts:229-245 | after a promotion that failed, the next answer that finds the process the owner creates a new instance, unless stopped |
| SchedulerOutcomes.LossStops | packages/io-core-adapter-pgboss/src/scheduler.ts:145-181 | a false answer of a fence, or of a check before `stop`, leaves no instance running |
| SchedulerOutcomes.BossStoppedIff | packages/io-core-adapter-pgboss/src/scheduler.ts:136-286 | a running instance is forgotten if and only if its start-up fails, a loss is heard or `stop` resumes; until then it stays the only one |
| SchedulerOutcomes.DemotionsCounted | packages/io-core-adapter-pgboss/src/scheduler.ts:145-152 | demotions are reported for exactly those false answers that found an instance |
| SchedulerOutcomes.StartOutcome | packages/io-core-adapter-pgboss/src/scheduler.ts:257-274 | what `start` leads to by the role it was told: one instance and no timer, the timer and no instance, or neither once stopped or if the check failed |
| SchedulerOutcomes.TimerBeforeStopIff | packages/io-core-adapter-pgboss/src/scheduler.ts:257-274 | until `stop` the timer is armed if and only if a fenced owner has started up or a passive process got its answer |
| SchedulerOutcomes.TickChecks | packages/io-core-adapter-pgboss/src/scheduler.ts:247-255 | after a tick of a scheduler that is not stopped a check is in flight, and one that was already is the only one |
| SchedulerOutcomes.BatchAccounted | packages/io-core-adapter-pgboss/src/scheduler.ts:174-196 | over every run, the handler calls of a batch and its jobs left add up to its jobs; under ownership none comes before a true answer to its own check, none if it was rejected, and none after one that failed |
| SchedulerOutcomes.HandledIsTheCalls | packages/io-core-adapter-pgboss/src/scheduler.ts:182-196 | the log of handled jobs, which the guarantees of the fleet are about, is exactly the handler calls of the run |
| Scheduler.Scheduler.StopBoss | packages/io-core-adapter-pgboss/src/scheduler.ts:136-143 | forgets the instance before asking it to stop, and asks once |
| Scheduler.Scheduler.Demote | packages/io-core-adapter-pgboss/src/scheduler.ts:145-152 | reports and stops only while there is an instance, so concurrent fences report one demotion |
| Scheduler.Scheduler.CreateInstance | packages/io-core-adapter-pgboss/src/scheduler.ts:200-213 | a new instance is published as `boss` before its start-up is awaited |
| Scheduler.Scheduler.Start | packages/io-core-adapter-pgboss/src/scheduler.ts:257-274 | the step of the protocol: asks for ownership if fenced, and otherwise creates the instance unless stopped |
| Scheduler.Scheduler.StartChecked | packages/io-core-adapter-pgboss/src/scheduler.ts:257-274 | the answer to the start check: an owner creates an instance, a passive process arms the timer, a stopped one does neither |
| Scheduler.Scheduler.StartAsOwnerSettled | packages/io-core-adapter-pgboss/src/scheduler.ts:215-225 | a failed start-up leaves no `boss` and every instance asked to stop once; a successful one changes no instance and arms the timer, if there is ownership to check |
| Scheduler.Scheduler.Reconcile | packages/io-core-adapter-pgboss/src/scheduler.ts:247-255 | a tick starts a check only if fenced, none is in flight and the scheduler is not stopped |
| Scheduler.Scheduler.ReconcileChecked | packages/io-core-adapter-pgboss/src/scheduler.ts:229-245 | promotes an owner without an instance, demotes a non-owner with one, does nothing once stopped |
| Scheduler.Scheduler.PromotionStartSettled | packages/io-core-adapter-pgboss/src/scheduler.ts:215-245 | a failed promotion leaves no `boss` and every instance asked to stop once, and its check does not reject; a successful one keeps the instance |
| Scheduler.Scheduler.WorkBatch | packages/io-core-adapter-pgboss/src/scheduler.ts:174-181 | a batch waits for its own ownership read before any handler runs, if fenced |
| Scheduler.Scheduler.FenceChecked | packages/io-core-adapter-pgboss/src/scheduler.ts:174-181 | a batch is handled only after a true read; a false one demotes and rejects it |
| Scheduler.HandleBatch | packages/io-core-adapter-pgboss/src/scheduler.ts:182-196 | handler calls go in order up to and including the first that fails, and no further |
| Scheduler.Scheduler.Stop | packages/io-core-adapter-pgboss/src/scheduler.ts:276-283 | only the first call has an effect: it sets `stopped` and disarms the timer |
| Scheduler.Scheduler.StopResumed | packages/io-core-adapter-pgboss/src/scheduler.ts:283-286 | the instance present when the awaited check is over is the one stopped |
| Scheduler.Scheduler.StopToItsEnd | packages/io-core-adapter-pgboss/src/scheduler.ts:276-286 | from every reachable state of the object, a whole first `stop` ends whatever the check it waits for answers, creates no instance, leaves none, and has asked every one ever created to stop exactly once |
| Registry.GenerationOrderIsCommitOrder | packages/io-core-adapter-revision-tracker/src/tracker.ts:66-79 | with lock, sequence draw, insert and commit as separate steps of concurrent, repeated, aborted and retried registrations, committed generations ascend in commit order, revisions are distinct, and the latest revision is the last committed |
| Registry.LatestNeverReturns | packages/io-core-adapter-revision-tracker/src/tracker.ts:40-44 | the history of the latest revision never returns to a revision it has left |
| Registry.RegisteredIsCommitted | packages/io-core-adapter-revision-tracker/src/tracker.ts:81-87 | a registration acknowledged to its tracker is a committed row for good |
| Registry.ReregistrationChangesNothing | packages/io-core-adapter-revision-tracker/src/tracker.ts:76-78 | a commit leaves the rows as they are if its revision is there already, and otherwise adds exactly one row, its own |
| Registry.RowsGrow | packages/io-core-adapter-revision-tracker/src/tracker.ts:66-79 | rows are only ever appended |
| Registry.FailureIsRetried | packages/io-core-adapter-revision-tracker/src/tracker.ts:81-87 | after a registration that failed, or whose acknowledgement was lost, the next call begins a new transaction |
| Tracker.Tracker.Register | packages/io-core-adapter-revision-tracker/src/tracker.ts:81-87 | calls made while a registration is pending or after it succeeded share it; only the first, or one after a failure, begins a transaction |
| Tracker.Tracker.RegistrationSettled | packages/io-core-adapter-revision-tracker/src/tracker.ts:81-87 | a failure, also of the acknowledgement alone, lets a later call try again |
| Tracker.Tracker.IsLatest | packages/io-core-adapter-revision-tracker/src/tracker.ts:89-94 | fails while the table is missing; in every reachable table it is true exactly if the last committed row is this revision's |
| Tracker.Tracker.Close | packages/io-core-adapter-revision-tracker/src/tracker.ts:96-102 | the pool is ended by the first call only |
| JobsScheduler.Jobs.ReadinessAnswered | apps/ced-portal-be/src/jobs-scheduler.ts:121-130 | only a ready process registers its two revisions, and nothing is started yet |
| JobsScheduler.Jobs.RegistrationsSettled | apps/ced-portal-be/src/jobs-scheduler.ts:127-131 | both schedulers are started if both revisions are registered, and neither otherwise |
| JobsScheduler.Jobs.Stop | apps/ced-portal-be/src/jobs-scheduler.ts:134-136 | both schedulers get the stop step of the protocol |
| JobsScheduler.SchedulerStopped | apps/ced-portal-be/src/jobs-scheduler.ts:95-99 | closes the tracker; for the first `stop` no instance is left by then and no reconcile check is in flight |
| EnvironmentStop.ClosesUnderCheckIff | apps/ced-portal-be/src/jobs-scheduler.ts:95-99 | over every run of a scheduler with its tracker and any number of `stop` calls: the call that closes the tracker does so under an unanswered check if and only if that of a `start` or of a batch has no answer, or it is a later call and the reconcile check that the first found has none; the first never closes it under a reconcile check |
| EnvironmentStop.FirstStopClosesUnderStart | packages/io-core-adapter-pgboss/src/scheduler.ts:257-286 | a run in which the first `stop` closes the tracker under the check of a `start` |
| EnvironmentStop.FirstStopClosesUnderBatch | packages/io-core-adapter-pgboss/src/scheduler.ts:174-181 | a run in which it does so under the check of a job batch |
| EnvironmentStop.SecondStopClosesEarly | packages/io-core-adapter-pgboss/src/scheduler.ts:276-283 | a run in which a second `stop` closes the tracker while the first waits for a reconcile check |
| FleetSafety.HandlerCallsAreAdmitted | packages/io-core-adapter-pgboss/src/scheduler.ts:174-196 | for any number of processes and revisions, every handler call comes after a registry read for its own batch that found its process the owner |
| FleetSafety.OwnershipMovesForward | packages/io-core-adapter-revision-tracker/src/tracker.ts:89-94 | the reads that find an owner have non-decreasing generations in time order, and a process once found not to be the owner is never found to be it again |
| FleetSafety.NoOwnerBehindRegistered | packages/io-core-adapter-revision-tracker/src/tracker.ts:66-94 | once a revision has registered, no process of an earlier one is found to be the owner again |
| FleetSafety.InstancesNeedOwnership | packages/io-core-adapter-pgboss/src/scheduler.ts:229-274 | a process that heard no true ownership check has created no instance |
| FleetSafety.PromotionIffOvertaken | packages/io-core-adapter-pgboss/src/scheduler.ts:229-245 | a true reconcile answer promotes if and only if it was overtaken: a later read of the same process found the loss and was heard first |
| FleetSafety.AtMostTwoInstances | packages/io-core-adapter-pgboss/src/scheduler.ts:200-274 | a process creates at most two instances in its life, whatever is overtaken |
| FleetSafety.OneTermWhenInOrder | packages/io-core-adapter-pgboss/src/scheduler.ts:229-274 | if every process hears its answers in the order they were read, it creates at most one instance, so the promotion branch never follows a demotion |
| FleetOvertaken.SupersededProcessPromoted | packages/io-core-adapter-pgboss/src/scheduler.ts:229-245 | a reachable run in which a demoted process of a superseded revision is promoted again |
| Schedules.ScheduleTable.UnscheduleStaleJobs | packages/io-core-adapter-pgboss/src/scheduler.ts:87-96 | removes exactly the schedules whose name is not registered and whose removal does not fail; nothing if they cannot be listed |
| Schedules.ScheduleTable.RegisterWorker | packages/io-core-adapter-pgboss/src/scheduler.ts:154-173 | one job gets its queue, its schedule and its worker in this order, up to the first call that fails |
| Schedules.ScheduleTable.RegisterWorkers | packages/io-core-adapter-pgboss/src/scheduler.ts:170-172 | upserts exactly the jobs whose calls up to the upsert do not fail, whatever happens to the others |
| Schedules.ScheduleTable.StartAsOwner | packages/io-core-adapter-pgboss/src/scheduler.ts:200-226 | succeeds if and only if no remote call fails; then exactly the registered schedules are stored (names, crons, data and time zones), whatever was before; a failed start loses no registered schedule |
| Schedules.UpsertOrderIrrelevant | packages/io-core-adapter-pgboss/src/scheduler.ts:217-219 | the order of the concurrent upserts does not matter |
| ScheduleWrites.TableIffUndisturbed | packages/io-core-adapter-pgboss/src/scheduler.ts:87-96 | when start-ups interleave call by call, the table that one of them leaves is exactly its jobs if and only if no other made the last write to some name since its read, and another one than its jobs want |
| FleetSchedules.StoredIffUndisturbed | packages/io-core-adapter-pgboss/src/scheduler.ts:200-226 | the same in every run of the whole deployment, for every start-up that has made all its writes |
| FleetSchedules.WritersHeardOwnership | packages/io-core-adapter-pgboss/src/scheduler.ts:200-274 | every write to the schedules is by a process that heard a true ownership check, so one that heard none never changes them |
| FleetOverwritten.FollowsFleet | packages/io-core-adapter-pgboss/src/scheduler.ts:200-274 | every run of the deployment is one with schedules, in which each start-up that succeeds makes all its writes first |
| FleetOverwritten.SupersededOverwrites | packages/io-core-adapter-pgboss/src/scheduler.ts:229-245 | whatever is registered, the latest revision can have made all its writes, and the table then end up with exactly the jobs of a superseded one |
| FileNames.LessByCodeUnits | packages/io-core-adapter-drizzle/src/versioned-migrator.ts:28 | names are ordered by the UTF-16 code units of JavaScript's sort, surrogates included |
| FileNames.LessTotal | packages/io-core-adapter-drizzle/src/versioned-migrator.ts:28 | of two file names exactly one sorts first, unless they are equal |
| FileNames.LessTransitive | packages/io-core-adapter-drizzle/src/versioned-migrator.ts:28 | the order of file names is transitive |
| FileNames.SortSorts | packages/io-core-adapter-drizzle/src/versioned-migrator.ts:28 | sorting gives a strictly ascending permutation of the distinct names of a directory |
| Migrator.Files | packages/io-core-adapter-drizzle/src/recurrent-migrator.ts:35-41 | the files a run goes through: exactly the names that end in `.sql`, for a recurrent run those that also begin with `R__`, sorted, and none if the directory is missing |
| Migrator.Session.RunVersionedMigrations | packages/io-core-adapter-drizzle/src/versioned-migrator.ts:17-68 | succeeds if and only if there is no file, or lock, table and unlock succeed and no file stops the run; then every file is recorded; only a failed unlock leaves the lock |
| Migrator.Session.ApplyVersioned | packages/io-core-adapter-drizzle/src/versioned-migrator.ts:43-62 | the loop does what the recursive specification says, for any failing look-ups, reads and applications |
| Migrator.Session.RunRecurrentMigrations | packages/io-core-adapter-drizzle/src/recurrent-migrator.ts:24-99 | likewise for the recurrent phase, whose success leaves the checksum of every file equal to that of its content |
| Migrator.Session.ApplyRecurrent | packages/io-core-adapter-drizzle/src/recurrent-migrator.ts:53-93 | the loop does what the recursive specification says, for any failing reads, look-ups, applications and records |
| Migrator.Session.RunAllMigrations | packages/io-core-adapter-drizzle/src/migrator.ts:17-41 | succeeds if and only if its lock and unlock and both phases do; then every versioned file is recorded and every recurrent checksum is its content's; if the versioned phase fails at any point, the recurrent files are untouched; no exit leaves a lock |
| Migrations.VersionedStopsAt | packages/io-core-adapter-drizzle/src/versioned-migrator.ts:39-65 | a run stops at the first file it cannot get past (its look-up fails, or it is not recorded and fails): all before it are recorded, it and all after it are untouched, and what was applied is exactly the unrecorded files before it, in order |
| Migrations.VersionedKeepsOnce | packages/io-core-adapter-drizzle/src/versioned-migrator.ts:43-62 | a run keeps a file recorded if and only if it was applied, and applied at most once |
| Migrations.VersionedOkIff | packages/io-core-adapter-drizzle/src/versioned-migrator.ts:43-62 | a run ends well if and only if no file stops it, and then every file is recorded; records are never lost, and the recurrent ones are left alone |
| Migrations.RecurrentConverges | packages/io-core-adapter-drizzle/src/recurrent-migrator.ts:53-93 | a successful run applies exactly the sorted files whose recorded checksum differs from the content's, and leaves every record equal to its file |
| Migrations.RecurrentOkIff | packages/io-core-adapter-drizzle/src/recurrent-migrator.ts:53-93 | a run ends well if and only if every file can be read and looked up, and is unchanged or can be applied and recorded; then every record is its file's |
| Migrations.RecurrentStopsAt | packages/io-core-adapter-drizzle/src/recurrent-migrator.ts:53-93 | a run stops at the first file it cannot get past: the changed files before it are applied and recorded, it is applied if only its record failed, and nothing after it is touched |
| Migrations.RerunAppliesNothing | packages/io-core-adapter-drizzle/src/recurrent-migrator.ts:58-64 | a rerun on the same folder applies nothing, whatever fails, and ends well exactly if it can read every file and its record |
| Migrations.ContentConvergesIffUnmasked | packages/io-core-adapter-drizzle/src/recurrent-migrator.ts:53-93 | a successful run leaves the database at a file's content if and only if no matching record hides a content applied later and never recorded |
| Migrations.RevertAfterInterruptionIsMissed | packages/io-core-adapter-drizzle/src/recurrent-migrator.ts:84-92 | a concrete case of that: apply, die before recording, go back to the first content |
| Migrator.PipelineIdempotent | packages/io-core-adapter-drizzle/src/migrator.ts:17-41 | a whole pipeline that succeeded changes nothing when run again on the same folders |
| MigrationSafety.VersionedExactlyOnce | packages/io-core-adapter-drizzle/src/versioned-migrator.ts:43-62 | over any runs, crashes, concurrent runners and even dropped locks, each versioned file is applied at most once, and is recorded if and only if it was |
| MigrationSafety.StoppedRunLeavesPrefix | packages/io-core-adapter-drizzle/src/versioned-migrator.ts:43-62 | a run standing at, failed at or dead at a file has all earlier files recorded and has committed no later one; it has committed that file if and only if the reply to that commit was lost |
| MigrationSafety.CompletedRunRecordsAll | packages/io-core-adapter-drizzle/src/versioned-migrator.ts:39-65 | a run that ends well has every file of its folder recorded |
| MigrationSafety.NoFailureIsSwallowed | packages/io-core-adapter-drizzle/src/migrator.ts:17-41 | over every interleaving, a run of which any statement failed, the unlocks included, or took effect unheard, never ends well |
| MigrationSafety.ApplyLogSorted | packages/io-core-adapter-drizzle/src/versioned-migrator.ts:28-62 | if every folder's new files sort after those applied and no session is replaced in the versioned part, the whole apply log over all runs is sorted |
| MigrationSafety.PartsExclude | packages/io-core-adapter-drizzle/src/migrator.ts:7-9 | two runs are inside the same locked part only if one of them had its lock dropped |
| MigrationSafety.PipelinesSerialise | packages/io-core-adapter-drizzle/src/migrator.ts:24-38 | while one pipeline is between its lock and its unlock, a step of any other run changes the database or enters only if that run is a phase called alone, or one of the two had its session replaced |
| MigrationSafety.EntersIffLost | packages/io-core-adapter-drizzle/src/migrator.ts:24-38 | while a run is inside a part and no third run holds its lock, a waiting run can enter beside it if and only if the first one's lock was dropped |
| MigrationOverlap.InterleavesIff | packages/io-core-adapter-drizzle/src/migrator.ts:7-38 | while a pipeline is between its lock and its unlock and no third run has the lock, a run that has yet to get a lock and has something to apply can change the database if and only if it is a phase called alone, or the pipeline lost the lock |
| MigrationOverlap.PhaseAloneOverlaps | packages/io-core-adapter-drizzle/src/migrator.ts:24-38 | a reachable state, no lock lost, in which a pipeline stands between its two phases and a versioned phase called alone commits a file |
| MigrationOverlap.DroppedLockOverlaps | packages/io-core-adapter-drizzle/src/migrator.ts:24-38 | the same with another pipeline, after the session of the first was replaced |
| MigrationSafety.EndedHoldsNothing | packages/io-core-adapter-drizzle/src/migrator.ts:24-38 | a run that returned, threw or died holds no lock, but for a phase called alone whose unlock failed on a session that lives on; a pipeline never does |
| MigrationSafety.StuckIffBlocked | packages/io-core-adapter-drizzle/src/migrator.ts:24-38 | no run can acquire its lock or execute its statement if and only if every live one waits for a lock kept by a run that is over, or for a run that does |
| MigrationSafety.NoDeadlock | packages/io-core-adapter-drizzle/src/migrator.ts:24-38 | so unless a run that is over kept a lock, some live run can take its next step |
| MigrationMishaps.UnheardCommitIsRecorded | packages/io-core-adapter-drizzle/src/versioned-migrator.ts:55-61 | a run that ends failing at a file which it has committed and recorded |
| MigrationMishaps.KeptLockBlocks | packages/io-core-adapter-drizzle/src/versioned-migrator.ts:39-65 | a reachable state in which a phase called alone is over and holds its lock, and no run can go on |
| RecurrentSafety.DirtyFilesBounded | packages/io-core-adapter-drizzle/src/recurrent-migrator.ts:58-93 | for any choice of databases, under crashes, lost replies, `-- @database` overrides and concurrent runners, if no session is replaced in the recurrent part, the files whose content last applied there differs from their record never outnumber the runs interrupted after applying one there, plus the one in progress |
| RecurrentSafety.AtMostOneRecording | packages/io-core-adapter-drizzle/src/recurrent-migrator.ts:49-96 | while every run in the recurrent part holds its lock, at most one stands between applying a file and recording it |
| RecurrentSafety.MaskedOnlyIfInterrupted | packages/io-core-adapter-drizzle/src/recurrent-migrator.ts:58-92 | over every run, a record hides another content applied since only if some run was interrupted at that very file or is there now, or some run lost the recurrent lock inside its part; for a hash that tells the two contents apart |
| RecurrentSafety.CompletedRunRecorded | packages/io-core-adapter-drizzle/src/recurrent-migrator.ts:53-93 | over every interleaving, a run with a recurrent phase that ends well had each file of its folder recorded as it is at some moment |
| MigrationMishaps.MaskedByLostLock | packages/io-core-adapter-drizzle/src/recurrent-migrator.ts:49-96 | a reachable state in which a record does so and no run was interrupted |
| Utf8.WellFormedEncodes | packages/io-core-adapter-inps-ced/src/client.ts:74 | the well-formed sequences of the reference decoder are exactly the encodings of scalar values |
| Utf8.EncodeWellFormed | packages/io-core-adapter-inps-ced/src/client.ts:74 | and every scalar value's encoding is one of them |
| Utf8.DecodeEncodes | packages/io-core-adapter-inps-ced/src/client.ts:74 | decoding is a left inverse of encoding |
| Utf8.StrayReplaced | packages/io-core-adapter-inps-ced/src/client.ts:74 | a byte that no encoding begins with is one U+FFFD, where one could begin, and the rest is decoded as if it were not there |
| Utf8.CutShort | packages/io-core-adapter-inps-ced/src/client.ts:74-87 | a character cut short anywhere is one U+FFFD, and all of the text after it is kept |
| Utf8.FeedsConcat | packages/io-core-adapter-inps-ced/src/client.ts:78-81 | feeding bytes to the streaming decoder in two parts is feeding them at once |
| Utf8.DrainDecodes | packages/io-core-adapter-inps-ced/src/client.ts:78-82 | the byte-at-a-time decoder of section 8.1.1 of the WHATWG Encoding Standard gives the one-shot reference decoding of every byte sequence |
| BodyReader.TextDecoder.DecodeStreaming | packages/io-core-adapter-inps-ced/src/client.ts:80 | the pieces given so far are the text of the bytes fed so far, without a leading byte order mark |
| BodyReader.TextDecoder.DecodeEnd | packages/io-core-adapter-inps-ced/src/client.ts:82-87 | the last piece completes the one-shot text and resets the decoder |
| BodyReader.MarkDropped | packages/io-core-adapter-inps-ced/src/client.ts:74 | a byte order mark in front is no part of the text, and nothing else is dropped |
| BodyReader.ReadBodyText | packages/io-core-adapter-inps-ced/src/client.ts:64-90 | for every byte sequence and every chunking, the text is the one-shot decoding of the bytes received, on the clean and on the broken path |
| BodyReader.CustomFetch | packages/io-core-adapter-inps-ced/src/client.ts:135-182 | without a body there is no data; another status than 2xx gives what the parser makes of the bytes received, however the stream ended; a 2xx body that was fully received, or whose stream broke with a falsy reason, gives its data or is malformed, and any other throws what broke it |
| BodyReader.OutcomeIgnoresChunking | packages/io-core-adapter-inps-ced/src/client.ts:143-180 | two responses that differ only in how the same bytes were chunked have the same outcome |
| BodyReader.TruncatedSuccessAccepted | packages/io-core-adapter-inps-ced/src/client.ts:177 | for every parser that accepts what arrived, a stream that breaks with a falsy reason passes for a complete one |
| CivilDate.FormulaAgrees | apps/ced-card-request-fe/src/features/request-form/date.ts:7 | the year-by-year day count agrees with the closed form of section 21.4.1 of ECMA-262 |
| CivilDate.MonthTable | apps/ced-card-request-fe/src/features/request-form/date.ts:7 | the months of a year begin where the table of section 21.4.1 of ECMA-262 says |
| CivilDate.CivilOfDay | apps/ced-card-request-fe/src/features/request-form/date.ts:7 | every valid date is the date of its own day number |
| CivilDate.DayOfCivil | apps/ced-card-request-fe/src/features/request-form/date.ts:7 | every day number is that of its own date |
| FormStrings.SplitFields | apps/ced-card-request-fe/src/features/request-form/date.ts:3 | splitting the form text gives back its three fields |
| FormStrings.SpeltOut | apps/ced-card-request-fe/src/features/request-form/date.ts:7-14 | the texts of a date, in the form and as its midnight UTC, character by character |
| FormStrings.IsoYearReads | apps/ced-card-request-fe/src/features/request-form/date.ts:7 | a year is written with four digits, or signed with six if it has more or is negative, and reads back as itself |
| FormStrings.IsoToForm | apps/ced-card-request-fe/src/features/request-form/date.ts:10-15 | a date-time with a year of four digits is shown as its date |
| FormDate.SentAsMidnight | apps/ced-card-request-fe/src/features/request-form/date.ts:1-8 | every real date from year 0100 on is sent as midnight UTC of that very day |
| FormDate.IncompleteIsEmpty | apps/ced-card-request-fe/src/features/request-form/date.ts:2-5 | without all three fields nothing is sent |
| FormDate.SentIffInTime | apps/ced-card-request-fe/src/features/request-form/date.ts:1-8 | three fields are sent if and only if they convert to finite numbers and their month and day are time values; else the conversion throws |
| FormDate.TimeEnds | apps/ced-card-request-fe/src/features/request-form/date.ts:7 | the time values end with 13 September 275760 and begin with 20 April -271821 |
| FormDate.TowardsZero | apps/ced-card-request-fe/src/features/request-form/date.ts:7 | fractions of the fields are dropped, whatever the sign |
| FormDate.OtherTextIsShown | apps/ced-card-request-fe/src/features/request-form/date.ts:10-15 | text that is no date-time is shown as it is |
| FormDate.RoundTripIffFromYear100 | apps/ced-card-request-fe/src/features/request-form/date.ts:1-15 | a valid zero-padded date with a year of four digits is shown again unchanged if and only if its year is at least 0100 |
| FormDate.EarlyDateRedisplayed | apps/ced-card-request-fe/src/features/request-form/date.ts:7 | a year from 0000 to 0099 comes back nineteen centuries later |
| FormDate.OutOfRangeNormalises | apps/ced-card-request-fe/src/features/request-form/date.ts:1-15 | fields that convert to finite numbers, in range or not, negative or with fractions, whose day number falls in a year from 0100 to 9999, are shown as the real date of that day, which is then stable, if the month they name begins within the time range, and are no date if it does not |
| FormDate.FebruaryRunsOver | apps/ced-card-request-fe/src/features/request-form/date.ts:7 | 31/02 is shown as 02/03 or 03/03 |
| IsoDates.TextOrderIsCalendarOrder | apps/ced-portal-be/src/domain/entities/opportunity.ts:164-166 | comparing `yyyy-MM-dd` strings is comparing the dates, for all valid dates of years 0000 to 9999 |
| DisplayStatus.MovesForward | apps/ced-portal-be/src/domain/entities/opportunity.ts:157-168 | for increasing reference dates a published opportunity goes scheduled, scheduled_suspension, published, and never back |
| DisplayStatus.ShownOnCalendar | apps/ced-portal-be/src/domain/entities/opportunity.ts:157-168 | the status derived from strings, told by day numbers |
| DisplayStatus.ShownAsStored | apps/ced-portal-be/src/domain/entities/opportunity.ts:163 | without a reference date, and for one that is not published, the status is shown as it is stored |
| DisplayStatus.VisibleIffNotScheduled | apps/ced-browser-be/src/adapters/outbound/drizzle/drizzle-opportunity.repository.ts:58-63 | the browser's query finds a published opportunity exactly if the portal does not show it as scheduled and it has not ended |
| DisplayStatus.StaysVisible | apps/ced-browser-be/src/adapters/outbound/drizzle/drizzle-opportunity.repository.ts:58-63 | without an end date it stays found from then on, whatever suspension is scheduled |
| FimsProtocol.UpperIsTestUser | packages/io-core-domain/src/utilities/test-users.ts:7-17 | a fiscal code and its upper-case form are test users together, whatever the upper case of each character, if that is upper case |
| FimsProtocol.TestUsersAreTheListed | packages/io-core-domain/src/utilities/test-users.ts:7-17 | with the hashes of some upper-case codes as its list, exactly those with one of them, in whatever case, are test users, if the hash tells them apart |
| FimsLogin.SessionsAreAudited | packages/io-core-adapter-fims/src/application/use-cases/handle-callback.use-case.ts:43-114 | in every reachable state each session has its trail in the log from before it was stored: nonce taken and its delete asked for, code exchanged for this user, exchange logged and, unless a test user, Lollipop verified and logged; or a test session logged for a test user equal to its code up to upper-casing |
| FimsLogin.AuditsOnlyAppended | packages/io-core-adapter-fims/src/application/use-cases/handle-callback.use-case.ts:66-102 | the audit log is only ever appended to |
| FimsLogin.TokensHaveSessions | packages/io-core-adapter-fims/src/application/use-cases/exchange-session-id.use-case.ts:17-26 | a token handed out belongs to a session in the store |
| FimsLogin.OutlivesIffStoredLate | packages/io-core-adapter-fims/src/application/use-cases/session.helpers.ts:21-40 | a live OTP leads to the session its own request stored before it, and can outlive it if and only if the two were stored more than sessionTtl - otpTtl apart |
| FimsLogin.AcceptedSessionIsLive | packages/io-core-adapter-fims/src/application/use-cases/session.helpers.ts:21-40 | with the default lifetimes and a delay of at most 1740 seconds, an OTP is accepted only while its session is live |
| FimsLogin.TakenAgain | packages/io-core-adapter-fims/src/application/use-cases/exchange-session-id.use-case.ts:18-25 | a nonce or OTP can be taken again only while its last taker has yet to delete it, or if that delete failed |
| FimsLogin.AcceptedOnce | packages/io-core-adapter-fims/src/application/use-cases/exchange-session-id.use-case.ts:17-26 | with no two requests between reading and deleting the same key and no failed delete, each nonce and each OTP is accepted by one request at most |
| FimsLogin.NonceMintsOneLogin | packages/io-core-adapter-fims/src/application/use-cases/handle-callback.use-case.ts:49-58 | under the same condition all sessions of logins that used one nonce were stored by the same request |
| FimsLogin.NextReaderTakes | packages/io-core-adapter-fims/src/application/use-cases/exchange-session-id.use-case.ts:18-24 | a live nonce or OTP is taken by the next request that reads it, whoever took it before |
| FimsLogin.OverlapTakesTwice | packages/io-core-adapter-fims/src/application/use-cases/handle-callback.use-case.ts:49-58 | two requests that read a live nonce or OTP before either deletes it both take it |
| FimsLogin.FailedDeleteTakesTwice | packages/io-core-adapter-fims/src/application/use-cases/handle-callback.use-case.ts:49-58 | one whose delete fails while it is live is taken again, without any overlap |
| FimsLogin.OverlapRedeemsTwice | packages/io-core-adapter-fims/src/application/use-cases/exchange-session-id.use-case.ts:17-26 | whenever an OTP is live, two overlapping requests can both be given its token although both deletes succeed |
| FimsLogin.TestLogin | packages/io-core-adapter-fims/src/application/use-cases/create-test-session.use-case.ts:30-53 | a live OTP is reachable for every test user |
| FimsRequests.ServedAt | packages/io-core-adapter-fims/src/application/use-cases/handle-callback.use-case.ts:43-114 | at every moment a call is at an await of its own use case, with the data it was called with; it ends refused or with the answer of its use case |
| FimsRequests.SessionsAreTheCallers | packages/io-core-adapter-fims/src/application/use-cases/handle-callback.use-case.ts:43-114 | every session a call stored is its caller's: for a callback of the right issuer the user that the exchange of its very code gave, who is a test user unless the callback brought Lollipop headers; for a test user the data given, the code in upper case; no other call stores any |
| FimsRequests.LoggedIsTrailed | packages/io-core-adapter-fims/src/application/use-cases/handle-callback.use-case.ts:66-102 | each step logs what its request did, once, and nothing else is ever logged |
| FimsRequests.UrlCarriesNonce | packages/io-core-adapter-fims/src/application/use-cases/initiate-auth.use-case.ts:23-35 | an authorization URL carries a state and a nonce that its own request stored together before |
| FimsRequests.RedirectCarriesOtp | packages/io-core-adapter-fims/src/application/use-cases/session.helpers.ts:21-41 | a redirect carries the identifier of an OTP that its own request stored before, which leads to the session that the same request stored, and is not the token of that session |
| FimsRequests.RedirectedIffStored | packages/io-core-adapter-fims/src/application/use-cases/session.helpers.ts:24-41 | a login about to store its session ends in a redirect exactly if the session and then the OTP are stored |
| FimsRequests.OtpLeadsToItsSession | packages/io-core-adapter-fims/src/application/use-cases/session.helpers.ts:32-36 | an OTP in the store leads to the session of its own login, which is in the store |
| FimsRequests.RedirectIsRedeemed | packages/io-core-adapter-fims/src/application/use-cases/exchange-session-id.use-case.ts:17-26 | whoever exchanges the identifier of a redirect and gets past reading it found it live and is given the token of that very session, however the delete ends |
| FimsRequests.RedeemedOnlyIfLive | packages/io-core-adapter-fims/src/application/use-cases/exchange-session-id.use-case.ts:17-24 | an exchange gets past reading if and only if the OTP is live then |
| FimsRequests.Lifetimes | packages/io-core-adapter-fims/src/application/use-cases/session.helpers.ts:21-40 | sessions live for 1800 seconds and nonces and OTPs for 60, or as many as configured |
| Fims.ServeIsRun | packages/io-core-adapter-fims/src/application/use-cases/handle-callback.use-case.ts:43-114 | an uninterrupted request is a run of the protocol, from every reachable state |
| Fims.SessionStore.InitiateAuth | packages/io-core-adapter-fims/src/application/use-cases/initiate-auth.use-case.ts:23-35 | answers a URL with the state and nonce that it stored first, if and only if both the store and the identity provider succeed; leaves what an uninterrupted run leaves |
| Fims.SessionStore.HandleCallback | packages/io-core-adapter-fims/src/application/use-cases/handle-callback.use-case.ts:43-64 | redirects if and only if the issuer is right, the nonce is read live, the exchange succeeds and so does the login; the nonce is deleted whatever comes after |
| Fims.SessionStore.LogIn | packages/io-core-adapter-fims/src/application/use-cases/handle-callback.use-case.ts:66-114 | redirects if and only if the exchange is logged, a test user or the headers verified and logged, and session and OTP stored; the OTP then leads to the session of this user |
| Fims.SessionStore.BuildSessionAndRedirect | packages/io-core-adapter-fims/src/application/use-cases/session.helpers.ts:13-41 | stores the session and then, only if that succeeded, an OTP that leads to it; redirects with the identifier of the OTP if and only if both succeed |
| Fims.SessionStore.CreateTestSession | packages/io-core-adapter-fims/src/application/use-cases/create-test-session.use-case.ts:30-53 | redirects if and only if the user is a test user and log, session and OTP succeed; the session has the upper-case code and the names given |
| Fims.SessionStore.ExchangeSessionId | packages/io-core-adapter-fims/src/application/use-cases/exchange-session-id.use-case.ts:17-26 | a live OTP gives its token, is deleted, and it does not matter how the delete ends; any other is refused and changes nothing |
| Reconnection.OneReconnection | packages/io-core-adapter-redis/src/client.ts:95-118 | in every interleaving at most one reconnection runs, and it is the one in `reconnectPromise` |
| Reconnection.AtMostOneOpen | packages/io-core-adapter-redis/src/client.ts:95-118 | clients obtained and not asked to close never exceed one, and are none during a reconnection, with or without closes by the caller |
| Reconnection.SameOutcome | packages/io-core-adapter-redis/src/client.ts:99-117 | all callers waiting on one reconnection get the same outcome, whenever they hear of it |
| Reconnection.StartsIffIdleAndDown | packages/io-core-adapter-redis/src/client.ts:95-103 | a command starts a reconnection if and only if the client is not ready and no attempt is unsettled, so a failed one can be retried |
| Reconnection.WaiterCanAdvance | packages/io-core-adapter-redis/src/client.ts:99-117 | a waiting command is never stuck |
| Reconnection.GivenClient | packages/io-core-adapter-redis/src/client.ts:95-118 | a command that is given a client gets the current one, ready then, or the one that the attempt it waited for connected and made current |
| Reconnection.ReadyIsGiven | packages/io-core-adapter-redis/src/client.ts:95-98 | a command gets the current client at once if it is ready, and waits otherwise |
| Reconnection.OpenAfter | packages/io-core-adapter-redis/src/client.ts:99-121 | exactly what opens and closes clients; the caller's close does not cancel an attempt in flight, which still opens one |
| Reconnection.ClosedYetOpen | packages/io-core-adapter-redis/src/client.ts:99-121 | a run in which a client is open and ready after the caller's close |
| ResilientClient.ResilientClient.GetClient | packages/io-core-adapter-redis/src/client.ts:95-118 | a ready client is handed out and nothing else changes; a running attempt is shared; otherwise the old client is asked to close and an attempt begins |
| ResilientClient.ResilientClient.ConnectSettled | packages/io-core-adapter-redis/src/client.ts:104-115 | a new client replaces the old one and the attempt is cleared; a failure clears it too |
| ResilientClient.ResilientClient.Reconnect | packages/io-core-adapter-redis/src/client.ts:99-117 | a whole reconnection of the object, from every reachable state: a command that finds the client down ends up with one open client or none, and the next may try again |
| ResilientClient.ResilientClient.CallerClosed | packages/io-core-adapter-redis/src/client.ts:121 | closes whatever client is current |
| ModiCaches.DispatcherAge | packages/io-core-adapter-modi/src/signed-fetch.ts:69-103 | in every interleaving a request goes out with mTLS material exactly if all three secret names are set, and that was fetched within the 24 hours before its cache look-up |
| ModiCaches.SigningAge | packages/io-core-adapter-modi/src/signed-fetch.ts:109-129 | so were signing credentials that were cached at the look-up or fetched by the call itself, as in P2 they always are; for the others see SignsWithLastStored |
| ModiCaches.OwnIffNotOvertaken | packages/io-core-adapter-modi/src/signed-fetch.ts:116-128 | in P3 a call signs with the credentials it fetched if and only if no other call stored its own while this one waited for the CA |
| ModiCaches.SignsWithLastStored | packages/io-core-adapter-modi/src/signed-fetch.ts:116-128 | a P3 call that fetched credentials signs with those of the last call that stored any before its CA arrived; they are within the 24 hours if and only if that call's look-up falls in the 24 hours before its own |
| ModiCaches.OvertakenIsNotFresh | packages/io-core-adapter-modi/src/signed-fetch.ts:116-128 | a run in which a call signs with credentials looked up after its own look-up |
| ModiCaches.VerifiesWithCaIff | packages/io-core-adapter-modi/src/signed-fetch.ts:216-226 | a P3 response is verified with a CA if and only if a CA fetch has succeeded before it arrives |
| ModiCaches.VerifiesWithCa | packages/io-core-adapter-modi/src/signed-fetch.ts:122-126 | when the response finds no other call under way, and no CA fetch has failed, there is a CA |
| ModiCaches.ResponsesAreChecked | packages/io-core-adapter-modi/src/signed-fetch.ts:162-233 | every response that reaches the caller: the digest sent is `SHA-256=` and the hash of the body, the request's JWT claims the office, type, digest and user that were sent, each as what it is, and a P3 response was verified with a fetched CA and answers exactly that digest |
| ModiCaches.DigestCoversIff | packages/io-core-adapter-modi/src/signed-fetch.ts:162-178 | the digest is that of the body sent if and only if the body is a string, Buffer, ArrayBuffer or Uint8Array, or is empty |
| ModiCaches.NoAnswerUntilExpiry | packages/io-core-adapter-modi/src/signed-fetch.ts:116-128 | once credentials are cached, no CA is known and no call is fetching any, no P3 call is answered before those credentials expire |
| ModiCaches.FirstCallStrands | packages/io-core-adapter-modi/src/signed-fetch.ts:116-128 | a run that leads there: the first call gets its credentials and fails to fetch the CA |
| ModiSigningCa.VerifiesWithLastCa | packages/io-core-adapter-modi/src/signed-fetch.ts:121-126 | a P3 response is verified with the CA of the last fetch that succeeded before it arrived; that CA is younger than 24 hours then if and only if the call that fetched it stored its credentials within the 24 hours before |
| ModiSigningCa.StaleCaAccepted | packages/io-core-adapter-modi/src/signed-fetch.ts:121-226 | a run in which a response is accepted with a CA older than 24 hours, whose refresh failed |
| ModiRequests.MessagesAreTheCallers | packages/io-core-adapter-modi/src/signed-fetch.ts:135-193 | at every moment of a call, and in its response, the message has the user and the body the caller gave, and the office and content type it gave or else the defaults |
| ModiRequests.RefusedIffNoUser | packages/io-core-adapter-modi/src/signed-fetch.ts:147-155 | a call is refused at once, with nothing fetched, if and only if its caller set no user |
| ModiRequests.FailureEndsCall | packages/io-core-adapter-modi/src/signed-fetch.ts:131-240 | whatever a call waits for, if it fails the call fails |
| ModiRequests.SuccessGoesOn | packages/io-core-adapter-modi/src/signed-fetch.ts:131-240 | and if it succeeds the call goes on to the next thing its profile waits for, after the last of these to a response, unless a P3 response has no JWT, no CA is known, or the JWT answers another digest |
| ModiRequests.NoFetchWhileCached | packages/io-core-adapter-modi/src/signed-fetch.ts:69-113 | nothing that is cached and has not expired is fetched |
| ModiRequests.FetchedOnceADay | packages/io-core-adapter-modi/src/signed-fetch.ts:69-129 | once mTLS material or credentials were fetched, no call begins such a fetch for 24 hours from the beginning of that one, unless another succeeded in between |
| ModiRequests.CachedIsUsed | packages/io-core-adapter-modi/src/signed-fetch.ts:71-111 | a call that finds a dispatcher or credentials cached uses those |
| SignedFetch.ServeIsRun | packages/io-core-adapter-modi/src/signed-fetch.ts:131-240 | an uninterrupted call is a run of the protocol, from every reachable state |
| SignedFetch.SignedFetch.GetSigningCredentials | packages/io-core-adapter-modi/src/signed-fetch.ts:109-129 | serves the cache or refreshes it; ends as an uninterrupted run of the protocol does, with credentials of its own |
| SignedFetch.SignedFetch.RefreshSigning | packages/io-core-adapter-modi/src/signed-fetch.ts:113-128 | credentials that were fetched are cached for 24 hours, whatever comes of the CA; they are given if and only if the CA, where needed, was fetched too |
| SignedFetch.SignedFetch.RefreshCa | packages/io-core-adapter-modi/src/signed-fetch.ts:121-126 | a failed CA fetch fails the call and leaves the CA as it was |
| SignedFetch.SignedFetch.GetDispatcher | packages/io-core-adapter-modi/src/signed-fetch.ts:69-103 | serves the cache; caches for 24 hours that there is no dispatcher, or a new one; gives one exactly if the material is not needed or can be fetched |
| SignedFetch.SignedFetch.Receive | packages/io-core-adapter-modi/src/signed-fetch.ts:213-236 | a response is accepted if and only if it arrives and, in P3, has a JWT that verifies with the CA of that moment and answers the digest sent |
| SignedFetch.SignedFetch.Call | packages/io-core-adapter-modi/src/signed-fetch.ts:131-240 | what is answered is an answer to the caller's own request, and there is an answer if and only if a user was set and everything the profile waits for succeeds; the rest is the uninterrupted run |

## Left out

- Schedules.ScheduleTable.StartAsOwner: the table is told as it is once every call has come back, also those that go on after another failed.
- FleetSchedules.StoredIffUndisturbed: a remote call that fails is one that never takes effect.
- MigrationSafety.NoDeadlock: a lock that is acquired although its reply is lost counts as not acquired, since the session that lost it is gone.
- FormDate.OutOfRangeNormalises: the time range is that of ECMA-262, section 21.4.1, which engines may exceed for the month; numbers are exact, and the rounding of fields with more digits than a double holds is not modelled.
- BodyReader.ReadBodyText: a body that is no stream is read at once, and a rejected `text()` is not modelled.
- FimsLogin.AcceptedOnce: random identifiers are taken to be distinct.
- FimsLogin.OutlivesIffStoredLate: times are those at which the store takes a write, and the store's clock is the only one.
- EnvironmentStop.ClosesUnderCheckIff: what closing a pool does to a query under way is up to the database client; a check may still be answered either way.
- ModiCaches.DispatcherAge: the clock never runs backwards; the two fetches of the mTLS material, awaited together, are one step.
- Fims.SessionStore.HandleCallback: runs uninterrupted; what overlapping requests do is in `FimsProtocol`, and the same goes for the other methods of that class and for `SignedFetch`.
- SchedulerProtocol.InstanceLifecycle: `start` is called once, as the source's only caller does, and only the stop request of an instance is modelled, not its shutdown.
- Reconnection.SameOutcome: the microtask hops between a promise settling and its callers resuming are one step per caller.
- pg-boss, PostgreSQL, Redis clusters, OpenID Connect, Key Vault and undici: they succeed, fail or return a value at will.
- Queue options, polling, heartbeats and the real duration of timers.
- Cryptography: hashes are arbitrary functions, signatures and verifications succeed or fail at will.
- Logging and telemetry, but for the count of demotions; configuration parsing and identifier checks.
- Time zones: the application date of an instant is a given date.
- The readiness check itself; `JobsScheduler` takes its answer.
- Where else a session is read or deleted; nothing deletes one here before it expires.
- The environment router: each instance has its own state, so its routing law would only add easy members.
- User interfaces, other HTTP adapters, and the queries beyond the one visibility filter.
