# BlakPath: schema migrations, worker gates, schedules and the audit backstop

A Dafny model of the parts of BlakPath whose correctness lies in what happens
between steps: a migration runner that can die after any committed effect, a
worker whose awaited calls interleave with status changes, promotions and
crashes, a schedule reconciler that several processes run at once, the text
scanners that releases depend on, and the privilege program that keeps the audit
trail append-only.

Run `dafny verify dfyconfig.toml` in this directory to check it.

## How it is laid out

| files | what they hold |
|---|---|
| `Common.dfy`, `MigrationText.dfy` | `Option`, string search; comment stripping, statement splitting, the no-transaction test |
| `MigrationModel.dfy`, `MigrationInterleaving.dfy`, `MigrationRecovery.dfy`, `MigrationTears.dfy`, `MigrationWatermark.dfy` | one migration session step by step with its invariant; any number of sessions and the advisory lock; what is true of every crash schedule; what recovery asks of a statement without a transaction; the role of `when` |
| `MigrationRunner.dfy` | `runMigrations` and `applyMigration` as loops over tables updated in place, refined against the step model |
| `Lexemes.dfy`, `MigrationLint.dfy`, `SchemaSafety.dfy` | what a pattern sees of a text; the linter on files and statements; schemas, queries, and which changes break them |
| `TenantGates.dfy`, `PauseLedger.dfy` | the worker's pure decisions; the pause ledger and the promotion loop as a class |
| `WorkerModel.dfy`, `WorkerLog.dfy` | worker processes, queues and tenants as a state machine over single awaited calls, with a log of what happened |
| `WorkerPlaces.dfy`, `WorkerProgress.dfy`, `WorkerAttempts.dfy`, `WorkerSpending.dfy`, `WorkerLetters.dfy`, `WorkerGates.dfy`, `WorkerLedger.dfy`, `WorkerBalance.dfy` | who holds which job; that no job is stuck; attempt accounting, for a job and for an activation; dead letters; gate order; ledger conservation, and of its notes |
| `KeyHealthLoop.dfy` | the timer that drives promotion |
| `WorkerHandler.dfy` | the handler as the code runs it, with its nested gates and `try` blocks, refined against the state machine |
| `Scheduler.dfy`, `SchedulerRace.dfy` | the reconciler over a paged store; reconcilers interleaved |
| `DeployTokens.dfy`, `ReleaseJob.dfy`, `ImagePins.dfy` | the deploy token scanner; the two-pass rendering of the migrate job; the image pins of a kustomization |
| `AuditGuard.dfy` | role names, grants by grantor, triggers and append-only traces |

Runs are sequences of actions. "Every run" means every finite sequence, and a
crash, a status change or another process's step may stand anywhere in it.

## What is assumed

- A Postgres transaction is atomic, and a session's advisory lock is dropped
  when the session dies. A failed or timed-out statement counts as a crash; one
  that runs outside a transaction may leave half of its effect.
- The journal only grows from release to release; its file hashes may collide.
- For the crash-recovery theorem, running an outside-transaction statement again
  is the same as running it once, after the whole of it and after half of it.
  `SafeExactly` shows that recovery needs both.
- The migrating role owns the tables or is a superuser, so its GRANT and REVOKE
  are the owner's. Which unquoted names the server's grammar refuses for a role
  is a parameter.
- BullMQ: `DelayedError` and `RateLimitError` spend no attempt, `promote` throws
  on a job that is not delayed (and may throw after moving one), an active job cannot be removed, and a killed
  active job returns to waiting without spending an attempt. An error of a
  handler whose job has lost its lock spends none either.
- A sweep resumes a tenant at most once and waits for it, and there is one sweep
  in flight per process (`OneSweepInFlight`), so a process promotes for one
  tenant once at a time. `getQueue` hands out one queue object per name
  (`src/lib/queues/index.ts:62-73`).
- A listing keeps its order while one reconcile pages through it alone. The
  safety theorem about interleaved reconciles does without this.

## Where the code falls short of what it says

Each of these is a lemma below, with the exact condition under which the code
keeps its promise.

- Recovery depends on strictly increasing `when` values: `lastAt` is read once
  and compared with `<`. If one entry is not above the entry before it, a crash
  between the two makes the next run succeed without the later one, and no run
  after that ever executes it (`CrashLosesMigration`, `PassedByForGood`,
  `RecoversIffIncreasing`).
- A concurrent index build killed half-way leaves an invalid index that its retry,
  with `IF NOT EXISTS`, skips and marks done. For a statement that its retry does
  not mend, one death is enough (`TornStatementStays`, `SafeExactly`).
- `COLUMN` is optional in SQL and not in the linter's patterns, and the word
  DEFAULT excuses a required column wherever it stands. A clean statement can
  break the previous release exactly when it leaves out COLUMN; or adds a
  required column and says DEFAULT somewhere (in a quoted name, a type, a NULL
  default) or does not say NOT NULL (a primary key, a domain); or makes a column
  required by dropping its default or adding a primary key over it
  (`CleanButBreaking`, `EscapesExactly`; `QuotedDefaultEscapes` and
  `NullDefaultEscapes` are two such statements).
- The statement breakpoint starts with `--`, so whatever follows it on its own
  line is split off and run, but not read by the destructive rules
  (`SameLineIsNotRead`, `SameLineEscapes`). Two dashes inside a quoted name hide
  the rest of their line in the same way, as in
  `ALTER TABLE "a--b" DROP COLUMN c` (`QuotedDashesEscape`), and a `/*` inside a
  quoted text hides every statement up to a later `*/` (`BlockAcrossEscapes`).
- A scan that loses its key in mid-job "must not burn a scan attempt", and a
  throttled send is paused "WITHOUT consuming a retry attempt". Either costs one
  exactly when a second error follows: from a move to delayed that did not take
  effect, or from pausing the queue (`ExcusedCostsIffItThrowsAgain`,
  `PauseSpendsIffMoveFails`). A move that takes effect before it throws costs
  none, but the ledger does not hear of the job, which then wakes by its time alone.
- The dead letter of a scan is written after its last failure is committed, and
  nothing repeats the write. A scan that failed for good lacks its letter exactly
  when the write is still to come, was refused, or its process died first
  (`LetterIsMissingExactly`); a crash alone is enough (`CrashLosesLetter`).
- The platform audit schedule keeps its flag exactly when no organisation is
  called `platform` (`PlatformFlagSurvives`).
- The two image pins commute exactly when their entries do not overlap; an entry
  without a tag reads the next item's dash as one (`OverlapIsOneDash`,
  `OrderMattersIffOverlap`).
- The audit role's existence is looked up by its exact name but the name is spliced
  unquoted into the statements. From every state whose audit-table grants are the
  owner's, the role ends insert-only exactly when its name is in lower case and
  is no key word the grammar keeps or reads as someone else
  (`InsertOnlyIffPlain`): `user` is a syntax error (`UserIsNotGranted`), and
  `current_user` grants to the migrating role (`CurrentUserIsTheMigrator`).
- A REVOKE takes back only the owner's grants. A plain name ends insert-only
  exactly when nothing depends on its grant options and nobody else has granted
  it or everyone more than SELECT and INSERT (`InsertOnlyExactly`).
- The grants are separate statements, GRANT ON ALL TABLES first. A run that dies
  after it and before the revokes leaves the role able to update the audit tables
  until the next run, but for the triggers (`HalfAppliedMayUpdate`).
- `CREATE OR REPLACE TRIGGER` makes an armed trigger silent in replica sessions
  until the next statement arms it again; a run that dies between the two leaves
  that one operation open to them (`HalfInstalledIsOpen`).

- `renderMigrateJob` refuses a result in which a token is left. For pinned images
  and a git hash there never is one, so that check is dead (`RendersExactly`).

## Model

| member | source | states |
|---|---|---|
| MigrationText.StripRemovesComments | src/db/migrator.ts:123-125 | for every input the stripped text holds no `--` and no complete block comment: neither pass makes an opener for the other |
| MigrationText.StripIdempotent | src/db/migrator.ts:123-125 | stripping twice equals stripping once |
| MigrationText.BreakpointIsBorderless | src/db/migrator.ts:27 | no proper prefix of the breakpoint is a suffix of it, so occurrences never overlap |
| MigrationText.SplitUndoesJoin | src/db/migrator.ts:127-129 | splitting a join of separator-free pieces gives the pieces back, for every borderless separator |
| MigrationText.StatementsRoundTrip | src/db/migrator.ts:127-132 | a file written as non-empty, trimmed, breakpoint-free statements joined by the breakpoint is read back as exactly those |
| MigrationText.SplitYieldsStatements | src/db/migrator.ts:127-132 | every piece of every file is non-empty, trimmed and breakpoint-free |
| MigrationText.TrimmedExactly | src/db/migrator.ts:130 | what is trimmed has white space at neither end, and only a text that has none there is left as it is |
| MigrationText.MarkExactly | src/db/migrator.ts:136 | the scan finds the no-transaction mark exactly where a line begins, after any line terminator, with white space, two dashes, blanks and the mark, and no word character after it |
| Lexemes.RunsOutsideExactly | src/db/migrator.ts:134-139 | on every text a statement runs outside the transaction exactly when it has a mark line or one of the two phrases stands in a row in its code |
| MigrationModel.LoadedAsWritten | src/db/migrator.ts:127-139 | a file written as statements joined by the breakpoint loads as exactly those, each to be run outside a transaction exactly when it has a `--@no-transaction` line or its code has CONCURRENTLY, or VALIDATE CONSTRAINT, among its words |
| MigrationModel.BatchEnd | src/db/migrator.ts:372-377 | a batch is the longest run of transactional statements from its start, and never empty when it starts at one |
| MigrationModel.Pending | src/db/migrator.ts:380-386 | the cursors of a batch are exactly those in range that are not done, in ascending order; all of them when none is |
| MigrationModel.RunIsGood | src/db/migrator.ts:246-293 | every schedule of sessions and deaths, between effects or inside a statement, keeps the invariant tying history, half-done executions, recorded rows, progress rows and session position together, with the crash budget |
| MigrationInterleaving.MutualExclusion | src/db/migrator.ts:263-292 | whatever the interleaving of runners, at most one is between lock and unlock |
| MigrationInterleaving.RefusedChangesNothing | src/db/migrator.ts:264-265 | a runner that finds the lock taken stops and changes no table and not the lock |
| MigrationInterleaving.InterleavingIsSerial | src/db/migrator.ts:263-292 | every interleaving of runners commits the same history and leaves the same tables as some serial schedule of complete or crashed sessions |
| MigrationRecovery.ReplayIsFold | src/db/migrator.ts:353-388 | a history whose repeats are adjacent and harmless, and whose half-done executions are mended by the next, replays to the fold of the statements it has reached |
| MigrationRecovery.CrashRecovery | src/db/migrator.ts:246-293 | after any crashes, deaths inside a statement, restarts and races, once a run of the whole journal succeeds the schema is the fold of all statements in journal order |
| MigrationRecovery.ExecutionCounts | src/db/migrator.ts:353-398 | in every reachable state a transactional statement has committed at most once, every statement of a recorded migration has committed, and executions number at most N + f after f crashes |
| MigrationRecovery.SuccessRecordsAll | src/db/migrator.ts:284-292 | a runner about to unlock after the whole journal has every migration recorded |
| MigrationRecovery.TablesArePrefixes | src/db/migrator.ts:353-397 | recorded migrations are a prefix of the journal and progress rows are indices 0..k-1 of the first unrecorded one |
| MigrationRecovery.RerunChangesNothing | src/db/migrator.ts:284-289 | once every migration is recorded no later run executes a statement or writes a row |
| MigrationRecovery.ProgressKeysAreFree | src/db/migrator.ts:465-475 | no progress insert ever meets its own primary key, colliding hashes included |
| MigrationTears.SafeExactly | src/db/migrator.ts:362-370 | for a single statement outside a transaction recovery works for every schedule of deaths exactly when running it again is harmless and mends a half-done run |
| MigrationTears.TornStatementStays | src/db/migrator.ts:362-370 | a schedule with one death inside a statement that its retry does not mend, after which the run succeeds with another schema |
| MigrationWatermark.UndisturbedRunSucceeds | src/db/migrator.ts:284-292 | from every reachable state one undisturbed run records the whole journal and leaves no progress row |
| MigrationWatermark.CrashLosesMigration | src/db/migrator.ts:284-286 | for every journal with an entry not above its predecessor there is a crash schedule whose next run succeeds without that entry, and in no continuation of it is a statement of that entry ever executed |
| MigrationWatermark.PassedByForGood | src/db/migrator.ts:284-286 | once the watermark has passed a migration by, no later sessions, crashes or deaths inside a statement get it run |
| MigrationWatermark.RecoversIffIncreasing | src/db/migrator.ts:284-286 | recovery works for every crash schedule exactly when the `when` values strictly increase |
| MigrationRunner.Database.TryLock | src/db/migrator.ts:427-433 | the lock is granted only if it was free, and a refusal means it was taken |
| MigrationRunner.Database.CommitStatements | src/db/migrator.ts:378-387 | one transaction commits the pending statements with their progress rows, or nothing |
| MigrationRunner.Database.CommitRecord | src/db/migrator.ts:390-397 | one transaction records the migration and deletes its progress, or nothing |
| MigrationRunner.Database.ReadCompleted | src/db/migrator.ts:447-463 | the loop over the rows returns exactly the recorded indices of the hash |
| MigrationRunner.RunBatch | src/db/migrator.ts:372-387 | the inner loops commit the longest transactional run from here, minus what is done, in order |
| MigrationRunner.RunOutside | src/db/migrator.ts:362-370 | a statement on its own, whole or broken off by a death, then its progress row, and nothing between them but a death |
| MigrationRunner.ApplyMigration | src/db/migrator.ts:347-398 | on whatever effect, or inside whatever statement, the connection dies, the tables are those of some number of model steps and a death; alive at the end, the migration is through |
| MigrationRunner.RunLocked | src/db/migrator.ts:267-289 | creates what is missing of the schema and its tables and nothing else, then the same for the loop over the journal, ending at the model's unlock |
| MigrationRunner.RunMigrations | src/db/migrator.ts:246-293 | refuses a timeout outside 1 to 4000, an unsafe name or a taken lock without touching a table, otherwise sets the session's timeouts and leaves the tables of model steps and at most one death; its lock is gone either way, and a connection that lives long enough for the journal does not die |
| MigrationRunner.RunsAreSchedules | src/db/migrator.ts:246-293 | what a run of the code leaves, alive or dead, is reachable in the step model, so every theorem about reachable states holds of it |
| MigrationLint.LintMigrationSql | src/db/migrator.ts:165-187 | nothing for a grandfathered tag; otherwise each destructive rule once, in order, exactly if its words stand in a row in the file's code, then one issue for each statement whose code says ADD COLUMN and NOT NULL and nowhere DEFAULT |
| MigrationLint.TestRules | src/db/migrator.ts:171-173 | of the five destructive rules exactly those whose words stand in a row in the code, each once and in the source's order |
| MigrationLint.TestStatements | src/db/migrator.ts:175-187 | as many issues as there are statements whose code says ADD COLUMN and NOT NULL and nowhere DEFAULT, and no others |
| MigrationLint.CleanExactly | src/db/migrator.ts:165-187 | on every text the rules find nothing exactly when none of their words stand in a row |
| MigrationLint.BreakpointIsSpace | src/db/migrator.ts:123-129 | to the rules a breakpoint that ends its line is white space between what stands before and after it |
| MigrationLint.FileCodeIsStatements | src/db/migrator.ts:123-132 | for every file whose breakpoints end their lines and whose block comments stay within a statement, the words the destructive rules read are those of its statements' code, in order, but for a dash some may end in |
| MigrationLint.CleanFileHasCleanStatements | src/db/migrator.ts:165-187 | in such a file that lints clean the code of every statement is clean by itself, comments and layout apart |
| MigrationLint.SameLineIsNotRead | src/db/migrator.ts:123-132 | what stands on the breakpoint's own line is stripped before the rules read the file |
| MigrationLint.SameLineEscapes | src/db/migrator.ts:165-173 | so any statement written there passes and is still split off to be run |
| MigrationLint.QuotedDashesEscape | src/db/migrator.ts:123-125 | after a clean beginning of a line, whatever follows two dashes on it passes, inside a quoted name too |
| MigrationLint.BlockAcrossEscapes | src/db/migrator.ts:123-132 | a comment opened in one statement and closed in a later one hides what stands between from the destructive rules, and the statements are split off and run |
| Lexemes.PhraseIsRow | src/db/migrator.ts:295-317 | on every text a `\bA\s+B\b` pattern matches exactly where its words stand in a row, with nothing but white space between them |
| SchemaSafety.BreaksExactly | src/db/migrator.ts:14-16 | a change breaks some previous-release SELECT or INSERT exactly under the condition read off the schema |
| SchemaSafety.NamedIsFlagged | src/db/migrator.ts:165-187 | the linter objects to every change its rules name, whatever the names, quoting, types, clauses and further words are |
| SchemaSafety.FlaggedExactly | src/db/migrator.ts:165-187 | where no name, type or value is itself a keyword of the rules, the linter objects to a change exactly when its rules name it |
| SchemaSafety.CleanButBreaking | src/db/migrator.ts:165-187 | a change the linter finds clean can break a query exactly when it leaves out COLUMN, is a required column that says DEFAULT somewhere or does not say NOT NULL, or drops a default or adds a primary key |
| SchemaSafety.EscapesExactly | src/db/migrator.ts:165-187 | where no name is a keyword, those changes are exactly the ones that lint clean and can break a query |
| SchemaSafety.QuotedDefaultEscapes | src/db/migrator.ts:177-187 | a required column whose quoted name is `default` lints clean and breaks an insert |
| SchemaSafety.NullDefaultEscapes | src/db/migrator.ts:177-187 | so does a required column whose default is NULL |
| SchemaSafety.CleanChangeExactly | src/db/migrator.ts:165-187 | in a file that lints clean a statement can break a query exactly when it is one of those |
| SchemaSafety.PreviousReleaseKeepsRunning | src/db/migrator.ts:14-16 | after any files that lint clean and hold none of those statements, every previous-release query that was valid still is |
| TenantGates.AlertMeansNoRetry | worker/operational-signals.ts:48-64 | the alert is raised on exactly the failures after which BullMQ does not retry, absent and non-positive attempts included |
| TenantGates.SplitUndoesMake | worker/resume-tenant-jobs.ts:4-11 | a ref the worker makes gives back its queue and job id, colons in the id included |
| TenantGates.MakeUndoesSplit | worker/resume-tenant-jobs.ts:4-11 | what `splitRef` accepts is the ref of what it returns, with a known queue and a non-empty id |
| TenantGates.SplitExactly | worker/resume-tenant-jobs.ts:4-12 | `splitRef` accepts exactly one of the eleven registered queues, a colon and a non-empty id, and returns those two |
| PauseLedger.Ledger.Remember | worker/tenant-pause-ledger.ts:9-13 | the ref joins its tenant's set and nothing else changes |
| PauseLedger.Ledger.Take | worker/tenant-pause-ledger.ts:15-19 | the tenant's refs, each once, and the ledger forgets them |
| PauseLedger.Ledger.Clear | worker/tenant-pause-ledger.ts:22-24 | the ledger is empty |
| PauseLedger.Ledger.PromoteOne | worker/resume-tenant-jobs.ts:17-27 | a ref is counted, dropped or remembered again by the queue's answer |
| PauseLedger.Ledger.PromotePausedTenantJobs | worker/resume-tenant-jobs.ts:14-30 | exactly the refs whose promotion threw are remembered again, under the same tenant; the count is that of the promotions; no other tenant's refs move |
| WorkerPlaces.RunHolds | worker/index.ts:88-126 | in every reachable state each active job has exactly one activation holding it, and each activation that has not delayed its job holds one |
| WorkerPlaces.PausesAreShort | worker/tenant-key-gate.ts:25-33 | in every run each key pause wakes its job at most 30000 ms after it was delayed |
| WorkerPlaces.CrashLosesNoJob | worker/tenant-pause-ledger.ts:1-5 | a crash returns exactly its own active jobs to waiting and leaves every other job, delayed wake times included, as it was, although its ledger is gone |
| WorkerPlaces.DelayedUntilDue | worker/tenant-key-gate.ts:3-9 | a delayed job leaves its delay only when due, or by a promotion through a ref of its own |
| WorkerProgress.NoJobIsStuck | worker/index.ts:88-126 | from every reachable state each unfinished job whose organisation and key let it through can be run to completion by time, wakes, picks and returning calls alone |
| WorkerAttempts.AttemptsAreGenuineFailures | worker/index.ts:113-125 | in every reachable state a job's attempts are its failures other than key losses in a scan's processor and throttles on a limited queue that could be paused, and it has failed for good exactly when they reach its maximum |
| WorkerAttempts.PauseSpendsIffMoveFails | worker/tenant-key-gate.ts:41-53 | a pause spends an attempt exactly when the move to delayed throws, without having taken effect, anything but a throttle on a limited queue |
| WorkerAttempts.FailureDecides | worker/index.ts:113-157 | what an error does in every reachable state: a key loss in a scan's processor pauses it for 30 s, a throttled email or notification pauses its queue unless pausing it threw, and anything else spends an attempt, which delays or returns the job while its attempts last and otherwise fails it for good, owing a letter exactly for a scan of evidence |
| WorkerSpending.ExcusedCostsIffItThrowsAgain | worker/queue-worker.ts:42-55 | over every run an activation meets at most two errors, and a key loss in a scan or a throttle costs an attempt exactly when a second error follows, from a move to delayed that did not take effect or from pausing the queue |
| WorkerLetters.DeadLettersAreEarned | worker/index.ts:143-157 | in every run a letter is written only for a scan whose genuine failures had reached its maximum, however many pauses came between, and only once |
| WorkerLetters.LetterIsMissingExactly | worker/index.ts:143-157 | in every reachable state a scan that has failed for good lacks its letter exactly when the write is still to come, was refused, or its process died first |
| WorkerLetters.CrashLosesLetter | worker/index.ts:143-157 | a run in which no write is refused and a scan still fails for good without a letter |
| WorkerGates.BodiesAreGated | worker/index.ts:88-114 | in every run a tenant body starts only after the same activation found, in this order, the organisation neither suspended, closed nor missing, its key absent or active, and the organisation active with the payload well formed; it works on the null chain exactly when its payload is the platform job, and then it read none of them |
| WorkerGates.GatesDecide | worker/index.ts:88-112 | in every reachable state each gate lets its job on exactly under that condition on what it reads, and otherwise ends the job, delays it for 30 s, or rejects it; nothing else changes |
| WorkerLedger.HeldRefsAreTheTenants | worker/index.ts:102-106 | in every reachable state a ref held for a tenant is that of a job once delayed for that tenant's key, and `splitRef` accepts it |
| WorkerLedger.HeldUntilSettled | worker/resume-tenant-jobs.ts:14-30 | in every run a held ref stays held for the same tenant by the same process until its job is promoted, its job is found gone, or the process is killed |
| WorkerLedger.PromotedIsCounted | worker/resume-tenant-jobs.ts:14-30 | at every moment a promotion's count is the number of jobs it has seen move to waiting; a move that reports an error is noted again, not counted |
| WorkerBalance.NotesSettleOnce | worker/resume-tenant-jobs.ts:14-30 | in every run a process promotes a tenant's ref, or finds its job gone, at most as often as it has noted it; what it holds now has been noted once more |
| KeyHealthLoop.OneSweepInFlight | worker/key-health-loop.ts:10-27 | in every order of ticks, settlements and stops at most one sweep is in flight, and the flag says so |
| KeyHealthLoop.NothingBeginsAfterStop | worker/key-health-loop.ts:29-38 | no sweep begins after a stop, however many ticks were due |
| KeyHealthLoop.SweepsBeginExactly | worker/key-health-loop.ts:10-38 | a sweep begins at the start, and at a tick exactly when none is in flight and no stop has come; when it settles the next may begin |
| KeyHealthLoop.Loop.TimerFires | worker/key-health-loop.ts:12-15 | a tick begins a sweep unless one runs or the loop was stopped, and else changes nothing |
| KeyHealthLoop.Loop.SweepSettles | worker/key-health-loop.ts:24-26 | the flag clears when the sweep ends, with or without an error |
| KeyHealthLoop.Loop.Stop | worker/key-health-loop.ts:34-38 | stopping clears the timer once, leaves a running sweep alone, and may be repeated |
| WorkerHandler.Runtime.Await | worker/index.ts:95-111 | while a call is out others act or the process dies; the activation itself is untouched |
| WorkerHandler.Runtime.AwaitAdrift | worker/queue-worker.ts:46-52 | an activation whose job has left its hands stays over while it waits and others act |
| WorkerHandler.Runtime.MoveToDelayed | worker/index.ts:102-106 | the job is delayed, then noted; an error before the move leaves the activation where it was, one after it leaves the job delayed and out of its hands |
| WorkerHandler.Runtime.RecordRejection | worker/tenant-job.ts:31-105 | a rejected job ends without error once its audit record is written, and fails if that write throws |
| WorkerHandler.Runtime.PauseQueue | worker/queue-worker.ts:46-52 | a throttled job is given back once the queue is paused, and fails if pausing it throws |
| WorkerHandler.Runtime.ApplyGate | worker/tenant-key-gate.ts:20-33 | a job is paused, for 30 s from now, exactly when its tenant has a key that is not active |
| WorkerHandler.Runtime.PassGates | worker/index.ts:93-112 | the job goes on to its processor, or ends, or is paused, or an error is raised outside the inner `try` |
| WorkerHandler.Runtime.Process | worker/processors.ts:392-415 | the inner gate and the body: a rejected job ends without error, an error is raised from inside the processor |
| WorkerHandler.Runtime.Closure | worker/index.ts:88-126 | no error leaves the closure that is a key loss in a scan's processor |
| WorkerHandler.Runtime.Handle | worker/queue-worker.ts:42-55 | whatever others do meanwhile, every effect of the handler is a step of the state machine, and the activation is over at the end |
| Scheduler.IdRoundTrip | worker/scheduler.ts:117-123 | an id is owned by its queue, gives back its organisation, and every owned id is the id of some organisation |
| Scheduler.IdsAreInjective | worker/scheduler.ts:117-123 | for colon-free queue names an id names one queue and one organisation, and no queue owns another's ids |
| Scheduler.ReconciledExactly | worker/scheduler.ts:111-177 | id by id: foreign entries are unchanged; the owned ids are the wanted tenants', each with the queue's job name, the interval, the options, its organisation and its own id as correlation id, and the protected ids that were there |
| Scheduler.ReconcileIsIdempotent | worker/scheduler.ts:136-177 | a second reconcile changes nothing and finds nothing stale |
| Scheduler.PlatformFlagSurvives | worker/scheduler.ts:187-218 | the platform schedule survives, and its jobs pass the platform test exactly when no organisation is called `platform` |
| Scheduler.PlatformEntryIs | worker/scheduler.ts:188-201 | the platform chain's id and entry, by their values |
| Scheduler.ScheduledQueue.UpsertJobScheduler | worker/scheduler.ts:154-164 | the entry is replaced or listed once, wherever the queue puts it |
| Scheduler.ScheduledQueue.RemoveJobScheduler | worker/scheduler.ts:175 | the entry is gone, the rest of the listing stays |
| Scheduler.ScheduledQueue.AllSchedulers | worker/scheduler.ts:125-134 | the page loop ends with the whole listing, for every length, exact multiples of the page size included |
| Scheduler.UpsertTenants | worker/scheduler.ts:151-166 | every tenant's entry is fresh and no other entry moves |
| Scheduler.StaleIds | worker/scheduler.ts:169-174 | the filter yields each owned unwanted id exactly once |
| Scheduler.RemoveAll | worker/scheduler.ts:175 | exactly the stale ids leave the store |
| Scheduler.ReconcileQueue | worker/scheduler.ts:136-177 | the store becomes the reconciled one, and the count is that of the owned ids that vanished |
| Scheduler.ReconciledCount | worker/scheduler.ts:136-177 | a reconciled store holds exactly one entry for each organisation |
| Scheduler.DistinctIds | worker/scheduler.ts:187 | the organisations without repeats and without empty ids |
| Scheduler.ReconcileTenantSchedules | worker/scheduler.ts:184-290 | each of the seven queues, if given, ends reconciled from its own store to the distinct non-empty organisations, with its own name, interval or fallback and job options, the audit queue after its platform upsert, and holds one entry for each; the seven counts are those, or 0 for a queue not given, and the removals are the ids that vanished from any of them |
| SchedulerRace.WantedIsNeverRemoved | worker/scheduler.ts:136-177 | with any number of reconciles interleaved or killed, a present id that every one in flight wants is never removed, and neither is a foreign id |
| SchedulerRace.LoneReconcileIsExact | worker/scheduler.ts:136-177 | after any history a reconcile that starts when the others are over and runs alone leaves the owned ids exactly its wanted set |
| DeployTokens.PiecesCover | src/db/release-job.ts:122 | the scan's texts and tokens are the whole source in order, and its tokens are well formed |
| DeployTokens.ScannerFindsTokens | src/db/release-job.ts:122 | the lazy scanner finds a token exactly when the text holds one, cut in any way |
| DeployTokens.SucceedsExactly | src/db/release-job.ts:130-158 | filling succeeds exactly when every scanned token is this environment's with a good value and the filled text holds no token, across replacement edges too; text outside tokens is unchanged and in order |
| DeployTokens.EnvironmentsAreApart | src/db/release-job.ts:135-153 | for each value name, the token of one environment is filled there with a good value that brings no token along, and refused in the other wherever it stands |
| DeployTokens.RefusesExactly | src/db/release-job.ts:144-156 | which refusal a source meets: that of its first token of this environment whose value is missing, holds a character a manifest cannot, or is no twelve-digit account id; otherwise that of a token left over |
| DeployTokens.CleanTextIsUnchanged | src/db/release-job.ts:130-158 | a text without tokens comes back unchanged in every environment |
| DeployTokens.SecondFillChangesNothing | src/db/release-job.ts:130-158 | a result is a fixpoint for every environment and every set of values |
| ReleaseJob.TwoPassesAreOne | src/db/release-job.ts:47-49 | two replacement passes equal one simultaneous pass when the tokens never overlap and no value shares a character with the later token |
| ReleaseJob.ReleaseHasNoTokenLetter | src/db/release-job.ts:12-32 | a digest-pinned app image and a release id hold no character of a token |
| ReleaseJob.ImageFromExactly | src/db/release-job.ts:160-164 | the scan reads an image exactly from the first line of the text that has the pattern's shape |
| ReleaseJob.RenderIsSimultaneous | src/db/release-job.ts:40-55 | a rendered job holds no token, its first image line names the release's image, and it is the simultaneous substitution when the tokens never overlap in the template |
| ReleaseJob.RendersExactly | src/db/release-job.ts:22-55 | case by case what a template and a release are answered: both images pinned to their repositories, a 7 to 40 digit id, both tokens present, and the first image line of the result naming the app image; the check for leftover tokens never fires |
| ImagePins.FieldExactly | src/db/release-job.ts:100-102 | the scan of an indented `key: value` never backtracks: it finds a field exactly when the text has that shape, and then only one |
| ImagePins.EntryExactly | src/db/release-job.ts:98-105 | the pattern matches at a position exactly when an entry of that shape stands there, and then only one |
| ImagePins.PinsCommute | src/db/release-job.ts:86-111 | when the two leftmost entries do not overlap, pinning them in either order gives the source with both pinned and every other character as it was |
| ImagePins.OverlapIsOneDash | src/db/release-job.ts:98-111 | two entries can overlap in one character only, when the first has no tag and the dash of the second is read as one |
| ImagePins.OrderMattersIffOverlap | src/db/release-job.ts:86-94 | if pinning the later entry first succeeds, the other order ends alike exactly when the first entry is over before the second begins |
| ImagePins.ReleasePinsAreApart | src/db/release-job.ts:7-26 | for digest-pinned images neither replacement can begin another list item and neither name starts the other |
| ImagePins.PinningIsOrderFree | src/db/release-job.ts:83-96 | for non-overlapping entries both orders end alike, a floating tag left anywhere, a duplicate entry's included, is refused, and a success is exactly the two entries pinned |
| ImagePins.PinsExactly | src/db/release-job.ts:83-111 | case by case what any source and release are answered: a success is the source with the first entry for the app and then the first for the worker pinned, and no floating tag; it refuses unpinned images, a missing entry and a tag that still floats, and nothing else |
| AuditGuard.AppliedCells | src/db/audit-guard.ts:102-126 | what the program leaves of every grantor's grants to every grantee on every table, from any starting grants |
| AuditGuard.InsertOnlyExactly | src/db/audit-guard.ts:73-92 | a plain role that exists ends with exactly SELECT and INSERT on both audit tables if and only if no revoke is refused and no one but the owner has granted it or everyone more; if none is refused it has full DML on all other tables |
| AuditGuard.ApplyingAgainChangesNothing | src/db/audit-guard.ts:102-126 | applying the program again changes no grant of anyone to anyone on any table |
| AuditGuard.HalfAppliedMayUpdate | src/db/audit-guard.ts:78-92 | a run that stops after n grant statements leaves an insert-only role able to update an audit table exactly when n is 2, 3 or 4 |
| AuditGuard.InsertOnlyIffPlain | src/db/audit-guard.ts:79-92 | from every state whose audit-table grants are the owner's the program makes the role insert-only exactly when its name is in lower case and no key word the grammar keeps or reads as someone else |
| AuditGuard.UserIsNotGranted | src/db/audit-guard.ts:79-92 | a role called `user` makes the run fail and keeps what it had |
| AuditGuard.CurrentUserIsTheMigrator | src/db/audit-guard.ts:79-92 | a role called `current_user` keeps what it had, and the migrating role is granted in its place |
| AuditGuard.AppendOnlyStatements | src/db/audit-guard.ts:55-67 | the nested loops build thirteen statements: the function, then for each audit table and event a create of the trigger of that name and its enable-always |
| AuditGuard.StatementsOf | src/db/audit-guard.ts:58-64 | the inner loop builds a create and an enable-always for each of the three events |
| AuditGuard.InstallArms | src/db/audit-guard.ts:69-71 | from any triggers the program runs through and leaves both audit tables with three always-firing triggers, and other tables' triggers as they were |
| AuditGuard.HalfInstalledIsOpen | src/db/audit-guard.ts:55-71 | a later run that stops after n statements leaves an operation open exactly to replica sessions, and exactly when the n-th statement re-created its trigger |
| AuditGuard.PerformsExactly | src/db/audit-guard.ts:3-11 | a statement takes effect exactly when its session owns the tables or has the privilege of its name, and no trigger for its operation fires in it |
| AuditGuard.TriggersKeepAppendOnly | src/db/audit-guard.ts:13-67 | with the triggers in place every trace by any non-superuser session, the owner's and replica ones included, only adds rows |
| AuditGuard.PrivilegesKeepAppendOnly | src/db/audit-guard.ts:78-92 | the privileges alone do so against the application role, with every trigger gone |
| AuditGuard.Database.RunStatements | src/db/audit-guard.ts:107-109 | statements run one by one and the first that cannot run stops the program |
| AuditGuard.Database.ApplyAppendOnlyGuard | src/db/audit-guard.ts:94-100 | the loop leaves the triggers the install program leaves |
| AuditGuard.Database.ApplyAppPrivileges | src/db/audit-guard.ts:102-126 | a name that is not safe is refused and nothing changes; an unknown role is reported if required and skipped if not, with nothing changed but the owner's grants to everyone on the audit tables; a known one, when the statements can be run, gets the schema, the sequences, DML on other tables and on future ones, and SELECT and INSERT alone on the audit tables; otherwise the run fails |

## Left out

- MigrationLint.LintMigrationSql: does not model the index and foreign-key issues, which concern lock duration and retries rather than what a query of the previous release needs.
- SchemaSafety.PreviousReleaseKeepsRunning: holds for one action per statement, for statements the rules name or that touch no column, and for code read after comments are stripped; ALTER TYPE, new unique and check constraints and new indexes are outside it, and the grandfathered tags are a parameter.
- MigrationTears.SafeExactly: is about a journal of one statement; with others after it a later statement may undo the difference.
- MigrationRunner.RunMigrations: does not model rows with a null `created_at`, nor `SET LOCAL` timeouts inside a transaction.
- WorkerAttempts.AttemptsAreGenuineFailures: does not model jobs that lose their lock while their process lives, nor BullMQ's limit on stalls.
- WorkerHandler.Runtime.Process: the UUID syntax of an organisation id is not checked.
- PauseLedger.Ledger.PromotePausedTenantJobs: takes the queue's answers as given and no one else acts between them; `WorkerLedger` interleaves the same loop.
- WorkerPlaces.CrashLosesNoJob: is about one step; what a run of steps keeps is in `RunHolds` and `NoJobIsStuck`.
- WorkerLedger.HeldUntilSettled: a process's ledger dies with it, as in the code; nothing is claimed across a kill.
- Scheduler.ReconcileQueue: concurrent upserts and removals of one call are made in sequence here; `SchedulerRace` interleaves them. A listing that reorders itself between two pages of a lone reconcile can hide an entry from it, in the code as well.
- Scheduler.ReconcileTenantSchedules: takes the seven queues as seven objects, as `getQueue` hands them out.
- AuditGuard.TriggersKeepAppendOnly: superusers, and an owner who disables or drops a trigger, are outside it, as the source says; role membership and column privileges are not modelled.
- `startTenantScheduleSync`: a timer with the same two flags as the key-health loop.
- Processor bodies, webhook and scan backoff curves, the dead-letter redrive plan, hash chains, anchors, key escrow, retention and every page of the web application.
- Postgres, Redis, BullMQ, S3 and SMTP themselves: only the assumptions above.
