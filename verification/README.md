# Verification of the pipeline's stateful core

A Dafny model of the parts of a domain-acquisition pipeline that keep state: the orchestrator with
its stage locks, budgets, retries and checkpoints; the fenced lock table and the connection pool
under it; schema migrations; the batched persistence of a run; the job worker; the export to
PostgreSQL; the drop verdict; the latency histograms.  `dafny verify dfyconfig.toml` checks all of it.

Where the program changes things in place the model does too: a class with the same fields, each
method proved equal to a function of the old state.  The lock protocol, the budget race, the pool and
its transactions, the migrating processes and the job worker are cut at their awaits, so their
theorems quantify over every interleaving.  A pipeline run is one sequence of steps; at each of its
awaits heartbeat answers and the saves of given-up tries come in, in any number and order.  Pipeline
stages, scoring, gate and providers are functions within a stated contract (`PipelineFlow.Contract`),
which a budgeted try keeps if its stage function does (`StageContract.RaceHonoursContract`).

## Files

| files | subject |
|---|---|
| `FencedLock`, `LockProtocol`, `Heartbeats` | the lock table, several workers with heartbeats over it, and their records |
| `StageLocks`, `StageRace`, `StageContract`, `CheckpointStore`, `PipelineTypes`, `PipelineFlow`, `PipelineRuns`, `RunSaves`, `Orchestrator` | the pipeline run |
| `ConnectionPool`, `PooledProvider` | connections and transactions |
| `Migrations`, `MigrationProtocol` | gate, run, rollback; crashes under the lockfile |
| `Persistence` | the two adaptive loops |
| `JobWorker`, `WorkerRuns`, `WorkerJobs`, `WorkerShutdown` | the job worker over all interleavings |
| `PgImport`, `PgImportRuns` | the PostgreSQL import |
| `DropVerdict` | net present value and verdict, over the reals |
| `Histogram`, `MetricsCollector` | histogram keys and bucket counts |

## Where the code does not do what it seems meant to do

The model follows the code; each point is a theorem.

- Unknown candidates leave `passed` after RDAP without entering `filtered` (`PipelineFlow.CandidateAccounting`).
- Stage checkpoints carry labels that the resume table does not list, so only generation is ever replayed
  (`PipelineRuns.ReplayNeedsGenerationLast`).  Degraded results are saved as well; replaying one would hide its loss, which
  stays hypothetical as long as those labels are not listed (`PipelineRuns.DegradedCheckpointHidesLoss`).
- There is no abort check after the last stage (`PipelineRuns.LossFlaggedIff`).
- A heartbeat answered after its lock was released, or after the run, leaves its failure counter behind
  (`StageLocks.CounterRemainsIff`).
- The end of one run clears every run's heartbeats and fences (`StageLocks.CleanupForgetsOtherRuns`), and a run id
  containing `:` makes cleanup unlock the wrong stage (`StageLocks.StageReadBack`).
- A worker re-acquiring its own live row does not extend it (`LockProtocol.ReentryDefeatsEveryTtl`); and since worker ids
  are made from the pid, a process of another host or container with the same pid is handed that row, fence included
  (`LockProtocol.SharedIdDefeatsEveryTtl`).
- A rejected clear of a run's checkpoints is swallowed and saves may land after it, so rows can outlive their run
  (`Orchestrator.PipelineOrchestrator.Run`); a rerun computes the same from them (`PipelineRuns.ResumeIsTransparent`).
- The schema gate takes any failed read of the applied migrations for an empty list (`Migrations.UnreadBoot`,
  `Migrations.BehindImageBoots`).
- A failed import leaves sequences advanced, against its documented all-or-nothing (`PgImportRuns.FailureIsCleanIff`);
  a retry makes good for it (`PgImportRuns.RetriesConverge`).
- A backup whose directory cannot be created keeps its connection (`PooledProvider.EverythingElseIsReturned`); overlapping
  transactions share one depth counter, so a failing one can leave its connection inside a transaction for good
  (`PooledProvider.ConnectionsTidyIff`, `PooledProvider.OverlappingFailurePoisonsConnection`).
- The persistence loops advance by the resized batch size (`Persistence.GapsAndOverlaps`).
- The worker: a start during a suspended poll (`WorkerRuns.RestartDoublesConcurrency`), a redelivered job
  (`WorkerJobs.RedeliveryHidesProcessing`), a `complete` that took effect but was rejected (`WorkerJobs.DoubleBookedIff`),
  a dequeue answered after `stop` (`WorkerShutdown.StoppedStartsNothingIff`), a backed-off delay that polls of an empty
  queue do not bring down (`WorkerShutdown.BusyIsCounted`), an overtaken `stop`
  (`WorkerShutdown.OvertakenStopNeverReturns`), a rejected `requeueStuck` (`WorkerShutdown.ChainDiesIff`).
- The import's count check cannot see a stale row (`PgImportRuns.CountCheckMissesStaleRow`).
- With a renewal horizon under a year the threshold verdict ignores how long a domain was held (`DropVerdict.HoldingTimeIgnoredIff`).

## Assumptions

- Stages: a resolved try returns part of its input, all of it unless its signal was set; what a stage reports about
  itself never claims more than was expected.  Once set, the run's signal is still set at the check after the stage.
- Locks: tokens never drawn twice, one call takes at most `latency`, which is at most one heartbeat;
  timers of workers that still count fire when due.  Expiries are whole seconds, as the table stores them.
- Migrations: an operator removes a lockfile only when the process that created it is gone.
- Clocks, jitter, UUIDs, durations and the answers of databases and stages are parameters or events.

## Model

| member | source | states |
|---|---|---|
| LockProtocol.ExclusiveIffTtlCoversThreeBeats | src/pipeline/orchestrator.ts:299-347 | No run, with fresh acquisitions and punctual timers, ever has two processes that both believe they hold a stage lock, whatever worker ids they have, if and only if the TTL is at least three heartbeats plus two call latencies |
| LockProtocol.ExclusiveInEveryRun | src/pipeline/orchestrator.ts:299-347 | Above that bound, in every reachable state the believer is unique, its row is its own and still live |
| LockProtocol.StepKeepsInv | src/db/database-pool.ts:295-366 | Each event of any process (acquire, tick, renew, fail, release, crash, stray renewal, purge) keeps: fences are held by one process each, and a believer's row outlives the instant at which it renews or gives up |
| LockProtocol.HeartbeatRenews | src/pipeline/orchestrator.ts:315-325 | A heartbeat that gets through sets the count back and makes the row last a whole TTL more; its sender goes on believing |
| LockProtocol.HeartbeatFails | src/pipeline/orchestrator.ts:326-337 | One that fails leaves the table alone and costs one of three tries, and with the third the belief |
| LockProtocol.ReleaseHandsOver | src/pipeline/orchestrator.ts:404-425 | A release whose unlock gets through ends the holder's belief, and any idle process that tries next becomes the holder with its own fence |
| LockProtocol.CrashIsFinal | src/pipeline/orchestrator.ts:299-425 | A process that has crashed believes nothing again, whatever the others do |
| LockProtocol.IntrusionBelowBound | src/pipeline/orchestrator.ts:316-343 | Below the bound there is a legal run, built renewal by renewal, in which a rival takes the lapsed row while the first worker still believes |
| LockProtocol.ReentryDefeatsEveryTtl | src/db/database-pool.ts:317-325 | Fresh acquisitions are needed: a worker handed back its own old row gets its old expiry too, and for every TTL a run exists with two believers |
| LockProtocol.SharedIdDefeatsEveryTtl | src/db/database-pool.ts:316-326 | .. or the row of a process with the same worker id: at whatever TTL, who acquires while another holds is let in beside it exactly when their ids are equal, and then with the same fence |
| FencedLock.PipelineLocks.TryLockWithFence | src/db/database-pool.ts:295-332 | Purge, insert-or-ignore, then the own-row branch: the table and the token returned |
| FencedLock.PipelineLocks.RenewLockWithFence | src/db/database-pool.ts:334-350 | The guarded UPDATE: succeeds for a live row of this worker and this fence only |
| FencedLock.PipelineLocks.UnlockWithFence | src/db/database-pool.ts:352-366 | The guarded DELETE: a foreign worker or fence changes nothing |
| FencedLock.PipelineLocks.TryLock | src/db/database-pool.ts:240-261 | The unfenced try over the same table |
| FencedLock.PipelineLocks.RenewLock | src/db/database-pool.ts:263-279 | The unfenced renewal |
| FencedLock.PipelineLocks.Unlock | src/db/database-pool.ts:281-293 | The unfenced unlock |
| FencedLock.AcquireRefines | src/db/database-pool.ts:295-332 | Acquisition refines an abstract map of at most one holder per name: granted exactly when free or already own |
| FencedLock.RenewRefines | src/db/database-pool.ts:334-350 | Renewal refines it: true exactly for the holder, who then holds until the new expiry and no longer |
| FencedLock.UnlockRefines | src/db/database-pool.ts:352-366 | Unlocking refines it: removes the holder it names and nobody else |
| FencedLock.TryPlainRefines | src/db/database-pool.ts:240-261 | Without a fence: granted exactly when nobody holds the name, the own row included, and held until the expiry |
| FencedLock.RenewPlainRefines | src/db/database-pool.ts:263-279 | Renewed exactly for the worker that holds it, who keeps its fence, until the new expiry |
| FencedLock.UnlockPlainRefines | src/db/database-pool.ts:281-293 | Removes the holder if it is this worker, and nobody else |
| FencedLock.PurgeableXorRenewable | src/db/database-pool.ts:305-341 | At every instant a row is purgeable by a rival or renewable by its owner, never both, never neither |
| FencedLock.StaleFenceIsInert | src/db/database-pool.ts:295-366 | With unique tokens, a fence once off the row never comes back in any history of fenced and unfenced calls; renewing or unlocking with it changes nothing |
| FencedLock.ReacquiredFenceIsInert | src/db/database-pool.ts:305-349 | A lock lost by expiry and re-acquired makes the old fence inert for good |
| StageLocks.StageReadBack | src/pipeline/orchestrator.ts:428-447 | Cleanup reads the right stage out of a map key exactly when the run id is free of `:` (or its second part happens to be that stage) |
| StageLocks.CleanupUnlocksAll | src/pipeline/orchestrator.ts:428-447 | For a colon-free run id cleanup issues an unlock with the matching fence for every lock the run still holds |
| StageLocks.CleanupForgetsOtherRuns | src/pipeline/orchestrator.ts:428-447 | Two runs: finishing one clears the other's heartbeat and fence while its lock was never unlocked under its own name |
| StageLocks.ReleaseAccounts | src/pipeline/orchestrator.ts:404-425 | Releasing, once or twice, keeps every granted lock either on record or unlocked with its fence |
| StageLocks.CounterRemainsIff | src/pipeline/orchestrator.ts:308-365 | In any history of acquisitions, heartbeat answers, releases and cleanups of any runs, a failure counter remains exactly when an acquisition or an answer came after its key was last cleared |
| StageLocks.HoldsIff | src/pipeline/orchestrator.ts:299-447 | In any history of any runs each entry of the record is there exactly because some event brought it and none since has ended it: locks with fence and controller, heartbeats running, counters with their values, locks granted, unlocks sent, controllers aborted |
| StageLocks.AbortedIff | src/pipeline/orchestrator.ts:326-337 | A controller has been aborted exactly when some heartbeat came back with its third failure or a later one while the lock was on record with that controller |
| StageLocks.MissesAbort | src/pipeline/orchestrator.ts:315-337 | Failed renewals in a row, each counting on from the recorded counter, are counted one by one whatever other keys do meanwhile, and with the third the run holding the lock is aborted |
| StageLocks.RenewalForgives | src/pipeline/orchestrator.ts:324-325 | A successful renewal sets the counter to 0, whatever it was, and aborts nothing |
| StageLocks.CleanupInSteps | src/pipeline/orchestrator.ts:428-447 | Sweeping the timers, unlocking the entries in any order and emptying the map, with nothing in between, is cleanup |
| Heartbeats.AnswerIsSettle | src/pipeline/orchestrator.ts:315-337 | An answer moves counter and abort of the record as the lock protocol moves its own |
| Heartbeats.BeliefIsRecord | src/pipeline/orchestrator.ts:299-425 | In every run of the protocol a live process believes it holds the lock exactly when its record says so: heartbeat running, entry there, controller not aborted |
| Heartbeats.RecordsAreExclusive | src/pipeline/orchestrator.ts:299-425 | So above the TTL bound, with fresh acquisitions, no two processes ever hold the lock by their records |
| Orchestrator.PipelineOrchestrator.StartStageHeartbeat | src/pipeline/orchestrator.ts:299-347 | One timer per key; an existing one is kept with its failure count |
| Orchestrator.PipelineOrchestrator.OnRenewalAnswered | src/pipeline/orchestrator.ts:315-344 | Counts on from what was read when the timer fired, and aborts the run of that lock from the third failure on, whether or not its heartbeat has been stopped meanwhile; exactly when that comes about is `StageLocks.AbortedIff` |
| Orchestrator.PipelineOrchestrator.Await | src/pipeline/orchestrator.ts:311-344 | Answers that come in during an await touch the counters and the aborted controllers, and nothing else of the lock records |
| Orchestrator.PipelineOrchestrator.StopStageHeartbeat | src/pipeline/orchestrator.ts:349-360 | Timer and counter gone, nothing else |
| Orchestrator.PipelineOrchestrator.AcquireStageLock | src/pipeline/orchestrator.ts:368-401 | A granted lock enters both maps with its fence; a refused one changes neither; answers may come in while it waits |
| Orchestrator.PipelineOrchestrator.ReleaseStageLock | src/pipeline/orchestrator.ts:404-425 | Heartbeat stopped and unlock sent with the recorded fence before its await, the key forgotten after it; harmless when repeated |
| Orchestrator.PipelineOrchestrator.CleanupAllStageLocks | src/pipeline/orchestrator.ts:428-447 | Every entry of every run is unlocked under the finished run's name and the maps emptied; the counters left are those answered since the sweep |
| StageRace.StageExecution.Handle | src/pipeline/orchestrator.ts:1086-1140 | Budget timer, grace timer, resolve and reject, each against the settled and budgetHit flags; the budget timer of an open race aborts the stage (`StageRace.AbortSeen`) |
| StageRace.RaceSettlesOnce | src/pipeline/orchestrator.ts:1086-1140 | For every interleaving: settles exactly once, at the first decision, at the latest the grace after the budget timer's instant; `timedOut` exactly when the budget fired first; a self-abort after the budget is a budget error; the busy timeout is restored once |
| StageRace.AbortSeen | src/pipeline/orchestrator.ts:1108-1111 | At every point of every interleaving the stage has been told to stop exactly when the budget timer fired before anything decided |
| StageRace.StageAbortedIff | src/pipeline/orchestrator.ts:1108-1140 | Over a whole schedule: exactly when the budget timer came before the first decision |
| StageRace.StageMeetsDeadline | src/pipeline/orchestrator.ts:1030-1079 | As an instant of the run's clock: given up on at most `grace` after the pipeline deadline, put off by the wait between computing the window and arming the timers, and at most `grace` after budget and cap from the timers; a silent stage uses all of it; unbounded exactly when neither limit is positive |
| StageRace.BudgetScales | src/pipeline/orchestrator.ts:94-99 | The budget is the base time without candidates, grows by one share per candidate within the cap, and stays at the cap from there on |
| StageContract.RaceHonoursContract | src/pipeline/orchestrator.ts:1081-1140 | A stage that is whole unless the signal it sees, the run's or the race's abort, was set when it resolved meets, through every interleaving of the race, the contract the run theorems assume, `timedOut` included |
| CheckpointStore.DbCheckpointStore.Save | src/pipeline/db-checkpoint-store.ts:55-80 | The upsert: one row per run and stage, re-saving keeps its place |
| CheckpointStore.DbCheckpointStore.LoadRun | src/pipeline/db-checkpoint-store.ts:90-154 | Rows of another format version or too old are ignored, unparsable lists read as empty, invalid items dropped; a text that parses to no list rejects the load; the last inserted row names the stage |
| CheckpointStore.DbCheckpointStore.Collect | src/pipeline/db-checkpoint-store.ts:110-150 | The dictionary, last stage and cumulative list built by the loop over the rows, or a rejection at the first row that holds no list |
| CheckpointStore.DbCheckpointStore.Clear | src/pipeline/db-checkpoint-store.ts:164-167 | Removes the run's rows and no others |
| CheckpointStore.SavedIsLoaded | src/pipeline/db-checkpoint-store.ts:55-154 | A save makes the run loadable exactly when its other rows are of the current format and the last inserted row is not too old; then the load rejects exactly when another row is unreadable, and otherwise the stage is loaded back exactly and the run resumes at the last inserted stage |
| CheckpointStore.CollectedLists | src/pipeline/db-checkpoint-store.ts:121-153 | What a load collects: the passed list of the last row, the filtered entries of all rows and no others, a result for each stage with a row |
| CheckpointStore.RunsAreSeparate | src/pipeline/db-checkpoint-store.ts:55-80 | Saving for one run leaves what another run loads unchanged |
| CheckpointStore.ResumeIndexOfSavedLabels | src/pipeline/db-checkpoint-store.ts:169-173 | The labels under which stages are saved resume at 0, generation's name at 1, and 0 is the index of exactly the names missing from the resume table |
| Orchestrator.PipelineOrchestrator.RunStageSafe | src/pipeline/orchestrator.ts:736-883 | The retry loop ends within three tries, never returns null, and leaves result, errors and degradations as the deciding try defines them; with inside saves on, a stage that resolves in time is saved once from inside, and given-up tries owe what they still resolve with |
| Orchestrator.PipelineOrchestrator.RunStageWithCheckpoint | src/pipeline/orchestrator.ts:890-995 | With the stage's lock on record: replays a saved stage above the index and saves nothing, otherwise runs it live and saves just what came back, degraded or not, after the save from inside |
| Orchestrator.PipelineOrchestrator.RunLockedStage | src/pipeline/orchestrator.ts:586-608 | Lock, stage, release, abort check, with heartbeat answers and late saves at every await; its own saves and strays are those of the stage, or on the way out some of them; a stage that is done had its lock granted |
| Orchestrator.PipelineOrchestrator.FinishRun | src/pipeline/orchestrator.ts:586-735 | The stages after generation and the result put together; with a lock manager, if it completes, every stage had its lock granted |
| Orchestrator.PipelineOrchestrator.RunGeneration | src/pipeline/orchestrator.ts:505-580 | Generation replayed, or run once its lock is granted; the lock is given back on every path; one that is run and resolves is saved exactly once, with its two lists, and a replayed or failed one is not saved |
| Orchestrator.PipelineOrchestrator.RunStages | src/pipeline/orchestrator.ts:586-704 | Stages two to five chained through their passed lists, Unknown candidates dropped after RDAP |
| Orchestrator.PipelineOrchestrator.RunInternal | src/pipeline/orchestrator.ts:449-735 | A run up to its cleanup: it completes exactly when the checkpoint loads, no abort check fires, every lock is granted and no recovery throws; result, saves and lock records as defined from the resume point loaded; with a lock manager a completed run had the lock of every stage granted, generation's unless replayed |
| Orchestrator.CompletesIff | src/pipeline/orchestrator.ts:498-735 | A run completes exactly when no abort check finds its signal set, generation is replayed or yields, every lock it asks for is granted, and no recovery throws in a stage that is neither replayed nor resolved |
| Orchestrator.PipelineOrchestrator.RunFrom | src/pipeline/orchestrator.ts:498-735 | The five stages from any resume point: outcome, result, saves made and owed, generation's first of all however the run ends; every granted lock on record or unlocked, and, if it completes with a lock manager, every stage's lock was granted, generation's unless replayed |
| Orchestrator.PipelineOrchestrator.Run | src/pipeline/orchestrator.ts:259-297 | Every way out leaves the lock and timer maps empty and every lock granted to the run unlocked with its fence (colon-free id); the failure counters left are those of heartbeats answered since the sweep. The run's checkpoints are gone exactly when no save landed after the clear and the clear succeeded or had nothing to clear; whatever rows stay are fit to resume from |
| Orchestrator.PipelineOrchestrator.ClearCheckpoints | src/pipeline/orchestrator.ts:292-296 | The clear between saves that land before and after it; a rejected clear is swallowed and leaves the rows |
| Orchestrator.LeftoversAreFaithful | src/pipeline/orchestrator.ts:483-496 | Whichever of the run's own and late saves land before and after its clear, faithful rows stay faithful, so the next run of that id resumes without a difference |
| RunSaves.SavesSince | src/pipeline/orchestrator.ts:904-995 | Every save made between two moments is one of the run's own, one of its strays, or one that an earlier given-up try still owed |
| Orchestrator.SavesAreIssuable | src/pipeline/orchestrator.ts:904-995 | Every save of a run, in time or by a try that resolves after it was given up, is one the crash theorems allow |
| Orchestrator.CompletedRunSavesAll | src/pipeline/orchestrator.ts:579-704 | A completed run has saved generation first and every stage it did not replay, under its label and with the lists it went on with |
| RunSaves.StraysCounted | src/pipeline/orchestrator.ts:904-995 | One save is owed for each try given up, with what its stage resolved with, and none besides |
| Orchestrator.CompletedRunAccountsForAll | src/pipeline/orchestrator.ts:586-704 | A completed run from a store this code wrote: generated = listed + Unknown + left over, as multisets |
| Orchestrator.CompletedRunFlagsLoss | src/pipeline/orchestrator.ts:724-734 | .. and what was left over is flagged and counted, unless the signal was set while the last stage ran |
| PipelineFlow.CandidateAccounting | src/pipeline/orchestrator.ts:586-704 | The balance for every behaviour of the stages within their contract |
| PipelineFlow.ScoredExactly | src/pipeline/orchestrator.ts:691-695 | The scored list is what scoring filtered and what the gate passed or filtered, candidate by candidate: scoring's input less what the two left over |
| PipelineFlow.AllExactly | src/pipeline/orchestrator.ts:696-704 | The full list is what each stage filtered and what the gate passed, candidate by candidate |
| PipelineFlow.ReportExactly | src/pipeline/orchestrator.ts:724-883 | The report is complete and says nothing else: an error per stage that failed for good, an entry with processed and expected counts per stage that failed or overran, the stages' own reports; degraded exactly when some stage was not clean |
| PipelineFlow.StageLossIsCovered | src/pipeline/orchestrator.ts:778-868 | One stage's degradation entries cover at least what it lost, over retry, timeout, budget and fatal paths |
| PipelineFlow.LossIsNeverSilent | src/pipeline/orchestrator.ts:724-883 | Not degraded implies every stage sorted its whole input; otherwise the recorded shortfalls cover the loss |
| PipelineFlow.CleanRunConserves | src/pipeline/orchestrator.ts:586-704 | No degradation and no Unknown candidate: conservation is exact |
| PipelineRuns.LossFlaggedIff | src/pipeline/orchestrator.ts:672-734 | There is no abort check after the trademark stage: for a fixed abort signal, every run that goes on to the end flags all loss, whatever the stages do within their contract, exactly when the signal is unset at all three gate tries (or set at one of the three tries of an earlier stage, so that no run goes on) |
| PipelineRuns.AbortInLastStageIsSilent | src/pipeline/orchestrator.ts:672-704 | The failing half: for every signal first set at some gate try, a run within the contract loses a candidate with `degraded = false` |
| PipelineRuns.RecommendationProvenance | src/pipeline/orchestrator.ts:586-704 | Every recommendation was passed by generation, DNS, RDAP with a known status, scoring and the gate, in that order; the recommendations are exactly what one try of the gate resolved with; and the recommended, scored and full lists nest as multisets |
| PipelineRuns.ResumeIsTransparent | src/pipeline/orchestrator.ts:471-481 | From a store without rows of the run, or with those an earlier run of it left: any crashes, any landed subset of saves in any order, then a rerun loads and gives the result of an uninterrupted run |
| PipelineRuns.ReplayNeedsGenerationLast | src/pipeline/orchestrator.ts:471-521 | Generation is replayed exactly when its row is the last inserted; nothing else is ever replayed |
| PipelineRuns.RerunGeneration | src/pipeline/orchestrator.ts:505-530 | A rerun whose last inserted row is generation's works with the result saved there, whatever its own generation would yield; any other generates anew |
| PipelineRuns.GenerationSurvivesCrash | src/pipeline/orchestrator.ts:471-521 | Crashed once generation was saved, with that save the last inserted and not too old: the rerun goes on with the same candidates even if generating anew would fail or differ |
| PipelineRuns.FaithfulReplayKeepsLists | src/pipeline/orchestrator.ts:904-927 | For any resume index and faithfully saved results, replay keeps the lists and drops the replayed degradation entries |
| PipelineRuns.DegradedCheckpointHidesLoss | src/pipeline/orchestrator.ts:946-958 | Degraded-empty results are saved too: a resume index that replayed one would lose every candidate unflagged (hypothetical: the labels in use never lead there) |
| ConnectionPool.DatabasePool.AcquireConn | src/db/database-pool.ts:50-70 | Reuses the first free entry of the mode, opens one below the maximum, refuses otherwise |
| ConnectionPool.DatabasePool.ReleaseConn | src/db/database-pool.ts:72-77 | Frees that connection's entry only |
| ConnectionPool.DatabasePool.CloseAll | src/db/database-pool.ts:79-89 | Closed for good, with no entry left; a connection still held is forgotten |
| ConnectionPool.PoolIsExclusive | src/db/database-pool.ts:50-89 | In every run no connection has two holders, entries never exceed the maximum, and the mode is the one asked for; refused exactly when closed, or full with every connection of that mode held |
| ConnectionPool.ShutIsFinal | src/db/database-pool.ts:50-89 | After any run a pool hands out no connection, even with room for one, exactly when it was closed at some time, and then has none |
| PooledProvider.PooledSqliteProvider.OpenTransaction | src/db/database-pool.ts:163-174 | BEGIN or SAVEPOINT by depth, counted only when it succeeded |
| PooledProvider.PooledSqliteProvider.FinishTransaction | src/db/database-pool.ts:176-200 | COMMIT/RELEASE or ROLLBACK/ROLLBACK TO, the counter down once, the connection back |
| PooledProvider.PooledSqliteProvider.RunSingle | src/db/database-pool.ts:121-160 | A single statement takes a connection and gives it back, whatever its outcome |
| PooledProvider.PooledSqliteProvider.RunBackup | src/db/database-pool.ts:203-219 | The target directory is created after acquiring and outside the try block |
| PooledProvider.DepthCountsFlights | src/db/database-pool.ts:106-201 | In every interleaving `#txDepth` is the number of transactions in flight, and the connections held are theirs and the leaked ones |
| PooledProvider.EverythingElseIsReturned | src/db/database-pool.ts:121-219 | With no transaction in flight a connection is still in use exactly when some backup of the run that could not create its directory kept it |
| PooledProvider.CallsReuse | src/db/database-pool.ts:121-174 | A single call, a backup that succeeds or a transaction refused at BEGIN takes an idle connection and leaves the pool as it was, or opens one and leaves it idle |
| PooledProvider.ConnectionsTidyIff | src/db/database-pool.ts:163-200 | After any run every connection has one open transaction level if in flight and none otherwise, exactly when each transaction of the run committed, or was opened at depth 0 and rolled back |
| PooledProvider.TidyStep | src/db/database-pool.ts:176-197 | A step keeps that exactly when it settles its transaction; otherwise it leaves the connection poisoned |
| PooledProvider.PoisonIsForGood | src/db/database-pool.ts:163-200 | A poisoned connection stays poisoned in every continuation: BEGIN is refused on it and nested savepoints never reach its bottom level |
| PooledProvider.OverlappingFailurePoisonsConnection | src/db/database-pool.ts:163-200 | Three overlapping transactions on two connections leave one idle in the pool inside an open transaction |
| Migrations.AssertSchemaCompatible | src/db/migration-manifest.ts:80-123 | Accepts exactly the prefixes of the manifest; reports each unknown name once |
| Migrations.Database.RunMigrations | src/db/migrator.ts:104-125 | Each missing `up` in order, its name recorded after it |
| Migrations.Database.RollbackMigration | src/db/migrator.ts:179-251 | Refused unless the migration has a `down` and is the last applied; otherwise `down` and the row deleted |
| Migrations.Database.EnsureSchemaUpToDate | src/db/migrator.ts:323-349 | Gate, then run: the gate passes exactly the prefixes, and anything at all when its read of the applied names fails; a failed read of the run itself throws; whatever does not pass is left untouched |
| Migrations.UnreadBoot | src/db/migration-manifest.ts:130-141 | What is let through on a failed read: the applied names only grow and stay out of step with the manifest, so every later gate that reads them refuses; the database is left alone exactly when it has all of the image's migrations |
| Migrations.BehindImageBoots | src/db/migration-manifest.ts:130-141 | So an image behind its database, which the gate is there to refuse, boots on a failed read with nothing to migrate |
| Migrations.BootCompletes | src/db/migrator.ts:104-125 | An accepted boot ends with the whole manifest applied and the schema the fold of all `up`s |
| Migrations.HistoryKeepsPrefix | src/db/migrator.ts:104-251 | Any mix of boots and rollbacks keeps applied a prefix and, if each `down` inverts its `up`, the schema the fold over it |
| Migrations.BootsLeaveForeign | src/db/migrator.ts:323-349 | No number of boots touches a database whose names are out of step with the image |
| MigrationProtocol.AtMostOneInside | src/db/migrator.ts:362-422 | Over every interleaving of processes, crashes and operator removals, at most one process is in the guarded section |
| MigrationProtocol.NextEntersIff | src/db/migrator.ts:362-422 | Whoever leaves the guarded section, the next process gets in at once exactly when the lockfile was unlinked; otherwise only after the operator removes it |
| MigrationProtocol.GateDecides | src/db/migrator.ts:397-401 | A process inside is let on or refused, one or the other, where its read does not fail |
| MigrationProtocol.CrashesConverge | src/db/migrator.ts:362-422 | Crashes anywhere, also between an `up` and its record, and failed reads at the gate: a boot that completes has applied the manifest and reached the fold |
| MigrationProtocol.ConvergesIffIdempotent | src/db/migrator.ts:119-124 | Every release converges after any crashes if and only if every `up` is idempotent in its place |
| Persistence.RunPersistence.UpsertCandidates | src/app/pipeline-run-service.ts:370-408 | The loop as written: the upserts are the slices of its batches; every recorded id belongs to its own domain; None exactly on a missed deadline |
| Persistence.RunPersistence.InsertScores | src/app/pipeline-run-service.ts:410-446 | Each score row carries the id recorded for its own domain, in the order of its batches |
| Persistence.ResizedInBounds | src/app/pipeline-run-service.ts:385-395 | The size stays within [100, 1000], grows exactly when fast and below the maximum, shrinks exactly when slow and above the minimum |
| Persistence.ResizedByTwo | src/app/pipeline-run-service.ts:385-395 | By a factor of two or as far as the bound; within the bounds a fast batch is undone by a slow one |
| Persistence.GapsAndOverlaps | src/app/pipeline-run-service.ts:398-408 | Advancing by the resized value: an index is written by no batch exactly when some batch grew over it, by several exactly when one shrank back over it |
| Persistence.AllWrittenIff | src/app/pipeline-run-service.ts:398-408 | Every candidate is written if and only if no batch before the last grows |
| Persistence.GrowthIsSpeed | src/app/pipeline-run-service.ts:385-395 | Which happens exactly when a batch below the maximum took less than 100 ms |
| Persistence.FastFirstBatchSkipsCandidates | src/app/pipeline-run-service.ts:398-408 | 501 candidates and one fast batch: the last is never written |
| Persistence.SliceLengthWritesOnce | src/app/pipeline-run-service.ts:398-408 | The same loop advancing by what it wrote would write every candidate exactly once |
| JobWorker.JobWorker.PollDelayMs | src/jobs/worker.ts:181-186 | interval * 2^min(busy-1, 5), at most 30 s, by repeated doubling |
| JobWorker.JobWorker.StartPolling | src/jobs/worker.ts:60-72 | Starts one timer unless running |
| JobWorker.JobWorker.StopPolling | src/jobs/worker.ts:74-112 | Clears the last timer; returns at once without active jobs, otherwise waits with a grace timer |
| JobWorker.JobWorker.OnPollTimer | src/jobs/worker.ts:123-134 | A poll begins with the slots free at that moment, or reschedules |
| JobWorker.JobWorker.OnDequeued | src/jobs/worker.ts:135-160 | A dequeued job enters the map; the running flag is not looked at |
| JobWorker.JobWorker.OnDequeueError | src/jobs/worker.ts:141-160 | SQLITE_BUSY counts up unless the poll had taken a job |
| JobWorker.JobWorker.OnRequeued | src/jobs/worker.ts:162-168 | The next poll is scheduled only if `requeueStuck` succeeded |
| JobWorker.JobWorker.ProcessJob | src/jobs/worker.ts:188-208 | A processing up to its first await: into the map, and without a handler or with an unreadable payload straight to `fail` |
| JobWorker.JobWorker.OnHandlerEnded | src/jobs/worker.ts:211-228 | The handler returned: `complete` is called; an AbortError ends the processing; any other error calls `fail` |
| JobWorker.JobWorker.OnCompleteAnswered | src/jobs/worker.ts:213-236 | Accepted ends the processing; a rejection is caught like a handler error, whether or not it took effect in the queue |
| JobWorker.JobWorker.OnFailAnswered | src/jobs/worker.ts:196-236 | The slot is freed and the shutdown checked, except when a missing handler's `fail` is rejected |
| JobWorker.JobWorker.OnGraceElapsed | src/jobs/worker.ts:101-107 | Aborts every active job and releases the latest waiting stop; which jobs have been aborted is `WorkerShutdown.AbortedIff` |
| WorkerShutdown.StopAnswers | src/jobs/worker.ts:74-112 | A `stop` returns at once exactly when the worker is not running or no job is in the map; otherwise it waits |
| WorkerRuns.ActiveIsBounded | src/jobs/worker.ts:114-168 | In every interleaving active jobs <= concurrency * (1 + starts that came while a stopped poll was suspended) |
| WorkerRuns.RestartDoublesConcurrency | src/jobs/worker.ts:60-168 | For every concurrency one such start is enough to reach twice as many active jobs |
| WorkerRuns.ConcurrencyHoldsIff | src/jobs/worker.ts:60-168 | So `concurrency` is respected by all runs with at most r such starts exactly when r = 0 |
| WorkerJobs.EveryJobIsSettledOnce | src/jobs/worker.ts:188-237 | In every interleaving at most one `complete`, one `fail` and one freed slot per processing; `fail` exactly when the handler was missing or failed or `complete` was refused; what is over ended in exactly one of accepted, `fail`, AbortError |
| WorkerJobs.NotedIff | src/jobs/worker.ts:188-237 | In every run: whose start or handler failed, whose `complete` was accepted or refused, who ended on an AbortError, who gave its slot back and what was called for whom, each exactly because some step of the run says so |
| WorkerJobs.SlotLostIff | src/jobs/worker.ts:195-237 | A processing ends without giving its slot back exactly when it started without a handler and its `fail` was later rejected |
| WorkerJobs.DoubleBookedIff | src/jobs/worker.ts:211-232 | In every interleaving, whatever lies between: the queue ends up holding the job both completed and failed exactly when its `complete` took effect but was rejected (not as an abort) and its `fail` took effect later |
| WorkerJobs.AppliedIff | src/jobs/worker.ts:205-232 | A call is on the queue's record exactly when at some step its answer met the processing that waits for it and it had taken effect |
| WorkerJobs.MapCoversProcessings | src/jobs/worker.ts:188-237 | Without redelivery of an active job the map covers all running processings; a lost slot stays lost |
| WorkerJobs.RedeliveryHidesProcessing | src/jobs/worker.ts:190-234 | With it, a processing runs on outside the map once the job's first processing ends |
| WorkerShutdown.ReleasedIff | src/jobs/worker.ts:97-112 | A waiting `stop` is released exactly by the end that empties the map of a stopped worker or by a grace timer, and only if it is the latest |
| WorkerShutdown.ReleaseLeavesNoneUnsignalled | src/jobs/worker.ts:97-112 | Whatever releases a waiting `stop`: the map is empty, or every processing still in it has been aborted |
| WorkerShutdown.AbortedIff | src/jobs/worker.ts:101-107 | In every run a processing has been aborted exactly when a pending grace timer fired while it was in the map |
| WorkerShutdown.LatestStopIsTimed | src/jobs/worker.ts:97-112 | In every run the latest `stop`, while it waits, has its grace timer pending, and a pending one is that of a waiting `stop` |
| WorkerShutdown.OvertakenStopNeverReturns | src/jobs/worker.ts:97-112 | A waiting `stop` overtaken by a later one never returns, in any continuation |
| WorkerShutdown.StopStartStopStrands | src/jobs/worker.ts:74-112 | Stop, start, stop over a running job does that |
| WorkerShutdown.StoppedStartsNothingIff | src/jobs/worker.ts:123-156 | A stopped worker starts no job until the next start exactly when no poll was waiting for a dequeue |
| WorkerShutdown.DeadChainStaysDead | src/jobs/worker.ts:162-168 | A running worker whose poll died takes no job until stopped and started |
| WorkerShutdown.ChainDiesIff | src/jobs/worker.ts:114-168 | From any state with a chain, a step leaves a running worker without timer and poll exactly when it is the rejected `requeueStuck` of the only poll left |
| WorkerShutdown.ChainOutlivesEverythingElse | src/jobs/worker.ts:60-168 | So in every run without a rejected `requeueStuck` a running worker has a timer or a poll |
| WorkerShutdown.BackoffNeverHastensIff | src/jobs/worker.ts:181-186 | Backing off never polls sooner than the interval exactly when the interval is within the 30 s cap |
| WorkerShutdown.DelayDoubles | src/jobs/worker.ts:180-186 | The interval after one busy error, doubled by each further one up to the sixth, never past the cap |
| WorkerShutdown.BusyIsCounted | src/jobs/worker.ts:123-160 | In every run the counter behind the delay is the number of busy errors since a poll last took a job or found all slots taken |
| WorkerShutdown.TimersAreDelays | src/jobs/worker.ts:114-121 | Every timer set is set to the delay for the counter at that point |
| PgImport.BuildInsert | src/db/sqlite-to-pg-migrator.ts:131-146 | Placeholder $(j*m+c+1) stands at row j, column c and names that row's value of that column, missing keys as null |
| PgImport.BoundRows | src/db/sqlite-to-pg-migrator.ts:131-156 | So the statement inserts the chunk's rows cut to the columns |
| PgImport.PgClient.InsertBatch | src/db/sqlite-to-pg-migrator.ts:125-157 | Chunks of 500 together insert all rows in order, each only if its key is free |
| PgImport.PgClient.AdvanceSequence | src/db/sqlite-to-pg-migrator.ts:160-176 | The sequence of a serial table is set from its largest id |
| PgImport.PgClient.ImportJsonl | src/db/sqlite-to-pg-migrator.ts:96-123 | All of it, or on any fault no row of it: the tables as they were, but the sequences as advanced by the lines before the fault, for `setval` is not undone by ROLLBACK; the counts returned |
| PgImportRuns.SummaryCounts | src/db/sqlite-to-pg-migrator.ts:96-123 | The counts returned are those of all rows of the export and of its lines that have any |
| PgImportRuns.FailureIsCleanIff | src/db/sqlite-to-pg-migrator.ts:106-118 | A failed import leaves the database unchanged exactly when each sequence that the lines before the fault move already had the value they give it |
| PgImportRuns.RolledBackRowsMoveSequence | src/db/sqlite-to-pg-migrator.ts:106-118 | Rolled-back rows of a serial table do move its sequence |
| PgImportRuns.RetryConvergesIff | src/db/sqlite-to-pg-migrator.ts:90-95 | After any failed imports of any exports, a successful one leaves what it would have left alone exactly when each sequence it does not set itself still has its first value |
| PgImportRuns.RetriesConverge | src/db/sqlite-to-pg-migrator.ts:90-95 | So any number of failed imports of an export, stopped anywhere, followed by a successful one leave what the successful one alone leaves |
| PgImportRuns.IdsStayFree | src/db/sqlite-to-pg-migrator.ts:90-176 | No history of imports, failed or not, makes the next value of a sequence collide with an id in its table |
| PgImport.PgClient.VerifyImport | src/db/sqlite-to-pg-migrator.ts:182-195 | The tables whose row count differs from the export |
| PgImportRuns.MismatchesExactly | src/db/sqlite-to-pg-migrator.ts:182-195 | Each table whose count differs is listed with the export's count and its own, and nothing else; it throws exactly when a table is missing |
| PgImportRuns.ReimportIsNoOpIff | src/db/sqlite-to-pg-migrator.ts:147-156 | Importing the same export twice equals importing it once if and only if every imported table has a key |
| PgImportRuns.CountMatchesIff | src/db/sqlite-to-pg-migrator.ts:187-194 | The count of a table agrees exactly when every row that was there shares its key with an exported row |
| PgImportRuns.VerifyPassesIff | src/db/sqlite-to-pg-migrator.ts:182-195 | Over the whole export: no mismatch exactly under that condition for each table |
| PgImportRuns.ContentsMatchIff | src/db/sqlite-to-pg-migrator.ts:147-156 | The contents agree exactly when those rows themselves are exported |
| PgImportRuns.CountCheckMissesStaleRow | src/db/sqlite-to-pg-migrator.ts:182-195 | A stale row with an exported key passes the check and is kept |
| PgImportRuns.NextIdIsFree | src/db/sqlite-to-pg-migrator.ts:173-175 | The next sequence value exceeds every id, and is the least such value from 2 on |
| PgImportRuns.ProjectionIsExactIff | src/db/sqlite-to-pg-migrator.ts:104-105 | Cutting rows to the first row's columns loses nothing exactly when they have those columns and no others |
| DropVerdict.ComputeNpv | src/portfolio/npv-calculator.ts:30-62 | The loop computes the documented sums, rounded |
| DropVerdict.AnnuityClosedForm | src/portfolio/npv-calculator.ts:41-47 | r * sum of 1/(1+r)^t = 1 - (1+r)^-n |
| DropVerdict.ReturnsAddUp | src/portfolio/npv-calculator.ts:41-50 | The projected annual return over the horizon adds up to the net present value, acquisition and renewals aside |
| DropVerdict.BreakEvenPays | src/portfolio/npv-calculator.ts:50-55 | After the break-even years the surplus has paid the acquisition; without a surplus the answer lies past the horizon |
| DropVerdict.CentsClose | src/portfolio/npv-calculator.ts:56-60 | Rounding errs by at most half a cent |
| DropVerdict.CentsNegativeIff | src/portfolio/npv-calculator.ts:56-60 | A rounded value is negative exactly below -0.005 |
| DropVerdict.ComputeDropVerdict | src/portfolio/drop-verdict-engine.ts:32-57 | The verdict and the reported value of either method; an unscored domain is never dropped |
| DropVerdict.DropMonotoneIff | src/portfolio/drop-verdict-engine.ts:107-168 | For a fixed list price a lower score never saves a domain, under both methods and all costs, dates, rates and horizons, if and only if the price is absent or not negative |
| DropVerdict.NpvDropsIff | src/portfolio/drop-verdict-engine.ts:123-142 | Drop and Keep, in closed form, at every rate above -1, 0 included; with them Reprice. Drop: loses more than half a cent over the horizon, near renewal, not paid for or a low score. Keep: does not lose, and renewal far off or a good score |
| DropVerdict.GainScales | src/portfolio/drop-verdict-engine.ts:107-122 | The expected value is the list price or five per point of score, and the confidence the score in per cent within 0 and 1 |
| DropVerdict.YearsValuedIsAnnuity | src/portfolio/npv-calculator.ts:41-47 | The closed form is the sum the loop computes, at a rate of 0 too |
| DropVerdict.ThresholdDropsIff | src/portfolio/drop-verdict-engine.ts:65-90 | Drop and Keep, in whole renewals, for all dates; with them Reprice. Drop: near renewal, score too low, and the price covered by the renewals counted, which is one for any domain not yet expired. Keep: a low score with renewal far off, or a good one unlisted or with renewal three times as far |
| DropVerdict.CoversIff | src/portfolio/drop-verdict-engine.ts:65-90 | A number of renewals covers the price when they cost as much, or if they are free, when they are as many as the euros paid |
| DropVerdict.HoldingTimeIgnoredIff | src/portfolio/drop-verdict-engine.ts:65-90 | The time a domain was held changes no verdict of the threshold method exactly when the renewal horizon is under a year |
| Histogram.EscapeFirst | src/app/metrics-collector.ts:28-31 | The three replacement passes act character by character: none escapes what another inserted |
| Histogram.ValueReadBack | src/app/metrics-collector.ts:28-31 | An escaped value is read back whole, whatever it contains and whatever follows |
| Histogram.KeyReadBack | src/app/metrics-collector.ts:26-34 | A parser recovers name and sorted labels from the key |
| Histogram.KeysAgreeIff | src/app/metrics-collector.ts:26-34 | Two samples share a key if and only if names and label maps are equal, whatever the insertion order |
| Histogram.DelimitersCollide | src/app/metrics-collector.ts:26-34 | Names with `{` or label names with `=` can collide |
| MetricsCollector.MetricsCollector.RecordHistogram | src/app/metrics-collector.ts:136-162 | Drops non-finite and negative values; otherwise count, sum and buckets of that key |
| MetricsCollector.MetricsCollector.CountInto | src/app/metrics-collector.ts:156-160 | The bucket loop increments every bucket whose bound is not exceeded |
| MetricsCollector.SamplesSummarise | src/app/metrics-collector.ts:136-162 | After any run each bucket of each key counts the accepted values up to its bound, in the first observation's buckets |
| MetricsCollector.GoodValuesCount | src/app/metrics-collector.ts:136-162 | A key's count is the number of its observations with a finite value that is not negative |
| MetricsCollector.CumulativeIff | src/app/metrics-collector.ts:156-160 | Counts never decrease from bucket to bucket, for all values, exactly when no non-negative bound is followed by a smaller one; none exceeds the total |

## Left out

- Orchestrator.PipelineOrchestrator.Run: assumes no other run is active when it starts; what two runs do to each other is `StageLocks.CleanupForgetsOtherRuns`. Saves that land once it has returned are those of the crash theorems.
- Orchestrator.PipelineOrchestrator.RunStageSafe: the per-stage summary, metrics and progress callbacks are not modelled; a callback that throws inside the try is one more failed try whose inside save counts as a stray, except after the degradation entries were pushed. Backoff delays are not modelled.
- Orchestrator.PipelineOrchestrator.RunStageWithCheckpoint: a checkpoint store and a run id are taken to be present; without them no save is issued. The time of a stray save is left open; it may come after the run.
- Orchestrator.PipelineOrchestrator.RunGeneration: its own timeout race is part of the environment's answer.
- FencedLock.PipelineLocks.TryLockWithFence: each call reads one clock; the code reads it several times within a call. A failing statement is the purge or fault event of the histories, and the PostgreSQL provider's locks are not modelled.
- LockProtocol.ExclusiveIffTtlCoversThreeBeats: a tick that finds the previous renewal unanswered is excluded by taking a call to be no longer than a heartbeat.
- Histogram.Less: strings are compared by code point, where JavaScript compares UTF-16 code units; the order of labels with characters beyond U+FFFF may differ, the theorems do not depend on it.
- CheckpointStore.SavedIsLoaded: JSON text is modelled as an encoding with a parser that may fail, not character by character.
- ConnectionPool.DatabasePool.AcquireConn: opening a new connection is taken to succeed; when it fails the call throws with the pool unchanged.
- PooledProvider.PooledSqliteProvider.OpenTransaction: SQL inside the callback, busy errors and closing the pool under a transaction are not modelled.
- Migrations.Database.RollbackMigration: its advisory lock, the PostgreSQL variant and a crash between `down` and the deleted row are not modelled.
- MigrationProtocol.ConvergesIffIdempotent: backups before a migration and the idempotent creation of the lock table are not modelled; the gate and the run are.
- Persistence.RunPersistence.UpsertCandidates: a batch whose transaction throws ends the run; that path and the run's final status row are not modelled, and the stored domain is taken to be the candidate's own.
- JobWorker.JobWorker.ScheduleNext: the random factor of 0.8 to 1.2 on each delay is not modelled.
- JobWorker.JobWorker.ProcessJob: heartbeats to the queue, tenant contexts and dead-letter notifications are not modelled.
- PgImport.PgClient.InsertBatch: one key per table; further unique constraints, column defaults and type errors are not modelled, nor is the limit on the number of parameters of one statement.
- PgImport.Key: two nulls count as the same key; PostgreSQL has no null in a primary key and rejects such a row, which is a fault at its line.
- PgImport.PgClient.ImportJsonl: the export side and the reading of the JSONL file are not modelled; a malformed line is a fault at that line. A COMMIT that took effect but whose answer was lost, and other sessions drawing from the sequences meanwhile, are not modelled.
- DropVerdict.ComputeNpv: exact reals instead of IEEE doubles, a whole non-negative horizon and a rate above -1 (the configuration allows 0 to 1). The reason texts are not modelled.
- MetricsCollector.MetricsCollector.RecordHistogram: samples are values in the map, not shared objects; the other counters of the collector are left out as they would add easy members.
- HTTP routes, command line, configuration, provider construction, notifiers, listing and offer handling, profit reports: wiring, or single-branch decisions.
