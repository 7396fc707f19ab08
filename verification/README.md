# ByteBattles judge: a verified model

ByteBattles judges programming submissions with several processes that share Redis lists and keys: an API
that commits rows and enqueues ids, an orchestrator that scales and supervises judge workers, the workers,
and a sandbox manager whose creator threads keep a pool of warm containers. This project models those parts
in Dafny and proves what holds over every interleaving of them, and what one worker computes from a
submission.

## How the model is built

* **Two state machines.** `SandboxPool` (manager thread, creator threads, judges around the warm lists) and
  `JobProtocol` (API, orchestrator, workers around the job list and the worker keys). A `Step` is one action
  another process can interleave with, a `Run` is any finite sequence of enabled steps, and the theorems are
  about every run from a start, or about every pair of states of a run. A start may find whatever an earlier
  life has left in Redis and the database (`JobProtocol.Start`, `SandboxPool.Init`).
* **The code over them.** `SandboxManagerCode.SandboxManager` and `JudgeCode.Judge` are classes with the
  source's mutable state and methods. Between any two operations on shared state the other processes may do
  whatever an arbitrary schedule lists. Every contract says that all operations of all processes together are a
  run of the state machine, so every theorem about runs is a theorem about the code. Methods without loops say
  as well which operations are their own part of that run; methods that loop say what state they reach.
* **One submission.** `Pipeline` holds `process_submission` with its early exits, `Executor` the reading of the
  exec socket and the choice of a verdict, `OutputComparison` the comparison of outputs; `Verdicts` and
  `JudgingTheorems` say what the result means. The job protocol takes what an attempt comes to as a parameter;
  `JudgingTheorems` puts the pipeline in its place and draws the conclusions for the rows of the database.
  `ArchivePairing` and `TestcaseUpload` are the archive half of `create_problem`.

| file | subject |
|---|---|
| `SandboxPool.dfy`, `PoolDrain.dfy`, `PoolStarvation.dfy`, `WarmOrder.dfy`, `SandboxManager.dfy` | warm pool: bounds, leases, liveness, starvation, order, code |
| `JobProtocol.dfy`, `JobConservation.dfy`, `GracefulRuns.dfy`, `JobLoss.dfy`, `JobLiveness.dfy`, `JobResults.dfy` | jobs: conservation, losses, liveness, what a row holds |
| `JobLifecycle.dfy`, `JobShutdown.dfy`, `LeftoverKeys.dfy`, `StaleKeys.dfy`, `JudgeCode.dfy`, `Scaling.dfy`, `Interleaving.dfy` | jobs: order, joins, shutdown, leftover keys, code, scaling |
| `Strings.dfy`, `OutputComparison.dfy`, `Executor.dfy`, `Verdicts.dfy`, `Pipeline.dfy`, `JudgingTheorems.dfy` | judging one submission |
| `ArchivePairing.dfy`, `TestcaseUpload.dfy` | testcase archives |
| `Queues.dfy` | Redis lists as queues |
| `Types.dfy` | languages, verdicts, outcomes, the recorded columns |

## What the proofs found

* A pool of threshold T with C creators can settle empty, for ever, exactly when T <= C
  (`PoolStarvation.StarvesExactlyWhen`, `StarvedForever`): containers that are pushed but not yet decremented
  count twice, so the events of their pops are answered with "no deficit".
* Six kinds of step lose a job, not only the crash of a worker: forced termination in `stop_worker`, a dead
  process, a freeze between the pop and the submission key, a "frozen" worker that wakes and takes another job
  before `terminate`, Ctrl-C inside the `try` of a worker, and a failing retry push. `JobLoss` has one run for
  each; `JobLoss.LostExactlyWhen` and, over whole runs, `KeptExactlyWhen` show there is no other way. README.md
  of the repository promises a retry of stuck or failed submissions without these exceptions; the model follows
  the code.
* A worker that wakes up while it is being reaped is otherwise harmless: conservation needs only that what it
  holds when it is killed, if anything, is the id that was pushed back (`JobConservation.Benign`). Runs that an
  operator would call orderly all have that property (`GracefulRuns.GracefulIsBenign`).
* A shutdown can end with a worker still running exactly when it begins while the orchestrator is between
  starting a worker and listing it, or between taking one off the list and having joined it, and that worker is
  not over (`JobShutdown.ShutdownLeavesWorkerExactlyWhen`). Both moments come up.
* A worker that leaves deletes its two keys, but the orchestrator may set them again: `stop_worker` signals
  without looking whether the process is alive, and `spawn_worker` sets the heartbeat of a worker that may have
  left. `LeftoverKeys.KeysLeftExactlyWhen` says exactly when a key stays, and there is a run for each case.
* Identifiers begin anew with every orchestrator, and a new worker's process starts before `spawn_worker` resets
  its shutdown key. So the new worker can read the old key and leave although nobody has told it to; exactly
  the workers with an old key can (`StaleKeys.LeavesUntoldExactlyWhen`).
* A `brpop` that raises pushes the id of the previous iteration once more, or ends the process if there is none
  (`JudgeCode.Judge.ConsumeOnce`); that id may be settled already (`JobLoss.StaleIdReturns`).
* The handler of ValueError leaves the submission key in place, so a worker that is found frozen later, even an
  idle one, has the job it gave up pushed once more (`LeftoverKeys.SubmissionKeyExactlyWhen`,
  `JobLoss.IdleKeyIsReaped`).
* A commit that raises ValueError drops the job at worker.py:60 with its row still PENDING; after any other
  exception it is retried (`JudgingTheorems.WorkerReacts`, `JobLoss.CommitErrorDropsJob`).
* `delete_problem_folder` lists one page. A caller can be sure that a failed `create_problem` leaves nothing in
  the folder exactly when what was there and two objects per testcase fit on one page
  (`TestcaseUpload.NothingLeftExactlyWhen`); if they do not and the commit fails, objects stay
  (`LargeArchiveLeavesObjects`).
* "Memory equals the limit exactly when the verdict is MLE" holds for a positive limit; the exact condition over
  all limits the form accepts is in `Verdicts.MemoryTellsVerdict`.
* The archive check is right about an archive exactly when matching names come in the same order on both sides
  (`ArchivePairing.CheckIsRightExactlyWhen`, and in terms of one side's order `CheckIsExactWhen` and
  `FlatOutputsCheck`); otherwise it refuses it (`NestedCheckIsNotExact`). Mirrored folders are always accepted and
  paired place by place (`MirroredIsAccepted`); without that, accepted pairs may cross folders
  (`CrossedFoldersAccepted`).

## Model

| member | source | states |
|---|---|---|
| SandboxPool.PoolNeverOverfills | judge/sandbox_manager/main.py:132-166 | in every run warm containers plus all that are under way never exceed the threshold, or the leftovers found at the start if those were more, in spite of the length read before the update |
| SandboxPool.PoolStaysReplenished | judge/sandbox_manager/main.py:154-166 | from the count of a language's first maintain_pool on, in every state in which the manager runs, supply plus the deficit about to be added plus pops whose event is unanswered is at least T minus the number of creators, also between the length read and the decision |
| SandboxPool.SettledPool | judge/sandbox_manager/main.py:204-215 | with nothing in flight and no event outstanding the warm list holds between T - C and T containers |
| SandboxPool.AccountingIsExact | judge/sandbox_manager/main.py:132-166 | `pending` is exactly queued + still to put + abandoned by an interrupt + being built + not yet decremented, and the unfinished count of the queue is exact, through any failures |
| SandboxPool.LeasesAreExclusive | judge/sandbox_manager/main.py:118-124 | over a whole run no container is leased twice, and none is leased while warm or after the final cleaning took it |
| SandboxPool.EachIdIsOnce | judge/judge_worker/redis_queue.py:24-29 | in every reachable state each container id ever made warm is in exactly one warm list, lease or cleaning, exactly once |
| WarmOrder.WarmListIsFifo | judge/judge_worker/redis_queue.py:24-29 | over any run, what is taken from a warm list and then what is left in it is what was in it and then what has become warm, in that order |
| PoolDrain.WorkIsCounted | judge/sandbox_manager/main.py:132-148 | a run of work steps has exactly as many steps as the weights it used up plus three per failed creation, and neither makes nor loses supply |
| PoolDrain.RestIsFull | judge/sandbox_manager/main.py:132-166 | when the work is done nothing is pending and the warm list holds the whole supply there was, however many creations failed on the way |
| PoolDrain.PoolAlwaysRecovers | judge/sandbox_manager/main.py:132-166 | from every reachable state with the lock free the threads can get there, for all languages at once, in exactly the counted number of steps |
| PoolStarvation.StarvesExactlyWhen | judge/sandbox_manager/main.py:141-166 | some run leaves some language with an empty pool and nothing coming if and only if T <= C |
| PoolStarvation.StarvedForever | judge/sandbox_manager/main.py:204-215 | a starved language stays starved while the manager runs: no judge ever pops a container of it again |
| PoolStarvation.InitialisedForever | judge/sandbox_manager/main.py:198-200 | that a language's first maintain_pool is over is permanent |
| PoolStarvation.NoRefillAfterJoin | judge/sandbox_manager/main.py:221-226 | once the creators are joined no warm list ever grows |
| SandboxManagerCode.SandboxManager.MaintainPool | judge/sandbox_manager/main.py:154-166 | under any interleaving the method is a run whose own part is: count under the lock, decide, put exactly the deficit |
| SandboxManagerCode.SandboxManager.DecideDeficit | judge/sandbox_manager/main.py:156-161 | the deficit is the threshold less the length read earlier and `pending` as it is at the decision, never negative |
| SandboxManagerCode.SandboxManager.InitialFill | judge/sandbox_manager/main.py:198-200 | the initial loop is a run after which every language is initialised |
| SandboxManagerCode.SandboxManager.HandleMessage | judge/sandbox_manager/main.py:204-215 | if there is a message, the manager takes the oldest and maintains its language, and loses none that comes meanwhile; otherwise it does nothing |
| SandboxManagerCode.SandboxManager.Serve | judge/sandbox_manager/main.py:198-215 | after the initial fill and any number of messages every language's supply with its unanswered pops is within the bounds; if nothing is published while the messages there are handled none is left, and then the supply of every language without an unpublished pop is within the bounds by itself |
| SandboxManagerCode.SandboxManager.CreatorTask | judge/sandbox_manager/main.py:132-148 | one task is get, then push and decrement in that order or a re-put, then task_done, under any interleaving and with the lock respected; a container with a fresh id is always pushed |
| SandboxManagerCode.SandboxManager.AcquireWarmSandbox | judge/judge_worker/redis_queue.py:24-29 | returns the rightmost container and records the lease, or nothing and changes nothing |
| SandboxManagerCode.SandboxManager.CleanPool | judge/sandbox_manager/main.py:172-184 | terminates with the list empty whatever judges pop in between and whichever stops fail |
| SandboxManagerCode.SandboxManager.CleanAll | judge/sandbox_manager/main.py:223-226 | all three warm lists end empty |
| JobConservation.JobsAreConserved | judge/judge_worker/worker.py:40-65 | in every run whose endings of processes take no unsettled job, other than one a reap has just pushed back, every enqueued id that no earlier life had lost is judged, deleted, dropped on a ValueError, in the list, or in a live worker's hands |
| GracefulRuns.GracefulRunsKeepJobs | judge/run.py:68-110 | the same for every run without crashes, interrupts of workers, failing retry pushes, forced terminations, wake-ups during a reap, and reaps between pop and submission key |
| GracefulRuns.GracefulIsBenign | judge/run.py:92-106 | such a run never ends a process that holds a job other than the one just pushed back |
| JudgingTheorems.SubmissionsAreKept | judge/judge_worker/worker.py:40-65 | with the real pipeline and no further hypothesis: in such a run every enqueued submission is deleted, dropped, recorded with a final verdict, waiting, or in a live worker's hands |
| JobConservation.CopiesAreFew | judge/run.py:94-99 | in every run, if it was so at the start, an id has at most one copy plus one per reap that pushed it and per stale re-push |
| JobConservation.NoInventedJobs | api/app/routes/submissions.py:40-47 | every id in the list was enqueued after its row was committed; a worker that finds no row is looking at a deleted one |
| JudgingTheorems.RowsHoldTheirResult | judge/judge_worker/pipeline.py:51-151 | over every run of the protocol with this pipeline, if all attempts at a submission met the same program and files (though anything may have failed in some of them), its row is as committed or holds what process_submission computed in an earlier attempt, and then never changes until it is deleted |
| JobResults.JudgedExactlyOnce | judge/judge_worker/worker.py:50-64 | for any way of judging: if the attempts of the run that came to a result agree, a row is as committed or holds the result of an earlier attempt, and once judged it never changes again however often and by however many workers the id is retried |
| JudgingTheorems.WorkerReacts | judge/judge_worker/worker.py:54-65 | how process_submission ends, commit included, decides what the worker does: write and forget, drop on a ValueError, or retry on anything else |
| JobConservation.NothingInHandsAtTheEnd | judge/run.py:112-119 | when all processes are over, after a run in which no ending took an unsettled job, every enqueued id is settled or in the list |
| JobLoss.LostExactlyWhen | judge/run.py:77-106 | a step loses an id if and only if it ends the process that holds the last copy of an unsettled one |
| JobLoss.KeptExactlyWhen | judge/run.py:77-106 | from any start, a run keeps a job from beginning to end if and only if none of its steps ends the process that holds the last copy while the job is unsettled |
| JobLiveness.JobsCanAlwaysFinish | judge/judge_worker/worker.py:40-65 | from every state a run reaches before a shutdown, ordinary steps alone (no crash, error, interrupt, deletion, or kill of a holder) can empty the list and all hands with everything in them settled, unless some submission fails for ever with an error that is retried |
| JudgingTheorems.SubmissionsCanFinish | judge/judge_worker/pipeline.py:63-151 | the same with the real pipeline, if every submission can be judged when all goes well outside |
| JobLoss.ReapingIsBenign | judge/run.py:92-106 | reaping a worker that stays frozen, outside the window between its pop and its submission key, loses nothing |
| JobLoss.DeadProcessLosesJob | judge/run.py:88-90 | a run in which only a dead worker process loses a job, and check_heartbeat forgets it |
| JobLoss.ForcedStopLosesJob | judge/run.py:77-80 | a run in which only forced termination loses a job |
| JobLoss.FrozenBeforeKeyLosesJob | judge/judge_worker/worker.py:46-53 | a run in which only a freeze between brpop and _set_submission loses a job |
| JobLoss.WakingWorkerLosesNextJob | judge/run.py:101-105 | a run in which a reaped worker wakes, takes the next job and is killed with it |
| JobLoss.InterruptLosesJob | judge/judge_worker/worker.py:57-59 | a run in which only Ctrl-C in a worker loses a job |
| JobLoss.FailedRetryLosesJob | judge/judge_worker/worker.py:62-65 | a run in which only a failing retry push loses a job |
| JobLoss.CommitErrorDropsJob | judge/judge_worker/worker.py:54-61 | a run in which judging comes to a result, recording it raises ValueError, and the job is given up with its row as committed |
| JobLoss.IdleKeyIsReaped | judge/run.py:92-99 | a run in which reaping an idle worker pushes a job it had given up, because its submission key was never deleted |
| JobLoss.StaleIdReturns | judge/judge_worker/worker.py:46-64 | a run in which a pop that raises puts an id back in the list that is judged and recorded |
| JobLifecycle.NoOvertaking | api/app/utils/redis_utils.py:5-6 | the entry with k entries ahead is returned by exactly the (k+1)th later pop, whatever is enqueued, retried or reaped meanwhile |
| JobLifecycle.FifoRun | judge/judge_worker/worker.py:46-64 | everything popped followed by the list from its right end is everything ever pushed |
| JobLifecycle.JoinNeverWaits | judge/run.py:85-90 | a listed worker without heartbeat key is past its loop, so the unbounded join never waits on one that takes jobs |
| JobLifecycle.AtMostOneMoreJob | judge/judge_worker/worker.py:41-47 | after the shutdown key is set a worker takes at most one more job |
| JobLifecycle.ShutdownIsBounded | judge/judge_worker/worker.py:40-72 | until the key is cleared a worker takes at most a fixed number of further steps, whatever the others do |
| JobLifecycle.InterruptEnds | judge/judge_worker/worker.py:41-72 | Ctrl-C inside the `try` makes a worker leave its loop, anywhere else it ends the process with all keys in place |
| JobLifecycle.KeysRun | judge/judge_worker/worker.py:53-55 | until a shutdown begins, while a worker works on a job its submission key names that job, unless a reap has just deleted the key |
| LeftoverKeys.SubmissionKeyExactlyWhen | judge/judge_worker/worker.py:53-65 | in any reachable state a worker's submission key exists if and only if it was set (or there at the start) and neither a finished job nor a reap has deleted it since |
| JobShutdown.ShutdownLeavesWorkerExactlyWhen | judge/run.py:56-80 | from any reachable state, some completed shutdown begun there leaves a live process if and only if the orchestrator is between the start and the listing of a worker, or in stop_worker, and that worker is not over |
| JobShutdown.ShutdownEndsEverything | judge/run.py:112-119 | otherwise, once the shutdown has ended, every process ever spawned is over, the manager has exited and the key is cleared |
| JobShutdown.GracefulShutdownKeepsJobs | judge/run.py:112-119 | such a shutdown in a graceful run leaves every enqueued id settled or in the list |
| JobShutdown.ShutdownKeepsJobs | judge/run.py:112-119 | the same whenever no ending of a process before or during it takes an unsettled job |
| JobShutdown.InterruptedStopLeavesWorker | judge/run.py:68-80 | a reachable interrupt inside stop_worker |
| JobShutdown.InterruptedSpawnLeavesWorker | judge/run.py:60-64 | a reachable interrupt between the start of a worker and its entry in the list |
| LeftoverKeys.KeysLeftExactlyWhen | judge/run.py:56-106 | for a worker that has left, in any reachable state: its shutdown key exists if and only if a stop signal to it follows its own delete; its heartbeat if and only if spawn_worker's set follows its own delete and no reap has deleted it |
| LeftoverKeys.SignalBetweenDeletes | judge/run.py:68-73 | a run in which the signal comes between the worker's two deletes |
| LeftoverKeys.SignalAfterDeletes | judge/run.py:68-73 | a run in which it comes after both |
| LeftoverKeys.BeatAfterDeletes | judge/run.py:60-66 | a run in which the heartbeat of a worker that has left is set |
| StaleKeys.LeavesUntoldExactlyWhen | judge/run.py:60-65 | from any start, a worker can leave though no signal, shutdown or interrupt told it to if and only if an earlier life left the shutdown key of its identifier |
| JudgeCode.Judge.ConsumeOnce | judge/judge_worker/worker.py:41-65 | under any interleaving and whichever of its Redis calls raise, one iteration is one of the listed operation sequences, with what follows a loaded row fixed by what judging it comes to, and ends at the loop head, out of the loop, or with the process; what it pushes back is the id it popped, after a raising pop the one popped before, and the process ends if and only if there is none or the push raises |
| JudgeCode.Judge.LeaveLoop | judge/judge_worker/worker.py:71-72 | the process ends with its heartbeat key gone at that moment, and its shutdown key too unless a stop signal to this worker came during the two deletes |
| JudgeCode.Judge.CreateSubmission | api/app/routes/submissions.py:40-47 | when it returns, under any interleaving, the id is in the list exactly once and at the left end, no worker has it, and its row is as committed or has been deleted |
| JudgeCode.Judge.CheckHeartbeat | judge/run.py:82-110 | a worker stays on the list, in order, if and only if its process is alive and its heartbeat there and recent when the loop comes to it; whoever was over at the beginning is dropped, and whoever is dropped is over at the end |
| JudgeCode.Judge.Scale | judge/run.py:41-54 | the worker count becomes the desired one by exactly the difference: that many spawns with identifiers never used before, or that many stops of the newest, and nothing at all when the count is right; the other workers stay as they are |
| JudgeCode.Judge.Ticks | judge/run.py:130-133 | over any number of ticks the count is within [min, max], grows with the queue, and exceeds a fifth of the queue unless capped; and no tick leaves a worker on the list that was over when it began or looked frozen in it |
| JudgeCode.Judge.Shutdown | judge/run.py:112-119 | terminates whatever the workers do meanwhile, with every listed worker and the manager over before the key is cleared, and with no process left unless it interrupted the start or the stop of a worker |
| Verdicts.VerdictIsLeastFailure | judge/judge_worker/pipeline.py:108-147 | ACCEPTED if and only if all testcases pass, else verdict, index, key and output of the least failing one; never PENDING |
| Verdicts.RaisesExactlyWhen | judge/judge_worker/pipeline.py:114-126 | the loop raises exactly when the first testcase that does not pass raises |
| Verdicts.ResourcesAreMaxima | judge/judge_worker/pipeline.py:128-142 | runtime and memory are maxima over exactly the executed testcases |
| Verdicts.MemoryTellsVerdict | judge/judge_worker/executor.py:120-128 | recorded memory equals the limit iff the verdict is MLE, exactly under the stated condition on the limit; runtime stays in 0..1000*limit |
| Pipeline.JudgePipeline.RunTests | judge/judge_worker/pipeline.py:108-138 | the loop stops at the first testcase that raises or fails, and a failing verdict always has its recorded failure |
| Pipeline.JudgePipeline.ProcessSubmission | judge/judge_worker/pipeline.py:63-151 | result or exception, published event, row and calls of stop on every path, whatever each outside call returns or raises; stop is called once exactly when the container lookup succeeded |
| Pipeline.Database.UpdateSubmissionResult | judge/judge_worker/pipeline.py:51-61 | all five columns or none, and a missing row is no error |
| JudgingTheorems.RecordedResult | judge/judge_worker/pipeline.py:57-61 | which field of a result is in which column of its row |
| JudgingTheorems.AcceptedRow | judge/judge_worker/pipeline.py:108-149 | after all testcases have passed: ACCEPTED, no output, no testcase key |
| JudgingTheorems.FailedRow | judge/judge_worker/pipeline.py:131-149 | after a first failing testcase: its verdict, at most 8192 characters of its output, and the key of its input file |
| JudgingTheorems.NotCompiledRow | judge/judge_worker/pipeline.py:89-101 | after a failed compilation, in C and C++: COMPILATION_ERROR with the compiler's output and nothing else |
| JudgingTheorems.TestIsRun | judge/judge_worker/pipeline.py:114-126 | a testcase runs the program on its input file, compares with its output file, under the limits of the problem |
| JudgingTheorems.EntryOutcomes | judge/judge_worker/pipeline.py:65-84 | what keeps a submission from its container, as ValueError or not, and what has been published by then |
| JudgingTheorems.NeverRecordsPending | judge/judge_worker/pipeline.py:82-151 | whatever is recorded is a final verdict |
| JudgingTheorems.RecordedResources | judge/judge_worker/pipeline.py:140-149 | with a positive limit the recorded memory is at the limit iff MLE and below it otherwise, and the runtime is within its limit |
| JudgingTheorems.RetriesAgree | judge/judge_worker/pipeline.py:63-151 | two attempts that both come to a result come to the same one, if what both worlds deliver they deliver alike: any call may fail in one and not in the other |
| JudgingTheorems.OnlyTheRecordChanges | judge/judge_worker/pipeline.py:51-61 | a call changes at most its own row's five columns; an exception leaves no trace |
| JudgingTheorems.PipelineNeverPends | judge/judge_worker/pipeline.py:149-151 | judging by this pipeline meets the hypothesis of the job protocol, whatever submissions and problems there are |
| Executor.Demultiplex | judge/judge_worker/executor.py:101-116 | the loop separates the two streams |
| Executor.CuttingIsInvisible | judge/judge_worker/executor.py:104-108 | how a stream is cut into frames changes nothing |
| Executor.InterleavingIsInvisible | judge/judge_worker/executor.py:104-108 | how two streams are interleaved changes nothing |
| Executor.StatsAreRead | judge/judge_worker/executor.py:118-121 | after any complete lines, the line written by /usr/bin/time is read back exactly |
| Executor.BrokenStats | judge/judge_worker/executor.py:118-121 | how a missing or broken resource line raises |
| Executor.RunIsReported | judge/judge_worker/executor.py:112-142 | from the execution itself: memory decides first, then the exit code, then the words of the output; output, exit code, capped memory and time are the execution's |
| Executor.RunsAreFaithful | judge/judge_worker/executor.py:118-142 | what each verdict means in terms of memory, exit code and words of the output; a run reports exactly when its resource line parses |
| OutputComparison.SplitIsExact | judge/judge_worker/executor.py:131-132 | split() returns the maximal non-space runs, and nothing else does |
| OutputComparison.NormIsWordEquality | judge/judge_worker/executor.py:131-133 | norms are equal if and only if the words are |
| OutputComparison.StripIsRedundant | judge/judge_worker/executor.py:132 | the strip before the split changes nothing |
| OutputComparison.NormIsIdempotent | judge/judge_worker/executor.py:131-132 | norm is idempotent |
| OutputComparison.SplitOfJoin | judge/judge_worker/executor.py:132 | joining words and splitting again gives the words back |
| OutputComparison.SplitAtBlank | judge/judge_worker/executor.py:132 | around white space the words of a text are those of its parts |
| OutputComparison.LayoutIsIgnored | judge/judge_worker/executor.py:131-133 | no change of white space between or around words changes the comparison |
| ArchivePairing.CheckArchive | api/app/routes/problems.py:132-158 | which archives are accepted, and exactly when each of the three reasons for refusing one is given |
| ArchivePairing.SelectIsExact | api/app/routes/problems.py:136-146 | the files taken from a folder are exactly those below it that are no directory entries, each as often as listed |
| ArchivePairing.PrefixEndsAtFirstDot | api/app/routes/problems.py:134 | the folder prefix is the archive's name up to its first dot |
| ArchivePairing.FlatCheckIsExact | api/app/routes/problems.py:136-158 | for flat folders: accepted if and only if there are tests and both sides have the same names the same number of times |
| ArchivePairing.FlatOutputsCheck | api/app/routes/problems.py:136-158 | with outputs directly in outputs/ and inputs anywhere below inputs/: accepted if and only if the names match and the input paths are in name order |
| ArchivePairing.CheckIsExactWhen | api/app/routes/problems.py:136-158 | if one side's paths are in name order, the check is right about an archive if and only if its names do not match or the other side is in name order too |
| ArchivePairing.CheckIsRightExactlyWhen | api/app/routes/problems.py:136-158 | for every archive: the check agrees with the names if and only if matching names come in the same order on both sides |
| ArchivePairing.MirroredIsAccepted | api/app/routes/problems.py:136-158 | however nested, outputs that mirror the inputs are accepted and paired by their place below the folder |
| ArchivePairing.CrossedFoldersAccepted | api/app/routes/problems.py:136-158 | an accepted archive whose pairs cross folders |
| ArchivePairing.AcceptedMeansSameNames | api/app/routes/problems.py:148-158 | for any folders: accepted archives have the same names on both sides |
| ArchivePairing.NestedCheckIsNotExact | api/app/routes/problems.py:136-158 | a nested archive with matching names that is refused |
| TestcaseUpload.ProblemStore.CreateTestcases | api/app/routes/problems.py:199-234 | success exactly when flush, every read, every upload and the commit succeed; then one row per pair in order with both files stored under its keys; otherwise no row, and the folder keeps exactly the objects beyond one page of the listing, or all of them if the clean-up raises; it is empty if old and new objects fit on a page |
| TestcaseUpload.NothingLeftExactlyWhen | api/app/core/storage.py:81-105 | no failure short of the clean-up's own, wherever it strikes, leaves an object in the folder if and only if the objects there before and two per pair fit on one page |
| TestcaseUpload.LargeArchiveLeavesObjects | api/app/core/storage.py:81-105 | if they do not fit and only the commit fails, all but a page of them stay |
| TestcaseUpload.CheckedPairsMatch | api/app/routes/problems.py:204-228 | every testcase pairs files of one name, in name order for flat archives |

## Left out

- Docker, Redis, object storage, PostgreSQL and SQLAlchemy themselves: Redis commands and commits are atomic steps, everything else outside is an oracle that returns or raises.
- Redis commands that take effect and then report an error: they break the accounting outside the code's control.
- KeyboardInterrupt inside a Redis call of the orchestrator: interrupts are delivered between the orchestrator steps of the model, of which the start of a worker's process and its entry in the list are two.
- The three key deletes of a reap are one step: the model has no other process act between two of them, only before, between them and the kill, and after.
- A creator between two tasks is one state, whether it is at the loop head or waiting in get: it may take one more queued task after the stop event, as in the source, or several.
- SandboxManagerCode.SandboxManager.CreatorTask: a task given an id that is already known counts as a failed creation; Docker ids are new.
- JudgeCode.Judge.ConsumeOnce: describes iterations that are not cut short by a kill, an interrupt, or a Redis error outside the `try`, all of which end the worker; those are steps of the protocol and covered by its theorems.
- Histories in a start state (what was pushed, popped, reaped in earlier lives) are taken to be consistent with the jobs and rows found; `JobConservation.Known` is the condition.
- Wall-clock time: heartbeat ages, timeouts and sleeps are nondeterministic choices, so every listed worker may look frozen at any time.
- The meaning of `runtime_ms`: the code stores truncated seconds there; only the bound it enforces is proved.
- float() beyond digits with an optional fraction, and int() beyond digits: other spellings are value errors in the model.
- bytes.decode is a parameter; no property depends on what it does to malformed bytes.
- Compiling, copying code, stdin, the shell command line and `/usr/bin/time` itself.
- Uploads that store an object and raise all the same; which keys come first in a listing.
- Tags, problem fields, authentication, users, listing routes, schemas, logging, configuration and images: thin wrappers or easy claims.
