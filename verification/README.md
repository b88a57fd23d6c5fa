# A verified model of the scan engine, its utilities and the process lock

The library scans directory trees for ELF files with a pool of worker threads, and carries a few
utilities beside it.  This project models four parts of it in Dafny and proves what they promise.

**The worker pool** (`Linux/utils/thread_pool.hpp`).  `PoolMachine` is a transition system: a program
counter for each worker and for the client that waits, explicit ownership of `tasks_mutex_`, the two
condition variables as sleeping program counters, and histories of the tasks pushed, started and
finished.  One step is one access to shared memory or one lock operation, so every interleaving of
statements is a run.  `PoolInvariant` holds the inductive invariant; `PoolTheorems`, `PoolWaiting` (what a wait
and the destructor guarantee), `PoolWakeup`, `PoolStranding` and `PoolCompletion` (exactly when a wait can return)
hold the results over all runs, `PoolConcurrency` and `PoolIdling` say how many workers run at once and when they
sleep, and `PoolTwoWaiters` what two waiting clients do to each other.  `ThreadPoolObject` is the class itself, one
method per lock hold, with lemmas that the machine's statements of a lock hold add up to the method.

**The concurrent scan** (`Linux/scan_engine/scan_private.cpp`, with the spawn and join of
`Linux/utils/Thread.hpp`).  `FileTree` says what a file system is (finite maps on path strings, with no
assumption about them) and defines `Walk`, a sequential recursive walk; `Listings` says what one directory
contributes, in terms of its entries alone.  `ScanMachine` puts `launch`,
`wait`, the destructor, `do_scan` inside each worker, the notifier, the recorder and a user who may call
`stop()` at any moment on top of the pool.  `ScanRefinesPool` shows that every run of the scan is a run of
the pool.  The main result, `ScanTheorems.ScanRefinesWalk`, is that when `wait()` returns the recorder has
drained exactly what the sequential walk records, in every interleaving, for every number of workers and
every file system.  The proof weighs the work done and the work left through arbitrary probes (`ScanWork`)
and shows that every step of every thread conserves the weight (`ScanConservation`, `ScanTotals`).
`ScanMeasure` to `ScanShutdown` prove that the work left is bounded, that some thread can always bring the
scan closer to its end, and that every run can be completed up to the joined workers; `ScanQuiet`,
`ScanFairness` and `ScanFairEnd` that every fair run ends within a bound, and `ScanRounds` that fair runs exist.
`ScanHalt`, `ScanStop`, `ScanUnwritten` and `ScanOpenings` decide what a `stop()` from outside leaves behind and what
it ends at once.  `ScanResults`, `ScanRecords`, `ScanBlocks` and `ScanPaths` say what a finished scan has done without
mentioning the walk: which directories it has handled, which records it has delivered, how often and in what order.
`ScanEngine` and `ThreadObject` are the classes `scan_private` and `Thread` with their fields updated in place;
`ScanAlone` supports the proof that a worker left alone with the queue does the work of the walk.

**Paths and tokens** (`Linux/utils/utils.hpp`, `Linux/utils/utils.cpp`).  `Tokens` and `Paths` prove the loops
against definitions on strings, and show that the two independently written algorithms agree about the
components of a path.

**The process lock and the registry parser** (`Windows/process_lock/process_mutex.hpp`,
`Windows/registry_wrapper/RegistryAccessor.hpp`).  `LockMachine` and `LockTheorems` follow any number of guards,
mutexes, threads and processes; `LockCalls` says in full what each call does, and that the mutex is recursive;
`ProcessLockObject` holds the two classes.  `MultiString` proves the parsing
loop against the buffer format, in both directions.

## Where the code does not keep a promise

Five properties fail.  The code is modelled as it is, and each failure has a concrete run; the first four have an
exact condition.

- `pause()` does not notify `task_done_cv_`.  It strands a client of `wait_for_tasks` exactly if it finds the client
  asleep, no worker with a task and none about to pop one.  A stranded client is woken by nothing but `unpause()` or
  a spurious wake-up, and at every moment of every run a wait, or a destructor, can finish by the pool's own steps
  if and only if it is not stranded (`PoolStranding.StrandedExactly`, `PoolCompletion.WaitCanReturnIff`,
  `PoolCompletion.DestructorCanFinishIff`, `PoolStranding.PauseCanStrandTheWaiter`).
- After a `stop()` from outside, `wait()` can return if and only if no task will be left behind in the queue.
  How many will be is decided when `stop()` returns: the tasks queued and not just being popped, the
  subdirectories that tasks in flight have read and not pushed, and the roots not pushed
  (`ScanStop.StopLetsWaitReturnIff`, `ScanStop.StopDecidesTheQueue`, `ScanStop.StopCanHangWait`).
- `WAIT_ABANDONED` grants ownership, but `lock` throws and the guard does not record it.  The count of a mutex
  stays the number of guards that own it exactly while no call finds its mutex abandoned, no call releases a
  guard's hold behind its back, and no thread ends whose guards own (`LockTheorems.StepConservesIff`,
  `LockTheorems.AbandonedMutexStaysHeld`).
- The scan glues names to the root as it is given.  Every path it builds below a root, of a subdirectory, a file or a
  symlink, has the components of the root followed by the entry names if and only if the root is empty, ends in a
  slash or lists no such entries; a scan of `/a` with the subdirectory `b` delivers what lies in `/ab/`
  (`ScanPaths.RootNamesItsTreeIff`, `ScanPaths.UnslashedRootGoesAstray`).
- `waiting_` is one flag for all clients.  With two of them in `wait_for_tasks` the first to return clears it, and the
  other is not notified any more until another wait begins (`PoolTwoWaiters.SecondWaiterSleepsOn`,
  `PoolTwoWaiters.ForgottenForGood`).

Where comments and code differ the model follows the code: the comment at `Linux/utils/utils.hpp:59` promises
no tokens for a string without delimiters, but the early exit is commented out and one token results
(`Tokens.SplitClean`); the skip list is compared as string prefixes, so `/devel` is rejected because of `/dev`
(`Listings.RejectedMeansSkipped`).  A paused pool with tasks in its queue spins: its workers never sleep, because the
predicate of their timed wait does not ask for `paused_` (`PoolIdling.PausedPoolNeverSleeps`).

## How to read the machines

`Step(s, label)` is `None` when the labelled thread cannot take that step now.  `CanRun(s, labels)` and
`Final(s, labels)` extend it to a whole run; a statement about all `labels` is a statement about all
interleavings.  The program counters name the statements in source order:

- `PoolMachine.WorkerPc` follows `Linux/utils/thread_pool.hpp:128-157`, `OwnerPc` follows lines 91-99 and then
  115-126, and the push labels follow lines 84-87.
- `ScanMachine.Job` follows `Linux/scan_engine/scan_private.cpp:92-125` with the loop of lines 133-185 inside it,
  `MainPc` follows lines 47-75 and the destructor, `NotifierPc` lines 291-309, `RecorderPc` lines 188-211, and
  `UserPc` lines 77-82.
- A timed wait may wake at any moment, with or without having timed out.  Log output, clock fields and
  sleeps are not steps.

## Model

| member | source | states |
|---|---|---|
| PoolInvariant.StepKeepsInv | Linux/utils/thread_pool.hpp:128-157 | every statement of every thread keeps mutual exclusion, the count of tasks, the histories and the flags consistent |
| PoolTheorems.RunsConserveTasks | Linux/utils/thread_pool.hpp:80-89 | over every run, the tasks pushed are those started followed by the queue, each started task is finished or held by one worker, and `tasks_total_` is the queue plus the tasks in flight except between the two writes of a push |
| PoolTheorems.TasksRunningIsExact | Linux/utils/thread_pool.hpp:63-67 | `get_tasks_running` reads exactly the number of tasks in flight, so its unsigned subtraction never wraps |
| PoolTheorems.StartsInPushOrder | Linux/utils/thread_pool.hpp:138-143 | first in, first out: the i-th task started is the i-th task pushed |
| PoolTheorems.AtMostOneStartAfterPause | Linux/utils/thread_pool.hpp:41-50 | after `pause()` has written the flag at most one more task starts until `unpause()`, with any number of workers |
| PoolWaiting.WaitReturnsOnlyWhenOver | Linux/utils/thread_pool.hpp:91-99 | over every run, a wait returns only after a test of its predicate under the mutex came out true; then nothing is in flight, and the queue is that of the test, empty if the test was made unpaused |
| PoolWaiting.WaitUnderPauseLeavesPoolIdle | Linux/utils/thread_pool.hpp:91-99 | over every run, when a wait returns under pause nothing is in flight and nothing starts until `unpause()` |
| PoolWaiting.DestructorWaits | Linux/utils/thread_pool.hpp:32-37 | every run that destroys the pool calls the destructor and then has its wait succeed, with nothing in flight, before it ends |
| PoolTheorems.DestroyedPoolIsQuiet | Linux/utils/thread_pool.hpp:32-37 | after the destructor all workers have left their loop and every started task has finished |
| PoolWaiting.UnpausedShutdownRunsEverything | Linux/utils/thread_pool.hpp:32-37 | every run from the constructor to the end of the destructor, with the pool unpaused when the destructor is called and nobody pushing or pausing while it runs, has run every pushed task exactly once |
| PoolWaiting.PausedShutdownLeavesSuffix | Linux/utils/thread_pool.hpp:91-99 | a pool paused when its destructor is called starts at most one more task, none after the destructor's wait has succeeded; the tasks started have finished and the others are the rest of the push order |
| PoolCompletion.WaitCanReturnIff | Linux/utils/thread_pool.hpp:91-99 | at every moment of every run, a wait that has begun can return, by the pool's own steps and without a spurious wake-up, if and only if it is not stranded |
| PoolCompletion.DestructorCanFinishIff | Linux/utils/thread_pool.hpp:32-37 | and a destructor that has been called can finish in that way if and only if its wait is not stranded |
| PoolTheorems.WorkersHeadForExit | Linux/utils/thread_pool.hpp:115-157 | once `running_` is cleared a worker takes at most 9 more steps in any run |
| PoolTheorems.ShutdownNeverBlocks | Linux/utils/thread_pool.hpp:115-126 | at every moment of every run in which the destructor is past its wait, it or the worker it joins, or whoever holds the mutex that worker needs, a client included, can step; after `notify_all` none of them needs a time-out |
| PoolWakeup.PendingUnlessOvertaken | Linux/utils/thread_pool.hpp:150-153 | any step of any thread keeps the notification of a due wait pending, unless it is a `pause()` that comes while the waiter sleeps and no worker has a task |
| PoolWakeup.NoLostWakeup | Linux/utils/thread_pool.hpp:91-99 | over every run without such a `pause()`, a sleeping waiter whose wait is due is about to be notified |
| PoolWakeup.PendingWakeupArrives | Linux/utils/thread_pool.hpp:150-153 | the pending notification is the next statement of the thread that holds the mutex, and it wakes the waiter |
| PoolStranding.StrandedExactly | Linux/utils/thread_pool.hpp:41-50 | after a step the waiter is stranded exactly if it was and the step is no `unpause()` or spurious wake-up, or if the step is a `pause()` that finds it asleep, no worker with a task and none about to pop one |
| PoolStranding.StrandedForGood | Linux/utils/thread_pool.hpp:91-99 | in no continuation without `unpause()` or a spurious wake-up does a stranded waiter wake |
| PoolStranding.PauseCanStrandTheWaiter | Linux/utils/thread_pool.hpp:41-45 | a concrete run after which `pause()` makes the sleeping waiter's predicate true, and no continuation without `unpause()` or a spurious wake-up wakes it |
| PoolTwoWaiters.ForgottenForGood | Linux/utils/thread_pool.hpp:91-99 | once the first of two clients has returned and cleared `waiting_`, the other sleeps on until another wait begins |
| PoolTwoWaiters.SecondWaiterSleepsOn | Linux/utils/thread_pool.hpp:91-99 | a concrete run with one task and two clients after which that is so, although the second one's predicate is true |
| PoolConcurrency.AtMostOneTaskPerThread | Linux/utils/thread_pool.hpp:103-113 | in no run are more tasks in flight than the pool has threads |
| PoolConcurrency.AllThreadsCanWorkAtOnce | Linux/utils/thread_pool.hpp:138-145 | for as many tasks as threads there is a run that leaves every worker inside its own task at once: the mutex is not held while a task runs |
| PoolIdling.IdleWorkersSleep | Linux/utils/thread_pool.hpp:136 | while the pool runs with an empty queue a worker takes at most nine statements from one wake-up to the next |
| PoolIdling.FallsAsleepOnlyWhenEmpty | Linux/utils/thread_pool.hpp:136 | no step puts a worker to sleep unless the pool runs and its queue is empty |
| PoolIdling.PausedPoolNeverSleeps | Linux/utils/thread_pool.hpp:136-138 | while the pool is paused with a task in its queue no worker that is awake falls asleep, in any continuation without `unpause()` |
| ThreadPoolObject.DetermineThreadCount | Linux/utils/thread_pool.hpp:159-173 | at least one worker, never more than the hardware reports, one if it reports nothing, the hint when it fits, and three by default |
| ThreadPoolObject.ThreadPool.constructor | Linux/utils/thread_pool.hpp:25-30 | the pool starts running, neither waited for nor paused, and empty, with the number of threads determined |
| ThreadPoolObject.ThreadPool.PushTask | Linux/utils/thread_pool.hpp:80-89 | the task joins the end of the queue and is counted; nothing else changes |
| ThreadPoolObject.ThreadPool.TakeTask | Linux/utils/thread_pool.hpp:138-143 | no task exactly if the pool is stopped, paused or empty; otherwise the oldest task leaves the queue and is in flight |
| ThreadPoolObject.ThreadPool.TaskDone | Linux/utils/thread_pool.hpp:150-153 | the task is finished and no longer counted, and the waiter is notified exactly if it announced itself |
| ThreadPoolObject.ThreadPool.GetTasksRunning | Linux/utils/thread_pool.hpp:63-67 | the number of tasks in flight |
| ThreadPoolObject.ThreadPool.Pause | Linux/utils/thread_pool.hpp:41-45 | the flag is set and nothing else changes |
| ThreadPoolObject.ThreadPool.Unpause | Linux/utils/thread_pool.hpp:47-50 | the flag is cleared and nothing else changes |
| ThreadPoolObject.ThreadPool.WaitIsOver | Linux/utils/thread_pool.hpp:96 | the wait's predicate is true exactly if nothing is in flight and, unless the pool is paused, nothing is queued |
| ThreadPoolObject.PushSection | Linux/utils/thread_pool.hpp:83-87 | the machine's statements of a push, uninterrupted, do what `PushTask` does |
| ThreadPoolObject.TakeSection | Linux/utils/thread_pool.hpp:138-143 | the machine's statements from the test of `running_` to the unlock do what `TakeTask` does |
| ThreadPoolObject.TakeNothingSection | Linux/utils/thread_pool.hpp:138-140 | and when the pool is stopped, paused or empty they change nothing and return to the head of the loop |
| ThreadPoolObject.EnterSection | Linux/utils/thread_pool.hpp:131-136 | a worker at the head of its loop leaves a stopped pool at once, keeps the mutex if there are tasks, and sleeps without it if there are none |
| ThreadPoolObject.StoppedSection | Linux/utils/thread_pool.hpp:135 | a worker that has acquired the mutex of a stopped pool releases it and leaves |
| ThreadPoolObject.WakeSection | Linux/utils/thread_pool.hpp:136 | a worker whose time is over goes on with the mutex; one woken earlier does so only if there is a task or the pool is stopped |
| ThreadPoolObject.DoneSection | Linux/utils/thread_pool.hpp:150-153 | the machine's statements after a task do what `TaskDone` does, and wake a waiter that announced itself |
| ThreadPoolObject.WaitSection | Linux/utils/thread_pool.hpp:91-99 | a wait that finds its predicate true leaves everything as it was; otherwise it sleeps, announced, without the mutex |
| ThreadPoolObject.ReadSection | Linux/utils/thread_pool.hpp:57-67 | a client that reads the counts can do so whenever the mutex is free, and leaves everything as it was |
| ScanRefinesPool.ScanRunIsPoolRun | Linux/scan_engine/scan_private.cpp:47-129 | every run of the scan is, seen through its pool, a run of the pool, so all results about the pool hold for it |
| ScanInvariant.StepKeepsStructure | Linux/scan_engine/scan_private.cpp:92-129 | every step keeps the workers, their place in `do_scan`, the three locks and the recorder's batch consistent |
| ScanTheorems.ScanRefinesWalk | Linux/scan_engine/scan_private.cpp:47-129 | without a `stop()` from outside, when `wait()` has returned the drained records, the directories handled and the count are those of the sequential walk of all roots, and no record is left behind |
| ScanTheorems.ScanOverIsFinal | Linux/scan_engine/scan_private.cpp:84-88 | once the roots are pushed, a zero in `tasks_total_` means that nothing is queued or in flight, forever, and that the whole walk is done unless a user stopped the scan |
| ScanTheorems.RecordsAreConserved | Linux/scan_engine/scan_private.cpp:188-211 | at every moment of every run, stopped or not, drained records, then the local batch, then `file_infos_` are all records emplaced, in order, and they never exceed those of the walk |
| ScanTheorems.DestroyedScanIsQuiet | Linux/scan_engine/scan_private.cpp:30-37 | after destruction no worker is inside a task, all started tasks have finished and both service threads have ended |
| ScanTheorems.WaitedScanIsStopped | Linux/scan_engine/scan_private.cpp:291-309 | stopped from outside or not, once `wait()` has returned `running_` is cleared, the pool is paused and nothing is queued or in flight |
| ScanTheorems.StopWithQueuedTasksHangsWait | Linux/scan_engine/scan_private.cpp:77-82 | once the pool is paused with a task queued and no worker about to pop, `wait()` never returns |
| ScanHalt.StepLeavesBehind | Linux/scan_engine/scan_private.cpp:77-82 | under pause no step of any thread lowers the number of tasks that will be left behind, and once the scan's flag is clear no step of the scan changes it |
| ScanStop.StopLetsWaitReturnIff | Linux/scan_engine/scan_private.cpp:68-82 | at any moment after `stop()` has returned, `wait()` can still return if and only if no task will be left behind; with the flag still clear, without anyone's help |
| ScanStop.StopDecidesTheQueue | Linux/scan_engine/scan_private.cpp:77-82 | when `stop()` returns it is decided how many tasks stay in the queue, whatever is in flight |
| ScanStop.StoppedWaitReturnsIff | Linux/scan_engine/scan_private.cpp:68-82 | once a stop has taken effect `wait()` can return if and only if the queue is empty |
| ScanStop.StopCanHangWait | Linux/scan_engine/scan_private.cpp:77-82 | a concrete run, on any file system, in which `stop()` comes before the root is popped and `wait()` never returns |
| ScanPhases.ZeroMeansQuiescent | Linux/scan_engine/scan_private.cpp:104-111 | children are pushed before the parent's decrement, so a zero count means an empty queue and no worker with a task |
| ScanPhases.QuiescentStep | Linux/scan_engine/scan_private.cpp:291-309 | no step from a quiescent state starts, pushes, records or counts anything |
| ScanTotals.StepTotal | Linux/scan_engine/scan_private.cpp:92-183 | every step conserves the sum of the work done and the work left, except that a worker that finds `running_` cleared drops some |
| ScanDeadlock.LocksNeverDeadlock | Linux/scan_engine/scan_private.cpp:104-125 | a chain of threads that wait for each other's mutexes has at most three threads and no cycle |
| ScanDescent.StepDescends | Linux/scan_engine/scan_private.cpp:92-129 | no step increases the work left, and every statement on behalf of a task or of `launch` decreases it |
| ScanDescent.ProductiveStepsAreBounded | Linux/scan_engine/scan_private.cpp:92-129 | on every file system the number of such statements in any run is bounded by the work left at its start |
| ScanCompletion.SomeStepAdvances | Linux/scan_engine/scan_private.cpp:68-75 | before `wait()` returns some thread can always take a step that brings the scan closer to its end |
| ScanCompletion.WaitCanReturn | Linux/scan_engine/scan_private.cpp:68-75 | from every such state the scan's own threads can make `wait()` return |
| ScanShutdown.EveryRunCanComplete | Linux/scan_engine/scan_private.cpp:30-37 | every run without a `stop()` from outside can be completed: the records of the walk are drained and the destructor joins every worker |
| ScanFairness.FairScanReturns | Linux/scan_engine/scan_private.cpp:68-75 | every fair scan ends: after a bounded number of rounds in which each thread steps unless it is blocked throughout, `wait()` has returned with the records of the walk drained |
| ScanFairEnd.FairScanIsDestroyed | Linux/scan_engine/scan_private.cpp:30-37 | and after a bounded number of further rounds the destructor has joined every worker |
| ScanRounds.RoundExists | Linux/scan_engine/scan_private.cpp:47-129 | from every reachable state such a round is possible, stopped or not |
| ScanRounds.RoundsExist | Linux/scan_engine/scan_private.cpp:47-129 | and any number of them, one after the other |
| ScanUnwritten.RecorderExitDecides | Linux/scan_engine/scan_private.cpp:188-211 | stopped or not, from the recorder's exit nothing more is delivered; once no task is in flight `file_infos_` is empty if and only if at that exit it was empty and no task in flight had read anything it was still to record |
| ScanUnwritten.WaitLeavesUnwritten | Linux/scan_engine/scan_private.cpp:68-75 | when `wait()` returns `file_infos_` is empty if and only if nothing was unwritten at the recorder's exit |
| ScanOpenings.StopDecidesTheVisits | Linux/scan_engine/scan_private.cpp:77-94 | a `stop()` during a scan clears `running_` for good; after that a directory is opened only by a worker already past its test of the flag, and only what has been read is counted, so the visits and the count at rest are decided then |
| ScanFairness.FairStoppedScanReturns | Linux/scan_engine/scan_private.cpp:68-82 | so does every fair scan whose `stop()` leaves no task behind |
| Listings.HasPrefixMeans | Linux/utils/utils.cpp:21-28 | a value has a prefix if and only if it is the prefix followed by something |
| Listings.RejectedMeansSkipped | Linux/scan_engine/scan_private.cpp:311-319 | a path is rejected if and only if it begins with `/sys`, `/proc`, `/dev`, `/run` or `/mnt` |
| Listings.RejectedBelow | Linux/scan_engine/scan_private.cpp:311-319 | everything below a path that begins with one of the five is rejected |
| Listings.ListingIsSortedOut | Linux/scan_engine/scan_private.cpp:152-183 | each of the three vectors holds, in order and once each, the paths of the entries of its kind other than `.` and `..`; a subdirectory's path gets a slash |
| Listings.DirIsListedIff | Linux/scan_engine/scan_private.cpp:163-174 | a path is listed as a subdirectory if and only if the directory has an entry for it other than `.` and `..` |
| Listings.FileIsListedIff | Linux/scan_engine/scan_private.cpp:175-178 | and so for a regular file, under the directory's path followed by its name |
| Listings.LinkIsListedIff | Linux/scan_engine/scan_private.cpp:179-182 | and for a symlink |
| Listings.YieldsSortedOut | Linux/scan_engine/scan_private.cpp:91-102 | a task on a path that is not skipped finds the entries of its directory, sorted out |
| Listings.SizeIsCounted | Linux/scan_engine/scan_private.cpp:100-102 | what a directory adds to `file_counts_` is the number of its subdirectory, regular-file and symlink entries other than `.` and `..` |
| WalkTheorems.PruningIsExactForAll | Linux/scan_engine/scan_private.cpp:92-94 | a directory is handled as often as the unpruned subtrees of the roots contain it if its path is valid, and never otherwise |
| WalkTheorems.HandledMeansReachedAndValid | Linux/scan_engine/scan_private.cpp:92-111 | the directories handled are exactly those reached from a root by a chain of directory entries, `.` and `..` excluded, whose path begins with none of the five names |
| WalkTheorems.WalkAllAccountsForPreorder | Linux/scan_engine/scan_private.cpp:100-125 | the records and the count of the walk are those of the directories it handles, each taken as often as it is handled |
| ScanResults.FinishedScanHandledEachOnce | Linux/scan_engine/scan_private.cpp:92-111 | with proper directory entries, a finished scan has handled each valid directory once for every root from which it is reached, and nothing else |
| ScanResults.FinishedScanDelivers | Linux/scan_engine/scan_private.cpp:100-102 | `file_counts_` is the number of roots plus the subdirectory, file and symlink entries of the directories handled, as a 32-bit integer; the records are theirs |
| ScanRecords.FileRecordsInOrder | Linux/scan_engine/scan_private.cpp:116-119 | the records of a list of files are those of each file, in order, for a file that is listed twice, too |
| ScanRecords.LinkRecordsInOrder | Linux/scan_engine/scan_private.cpp:121-124 | and so for a list of symlinks |
| ScanRecords.DeliveredIff | Linux/scan_engine/scan_private.cpp:113-125 | a finished scan has delivered a record if and only if it reports a regular file or a symlink of a directory reached from a root and not skipped: kind 4 for `ET_EXEC`, 3 for `ET_DYN`, a symlink by its target unless that is skipped |
| ScanRecords.DeliveredOncePerRoot | Linux/scan_engine/scan_private.cpp:213-288 | with proper directory entries and roots that end in a slash, each such file has been delivered exactly once for every root from which its directory is reached |
| ScanBlocks.RecordsComeInBlocks | Linux/scan_engine/scan_private.cpp:113-125 | a finished scan has delivered the records directory by directory, each directory's files in the order of its entries and then its symlinks, with no other directory's in between |
| ScanPaths.ListedIff | Linux/scan_engine/scan_private.cpp:167-182 | the paths that the scan builds of a directory are its path followed by the names of its subdirectory, file and symlink entries, with a slash after a subdirectory's |
| ScanPaths.RootNamesItsTreeIff | Linux/scan_engine/scan_private.cpp:167-183 | every path the scan builds below a root, of a subdirectory, file or symlink, has the root's components followed by the entry names if and only if the root is empty, ends in a slash or lists no such entries |
| ScanPaths.HandledIsNamed | Linux/scan_engine/scan_private.cpp:167-173 | with roots that end in a slash, every directory handled has the components of a root followed by the entry names that lead to it |
| ScanPaths.DeliveredIsNamed | Linux/scan_engine/scan_private.cpp:113-125 | and so has the path in every record that a finished scan has delivered |
| ScanPaths.UnslashedRootGoesAstray | Linux/scan_engine/scan_private.cpp:167-173 | a concrete scan, with any number of workers, that delivers a file from outside its root |
| ScanPhases.WrapIsInt32 | Linux/scan_engine/scan_private.hpp:65 | `file_counts_` is a 32-bit integer: exact while it fits, and congruent to the exact count otherwise |
| ScanEngine.ScanEngine.constructor | Linux/scan_engine/scan_private.cpp:23-28 | nothing is to be scanned, nothing has been recorded or counted, neither service thread runs, and the pool is new |
| ScanEngine.ScanEngine.SetPath | Linux/scan_engine/scan_private.cpp:39-43 | the path is added after those already there |
| ScanEngine.ScanEngine.Launch | Linux/scan_engine/scan_private.cpp:46-66 | every root becomes one task, in the order of the additions, and is counted, the pool's flags being left alone; then the recorder and the notifier are started |
| ScanEngine.ScanEngine.Wait | Linux/scan_engine/scan_private.cpp:68-75 | both service threads have been joined |
| ThreadObject.Thread.Start | Linux/utils/Thread.hpp:62-67 | the thread runs and no stop is requested; the program ends if it was running already |
| ThreadObject.Thread.Wait | Linux/utils/Thread.hpp:79-95 | the thread has been joined, at once if it was never started, and no stop is requested |
| ThreadObject.Thread.Stop | Linux/utils/Thread.hpp:69-77 | the request stays only if the call does not wait |
| ScanEngine.ScanEngine.Stop | Linux/scan_engine/scan_private.cpp:77-82 | the scan's flag is cleared and the pool paused, with nothing else changed |
| ScanEngine.ScanEngine.IsScanOver | Linux/scan_engine/scan_private.cpp:84-88 | true exactly if nothing is queued and nothing is in flight |
| ScanEngine.ScanEngine.TraverseDir | Linux/scan_engine/scan_private.cpp:132-185 | of the entries read before `running_` was cleared, those other than `.` and `..`, sorted in order into directories (with a slash), files and symlinks; nothing for a directory that cannot be opened |
| ScanEngine.ScanEngine.SeenIsSortedOut | Linux/scan_engine/scan_private.cpp:157-158 | what `do_scan` acts on are the entries read before `running_` was cleared, sorted out, or all of them |
| ScanEngine.ScanEngine.FileChecker | Linux/scan_engine/scan_private.cpp:213-238 | one record, with the kind, for an executable or a shared object; none for anything else |
| ScanEngine.ScanEngine.SymbolReloader | Linux/scan_engine/scan_private.cpp:240-288 | the link's own path is recorded with the kind of its target; no record for a link without target or with a rejected target |
| ScanEngine.ScanEngine.RecordFiles | Linux/scan_engine/scan_private.cpp:115-119 | the records of the files are appended in order |
| ScanEngine.ScanEngine.RecordLinks | Linux/scan_engine/scan_private.cpp:121-124 | the records of the symlinks are appended in order |
| ScanEngine.ScanEngine.PushAll | Linux/scan_engine/scan_private.cpp:104-111 | one task per subdirectory, in order, after what was queued; nothing else in the pool changes |
| ScanEngine.ScanEngine.DoScan | Linux/scan_engine/scan_private.cpp:91-129 | nothing if the scan is stopped or the path rejected; otherwise the directory's records, tasks and count are added |
| ScanEngine.ScanEngine.DrainOnce | Linux/scan_engine/scan_private.cpp:196-209 | the batch is everything recorded so far and the shared vector is left empty |
| ScanEngine.ScanEngine.WorkerRound | Linux/scan_engine/scan_private.cpp:91-129 | one round of a worker turns the oldest task into its directory's records and subdirectory tasks, losing nothing, and another round can follow |
| ScanEngine.ScanEngine.RunTask | Linux/scan_engine/scan_private.cpp:91-129 | a task that nobody interrupts yields what its directory holds, or nothing if its path is skipped |
| ScanEngine.ScanEngine.WorkAlone | Linux/utils/thread_pool.hpp:128-157 | the loop of a worker left alone with the queue does exactly the work of the sequential walk, and ends |
| Tokens.TokenizeString | Linux/utils/utils.hpp:60-96 | the tokens are appended to those already in the vector, all of them or only the nonempty ones, as asked for |
| Tokens.JoinSplit | Linux/utils/utils.hpp:57-58 | joining the tokens restores the string |
| Tokens.SplitJoin | Linux/utils/utils.hpp:57-58 | splitting the join of any nonempty list of delimiter-free tokens restores the list |
| Tokens.WeaveSplit | Linux/utils/utils.hpp:60-96 | with any set of delimiters there is one token more than there are delimiters, and weaving the delimiters back in restores the string |
| Tokens.TokensAreClean | Linux/utils/utils.hpp:60-96 | no token contains a delimiter, in either mode |
| Tokens.NonEmptyKeepsOrder | Linux/utils/utils.hpp:55-56 | ignoring empty tokens keeps exactly the nonempty ones, each as often as it occurs and in order |
| Tokens.SplitClean | Linux/utils/utils.hpp:74-80 | a string without delimiters is one token |
| Tokens.TokenMeansOccurrence | Linux/utils/utils.hpp:69-94 | a token is exactly a delimiter-free stretch with a delimiter or an end of the string on both sides |
| Tokens.HasToken | Linux/utils/utils.cpp:105-116 | true exactly if the pattern is nonempty, delimiter-free and occurs as such a stretch |
| Paths.ParentPath | Linux/utils/utils.cpp:30-79 | the three backward searches strip trailing slashes, the last name, and the slashes before it |
| Paths.ParentIff | Linux/utils/utils.cpp:48-78 | what the parent is, in full: the path is the parent, slashes, a name and slashes, and the parent does not end in a slash |
| Paths.ParentDropsLastComponent | Linux/utils/utils.cpp:30-79 | the components of the parent path are those of the path without the last |
| Paths.EmptyAfterAllComponents | Linux/utils/utils.cpp:30-79 | going up from a path with n components reaches the empty string in exactly n steps |
| Paths.ParentIgnoresTrailingSlashes | Linux/utils/utils.cpp:57-68 | trailing slashes do not change the parent |
| Paths.PathDecomposition | Linux/utils/utils.cpp:30-103 | a path that does not end in a slash is its parent, a run of slashes (empty exactly if it has none) and its file name |
| Paths.FilenameFromPath | Linux/utils/utils.cpp:82-103 | the last token of the path, up to its last dot unless the extension is wanted |
| Paths.FileNameDropsDirectory | Linux/utils/utils.hpp:28-32 | the documented examples in general: the directory is dropped, whatever it is |
| Paths.StemDropsExtension | Linux/utils/utils.hpp:24-31 | only the last extension is dropped, with its dot |
| Paths.StemAndExtension | Linux/utils/utils.cpp:101-102 | what is dropped is the last dot and what follows it; a name without a dot is kept |
| Paths.NameIsAppendedIffSlash | Linux/scan_engine/scan_private.cpp:167-173 | gluing a name to a directory path adds one component exactly if that path is empty or ends in a slash |
| Paths.RemovePrefixCuts | Linux/utils/utils.cpp:8-19 | of a value that is the prefix followed by something, that is left; any other value is returned as it is |
| Paths.RemovePrefixUndone | Linux/utils/utils.cpp:8-19 | putting the prefix back restores the value if and only if the value begins with it |
| MultiString.GetMultiString | Windows/registry_wrapper/RegistryAccessor.hpp:249-262 | the loops over the buffer compute the parse, and no read leaves the buffer |
| MultiString.ReadString | Windows/registry_wrapper/RegistryAccessor.hpp:255-258 | the string up to the next NUL, if there is one in the buffer |
| MultiString.ParseInvertsEncode | Windows/registry_wrapper/RegistryAccessor.hpp:249-262 | a list is parsed exactly if its strings are nonempty and NUL-free and the buffer begins with its encoding |
| MultiString.InBoundsIffTerminated | Windows/registry_wrapper/RegistryAccessor.hpp:252-261 | the original loop stays in the buffer exactly if the buffer contains an empty string |
| LockTheorems.StepConservesIff | Windows/process_lock/process_mutex.hpp:126-217 | a call leaves each mutex's count equal to the guards that own it plus the direct holds if and only if it does not find its mutex abandoned, release a guard's hold, or end a thread whose guards own |
| LockTheorems.CountIsOwningGuards | Windows/process_lock/process_mutex.hpp:126-217 | so it is over every run of calls that satisfy the condition |
| LockTheorems.OwnersShareAThread | Windows/process_lock/process_mutex.hpp:177-191 | mutual exclusion: guards that own one mutex at the same time were locked by one thread |
| LockTheorems.NoOwnerMeansFree | Windows/process_lock/process_mutex.hpp:168-175 | when no guard owns, every mutex without direct holds is free |
| LockTheorems.AllGuardsCanBeDestroyed | Windows/process_lock/process_mutex.hpp:168-175 | all guards can be destroyed in any order by the threads that locked them, and then every mutex without direct holds is free |
| LockTheorems.OnlyLockerGivesBack | Windows/process_lock/process_mutex.hpp:193-202 | an owning guard can be unlocked by the thread that locked it and by no other |
| LockTheorems.MoveAssignTransfers | Windows/process_lock/process_mutex.hpp:151-166 | the own hold is given back first, a failure changes nothing, a self-move does nothing, and otherwise the source is left empty |
| LockTheorems.DestroyFailsIff | Windows/process_lock/process_mutex.hpp:168-175 | the noexcept destructor ends the program exactly if another thread locked the guard |
| LockTheorems.AbandonedMutexStaysHeld | Windows/process_lock/process_mutex.hpp:82-89 | a concrete run in which an abandoned mutex is acquired by a throwing call and stays held after the guard is gone |
| LockCalls.NewMutexIsFreeIff | Windows/process_lock/process_mutex.hpp:75-80 | a mutex with a new name is free, and every thread can lock it at once, if and only if initial ownership was not asked for; otherwise exactly the creator holds it, once |
| LockCalls.ExistingMutexIsOpened | Windows/process_lock/process_mutex.hpp:75-80 | opening a name that exists changes nothing about the mutex, whatever was asked for |
| LockCalls.ConstructorsAreCallable | Windows/process_lock/process_mutex.hpp:32-44 | each constructor can be called for every new object, and a guard's on every existing `process_mutex` |
| LockCalls.NullMutexNeverLocks | Windows/process_lock/process_mutex.hpp:32-36 | a guard on a `process_mutex` without a handle can be locked by nobody |
| LockCalls.LockBlocksIff | Windows/process_lock/process_mutex.hpp:82-102 | a lock call does not return, or times out, if and only if another thread holds the mutex |
| LockCalls.LockTakesOneHold | Windows/process_lock/process_mutex.hpp:177-191 | a lock call that returns adds one hold, also for a thread that holds the mutex already, and the guard owns it unless the mutex was abandoned |
| LockCalls.RefusedCallsChangeNothing | Windows/process_lock/process_mutex.hpp:193-217 | a lock call on a guard that owns or is attached to nothing, and an unlock call on one that does not own, change nothing |
| LockCalls.UnlockGivesOneHold | Windows/process_lock/process_mutex.hpp:193-202 | an unlock by the thread that locked gives back one hold and nothing else; by another thread it changes nothing |
| LockCalls.DestroyGivesOneHold | Windows/process_lock/process_mutex.hpp:168-175 | so does the destructor, which removes the guard; by another thread it ends the program |
| LockCalls.MoveNewTransfers | Windows/process_lock/process_mutex.hpp:144-149 | the new guard has the pointer and the ownership, the old one neither, and nothing else changes |
| LockCalls.MoveAssignInFull | Windows/process_lock/process_mutex.hpp:151-166 | one hold of the target's own mutex is given back, the source's pointer and ownership change hands, the source is left empty, and nothing else changes |
| LockCalls.FailedMoveChangesNothing | Windows/process_lock/process_mutex.hpp:151-166 | a self-move, and a move whose target is owned for another thread, change nothing |
| LockCalls.DirectLockTakesOneHold | Windows/process_lock/process_mutex.hpp:82-102 | a lock call on the `process_mutex` itself adds one hold |
| LockCalls.DirectLockRefused | Windows/process_lock/process_mutex.hpp:82-102 | and blocks, or times out without any effect, while another thread holds the mutex |
| LockCalls.NullMutexRefusesAll | Windows/process_lock/process_mutex.hpp:82-109 | without a handle every call on the `process_mutex` fails and changes nothing |
| LockCalls.DirectUnlockGivesOneHold | Windows/process_lock/process_mutex.hpp:104-109 | an unlock of the `process_mutex` itself gives back one hold of the owner, and does nothing for anyone else |
| LockCalls.ExitAbandons | Windows/process_lock/process_mutex.hpp:82-89 | a thread that ends leaves its mutexes free and abandoned and all others as they are |
| LockCalls.OthersWaitForTheLastUnlock | Windows/process_lock/process_mutex.hpp:177-202 | the mutex is recursive: a thread that locked it through any number of guards holds it that often, and another thread's call returns exactly when the last of them has been unlocked |
| ProcessLockObject.ProcessMutex.Lock | Windows/process_lock/process_mutex.hpp:82-89 | acquired, or an exception for every answer but success; never a silent failure |
| ProcessLockObject.ProcessMutex.TryLockFor | Windows/process_lock/process_mutex.hpp:91-102 | true, false on a timeout, an exception otherwise; never blocks |
| ProcessLockObject.ProcessMutex.Unlock | Windows/process_lock/process_mutex.hpp:104-109 | one hold less, or an exception and no change if the caller is not the owner |
| ProcessLockObject.ProcessMutex.Wait | Windows/process_lock/process_mutex.hpp:85 | one wait for the mutex, which acquires an abandoned mutex too and leaves the mutex alone unless it succeeds |
| ProcessLockObject.ProcessMutex.Move | Windows/process_lock/process_mutex.hpp:46-50 | the handle changes hands and the source is left with a null handle |
| ProcessLockObject.ProcessLockGuard.Move | Windows/process_lock/process_mutex.hpp:144-149 | pointer and ownership change hands; the moved-from guard owns nothing |
| ProcessLockObject.ProcessLockGuard.Validate | Windows/process_lock/process_mutex.hpp:206-217 | locking is refused exactly without a mutex or when already owning, with the error for each case |
| ProcessLockObject.ProcessLockGuard.Lock | Windows/process_lock/process_mutex.hpp:177-183 | refused without a mutex or when already owning; owns exactly after success |
| ProcessLockObject.ProcessLockGuard.TryLockFor | Windows/process_lock/process_mutex.hpp:185-191 | the same with a time limit; a timeout leaves the guard not owning |
| ProcessLockObject.ProcessLockGuard.Unlock | Windows/process_lock/process_mutex.hpp:193-202 | refused unless owning; if the mutex refuses, the guard still owns |
| ProcessLockObject.ProcessLockGuard.MoveAssign | Windows/process_lock/process_mutex.hpp:151-166 | both guards and the given-up mutex after a move, a failed move and a self-move |
| ProcessLockObject.ProcessLockGuard.Destroy | Windows/process_lock/process_mutex.hpp:168-175 | an owned mutex is given back once; the program ends exactly if that fails |

## Left out

- PoolWakeup.NoLostWakeup: one client waits at a time, as in all results about the pool but those of `PoolTwoWaiters`.
- PoolWaiting.UnpausedShutdownRunsEverything: pushes and pauses that race with the destructor are excluded, as the class expects of its callers.
- ScanTheorems.ScanRefinesWalk: paths are added before a single `launch()`, and the file system does not change during the scan.
- ScanResults.FinishedScanHandledEachOnce: assumes that the names in a directory are distinct and contain no slash, as the operating system sees to; the other results about the scan, but the next, do not.
- ScanRecords.DeliveredOncePerRoot: assumes the same, and roots that end in a slash, since otherwise one path can be built from two directories; `ScanRecords.DeliveredIff` assumes neither.
- MultiString.GetMultiString: a read behind the buffer, undefined in the original, is a `None` result.
- Weak memory: every unlocked access, such as the recorder's test of `file_infos_` and the queue length printed by `pause()`, is one atomic read.
- `notify_one` on `task_available_cv_`: subsumed, because a worker's timed wait may wake at any moment.
- Exceptions thrown inside `do_scan` and exceptions that are not `std::exception`: a task of the pool may end by a caught exception, but the scan's own tasks return normally.
- Overflow of `tasks_total_`, which is a `size_t`.
- The file-system plumbing of `opendir`, `readdir`, `realpath` and the ELF header reader: maps given to the model; `md5` is the stub that it is.
- Log output, time stamps, clock fields and sleeps.
- Closing, moving or destroying a `process_mutex` while guards refer to it, and its move assignment, which drops the old handle.
- Time limits of `try_lock_for`: a call on a mutex that another thread holds may time out at once.
- `numberToString`, `stringToNumber` and `round`: digit conversion lives in iostreams and floating point.
- `loadFiles`, `symLnkPath` and `ScopedFd`: wrappers over the file system.
- The rest of the Windows code (registry queries, services, network cards, machine detection) wraps foreign calls; the forwarding class in `scan.cpp` and the copy and move members of `Thread` only add easy members.
