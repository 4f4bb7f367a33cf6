# The coordination code of the NCache solutions, modelled and verified

The repository builds coordination out of a shared cache: a key lock, read-modify-write under
that lock, a job queue with its workers and watchers, three distributed synchronisation
primitives, and a serializer of object graphs. This project models that code in Dafny and proves
what it is for. `dafny verify dfyconfig.toml` checks everything.

## How the models are built

The protocols are state machines whose steps are single cache calls. `Next(s, e)` is the state
after one event, `Exec(s, es)` after a run; the theorems quantify over every run, that is over every
interleaving of any number of clients, with lost lock races, crashes and a clock. An event that is not
enabled changes nothing. `KeyLock` is the base machine; the queue (`JobQueue`), the guard
(`LockGuard`), the semaphore (`Semaphore`), the reader-writer lock (`ReaderWriter`) and the tag index
(`TagIndex`) carry a `KeyLock.State` and run `LockKey` and `UnlockKey` call by call inside their own
steps. `JobLifecycle` works one level up: one queue operation, or one guarded update of a processing
set, is one step there, which is what `QueueResults.ReturnedMeansItsOwnDeed` and
`LockGuard.Serialisable` justify. Workers and watchers die there, and heartbeats land late.

The modules named `...Turns` take the operations one at a time: from any state that the invariant allows, with the
lock in question free and nobody in between, they say exactly what an operation comes to, and so that it gets on at all;
`DeadHolderIsOvercome` and its like say it after a crash.

The modules named `...Code`, and the classes in `FetchedJobs`, `TerminalLists`, `Counters`, `Backlog`
and `LockLossMonitor`, are the operations as written: fields updated in place, loops with invariants,
proved against the functions that the theorems are about. Outcomes the code cannot decide itself
(whether a lock was got, what other clients do between two calls) are parameters.

Assumptions, stated in the models rather than hidden: tokens and identities are fresh, as Guids are;
`Tick` and `Wait` let time pass only while live clients stay inside the lease of the key lock they hold
(`Overrun` drops this, and `BrokenExactlyByTakingAway` says what it then costs); items are not evicted;
clocks agree. Nothing else holds time up: a writer may wait, a handle be disposed and a heartbeat land as
late as they like, and where a theorem needs them in time its statement says so.

## Where the code does less than it says

- `NCacheJobQueue.Requeue` throws when it loses both the head and the tail lock. `FetchedJobsWatcher` has
  taken the entry out of the processing set by then, and `CompleteAndWrap` holds the job nowhere else, so
  the job is gone. `JobLosses.DroppedExactlyWhenLetGo` says exactly when a step drops a job,
  `TimeOutsLoseAJob` is a run that does without any death, `JobLifecycle.NothingDropped` covers all runs without
  such an exception and without deaths.
- `RemoveServer` and `RemoveTimedOutServers` (`NCacheConnection.cs`, lines 371 and 424) drop a server from the registry
  and leave its processing set behind, where no watcher looks again. An entry goes stale only after the
  `InvisibilityTimeout`, ten minutes by default, so a dead server removed earlier strands its jobs:
  `JobLosses.RemovedServerStrandsAJob` is a run, `Reclaiming.TakenExactlyWhenWatched` says exactly which entries can
  still be taken, and only an `AnnounceServer` of the same server brings them back (`ReturnsExactlyWhenRevived`).
- `NCacheFetchedJob.Requeue` pushes to the queue before it clears the processing entry. A second worker of
  the same server that has taken the job up in between loses its entry; the exact condition above includes
  that step.
- The heartbeat comment speaks of a couple of missed ticks. Two in a row leave no slack: the next beat may be at
  most two clock ticks late, or a watcher can see a live worker as stale (`Heartbeat.TwoMissesLeaveNoSlack`);
  one missed beat leaves a third of the time-out.
- The reader-writer lock is not exclusive: a reader checks for a writer before it takes the readers' lock
  and not again (`ReaderWriterGap.ReaderAndWriterTogether`). `JoinedExactlyByEarlierReaders` says exactly
  when a writer can be joined.
- Nor are writers, when one waits for readers longer than its own lease: its record lapses, another writer gets
  in, and the first inserts its record all the same (`ReaderWriterGap.TwoWriters`;
  `ReaderWriterRuns.BrokenExactlyByUsurping` is the exact step).
- `UnlockKey` with a null handle, and a lease that ends before its holder is done, let two clients own a key
  (`KeyLock.BrokenExactlyByTakingAway`, `ThenTwoGetIn`).
- The serializer's cycle check goes by reference, and a value type in a field or an element is boxed anew at every
  read: a cycle through an array of structs is never cut and never ends
  (`SerializerTermination.EndsExactlyWithoutBareCycles`, `ArrayOfValuesDoesNotEnd`).
- `LockLossMonitor` promises a couple of checks before the record expires; its lower clamp of 500 ms keeps
  that exactly for leases of a second or more.
- `AddUsingTag` makes sure the tag exists once, before its loop. If a removal takes the tag away, the loop turns
  until another add brings it back (`TagIndex.AddWaitsForAnotherAdd`; the exact condition is
  `AddGetsTheLockExactlyWhen`).
- `AddUsingTag` locks the tag without a lease: an adder that dies with the lock in hand blocks the tag for good
  (`TagTurns.DeadAdderBlocksForGood`).
- Terminal lists are independent of batching only while they hold no job twice; `InsertToList` on the
  same name could break that (`TerminalLists.CutFirstMakesNoDifference`, `DuplicatesShow`).
- A flusher that loses the lock of its list or counter has already drained the batch and drops it.
- A counter's expiration depends on how its changes were batched: a batch without a limit stores the counter without
  one, whatever an earlier batch set (`Counters.OnlyTheLastBatchLimits`; `BatchingSparesTheValue` has the exact
  condition, `BatchingDecidesTheExpiration` two batchings that differ).
- `LockLossMonitor` cancels its token the moment a check finds the lock gone, unless `Dispose` comes in between
  (`LockLossMonitor.LossIsReported`, `LossGoesUnreported`).

## Model

| member | source | states |
|---|---|---|
| KeyLock.MutualExclusion | Extensions/Alachisoft.NCache.Client.Extension/LockingExtension.cs:12-100 | in every run of any number of clients at most one is between the `Add` of a key's lock record and its `Remove`, and the stored record carries that client's token |
| KeyLock.NothingLeftBehind | Extensions/Alachisoft.NCache.Client.Extension/LockingExtension.cs:12-79 | a client whose `LockKey` returned false, or that has unlocked, has left no record of its own: every record stored belongs to another client |
| KeyLock.FreeKeyIsLocked | Extensions/Alachisoft.NCache.Client.Extension/LockingExtension.cs:22-65 | uninterrupted, `LockKey` on a present and unlocked key succeeds and changes only its own record |
| KeyLock.PeekFindsItFree | NCache.OSS.HangFire/HangFire/NCacheLockGuard.cs:87-98 | the same behind the cheap check that the guard makes first |
| KeyLock.LockedKeyIsRefused | Extensions/Alachisoft.NCache.Client.Extension/LockingExtension.cs:22-26 | a key that is locked or absent is refused, with the cheap check or without, and nothing changes |
| KeyLock.FailedAddNamesTheHolder | Extensions/Alachisoft.NCache.Client.Extension/LockingExtension.cs:67-73 | a client whose `Add` fails is told the token of the client that owns the key, or did when it crashed |
| KeyLock.VanishedKeyIsUndone | Extensions/Alachisoft.NCache.Client.Extension/LockingExtension.cs:57-62 | a `LockKey` whose key goes away after its `Add` takes its record back and returns false |
| KeyLock.LostRecordIsNoticed | Extensions/Alachisoft.NCache.Client.Extension/LockingExtension.cs:51-55 | in whatever state, a `LockKey` that does not read its own record back returns false and leaves the record there alone |
| KeyLock.UnlockFrees | Extensions/Alachisoft.NCache.Client.Extension/LockingExtension.cs:89-98 | a holder's `UnlockKey` removes its record and no other |
| KeyLock.UnlockSparesOthers | Extensions/Alachisoft.NCache.Client.Extension/LockingExtension.cs:91-96 | in whatever state, an `UnlockKey` that does not find its own token changes nothing and is over |
| KeyLock.CrashedLockLapses | Extensions/Alachisoft.NCache.Client.Extension/LockingExtension.cs:34-35 | when the lease of a crashed owner ends, the next `LockKey` succeeds; the owner of a record that lapses was a crashed client |
| KeyLock.NoLeaseNeverLapses | Extensions/Alachisoft.NCache.Client.Extension/LockingExtension.cs:12-38 | without an expiration time a crashed client's record stays in every later run |
| KeyLock.OverrunBreaksExclusion | Extensions/Alachisoft.NCache.Client.Extension/LockingExtension.cs:91-96 | a client stalled past its lease between `Get` and `Remove` can let two clients hold one key: the lease assumption is needed |
| KeyLock.NullHandleBreaksExclusion | Extensions/Alachisoft.NCache.Client.Extension/LockingExtension.cs:84-87 | `UnlockKey` with a null handle can let two clients hold one key |
| KeyLock.BrokenExactlyByTakingAway | Extensions/Alachisoft.NCache.Client.Extension/LockingExtension.cs:80-100 | a step breaks the invariant behind mutual exclusion if and only if it is a null-handle unlock of a key that a live client owns, or time passing over the end of a live owner's lease |
| KeyLock.ThenTwoGetIn | Extensions/Alachisoft.NCache.Client.Extension/LockingExtension.cs:80-100 | after any such step the next `LockKey` succeeds, so two live clients own the key at once |
| LockingExtension.SharedCache.LockKey | Extensions/Alachisoft.NCache.Client.Extension/LockingExtension.cs:12-79 | the code, with any steps of others between its calls, is the run of the protocol made of those steps and its own calls; true exactly when it ends holding, with its token and the key in the cache at both looks; the holder's token is reported when `Add` fails |
| LockingExtension.SharedCache.UnlockKey | Extensions/Alachisoft.NCache.Client.Extension/LockingExtension.cs:80-100 | the same with the caller's token: the record goes if it was the caller's own at its `Get`; any other stays as it is |
| LockingExtension.SharedCache.UnlockKeyOfAnyone | Extensions/Alachisoft.NCache.Client.Extension/LockingExtension.cs:84-87 | a null handle removes any holder's record |
| LockingExtension.SharedCache.IsCorrectLockToken | Extensions/Alachisoft.NCache.Client.Extension/LockingExtension.cs:102-113 | true exactly for the token of the client that owns the record |
| LockGuard.Serialisable | NCache.OSS.HangFire/HangFire/NCacheLockGuard.cs:21-106 | after any interleaving each key's value is what the logged actions make of the empty value one after another, in the order in which its lock was taken |
| LockGuard.ReturnedMeansApplied | NCache.OSS.HangFire/HangFire/NCacheLockGuard.cs:43-63 | an `Execute` that returned has its own action in that log; the key of a lock holder with work to do is present |
| GuardTurns.ExecuteAlone | NCache.OSS.HangFire/HangFire/NCacheLockGuard.cs:21-106 | from any reachable state with the key's lock free, an undisturbed `Execute` returns: its action has taken effect on the value that was there, by the one new entry of the log, and the lock is free again |
| GuardTurns.TurnRefused | NCache.OSS.HangFire/HangFire/NCacheLockGuard.cs:79-106 | a turn of `Acquire` on a locked or absent key changes nothing; the client may try again or time out |
| GuardTurns.DeadHolderIsOvercome | NCache.OSS.HangFire/HangFire/NCacheLockGuard.cs:43-63 | when a client dies with the lock in hand, the next `Execute` gets it once the lease has ended and works on the value that the log says |
| LockGuard.OnlyHoldersCommit | NCache.OSS.HangFire/HangFire/NCacheLockGuard.cs:43-76 | a value changes only when a lock holder writes, by its own action on the current value and by one log entry; a client whose wait timed out changes nothing |
| LockGuard.NoUpdateIsLost | NCache.OSS.HangFire/HangFire/NCacheWriteOnlyTransaction.cs:147-205 | what an action wrote to its part of a value stands until a later entry of the log writes the same part, whatever ran concurrently |
| LockGuard.SetActions | NCache.OSS.HangFire/HangFire/NCacheWriteOnlyTransaction.cs:147-205 | `AddToSet` and `RemoveFromSet` settle the score of their own value and spare every other, so the previous row applies to scored sets |
| LockGuardCode.Acquire | NCache.OSS.HangFire/HangFire/NCacheLockGuard.cs:79-106 | the wait loop tries at least once; it ends with the lock on the first turn that gets it, or by time-out on the first turn past the limit |
| LockGuardCode.GuardedCache.EnsureKeyExists | NCache.OSS.HangFire/HangFire/NCacheLockGuard.cs:21-41 | an existing value stays, also one that another process adds between check and `Add` |
| LockGuardCode.GuardedCache.Execute | NCache.OSS.HangFire/HangFire/NCacheLockGuard.cs:43-63 | the action takes effect exactly once on the value read and touches no other key, or not at all on time-out |
| LockGuardCode.GuardedCache.TryExecute | NCache.OSS.HangFire/HangFire/NCacheLockGuard.cs:65-76 | returns true exactly when some turn gets the lock; false leaves the data alone |
| QueueRuns.RefinesDeque | NCache.OSS.HangFire/HangFire/NCacheJobQueue.cs:18-131 | in any interleaving of single cache calls, crashes included, the slots from head to tail hold the result of the deeds done so far as a deque, and head never passes tail |
| QueueResults.ReturnedMeansItsOwnDeed | NCache.OSS.HangFire/HangFire/NCacheJobQueue.cs:18-131 | every operation that has returned has made, since it was asked for, exactly one deed, the one its kind, its job and its result say; an enqueue that threw or a dequeue with nothing has made none; a requeue has pushed its job to the front unless both its checks found no counter or its wait for the head lock ran out |
| QueueResults.DistinctDeeds | NCache.OSS.HangFire/HangFire/NCacheJobQueue.cs:18-131 | two operations of one client rest on two different deeds, the later on the later |
| QueueRuns.OneDeedAtATime | NCache.OSS.HangFire/HangFire/NCacheJobQueue.cs:30-36 | the queue changes only when a lock holder makes its deciding call, and by exactly one append, pop or push to the front |
| QueueRuns.NoSlotIsSkipped | NCache.OSS.HangFire/HangFire/NCacheJobQueue.cs:69-79 | in a run without crashes every slot between head and tail is filled but for the one being popped, head is at most tail, and the skipped-slot branch is never entered |
| QueueRuns.EmptyMeansEmpty | NCache.OSS.HangFire/HangFire/NCacheJobQueue.cs:50-67 | a dequeuer that gives up after reading the tail saw an empty queue |
| QueueRuns.FifoRuns | NCache.OSS.HangFire/HangFire/NCacheJobQueue.cs:18-131 | over any run, jobs nobody requeues leave in the order they were enqueued, those still waiting are the rest in that order, and no job is lost or doubled |
| QueueTurns.EnqueueAlone | NCache.OSS.HangFire/HangFire/NCacheJobQueue.cs:18-42 | from any reachable state with the tail lock free, an undisturbed `Enqueue` returns with its job appended by one deed, all locks as before |
| QueueTurns.DequeueAlone | NCache.OSS.HangFire/HangFire/NCacheJobQueue.cs:44-83 | with the head lock free, an undisturbed `TryDequeue` returns the front job; nothing exactly if the queue was never used, is empty, or has its front slot emptied by a crash |
| QueueTurns.RequeueAlone | NCache.OSS.HangFire/HangFire/NCacheJobQueue.cs:91-131 | with the locks free, an undisturbed `Requeue` puts its job first; last only if neither counter was there |
| QueueTurns.RequeueFallsBack | NCache.OSS.HangFire/HangFire/NCacheJobQueue.cs:113-121 | a `Requeue` that finds the head locked until its time is up appends its job |
| QueueTurns.DeadDequeuerIsOvercome | NCache.OSS.HangFire/HangFire/NCacheJobQueue.cs:44-83 | when a client dies with the head lock in hand, the next `TryDequeue` gets it once the lease has ended and takes the front job, unless the dead client has emptied its slot |
| Deque.FirstInFirstOut | NCache.OSS.HangFire/HangFire/NCacheJobQueue.cs:18-83 | the same for any sequence of deeds |
| Deque.NothingLost | NCache.OSS.HangFire/HangFire/NCacheJobQueue.cs:18-131 | what came in at either end is what left plus what waits, as multisets |
| Deque.RequeueUndoesDequeue | NCache.OSS.HangFire/HangFire/NCacheJobQueue.cs:91-121 | a dequeue followed by the requeue of its job restores the queue |
| QueueCode.NCacheJobQueue.Enqueue | NCache.OSS.HangFire/HangFire/NCacheJobQueue.cs:18-42 | the code, uninterrupted, appends one job, or changes no content when the tail lock is lost; with the lock it leaves the counters and slots of the machine's undisturbed operation |
| QueueCode.NCacheJobQueue.TryDequeue | NCache.OSS.HangFire/HangFire/NCacheJobQueue.cs:44-83 | returns and removes the front job; nothing when the queue is empty or was never used or the lock is lost; with the lock as the machine does |
| QueueCode.NCacheJobQueue.Requeue | NCache.OSS.HangFire/HangFire/NCacheJobQueue.cs:91-131 | the job goes to the front; to the back when the queue was never used or the head lock is lost; nowhere when the tail lock is lost too; with the locks as the machine does |
| QueueCode.NCacheJobQueue.GetTotalLength | NCache.OSS.HangFire/HangFire/NCacheJobQueue.cs:133-143 | tail minus head, never negative; the number of waiting jobs if and only if no slot is empty |
| QueueCode.NCacheJobQueue.GetAllIds | NCache.OSS.HangFire/HangFire/NCacheJobQueue.cs:145-162 | the waiting jobs in order |
| JobLifecycle.NothingDropped | NCache.OSS.HangFire/HangFire/NCacheConnection.cs:624-678 | in every run without deaths in which no `Requeue` throws, lost locks included, every enqueued job is finished, waiting, in a worker's hands or in a watcher's |
| JobLifecycle.NextKeepsPlaced | NCache.OSS.HangFire/HangFire/NCacheFetchedJob.cs:40-62 | no single step without such an exception drops a job |
| JobLosses.DroppedExactlyWhenLetGo | NCache.OSS.HangFire/HangFire/FetchedJobsWatcher.cs:29-41 | a step of any kind, deaths included, drops a job if and only if it takes away every place the job has: its worker dies or its last `Requeue` throws, its watcher dies or throws, its entry is cleared, or the set that lists it is lost from sight of every live watcher (its server leaves the registry, or the pass that still had it ahead ends or goes by without taking it) |
| JobLosses.ReturnsExactlyWhenRevived | NCache.OSS.HangFire/HangFire/NCacheConnection.cs:291-340 | a job that was dropped is back if and only if the step enqueues it or announces the server that still lists it while some watcher lives |
| JobLosses.RemovedServerStrandsAJob | NCache.OSS.HangFire/HangFire/NCacheConnection.cs:371-465 | a run in which no `Requeue` throws and the watcher lives, and yet a job is lost: its worker dies and its server leaves the registry before the entry is stale |
| Reclaiming.DeathLeavesTheJobListed | NCache.OSS.HangFire/HangFire/NCacheConnection.cs:664-678 | a worker that dies at its job leaves the entry of its handle in its server's set, in every run, unless a watcher had taken it or another holder of the same job cleared or overwrote it; the watchers can get it back if and only if a live one still finds the server |
| JobLosses.TimeOutsLoseAJob | NCache.OSS.HangFire/HangFire/FetchedJobsWatcher.cs:33-39 | a run without deaths in which a watcher takes a stale entry, loses both queue locks and the job is nowhere |
| StaleEntries.TakenOnceRequeuedOnce | NCache.OSS.HangFire/HangFire/FetchedJobsWatcher.cs:29-96 | with any number of watchers at once an entry is taken at most once and requeued at most once; without exceptions all that was taken has been requeued once the watchers rest |
| StaleEntries.TakesExactlyTheStale | NCache.OSS.HangFire/HangFire/FetchedJobsWatcher.cs:70-88 | a pass over a set takes all its stale entries and no fresh one, leaves the fresh ones as they are and no other set touched |
| StaleEntries.TakenNeverComesBack | NCache.OSS.HangFire/HangFire/NCacheFetchedJob.cs:82-124 | no later step of any run lists an entry that was taken; a heartbeat may land at any time after its check of the flag |
| Reclaiming.TakenExactlyWhenWatched | NCache.OSS.HangFire/HangFire/FetchedJobsWatcher.cs:29-53 | some continuing run, the server not announced anew, has a watcher take a listed entry if and only if a live watcher finds the server: in the registry, or still ahead in its pass |
| Reclaiming.TakenExactlyOnce | NCache.OSS.HangFire/HangFire/FetchedJobsWatcher.cs:55-96 | when a watcher gets the lock of a set after an entry there went stale, then for good the entry has been taken exactly once, or a holder of the job had cleared or overwritten it, never both |
| Reclaiming.ForgottenServersAreNotReclaimed | NCache.OSS.HangFire/HangFire/FetchedJobsWatcher.cs:43-53 | while no live watcher finds a server, its set stays as it is |
| FetchedJobs.FetchedJob.RemoveFromQueue | NCache.OSS.HangFire/HangFire/NCacheFetchedJob.cs:40-46 | clears the own entry once; a second call does nothing |
| FetchedJobs.FetchedJob.Requeue | NCache.OSS.HangFire/HangFire/NCacheFetchedJob.cs:48-55 | queue first, entry second, once; an exception leaves the entry and the handle as they were |
| FetchedJobs.FetchedJob.Dispose | NCache.OSS.HangFire/HangFire/NCacheFetchedJob.cs:57-62 | a job neither removed nor requeued goes back to its queue and off its set, any other stays where it is |
| FetchedJobs.FetchedJob.RenewProcessingEntry | NCache.OSS.HangFire/HangFire/NCacheFetchedJob.cs:82-124 | moves the time of the own entry, never adds one, stops when it is gone; a stop after the check of the flag does not hold it up |
| FetchedJobs.CompleteAndWrap | NCache.OSS.HangFire/HangFire/NCacheConnection.cs:664-678 | lists the job with a fresh entry, or puts it back; it is back in the queue exactly unless `Requeue` throws |
| FetchedJobs.FetchedJobsWatcher.TakeStale | NCache.OSS.HangFire/HangFire/FetchedJobsWatcher.cs:55-96 | the in-place removal takes exactly the stale entries in enumeration order and leaves exactly the rest |
| FetchedJobs.FetchedJobsWatcher.RequeueServer | NCache.OSS.HangFire/HangFire/FetchedJobsWatcher.cs:33-40 | one server's entries are requeued in that order up to the first exception |
| FetchedJobs.FetchedJobsWatcher.RequeueTimedOutJobs | NCache.OSS.HangFire/HangFire/FetchedJobsWatcher.cs:29-41 | a pass over every registered server, up to the first exception, has the effect of its visits one after another |
| FetchedJobs.PassTakesTheStale | NCache.OSS.HangFire/HangFire/FetchedJobsWatcher.cs:29-96 | after a pass a visited server's set lacks an entry if and only if it was stale and the lock of the set was got |
| FetchedJobs.RequeueIsReturnAndClear | NCache.OSS.HangFire/HangFire/NCacheFetchedJob.cs:48-55 | the code of `Requeue` is the life cycle's two steps, queue first, on any state and however it ends |
| FetchedJobs.RenewalIsRenew | NCache.OSS.HangFire/HangFire/NCacheFetchedJob.cs:82-124 | the code of a heartbeat and the life cycle's `Renew` restamp the same entry or stop the same handle and touch no queue, even if the handle was stopped after the check of the flag |
| FetchedJobs.BeatAlone | NCache.OSS.HangFire/HangFire/NCacheFetchedJob.cs:75-124 | an undisturbed heartbeat of a handle that beats stamps its entry anew, or stops the handle if the entry is gone; no queue is touched |
| FetchedJobs.RenewedIsFresh | NCache.OSS.HangFire/HangFire/NCacheFetchedJob.cs:82-124 | a renewed entry is the same entry with a new time: it cannot be stale before the time-out has passed from then on; no other entry changes |
| FetchedJobs.TakeStaleIsTake | NCache.OSS.HangFire/HangFire/FetchedJobsWatcher.cs:55-96 | the code of the watcher takes the same entries in the same order as the life cycle's step and leaves the same sets |
| FetchedJobs.WaitingJobsKeepTheirOrder | NCache.OSS.HangFire/HangFire/FetchedJobsWatcher.cs:29-41 | over a whole pass, exceptions included, the waiting jobs of every queue stay together in order: before them what the head locks let in, the last server first, behind them what went to the back |
| FetchedJobs.PassPutsStaleJobsFirst | NCache.OSS.HangFire/HangFire/FetchedJobsWatcher.cs:29-41 | with every head lock got, a pass puts the stale jobs of all the servers it visits ahead of all waiting ones, last taken first |
| Heartbeat.SafeExactlyWithinTheTimeout | NCache.OSS.HangFire/HangFire/NCacheFetchedJob.cs:29-34 | no watcher ever sees a worker that misses at most m beats in a row, none later than d, as stale if and only if (m+1) intervals and d fit in the time-out |
| Heartbeat.TwoMissesLeaveNoSlack | NCache.OSS.HangFire/HangFire/FetchedJobsWatcher.cs:76-79 | for two misses that is a slack of at most the time-out modulo three ticks |
| Heartbeat.OneMissLeavesAThird | NCache.OSS.HangFire/HangFire/NCacheFetchedJob.cs:29-34 | for one miss the slack is what is left after two intervals |
| Heartbeat.BeatIsFresh | NCache.OSS.HangFire/HangFire/NCacheFetchedJob.cs:111-112 | the entry is fresh whenever a watcher looks before the next beat writes |
| Semaphore.NeverMoreThanCapacity | NCache.OSS.DistributedLock/Locks/NCacheDistributedSemaphore.cs:81-161 | whatever the interleaving, the crashes and the reclaiming, handles with an unexpired record never outnumber the capacity |
| Semaphore.ReclaimSparesHolders | NCache.OSS.DistributedLock/Locks/NCacheDistributedSemaphore.cs:107-132 | the store that follows a reclaim keeps every holder whose record stands |
| Semaphore.ReclaimMakesRoom | NCache.OSS.DistributedLock/Locks/NCacheDistributedSemaphore.cs:124-132 | when the scan found someone dead the second `TryAcquire` succeeds |
| SemaphoreTurns.DisposedMeansReleased | NCache.OSS.DistributedLock/SynchronizationHandles/NCacheDistributedSemaphoreSynchronizationHandle.cs:43-80 | in every run, a handle that has been disposed is off the list and has no record |
| SemaphoreTurns.AcquireAlone | NCache.OSS.DistributedLock/Locks/NCacheDistributedSemaphore.cs:81-161 | from any reachable state with the list unlocked, an undisturbed `Acquire` gets a slot if there is room or a holder is dead, whom alone it drops; else it returns without one and changes nothing |
| SemaphoreTurns.DisposeAlone | NCache.OSS.DistributedLock/SynchronizationHandles/NCacheDistributedSemaphoreSynchronizationHandle.cs:43-80 | an undisturbed `Dispose` takes the handle off the list and its record out of the cache, and nothing else |
| SemaphoreTurns.ReleasedSlotIsTaken | NCache.OSS.DistributedLock/SynchronizationHandles/NCacheDistributedSemaphoreSynchronizationHandle.cs:43-80 | so the next client that asks gets the slot |
| SemaphoreTurns.LapsedSlotIsTaken | NCache.OSS.DistributedLock/Locks/NCacheDistributedSemaphore.cs:81-161 | a slot whose date and record have run out goes to the next client that finds the list full |
| SemaphoreCode.NCacheSemaphorePrimitive.TryAcquire | NCache.OSS.DistributedLock/Primitives/NCacheSemaphorePrimitive.cs:33-42 | adds the holder exactly when there is room |
| SemaphoreCode.NCacheSemaphorePrimitive.Release | NCache.OSS.DistributedLock/Primitives/NCacheSemaphorePrimitive.cs:44-48 | takes out every holder of that identity and says whether there was one |
| SemaphoreCode.NCacheSemaphorePrimitive.AcquireSlot | NCache.OSS.DistributedLock/Locks/NCacheDistributedSemaphore.cs:93-135 | with room a slot at once; on a full list a slot exactly when someone dead was found, on the list without the dead |
| SemaphoreCode.ScanFindsTheDead | NCache.OSS.DistributedLock/Locks/NCacheDistributedSemaphore.cs:109-122 | the scan, record by record, finds exactly the holders the in-place code drops |
| SemaphoreCode.ReclaimKeepsTheLiving | NCache.OSS.DistributedLock/Locks/NCacheDistributedSemaphore.cs:110-122 | a holder with a record or not past its date stays on the list |
| SemaphoreCode.WithoutTwice | NCache.OSS.DistributedLock/Locks/NCacheDistributedSemaphore.cs:126-129 | releasing the dead one by one takes out all of them together |
| ReaderWriterRuns.OneWriter | NCache.OSS.DistributedLock/Locks/NCacheDistributedReaderWriterLock.cs:161-251 | in runs in which no writer waits or disposes past its lease two writers never coexist, waiting ones included |
| ReaderWriterRuns.BrokenExactlyByUsurping | NCache.OSS.DistributedLock/Locks/NCacheDistributedReaderWriterLock.cs:209-237 | in any run, a step breaks writer exclusion if and only if a writer inserts or removes the record while another's stands |
| ReaderWriterRuns.UsurpersAreLate | NCache.OSS.DistributedLock/Locks/NCacheDistributedReaderWriterLock.cs:209-237 | such a writer has let its own record lapse |
| ReaderWriterRuns.PromotionMakesTwo | NCache.OSS.DistributedLock/Locks/NCacheDistributedReaderWriterLock.cs:223-232 | a late promotion over another's record makes two writers inside leases that run |
| ReaderWriterGap.LatePromotion | NCache.OSS.DistributedLock/Locks/NCacheDistributedReaderWriterLock.cs:212-232 | from any reachable state with a writer about to promote itself without its record, two writers can come to write |
| ReaderWriterGap.TwoWriters | NCache.OSS.DistributedLock/Locks/NCacheDistributedReaderWriterLock.cs:209-237 | from the start such a run exists: a writer waits for a reader longer than its lease |
| ReaderWriterRuns.WriterSawEmpty | NCache.OSS.DistributedLock/Locks/NCacheDistributedReaderWriterLock.cs:184-232 | a writer has its handle only after it saw the list empty: while its record stood, if writers are in time; in any run, unless only after the record had lapsed |
| ReaderWriterRuns.LateExactlyWithoutRecord | NCache.OSS.DistributedLock/Locks/NCacheDistributedReaderWriterLock.cs:212-221 | a look at the empty list comes too late if and only if the writer's record is gone |
| ReaderWriterRuns.EmptyMeansNoHandle | NCache.OSS.DistributedLock/Locks/NCacheDistributedReaderWriterLock.cs:212-221 | when a writer sees the list empty in time its record stands and no client reads under a handle |
| ReaderWriterRuns.LateReadersStayOut | NCache.OSS.DistributedLock/Locks/NCacheDistributedReaderWriterLock.cs:102-108 | in every run, while a writer record stands, every reader pending or reading made its check before a record came to stand |
| ReaderWriterRuns.StaysAlone | NCache.OSS.DistributedLock/Locks/NCacheDistributedReaderWriterLock.cs:98-160 | with a record standing and no live earlier reader left, no step lets a reader in |
| ReaderWriterRuns.AloneThroughout | NCache.OSS.DistributedLock/Locks/NCacheDistributedReaderWriterLock.cs:98-251 | so the writer is alone for as long as a record stands, crashed readers or not |
| ReaderWriterGap.JoinedExactlyByEarlierReaders | NCache.OSS.DistributedLock/Locks/NCacheDistributedReaderWriterLock.cs:98-160 | with the list's lock free, a run in which a client comes to read beside a writer whose record stands exists if and only if some live client is past its check for a writer and has its handle, or is still to get it |
| ReaderWriterGap.ReaderAndWriterTogether | NCache.OSS.DistributedLock/Locks/NCacheDistributedReaderWriterLock.cs:102-139 | from the start, without failures or time passing, a reader and a writer can hold their handles together |
| ReaderWriterTurns.ReadAlone | NCache.OSS.DistributedLock/Locks/NCacheDistributedReaderWriterLock.cs:98-159 | from any reachable state with the list unlocked, an undisturbed read lists a new reader with its record, unless a writer is there: then it returns without a handle and changes nothing |
| ReaderWriterTurns.ReadEndsAlone | NCache.OSS.DistributedLock/SynchronizationHandles/NCacheDistributedReaderSynchronizationHandle.cs:180-217 | an undisturbed dispose takes the reader off the list and its record out of the cache |
| ReaderWriterTurns.WriteAlone | NCache.OSS.DistributedLock/Locks/NCacheDistributedReaderWriterLock.cs:161-207 | an undisturbed write adds the writer record for its lease and has its handle if nobody reads, or waits; with another writer there it changes nothing |
| ReaderWriterTurns.WaitEndsAlone | NCache.OSS.DistributedLock/Locks/NCacheDistributedReaderWriterLock.cs:209-238 | a waiting writer whose time is up has its handle and a new record if the list is empty; else it removes its record and returns without one |
| ReaderWriterTurns.WriteEndsAlone | NCache.OSS.DistributedLock/SynchronizationHandles/NCacheDistributedWriterSynchronizationHandle.cs:38-48 | an undisturbed dispose removes the writer's own record and no other's |
| ReaderWriterTurns.DeadHolderIsOvercome | NCache.OSS.DistributedLock/Locks/NCacheDistributedReaderWriterLock.cs:98-159 | when a client dies with the list's lock in hand, the next reader gets in once the lease has ended |
| ReaderListCode.NCacheReadersPrimitive.RemoveReader | NCache.OSS.DistributedLock/Primitives/NCacheReaderWriterPrimitive.cs:30-34 | takes out every entry of that identity and says whether there was one |
| ReaderListCode.RemoveUndoesAdd | NCache.OSS.DistributedLock/Primitives/NCacheReaderWriterPrimitive.cs:25-34 | a reader added and removed leaves the list as it was |
| LeasedLock.OneHolder | NCache.OSS.DistributedLock/Locks/NCacheDistributedLock.cs:57-80 | if every Dispose finishes inside its own lease, at most one undisposed handle has a lease that runs, at every moment of every run |
| LeasedLock.HeldForTheWholeLease | NCache.OSS.DistributedLock/Locks/NCacheDistributedLock.cs:55-80 | in timely runs an undisposed handle whose `Add` was less than the lease ago has its own record standing |
| LeasedLock.DisposeFrees | NCache.OSS.DistributedLock/SynchronizationHandles/NCacheDistributedLockSynchronizationHandle.cs:36-46 | an undisturbed dispose of the own record lets the next handle in at once; of another's it changes nothing |
| LeasedLock.RemovesItsOwn | NCache.OSS.DistributedLock/SynchronizationHandles/NCacheDistributedLockSynchronizationHandle.cs:36-46 | a Dispose inside its lease removes its own record |
| LeasedLock.BrokenExactlyByStealing | NCache.OSS.DistributedLock/SynchronizationHandles/NCacheDistributedLockSynchronizationHandle.cs:40-45 | a step breaks the invariant if and only if it is a `Remove` after the lease that finds a record, another's |
| LeasedLock.LateDisposeLetsTwoIn | NCache.OSS.DistributedLock/SynchronizationHandles/NCacheDistributedLockSynchronizationHandle.cs:40-45 | from any state with a Dispose between its calls and its lease over, two handles can become live together |
| LeasedLock.LeaseEnds | NCache.OSS.DistributedLock/Locks/NCacheDistributedLock.cs:63-68 | a handle never disposed keeps the lock no longer than its lease |
| LeasedLockCode.SharedCache.AcquireStrategy | NCache.OSS.DistributedLock/Locks/NCacheDistributedLock.cs:55-80 | the code, with any steps of others before its `Add`, is that run; a handle exactly when no record is there, with a record of its own that ends the lease asked for after the `Add` |
| LeasedLockCode.SharedCache.Dispose | NCache.OSS.DistributedLock/SynchronizationHandles/NCacheDistributedLockSynchronizationHandle.cs:36-46 | the code is that run, others between `Get` and `Remove`; another's record seen by the `Get` stays |
| LeasedLockCode.SharedCache.IsStillHeld | NCache.OSS.DistributedLock/SynchronizationHandles/NCacheDistributedLockSynchronizationHandle.cs:30-34 | true exactly when the stored record is the handle's own |
| LockLossMonitor.CancelledOnlyWhenLost | NCache.OSS.DistributedLock/SynchronizationHandles/LockLossMonitor.cs:40-93 | with any number of overlapping callbacks and a Dispose, the token is cancelled only if a callback found the lock lost and swapped before Dispose did; the timer is disposed once |
| LockLossMonitor.NothingAfterDispose | NCache.OSS.DistributedLock/SynchronizationHandles/LockLossMonitor.cs:85-93 | once Dispose has won the exchange the token is never cancelled |
| LockLossMonitor.NeverCancelledWhileHeld | NCache.OSS.DistributedLock/SynchronizationHandles/LockLossMonitor.cs:40-64 | as long as every ownership check answers yes the token is never cancelled, in every run |
| LockLossMonitor.NobodyAsksAfterStop | NCache.OSS.DistributedLock/SynchronizationHandles/LockLossMonitor.cs:40-45 | once the monitor has stopped, a callback that has not asked yet never asks |
| LockLossMonitor.CheckAlone | NCache.OSS.DistributedLock/SynchronizationHandles/LockLossMonitor.cs:40-79 | an undisturbed callback of the machine does what the code of `CheckOnce` does |
| LockLossMonitor.LossIsReported | NCache.OSS.DistributedLock/SynchronizationHandles/LockLossMonitor.cs:59-93 | when the callbacks have come to rest, a loss that was found has been reported if and only if a callback won the exchange and cancelled before the source was disposed; always, if `Dispose` has not begun |
| LockLossMonitor.LossGoesUnreported | NCache.OSS.DistributedLock/SynchronizationHandles/LockLossMonitor.cs:66-93 | both ways for a found loss to go unreported occur: `Dispose` wins the exchange, or disposes the source ahead of the `Cancel` |
| LockLossMonitor.ACoupleOfChecks | NCache.OSS.DistributedLock/SynchronizationHandles/LockLossMonitor.cs:30-37 | two intervals fit in the expiration if and only if it is a second or longer |
| LockLossMonitor.IntervalIsAThird | NCache.OSS.DistributedLock/SynchronizationHandles/LockLossMonitor.cs:30-37 | the interval is a third of the expiration between 1.5 and 15 seconds, and clamped to 0.5 and 5 seconds outside |
| LockLossMonitor.Source.CheckOnce | NCache.OSS.DistributedLock/SynchronizationHandles/LockLossMonitor.cs:40-79 | one undisturbed check: an answer other than true, an exception included, stops and cancels once |
| LockLossMonitor.Source.Dispose | NCache.OSS.DistributedLock/SynchronizationHandles/LockLossMonitor.cs:85-93 | stops the monitor and leaves the token as it is |
| Serializer.RoundTrip | AspNet.OutputCacheProvider/AspNetOutputCache/InternalClassSerializer.cs:17-207 | deserialising what was serialised gives exactly the unfolding of the graph with each reference back to a remembered object on the current path cut to null; inline values are never cut |
| Serializer.UnfoldingIsUnique | AspNet.OutputCacheProvider/AspNetOutputCache/InternalClassSerializer.cs:17-83 | there is only one such unfolding |
| SerializerTermination.EndsExactlyWithoutBareCycles | AspNet.OutputCacheProvider/AspNetOutputCache/InternalClassSerializer.cs:17-83 | serialisation ends if and only if every reachable cycle meets a plain object of a reference type |
| SerializerTermination.ArrayOfValuesDoesNotEnd | AspNet.OutputCacheProvider/AspNetOutputCache/InternalClassSerializer.cs:38-48 | an array of a value type whose values refer back to it never ends |
| SerializerTermination.AcyclicComesBackWhole | AspNet.OutputCacheProvider/AspNetOutputCache/InternalClassSerializer.cs:17-207 | an acyclic graph, shared objects included, comes back with nothing cut |
| SerializerTermination.TrapHasCycle | AspNet.OutputCacheProvider/AspNetOutputCache/InternalClassSerializer.cs:36-78 | the only way for nesting without remembered objects to be unbounded is a reachable cycle of such objects |
| SerializerCode.InternalClassSerializer.SerializeFieldsInternal | AspNet.OutputCacheProvider/AspNetOutputCache/InternalClassSerializer.cs:17-83 | the code with its shared `visited` set, and a new reference for every box, computes the function the theorems are about and leaves the set as it found it |
| SerializerCode.BoxDoesNotMatter | AspNet.OutputCacheProvider/AspNetOutputCache/InternalClassSerializer.cs:66-78 | a reference that no object of the graph has cuts nothing, so remembering a box is no different from forgetting it |
| SerializerCode.InternalClassSerializer.SerializeElements | AspNet.OutputCacheProvider/AspNetOutputCache/InternalClassSerializer.cs:40-62 | the same for the element loops |
| SerializerCode.InternalClassSerializer.DeserializeInternal | AspNet.OutputCacheProvider/AspNetOutputCache/InternalClassSerializer.cs:93-207 | the same for reading back |
| TerminalLists.ListIsMostRecent | NCache.OSS.HangFire/HangFire/TerminalListFlusher.cs:36-79 | however jobs are batched and the list trimmed in between, it ends as the most recent jobs tracked, each once, last one first, cut to its size |
| TerminalLists.BatchingMakesNoDifference | NCache.OSS.HangFire/HangFire/ExpirationManager.cs:39-69 | two runs that flush the same jobs in the same order end with the same list |
| TerminalLists.MostRecentIsUnique | NCache.OSS.HangFire/HangFire/TerminalListFlusher.cs:60-64 | the most-recent-first list of a sequence of jobs is unique |
| TerminalLists.CutFirstMakesNoDifference | NCache.OSS.HangFire/HangFire/TerminalListFlusher.cs:60-75 | on any list, trimming before moving a job to the front makes no difference if and only if the job stands at most once in what is kept or nothing else is cut off |
| TerminalLists.DuplicatesShow | NCache.OSS.HangFire/HangFire/ExpirationManager.cs:54-60 | a list with a job twice on which trimming first does show |
| TerminalLists.TerminalList.FlushOne | NCache.OSS.HangFire/HangFire/TerminalListFlusher.cs:36-79 | drains the batch and stores the flushed list; with the lock lost the batch is gone and the list unchanged |
| TerminalLists.TerminalList.TrimList | NCache.OSS.HangFire/HangFire/ExpirationManager.cs:39-69 | cuts the stored list to its size |
| Counters.NothingLost | NCache.OSS.HangFire/HangFire/CounterFlusher.cs:34-68 | for any number of servers and any batching, without lost locks or expiry, stored plus pending plus held equals the sum of all changes |
| Counters.FlushedIsExact | NCache.OSS.HangFire/HangFire/CounterFlusher.cs:48-67 | when all is flushed the stored value is that sum, short only by what was lost with a lock or expired, in every run |
| Counters.FlushAlone | NCache.OSS.HangFire/HangFire/CounterFlusher.cs:34-68 | from any state, an undisturbed flush drains all of its server's changes and leaves the item of one flush, or loses their sum with the lock; no other server is touched |
| Counters.OnlyTheLastBatchLimits | NCache.OSS.HangFire/HangFire/CounterFlusher.cs:34-68 | in every run the stored counter has an expiration if and only if the batch stored last, since it expired, holds a change with one; it is that of the last such change |
| Counters.BatchingSparesTheValue | NCache.OSS.HangFire/HangFire/CounterFlusher.cs:41-68 | two flushes and one of the same changes leave the same value; the same expiration if and only if not (the second batch is stored without a limit while the first has one, or cancels it out over an older limit) |
| Counters.BatchingDecidesTheExpiration | NCache.OSS.HangFire/HangFire/CounterFlusher.cs:60-65 | two changes that expire when flushed together and never when flushed apart |
| Counters.CounterFlusher.FlushOne | NCache.OSS.HangFire/HangFire/CounterFlusher.cs:34-68 | drains the queue and leaves the item of one flush: sum added and expiration set, a batch that cancels out and limits nothing skipped; or drops the batch with the lock |
| Backlog.BacklogShrinks | NCache.OSS.HangFire/HangFire/QueueBacklogWatcher.cs:43-51 | after n rounds with all signals taken, in any interleaving and with other servers at work, at most d - 100 n jobs wait plus one for each signal taken without the head lock |
| Backlog.BacklogDrains | NCache.OSS.HangFire/HangFire/QueueBacklogWatcher.cs:29-58 | so a queue of d jobs is empty after as many rounds as hundreds, rounded up |
| Backlog.OneDrainIsEnough | NCache.OSS.HangFire/HangFire/NCacheStorage.cs:175-180 | `DrainBacklog` signals for every waiting job, so taking its signals empties the queue |
| Backlog.TakingAll | NCache.OSS.HangFire/HangFire/NCacheConnection.cs:651-663 | taking every signal serves one job a signal until the queue is empty; surplus signals and those of other queues change nothing |
| Backlog.StepsAreBounded | NCache.OSS.HangFire/HangFire/QueueBacklogWatcher.cs:43-51 | a round adds exactly min(depth, 100) signals for its queue and none for others; a queue loses exactly one job at a dequeue and none otherwise |
| Backlog.Storage.CheckAndSignal | NCache.OSS.HangFire/HangFire/QueueBacklogWatcher.cs:43-51 | the nested loops add exactly the signals of one round |
| Backlog.Storage.FetchNextJob | NCache.OSS.HangFire/HangFire/NCacheConnection.cs:651-663 | takes signals, with or without the head lock at each, and stops at the first that brings a job of a served queue, or when none is left |
| SortedSets.EnumerationMakesNoDifference | NCache.OSS.HangFire/HangFire/NCacheConnection.cs:569-586 | the ordered sequence depends on the set's contents only |
| SortedSets.OrderedIsOrdered | NCache.OSS.HangFire/HangFire/NCacheConnection.cs:578-581 | it is strictly ascending by score and key and holds every entry once |
| SortedSets.PagesAreTheWhole | NCache.OSS.HangFire/HangFire/NCacheConnection.cs:569-586 | consecutive pages of any size concatenate to the whole sequence |
| SortedSets.PagesMeet | NCache.OSS.HangFire/HangFire/NCacheConnection.cs:582-584 | two ranges that meet concatenate to the joint range |
| SortedSets.GetRangeFromSet | NCache.OSS.HangFire/HangFire/NCacheConnection.cs:569-586 | the same range for every enumeration of the same set; empty for an absent one |
| SortedSets.LowestOf | NCache.OSS.HangFire/HangFire/NCacheConnection.cs:230-241 | the loop finds the lowest in-range score below the maximum, none exactly when there is none |
| SortedSets.GetFirstByLowestScoreFromSet | NCache.OSS.HangFire/HangFire/NCacheConnection.cs:220-244 | rejects an inverted range; else a key with the score of the first in-range element of the order, null exactly when no score in range is below the maximum |
| TagIndex.NoAddIsLost | AspNetCore.DataProtection/DataProtection/TaggingExtensionOSS.cs:13-111 | in every run the list is exactly the keys added since the tag was last removed, in lock order, and each was written before it was listed; no listed item is missing unless a remover stands before its `Remove` |
| TagIndex.OnlyHoldersChangeTheList | AspNetCore.DataProtection/DataProtection/TaggingExtensionOSS.cs:44-57 | only the lock's holder changes the list: an add by its own key at the end, a removal by emptying it |
| TagIndex.AddWaitsForAnotherAdd | AspNetCore.DataProtection/DataProtection/TaggingExtensionOSS.cs:35-42 | an add that finds its tag removed never gets the lock until another add brings the tag back |
| TagIndex.AddGetsTheLockExactlyWhen | AspNetCore.DataProtection/DataProtection/TaggingExtensionOSS.cs:35-42 | a live adder waiting with the lock free can get it without a further add if and only if the tag is there or some live client has yet to make its own `Add` of it |
| TagIndex.RemovalStrandsAdders | AspNetCore.DataProtection/DataProtection/TaggingExtensionOSS.cs:98-103 | a removal leaves every adder past its own `Add` of the tag in that state |
| TagTurns.AddAlone | AspNetCore.DataProtection/DataProtection/TaggingExtensionOSS.cs:13-65 | from any reachable state with the tag unlocked, an undisturbed add writes its item and puts its key last on the list |
| TagTurns.RemoveAlone | AspNetCore.DataProtection/DataProtection/TaggingExtensionOSS.cs:80-111 | an undisturbed removal takes away the tag and exactly the items it listed |
| TagTurns.DeadAdderBlocksForGood | AspNetCore.DataProtection/DataProtection/TaggingExtensionOSS.cs:13-65 | an adder that dies with the tag's lock in hand blocks the tag for good: its lock has no lease, and in every later run nobody gets it |
| TagTurns.DeadRemoverIsOvercome | AspNetCore.DataProtection/DataProtection/TaggingExtensionOSS.cs:80-111 | a remover that dies with it does not: its lock has a lease, and the next add gets in once that has ended |
| TagCode.TaggedCache.AddUsingTag | AspNetCore.DataProtection/DataProtection/TaggingExtensionOSS.cs:13-65 | the code writes the item and appends the key once, when it gets the lock |
| TagCode.TaggedCache.RemoveUsingTag | AspNetCore.DataProtection/DataProtection/TaggingExtensionOSS.cs:80-111 | the listed items go, all of them, and the tag; nothing when the tag is absent or the lock never got |
| TagCode.TaggedCache.GetUsingTag | AspNetCore.DataProtection/DataProtection/TaggingExtensionOSS.cs:67-78 | exactly the listed keys that are still cached |

## Left out

- The NCache client, its network, topics and item eviction: the cache is a map with atomic calls; an evicted lock record or slot is outside the models.
- In-process gate semaphores (`NCacheLockGuard.For`): they only take interleavings away, so every theorem holds with them.
- Timers, sleeping, random back-off and thread pools: any schedule is allowed instead; waiting times are parameters.
- `RegisterQueueName`, topic notifications and the queue registry's upkeep: they touch neither slots nor counters of a queue.
- 32-bit wrap-around of head and tail and 64-bit wrap-around of counters: all numbers are unbounded.
- NaN and the infinities of scores: scores are reals, and the largest score is a parameter.
- Key strings and prefixes: roles are constructors of a datatype and never collide.
- Reflection in the serializer (`GetFieldInherited`, `ConvertValue`, type names, JSON text): simple values are opaque and an object has an ordered list of fields. A value boxed once and then shared by reference is a plain object.
- A failing cache call in the middle of a critical section, and exceptions out of `UnlockKey`.
- `NCacheConnection.AcquireDistributedLock` and its handle: the guard's wait loop and `UnlockKey` around an arbitrary body, with no data of its own.
- The reader's own record and its monitor, and `IsUpgraded` with `GetReader` and `GetWriter`: nothing in the live reader-writer code reads them.
- State history, hashes, expirations and counters' registries in `NCacheWriteOnlyTransaction`: further clients of the guard, covered by `LockGuard` as arbitrary actions.
- Job deserialisation, monitoring views, rate limiting, dashboards, hubs, backplanes, session and output-cache stores, EF Core and NHibernate adapters: projections and thin wrappers.
- JobLifecycle.NothingDropped: covers runs without deaths; what a death loses is the subject of `DroppedExactlyWhenLetGo` and `DeathLeavesTheJobListed`.
- StaleEntries.TakenOnceRequeuedOnce: at most once here; `Reclaiming.TakenExactlyOnce` says exactly once from the visit that gets the lock, and `TakenExactlyWhenWatched` when such a visit is possible. That a watcher's timer fires at all is left to the schedule.
- QueueCode.NCacheJobQueue.Enqueue: the code runs without interruption here; the interleaved form is `JobQueue`, step by step, on values.
- LockGuard.Serialisable: the interleaved guard is a machine on values; the code in `LockGuardCode` runs its action without interruption, which the lock guarantees.
- SerializerCode.InternalClassSerializer.SerializeFieldsInternal: recursion is bounded by a stack depth, whose exhaustion is the source's stack overflow; `EndsExactlyWithoutBareCycles` says when some depth is enough.
- TagCode.TaggedCache.AddUsingTag: the answers of the lock are a parameter, and the loop ends with them; the endless loop is `TagIndex.AddWaitsForAnotherAdd`.
- Backlog.Storage.FetchNextJob: returns when the signals run out, where the source blocks; topic delivery of signals is the event `Notify`.
