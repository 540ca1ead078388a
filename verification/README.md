# Verified model of the systemd containerd runtime

This project models the stateful core of the runtime and proves what the rest of it relies on. Three
groups of components are covered.

**The task log.** A ring queue of byte slices (`queue.dfy`) that grows and shrinks in place; the
buffered log on top of it (`memcache_spec.dfy`, `memcache_proofs.dfy`, `memcache.dfy`), which writes
through, buffers what its fifo does not take, drops the oldest of 1024 chunks and flushes; and the
self-restoring fifo below (`fifo.dfy`), a holder under one lock with goroutines that open, reset and
close fifos for it. `loglocks.dfy` puts log and holder together and asks who waits for whom: their two
mutexes and the signal channel between them.

**Locks and status between processes.** Two advisory file locks and one status record per bundle,
used by shims and containerd (`status.dfy`). The lock table follows F_SETLK, F_GETLK and F_UNLCK of
`fcntl()` in POSIX.1-2017, System Interfaces. `lockprotocol.dfy` interleaves any number of processes
at every single lock, read, write and unlock, with every foreign call allowed to fail and every process
allowed to die where it stands, in which case the system drops its locks. There every manager serves
one operation at a time; `sharedmanager.dfy` lets several goroutines of a process share one.

**The container in the shim.** The state machines of init and exec processes (`process.dfy`), the
exec-id table (`container.dfy`), the container holder (`holder.dfy`) and the clients that wait with its
read lock (`waitlocks.dfy`), the event sender whose lock
orders starts and exits (`events.dfy`), the retrying publisher (`publisher.dfy`), and the one-shot
subscriber lists with the reconnect loop (`broadcast.dfy`).

## How the proofs are organised

Each component has a module of functions, `Step` and `Run`, that says what one critical section or one
foreign call does, and lemmas over all runs: every sequence of actions, in every order. An action that
cannot happen leaves the state as it is. Beside most of these modules stands a class with the source's own
fields, whose methods change them in place and are proved to take the steps the functions describe; a
method that needs a lock somebody else has says so and changes nothing. `LockProtocol`, `SharedManager`,
`LogLocks` and `WaitLocks` have no class of their own: they interleave what the classes of other modules
do in one go. `ExitCheck` and `ConnectLoop` are single loops, proved against what they promise. Foreign
calls are inputs: an arbitrary success, failure or byte count.

The lock protocol is proved by rely and guarantee. `Local` is what one process may rely on, `Guarantee`
what each of its steps promises to all others. The running flag of a manager does not imply ownership,
because `lockRunningFile` sets it even when the attempt fails (`common/status.go:257-262`);
`MayBeStale` lists the places where the flag may outlive the attempt, and the proof shows that in each of
them the process is about to drop the flag or to die. Nor does ownership imply the flag: giving a lock back
drops the flag even when the call fails and the lock stays.

The ring queue multiplies capacities by float32 factors. Here they are integer quotients: 1.5 and 0.5
are exact, and `FloatShrinkIsIntegerShrink` proves that the factor 0.7, in both its roundings, gives
`cap * 7 / 10` for every capacity up to a hundred thousand. The ring of a log, limited to 1024 chunks, has
at most 2047 slots.

## Where the code does not do what one would expect

The code is modelled as it is. For each of these a lemma or a contract says exactly when the
expected property holds, and for most of them another shows that it can fail.

- A flush that meets a refused or short write puts the rest of the chunk at the tail, so later bytes
  overtake it (`TurnKeepsStreamExactly`, `RefusedFlushSwaps`). On a full buffer that push evicts the chunk
  being written, and the pop that follows throws away the next one unsent (`FullFlushDropsSecond`).
- A direct write that fails after the fifo took every byte reports 0 bytes and no error
  (`WriteCountsExactly`, `WholeWriteReportsZero`).
- The goroutine that reopens a fifo sends its signal with the holder's lock taken
  (`tasklog/fifo.go:133-147`), and the goroutine that should receive it flushes through that lock. If a
  write fails between the signal and the flush, both can wait for each other for good (`DeadlocksExactly`,
  `DeadlockIsReachable`); while no write fails they cannot (`HealthyNeverDeadlocks`).
- A write that meets a closed holder closes the log under the log's own lock and never returns
  (`RefusalIsFatalExactly`, `RefusalIsReachable`). `LogSpec` specifies what that call is there for: the log
  is closed, and its fifo too if nothing is buffered.
- Closing a holder hands out its fifo but forgets its handle (`HandlesAllClosedExactly`,
  `HandleLeaks`).
- `Bundle.Disable` has no exit to report if the record is already disabled without one. `Task.Kill` reads
  that exit (`task/task.go:129-138`). Two calls in a row with no shim get there, because the first makes up
  an exit but does not write it (`DisableReportsExitExactly`, `SecondDisableFindsNoExit`).
- Deleting an init process that was never stopped leaves its wait channel open for good
  (`DeleteReleasesWaitersExactly`, `DeletedUnstartedHoldsWaiters`).
- Starting an exec process again after the runtime rejected it closes its wait channel twice, which
  panics (`PanicsExactly`, `RetriedStartPanics`).
- The pause that announces the exit of init does not wait for the sender's lock and can be sent before the
  start (`PauseOvertakesExactly`, `PauseOvertakesStart`).
- After a client deleted the container, the exit status that `State` and `Delete` then read was never
  stored (`ExitStatusIsKnownExactly`, `ClientDeleteForgetsExit`).
- `ConnMng.Disabled` without an exit sends waiting subscribers neither a service nor an exit
  (`NothingIsSentExactly`, `NothingReachesSubscriber`).
- An exec that is dead but was never deleted, or that never ran, counts as living when the shim decides
  whether to clean up (`LastExitCleansExactly`, `StoppedExecPreventsCleanup`, `UnstartedExecPreventsCleanup`).
- `Service.Wait` keeps the read lock of the container holder until init has exited. A client that asks for
  the write lock meanwhile, to delete or to shut down, keeps the reaper from reporting that exit, so that
  none of the three gets on (`WaitHangsExactly`, `WaitCanHang`). The background cleanup never does that
  (`OnlyClientsHang`).
- Goroutines of containerd that share the manager of a bundle, such as a kill and the connect loop, share
  its lock flags. One of them gives the locks back under the other. The other's write can then undo what
  another process wrote (`UpdatesSurviveExactly`, `UpdateIsLost`), it can still be cleaning up when a shim
  starts serving (`ExclusionSurvivesExactly`), and a kill that found no shim running can meet one afterwards
  (`KillSurvivesExactly`). What the task side reports as stopped is stopped all the same
  (`SharedManager.StoppedReportIsFinal`).
- A status lock that could not be given back stays with its process. If that is a shim on its way out,
  nobody gets the lock before the process is gone (`LockIsLostExactly`, `LockCanBeLost`).
- `Service.Pids` takes the read lock of the container holder twice. A writer that asks in between, even the
  background cleanup, stops both for good (`PidsHangsExactly`, `CleanupCanHangPids`).
- The goroutine that signals a late subscriber of the fifo holder panics if the holder is closed before it
  has sent (`CrashesExactly`, `CrashIsReachable`).

## Model

| member | source | states |
|---|---|---|
| QueueGeometry.ApplyKeepsDense | utils/collections/queue/bytes.go:27-114 | every push and pop keeps the ring at capacity 5 or more than half full |
| QueueGeometry.CapacityIsTight | utils/collections/queue/bytes.go:74-96 | over every run, capacity is at most max(5, 2*size-1) |
| QueueGeometry.ShrinkFiresAtHalf | utils/collections/queue/bytes.go:51-64 | shrink reallocates exactly when the size reaches half the capacity, and the pop to empty that skips it happens at capacity 5 only |
| QueueGeometry.CostIsAmortized | utils/collections/queue/bytes.go:74-114 | copying is paid for by a credit: twice the cost of any run plus the final credit is at most the initial credit plus 16 per operation |
| QueueGeometry.CopyingIsLinear | utils/collections/queue/bytes.go:74-114 | n operations on a new queue copy at most 8n slots: growing and shrinking never thrash |
| QueueGeometry.GrowsByHalf | utils/collections/queue/bytes.go:74-84 | a full ring grows by half its capacity and by five slots at least, any other keeps it |
| QueueGeometry.ShrinksByThreeTenths | utils/collections/queue/bytes.go:86-96 | a ring that is half empty after a pop shrinks by three tenths, to five slots at least, any other keeps its capacity |
| QueueGeometry.CopiesWhatStays | utils/collections/queue/bytes.go:98-114 | an operation copies every element that stays if it changes the capacity, and none otherwise |
| ShrinkFactor.FloatShrinkIsIntegerShrink | utils/collections/queue/bytes.go:86-96 | truncating the twice-rounded float32 product cap*0.7 gives cap*7/10 for every capacity up to a hundred thousand |
| ShrinkFactor.EveryCapacityRounds | utils/collections/queue/bytes.go:86-96 | each of these capacities has such a twice-rounded product |
| RingQueue.WindowPush | utils/collections/queue/bytes.go:37-42 | writing the slot after the tail appends to the sequence the ring stands for, wrapped or not |
| RingQueue.WindowPop | utils/collections/queue/bytes.go:60-61 | stepping over the head removes the first element of that sequence |
| RingQueue.BytesQueue.constructor | utils/collections/queue/bytes.go:20-25 | a new queue is empty with capacity 5 |
| RingQueue.BytesQueue.PushTail | utils/collections/queue/bytes.go:27-42 | appends to the sequence and ignores nil; capacity and copied slots move as the geometry says |
| RingQueue.BytesQueue.StoreFirst | utils/collections/queue/bytes.go:31-35 | an empty queue takes its first element where head and tail are |
| RingQueue.BytesQueue.Append | utils/collections/queue/bytes.go:37-42 | appends to a queue that is not empty, growing it when it is full |
| RingQueue.BytesQueue.PeekHead | utils/collections/queue/bytes.go:44-49 | the first element, nil if there is none |
| RingQueue.BytesQueue.SetHead | utils/collections/queue/bytes.go:44-49 | an edit through the head pointer changes the first element and nothing else |
| RingQueue.BytesQueue.PopHead | utils/collections/queue/bytes.go:51-64 | returns and removes the first element; capacity and copied slots move as the geometry says |
| RingQueue.BytesQueue.Store | utils/collections/queue/bytes.go:38-41 | the slot after the tail is free, so nothing is overwritten |
| RingQueue.BytesQueue.Advance | utils/collections/queue/bytes.go:60-61 | drops exactly the first element and keeps the array |
| RingQueue.BytesQueue.EnsureCapacity | utils/collections/queue/bytes.go:74-79 | grows exactly if the new size does not fit, and keeps the sequence |
| RingQueue.BytesQueue.Expand | utils/collections/queue/bytes.go:81-84 | the new capacity always has room for one more; the sequence stays |
| RingQueue.BytesQueue.Shrink | utils/collections/queue/bytes.go:86-96 | the smaller array still holds every element, and the sequence stays |
| RingQueue.BytesQueue.UncheckedRealloc | utils/collections/queue/bytes.go:98-114 | moving to any array that is large enough leaves the sequence unchanged |
| RingQueue.BytesQueue.CopyWindow | utils/collections/queue/bytes.go:98-113 | the one-piece and the two-piece copy both lay the window out in order |
| LogProofs.WriteKeepsInv | tasklog/memcache.go:32-47 | a write, direct or buffered, neither loses nor invents a byte |
| LogProofs.TurnKeepsInv | tasklog/memcache.go:122-136 | nor does a turn of the flush loop, whatever the fifo answers |
| LogProofs.AcceptedIsConserved | tasklog/memcache.go:32-145 | over every run, accepted bytes as a multiset are delivered plus buffered plus dropped; at most 1024 chunks are buffered; a log that closed its fifo is closed and has nothing to flush |
| LogProofs.FlushDropsAtMostOne | tasklog/memcache.go:114-145 | a flush drops at most one chunk, and only if it began with 1024 |
| LogProofs.FullFlushDropsSecond | tasklog/memcache.go:69-73 | the chunk it drops is the second one, unsent, at the first short or refused write |
| LogProofs.PushKeepsOrder | tasklog/memcache.go:140-145 | evicting the oldest chunk to append a new one leaves a subsequence of what was accepted |
| LogProofs.OrderIsKept | tasklog/memcache.go:32-145 | delivered bytes followed by the buffer are a subsequence of the accepted ones, shorter by the dropped bytes only, and equal to them if 1024 chunks were never reached; for direct writes of any outcome and flushes that requeue nothing behind another chunk |
| LogProofs.TurnKeepsStreamExactly | tasklog/memcache.go:122-136 | a turn of the flush preserves order for all contents if and only if the fifo took the chunk whole, refused for good, or there is no other chunk |
| LogProofs.RefusedFlushSwaps | tasklog/memcache.go:69-73 | the input on which order is lost: two writes, one refusal in the flush, delivered swapped |
| LogProofs.WriteCountsExactly | tasklog/memcache.go:81-91 | a successful write reports the length of its argument except when a direct write failed after its last byte, which reports 0 |
| LogProofs.WholeWriteReportsZero | tasklog/memcache.go:81-87 | the write of one byte that is delivered and reported as 0 bytes |
| LogProofs.ClosedIsForever | tasklog/memcache.go:36-38 | a closed log stays closed and accepts nothing more |
| LogProofs.WriteAnswersTruly | tasklog/memcache.go:32-47 | no error means that exactly the argument was accepted; an error means 0 bytes and nothing accepted, buffered or delivered; and the error comes if and only if the log is closed, or it has nothing buffered and the fifo refuses |
| LogProofs.DirectWriteSplits | tasklog/memcache.go:62-92 | a direct write hands the fifo all, none or the first bytes, as it answers, and buffers exactly the rest |
| LogProofs.BufferedWriteWaits | tasklog/memcache.go:40-46 | a write behind other chunks goes to the tail whatever the fifo would answer, dropping the oldest chunk at 1024 |
| LogProofs.GoodFlushDrains | tasklog/memcache.go:114-138 | a flush to a fifo that takes everything delivers the whole buffer in order and leaves it empty |
| LogProofs.RefusedFlushStops | tasklog/memcache.go:122-136 | a refused flush closes the log and keeps every byte in the buffer |
| LogProofs.ShortFlushGoesOn | tasklog/memcache.go:122-136 | a short write in a flush moves the rest of the chunk to the tail and goes on with the next |
| LogProofs.ClosesWhenDrained | tasklog/memcache.go:49-60 | Close closes the log, and closes the fifo at once if there is nothing to flush; the handler closes the fifo of a closed log once there is nothing left |
| MemCachedLog.MemCachedLog.constructor | tasklog/memcache.go:22-30 | a new log is open and empty |
| MemCachedLog.MemCachedLog.Write | tasklog/memcache.go:32-47 | the error comes exactly if the log was closed, or had nothing buffered and the fifo refused; without it exactly the argument is accepted, with it the count is 0 and nothing is accepted, delivered or buffered; new state, byte count and error are those of the specification |
| MemCachedLog.MemCachedLog.Close | tasklog/memcache.go:49-60 | closes the log, and its fifo exactly if nothing is buffered |
| MemCachedLog.MemCachedLog.WriteFifoLocked | tasklog/memcache.go:62-92 | the four answers of the fifo, and what each leaves in buffer and log |
| MemCachedLog.MemCachedLog.CloseFifoIfDrained | tasklog/memcache.go:97-107 | the fifo is closed by the signal handler exactly if the log is closed and drained |
| MemCachedLog.MemCachedLog.FlushBufferToFifo | tasklog/memcache.go:114-138 | the loop over ring and fifo computes the specified flush, for every list of answers |
| MemCachedLog.MemCachedLog.FlushOnce | tasklog/memcache.go:122-136 | one turn, including the pop that removes another chunk than the one written |
| MemCachedLog.MemCachedLog.EndTurn | tasklog/memcache.go:125-136 | pops after a success, and after a failure only a chunk with no bytes left; otherwise the chunk stays |
| MemCachedLog.MemCachedLog.PushBuffer | tasklog/memcache.go:140-145 | appends, evicting the oldest of 1024 chunks |
| FifoProtocol.StepKeepsHolder | tasklog/fifo.go:79-183 | every step keeps the count of openers and installed fifos |
| FifoProtocol.StepKeepsTrace | tasklog/fifo.go:79-183 | every step keeps writes ahead of the hand-out of their fifo |
| FifoProtocol.OneFifoOrOneOpener | tasklog/fifo.go:35-47 | in every interleaving, until the close exactly one fifo is installed or on its way; afterwards none is installed and at most one is on its way |
| FifoProtocol.ClosedIsForever | tasklog/fifo.go:157-183 | after the close no fifo is ever installed again |
| FifoProtocol.FifosCloseOnceAfterWrites | tasklog/fifo.go:79-123 | every opened fifo is closed at most once and never written after its closing was handed out |
| FifoProtocol.QuietHolderClosedEveryFifo | tasklog/fifo.go:125-183 | once closed with no goroutine left, every opened fifo was closed exactly once |
| FifoProtocol.HandlesAllClosedExactly | tasklog/fifo.go:100-183 | whatever step closes the holder, every handle ends up closed if and only if no fifo was installed then, which is always so when a goroutine gives up |
| FifoProtocol.HandleLeaks | tasklog/fifo.go:157-183 | a run that ends with no goroutine and an open handle |
| FifoProtocol.ClosedHolderWindsDown | tasklog/fifo.go:106-122 | the goroutines of a closed holder run out of steps |
| FifoProtocol.FailedWriteResets | tasklog/fifo.go:91-123 | in every reachable state a failed write takes fifo and handle away and starts the one goroutine that resets them |
| FifoProtocol.OtherWritesChangeNothing | tasklog/fifo.go:79-98 | a write that succeeds changes neither fifo nor handle nor goroutines, and one that finds no fifo does nothing |
| FifoProtocol.FailedFifoIsLeftAlone | tasklog/fifo.go:91-123 | over every run, nothing is written to a fifo after a write to it failed |
| FifoProtocol.ResetReopens | tasklog/fifo.go:100-147 | five successful moves of the goroutine that a failed write started close the old fifo and handle once and put a fresh fifo in place |
| FifoProtocol.FailedOpenCloses | tasklog/fifo.go:125-148 | a goroutine that cannot open its fifo closes its handle and then the holder |
| FifoProtocol.FailedRemakeCloses | tasklog/fifo.go:111-118 | so does one that cannot make a handle |
| FifoProtocol.CloseHandsOut | tasklog/fifo.go:157-183 | the first close takes the fifo away and starts the goroutine that closes it; later ones do nothing |
| FifoHolder.FifoHolder.constructor | tasklog/fifo.go:35-47 | one goroutine opens by the first handle |
| FifoHolder.FifoHolder.Signal | tasklog/fifo.go:59-73 | registers the channel, and signals it separately exactly if a fifo is installed |
| FifoHolder.FifoHolder.Write | tasklog/fifo.go:79-98 | a failed write takes fifo and handle away and starts one goroutine that resets exactly these; any other write leaves them alone; what the buffered log is answered; no channel is touched |
| FifoHolder.FifoHolder.UnlockedReset | tasklog/fifo.go:100-123 | hands fifo and handle to one goroutine |
| FifoHolder.FifoHolder.SyncOpenFifo | tasklog/fifo.go:133-147 | installs the fifo and sends on every registered channel once, or closes fifo and handle if the holder is closed |
| FifoHolder.FifoHolder.Close | tasklog/fifo.go:150-155 | takes the closing step of the protocol |
| FifoHolder.FifoHolder.UnlockedClose | tasklog/fifo.go:157-183 | hands out the installed fifo and closes every registered channel, at the first close only |
| FifoHolder.FifoHolder.TakeFifo | tasklog/fifo.go:157-171 | closes the holder and hands its fifo to the goroutine that closes it |
| FifoHolder.FifoHolder.Install | tasklog/fifo.go:133-147 | installs fifo and handle together, or closes both if the holder is closed |
| LogLocks.HandlerKeepsInv | tasklog/memcache.go:94-138 | each stop of the signal handler keeps the locks exclusive and leaves no buffered chunk without a signal to come |
| LogLocks.RunKeepsInv | tasklog/memcache.go:32-138 | so does every run of clients, handler and opener |
| LogLocks.NoWakeupIsLost | tasklog/fifo.go:100-147 | over every run, a log that buffers while its holder is open is being flushed, or the goroutine that reopens the fifo and then signals is on its way |
| LogLocks.DeadlocksExactly | tasklog/fifo.go:133-147 | the goroutine that signals under the holder's lock is held up in every continuation, and no chunk ever leaves, if and only if the handler has to pass that lock, or wait for someone who does, before it listens again |
| LogLocks.DeadlockIsReachable | tasklog/memcache.go:122-137 | a run of five steps that ends there |
| LogLocks.HealthyNeverDeadlocks | tasklog/fifo.go:91-95 | it takes a failing write: while writes to open fifos succeed, the handler listens whenever somebody sends |
| LogLocks.RefusalIsFatalExactly | tasklog/memcache.go:75-79 | a direct write never returns if and only if it meets a closed holder |
| LogLocks.RefusalIsReachable | tasklog/fifo.go:127-131 | a run in which it does: the fifo cannot be opened, and a write comes before the handler has closed the log |
| LogLocks.CrashesExactly | tasklog/fifo.go:59-73 | the panic of the late signal can still come, or has come, if and only if the signal was not sent and the holder is closed or not deadlocked with the log |
| LogLocks.CrashIsReachable | tasklog/memcache.go:49-60 | a log closed at once on a fifo that was open at once |
| LogLocks.ClientCountsChunks | tasklog/memcache.go:62-92 | after a direct write as many chunks are counted as LogSpec has in the buffer |
| LogLocks.WriteCountsChunks | tasklog/memcache.go:140-145 | so are they after a buffered one |
| LogLocks.FlushCountsChunks | tasklog/memcache.go:122-136 | and after a turn of the flush |
| LogLocks.FailureReopens | tasklog/fifo.go:91-123 | the fifo goes and an opener starts if and only if a write to an installed fifo fails |
| LogLocks.HealthyFlushDrains | tasklog/memcache.go:114-138 | a flush to a fifo that takes everything empties the buffer and goes back to listen, or on to close |
| LogLocks.OpenerSignals | tasklog/fifo.go:125-148 | an opener that succeeds installs and wakes the handler; one that fails closes holder and channel |
| LogLocks.SignalsWake | tasklog/memcache.go:94-96 | either signal gets a handler that listens to the flush as soon as the log is free |
| LogLocks.HandlerClosesLog | tasklog/memcache.go:108-112 | a handler whose channel was closed is gone within three steps, with the log closed and the buffer as it was |
| LogLocks.HandlerClosesHolder | tasklog/memcache.go:97-112 | one that finds the closed log drained first closes holder and channel |
| LogLocks.ClientCloses | tasklog/memcache.go:49-60 | a client that closes the log closes the holder too exactly if the buffer is empty |
| FileLocks.LocksExclude | utils/flock.go:15-78 | a lock is refused exactly to those who do not own it while somebody does, two processes can take it only if it is free, and only its owner frees it |
| ShimStatus.DisableReportsExitExactly | bundle/bundle.go:100-112 | with no shim running, Disable has an exit to report if and only if the record was not already disabled without one |
| StatusManager.StatusManager.LockStatusFile | common/status.go:236-248 | has the status lock afterwards exactly if it had it or could take it; otherwise nothing changes |
| StatusManager.StatusManager.LockRunningFile | common/status.go:250-263 | a refused attempt sets the flag like one that succeeds; a call that fails sets nothing |
| StatusManager.StatusManager.UnlockStatusFile | common/status.go:203-213 | the flag goes in any case, its own lock unless the call fails, and no other lock |
| StatusManager.StatusManager.UnlockRunningFile | common/status.go:215-225 | the flag goes in any case, its own lock unless the call fails, and no other lock |
| StatusManager.StatusManager.ReleaseLocks | common/status.go:227-234 | both flags go; each lock stays exactly if its call fails, and a failure of either is reported |
| StatusManager.StatusManager.IsShimRunning | common/status.go:192-201 | own flag, or somebody else has the running lock; yes if the question fails |
| StatusManager.StatusManager.LockForStartShim | common/status.go:66-94 | success means both locks on a bundle that is not disabled; which call or lock leads to which error, and what of locks and flags is left after each, also if giving the lock back fails |
| StatusManager.StatusManager.LockForCleanup | common/status.go:112-137 | locked means both locks; otherwise no status lock; a refused attempt is no error but leaves the running flag |
| StatusManager.StatusManager.LockForTaskManager | common/status.go:139-158 | the record and whether a shim runs, under the status lock; no status lock after an error |
| StatusManager.StatusManager.LockForUpdateStatus | common/status.go:160-175 | the record, under the status lock; no status lock after an error |
| StatusManager.StatusManager.UpdateStatus | common/status.go:96-110 | the record is replaced under the status lock; a write that fails gives the lock back |
| StatusManager.Bundle.Cleanup | bundle/bundle.go:45-69 | cleans exactly if nobody else has either lock and the calls succeed, announces a pause exactly for a created bundle that is not disabled, and ends without flags, and without locks unless giving them back fails |
| StatusManager.Bundle.Disable | bundle/bundle.go:90-113 | writes the flag and nothing else; reports the record, with a made-up exit on the first call only; which calls have to succeed |
| StatusManager.Bundle.Exited | bundle/bundle.go:115-127 | when it can read the exit, and that it leaves everything as it was |
| StatusManager.Bundle.ShimStatus | bundle/bundle.go:203-224 | a disabled bundle never reads without an exit, and the record is corrected to match unless the write fails |
| StatusManager.ShimService.Init | shim/shim.go:232-281 | a shim comes up exactly if nobody else has either lock, the bundle is not disabled and every step succeeds, giving the status lock back included; then it has the running lock alone; otherwise what it could not give back; and after which step the record names it |
| StatusManager.ShimService.WriteExitStatus | shim/shim.go:566-580 | sets the exit and keeps the rest of the record |
| LockProtocol.ShimActIsLocal | shim/shim.go:232-281 | every step of a shim keeps what it relies on |
| LockProtocol.BundleActIsLocal | bundle/bundle.go:45-127 | so does every step of containerd |
| LockProtocol.ActGuarantees | common/status.go:66-263 | every step moves locks only between none and itself, writes the record only under the status lock and only forward |
| LockProtocol.GuaranteeIsEnough | common/status.go:66-263 | what a step guarantees preserves what every other process relies on |
| LockProtocol.NewShimOwner | common/status.go:79-92 | a shim gets the running lock only under the status lock of a record that is not disabled |
| LockProtocol.RunKeepsInv | common/status.go:66-263 | the invariant holds over every run of any number of processes, with crashes |
| LockProtocol.MutualExclusion | common/status.go:66-137 | with one operation at a time on each manager, at most one process serves the container or cleans its bundle, and it owns the running lock |
| LockProtocol.RecordMovesForward | common/status.go:96-175 | between any two points of a run, Created and Disabled never go back to false, nor Exit to nil |
| LockProtocol.UpdatesAreAtomic | bundle/bundle.go:90-113 | no update is lost: a step of a process that is about to write changes the record as if it had been read that instant, unless the write fails, and no other step changes it |
| LockProtocol.WritesLand | shim/shim.go:566-580 | in every reachable state a write that does not fail leaves the record as it is then with exactly the exit, the pid and Created, or Disabled set |
| LockProtocol.AttemptsLand | common/status.go:250-263 | in every reachable state an attempt at the running lock succeeds, and the process then serves or cleans, if and only if nobody else has it |
| LockProtocol.DisabledIsForever | common/status.go:79-92 | disabled with no shim owning the running lock holds in every continuation |
| LockProtocol.StoppedReportIsFinal | task/connection.go:205-208 | when the task side has read disabled and not running, no shim is ever in charge again |
| LockProtocol.KillReportIsFinal | task/task.go:123-140 | with one operation at a time on each manager, no shim is in charge from the moment a kill has disabled a bundle that no shim runs |
| LockProtocol.HolderMovesOn | common/status.go:203-213 | in every continuation in which a process in its critical section lives and takes five steps, it is at some point without the status lock, whatever others do, unless the very call that gives it back fails |
| LockProtocol.LockIsLostExactly | common/status.go:211-212 | no continuation gets the status lock away from its living owner if and only if the owner is a shim on its way out that failed to give it back |
| LockProtocol.LockCanBeLost | common/status.go:71-81 | a run in which one does |
| LockProtocol.TaskAlone | bundle/bundle.go:90-224 | from every reachable state with the process at rest and the lock free: an operation of the task side that nobody interrupts is over within six steps whatever fails, with the record unchanged or as its sequential method leaves it; updated, and the lock free, if nothing fails |
| LockProtocol.ExitAlone | shim/shim.go:566-580 | from every reachable state with the shim serving and the status lock free, recording an exit alone takes four steps and changes the exit in the record and nothing else, as WriteExitStatus does |
| LockProtocol.BootAlone | shim/shim.go:232-281 | a shim that boots alone serves within five steps, with the running lock and its pid in the record, if and only if the bundle is not disabled and nobody else has that lock, as Init does; otherwise the files are as they were |
| LockProtocol.CleanupAlone | bundle/bundle.go:45-69 | a cleanup alone is over within seven steps, with both locks free of it and the record as it was |
| LockProtocol.FailureIsFinal | shim/shim.go:232-281 | in every continuation of every reachable state, a shim of which a call failed before it served, or whose container failed, never serves again; the failure writes nothing |
| LockProtocol.DownAlone | common/status.go:227-234 | such a shim, alone, is done within two steps, without the status lock it knew of and without the running lock if that was its own |
| LockProtocol.FailureGoesBack | shim/shim.go:566-580 | a failure while an exit is recorded or a bundle cleaned leads back to serving or to rest, with the files as they were and the status lock given back |
| LockProtocol.SecondDisableFindsNoExit | bundle/bundle.go:100-112 | a run of the code in which Disable has no exit to report |
| SharedManager.StepIsSeen | common/status.go:236-248 | with one goroutine, a shared manager takes exactly the steps of the lock protocol |
| SharedManager.UpdateIsLost | bundle/bundle.go:90-127 | a run of a shim and two goroutines of containerd after which disabling the bundle undoes what the shim wrote |
| SharedManager.UpdatesSurviveExactly | common/status.go:203-248 | Created, Disabled and Exit never go back in any run, if and only if no two goroutines share a manager |
| SharedManager.ExclusionSurvivesExactly | bundle/bundle.go:45-69 | no two processes serve and clean at a time in any run, if and only if no two goroutines share a manager |
| SharedManager.KillSurvivesExactly | bundle/bundle.go:90-113 | no shim is in charge after a kill that found none in any run, if and only if no two goroutines share a manager |
| SharedManager.RunKeepsInv | common/status.go:203-263 | what holds however many goroutines share a manager: flags of the status lock are honest, a disabled record stays disabled and shims are undisturbed |
| SharedManager.DisabledIsForever | common/status.go:79-92 | disabled with no shim owning the running lock holds in every continuation, however many share |
| SharedManager.StoppedReportIsFinal | task/connection.go:205-208 | so does what the task side reports as stopped |
| InitSpec.StepKeepsInv | process/init_state.go:44-414 | no method requests an illegal transition; exit and status change only in the step to stopped |
| InitSpec.Lifecycle | process/init_state.go:44-414 | over every run the wait channel closes at most once and is closed when stopped, phases never go back, and a recorded exit never changes |
| InitSpec.DeleteReleasesWaitersExactly | process/init.go:276-289 | waiters on a deleted process are released if and only if it was stopped first |
| InitSpec.DeletedUnstartedHoldsWaiters | process/init_state.go:85-90 | waiters on a process deleted before it ran are never released |
| InitSpec.DeletedIsFinal | process/deleted_state.go:34-76 | nothing changes a deleted process |
| InitSpec.ExitIsRecorded | process/init.go:269-281 | over every run, the status and the time of the first exit reported to a process that has not stopped are what every continuation reads, and the wait channel was closed once |
| InitSpec.LateExitIsIgnored | process/init_state.go:356-414 | an exit reported later changes nothing |
| InitSpec.CallsMove | process/init_state.go:44-414 | which call leads to which state from where, and that one that fails changes nothing |
| InitSpec.CallsStay | process/init_state.go:44-414 | the calls that leave the process as it is, and from which states they succeed |
| InitSpec.CallsRefuse | process/init_state.go:44-414 | apart from what the runtime answers, not found is said exactly by a deleted process to a kill or a delete, and a refusal exactly by the states that do not take the call |
| InitProcess.InitProcess.constructor | process/init.go:99-110 | created, or waiting to be restored from a checkpoint |
| InitProcess.InitProcess.Transition | process/init_state.go:48-60 | the transition table of the current state |
| InitProcess.InitProcess.Start | process/init_state.go:78-191 | created and checkpointed processes run if the runtime starts them; all others refuse |
| InitProcess.InitProcess.Delete | process/init.go:284-289 | created and stopped processes are deleted if the runtime deletes them; all others refuse |
| InitProcess.InitProcess.Pause | process/init_state.go:236-249 | only a running process pauses |
| InitProcess.InitProcess.Resume | process/init_state.go:311-317 | only a paused process resumes |
| InitProcess.InitProcess.SetExited | process/init.go:269-281 | stores status and time of the first exit and closes the wait channel, never a second time, and its transition cannot fail |
| InitProcess.InitProcess.Status | process/init.go:244-253 | the name a client sees, with deleted read as stopped |
| ExecSpec.ExecStepKeepsInv | process/exec_state.go:42-169 | no method requests an illegal transition, exits included |
| ExecSpec.ExecLifecycle | process/exec_state.go:42-169 | over every run phases never go back and an exit never changes; if no rejected start is retried, the wait channel closes at most once, and has closed when stopped |
| ExecSpec.PanicsExactly | process/exec.go:210-213 | a double close of the wait channel lies ahead if and only if the process can still be started, or runs after an earlier start was rejected |
| ExecSpec.RetriedStartPanics | process/exec.go:210-213 | two rejected starts close the wait channel twice |
| ExecSpec.ExecExitIsRecorded | process/exec.go:97-102 | over every run the reaper allows, the status and time of the first exit reported to a started exec are what every continuation reads |
| ExecSpec.ExecCallsMove | process/exec.go:176-239 | which call leads to which state; a start that succeeds gives the exec its pid, one that the runtime rejects closes the wait channel |
| ExecSpec.ExecCallsRefuse | process/exec.go:139-164 | a kill is refused exactly before there is a pid, and answered with not found exactly after the exit or the deletion; other calls are refused by the states that do not take them |
| ExecProcess.ExecProcess.Transition | process/exec_state.go:42-54 | the transition table of the current state |
| ExecProcess.ExecProcess.Start | process/exec.go:176-239 | only a created process starts; a start the runtime rejects closes the wait channel |
| ExecProcess.ExecProcess.Delete | process/exec_state.go:67-73 | created and stopped processes are deleted, running ones refuse |
| ExecProcess.ExecProcess.SetExited | process/exec.go:97-102 | stores status and time of the first exit; past created, the channel closes only once |
| ExecTable.StepKeepsReservations | runc/container.go:318-343 | each reservation has one client behind it, and no live process has its id |
| ExecTable.StepKeepsDeletions | runc/container.go:385-397 | a process that was looked up stays listed until its deleter takes it out |
| ExecTable.ReservationsAreExclusive | shim/service.go:116-138 | in every interleaving, reserved and live ids are disjoint, adding overwrites no process and cancelling removes only its own reservation |
| ExecTable.NoReservationLeaks | shim/service.go:123-131 | when no client is at work no id is reserved |
| ExecTable.DropTakesOwnProcess | runc/container.go:385-397 | a deletion removes the process it deleted, never a newer one of the same id |
| ExecTable.ReservesExactly | runc/container.go:318-334 | an id is reserved exactly if it is neither live nor reserved |
| ExecTable.ExecAlone | shim/service.go:116-138 | from every reachable state, an exec that nobody interrupts leaves a new process under a free id, or the id free if the process cannot be made, and an id in use as it is |
| ExecTable.DeleteAlone | runc/container.go:385-397 | so does a deletion leave the id free, or everything as it was if it fails |
| Container.Container.ReserveProcess | runc/container.go:318-334 | reserves an id exactly if it is neither live nor reserved |
| Container.Container.CancelReservation | runc/container.go:329-333 | removes the reservation and nothing else |
| Container.Container.ProcessAdd | runc/container.go:337-343 | turns the reservation into a live process |
| Container.Container.ProcessRemove | runc/container.go:346-350 | removes one process and no reservation |
| ExitCheck.CheckProcesses | shim/shim.go:425-461 | what is announced, who ends up stopped, and that cleanup starts exactly if the container is started and no process of another pid is in the table |
| ExitCheck.ReportedExactlyOnce | shim/shim.go:463-513 | every process with the pid that exited is announced once and no other, as an exit, or as a pause if it is init and the shim is not disabled |
| ExitCheck.AnnouncedAs | shim/shim.go:463-513 | a report is an exec's exit exactly if the pid is not that of init, an exit of init exactly if the shim is disabled, a pause exactly if it is not |
| ExitCheck.LastExitCleansExactly | shim/shim.go:445-460 | when an exit leaves no process alive, cleanup starts if and only if no process of another pid had stopped before and none never ran |
| ExitCheck.StoppedExecPreventsCleanup | shim/shim.go:445-460 | a stopped exec that nobody deleted, with which it does not start |
| ExitCheck.UnstartedExecPreventsCleanup | shim/shim.go:445-460 | an exec that was added and never ran, with which it does not start either |
| HolderSpec.StepKeepsInv | shim/ctnholder.go:45-78 | the lock, the container and the deleted flag agree after every step |
| HolderSpec.DeletedAtMostOnceAndAlone | shim/service.go:96-112 | in every interleaving of client and background deletion, deleting succeeds at most once and with nobody else inside the lock |
| HolderSpec.DeletedIsForever | shim/ctnholder.go:45-78 | after the deletion, which happened once, every lookup says deleted |
| HolderSpec.ExitStatusIsKnownExactly | shim/shim.go:529-545 | the exit status read after a deletion is there if and only if the background cleanup deleted |
| HolderSpec.ClientDeleteForgetsExit | shim/service.go:96-112 | a run in which a client deletes and the status was never stored |
| HolderSpec.LookupsAnswer | shim/ctnholder.go:38-57 | in every reachable state a lookup finds the container exactly while there is one, says deleted exactly after the deletion and not created otherwise |
| HolderSpec.CreateAlone | shim/ctnholder.go:26-36 | the first creation leaves a container exactly if the supplier made one |
| HolderSpec.LookupAlone | shim/ctnholder.go:45-57 | a lookup and its release leave everything as it was; one that has to wait or finds nothing does nothing |
| HolderSpec.DeleteAlone | shim/ctnholder.go:59-78 | from every reachable state at rest, a failed deletion changes nothing; a successful one takes the container, leaves the mark, and stores the exit status only if it is the background's |
| ContainerHolder.ContainerHolder.NewContainer | shim/ctnholder.go:26-36 | keeps what the supplier made, or has to wait for the lock; the first call takes the two steps of a creation |
| ContainerHolder.ContainerHolder.GetLockedContainer | shim/ctnholder.go:45-57 | takes the step of a shared lookup, or has to wait for a writer; says why there is no container |
| ContainerHolder.ContainerHolder.Release | shim/ctnholder.go:56 | takes the step of a reader that leaves |
| ContainerHolder.ContainerHolder.GetLockedContainerForDelete | shim/ctnholder.go:59-68 | takes the step of a lookup for deletion, or has to wait for the lock; says why there is no container |
| ContainerHolder.ContainerHolder.ReleaseDeleted | shim/ctnholder.go:70-74 | takes the step that ends a deletion |
| ContainerHolder.ContainerHolder.CancelDelete | shim/ctnholder.go:75-77 | takes the step of a deletion that failed |
| WaitLocks.RunKeepsInv | shim/ctnholder.go:45-78 | over every run readers and writers exclude each other, and the background asks for the lock only once init has exited |
| WaitLocks.WaitHangsExactly | shim/service.go:299-313 | no client returns from Wait in any continuation if and only if a writer asks for the lock before init has exited and before the reaper is in with its exit; then that exit is never reported and the writer never gets in |
| WaitLocks.WaitCanHang | shim/service.go:96 | a wait and then a deletion or a shutdown are enough |
| WaitLocks.OnlyClientsHang | shim/shim.go:456-460 | the writer that hangs is a client, never the background cleanup |
| WaitLocks.PidsHangsExactly | shim/service.go:228-235 | no client returns from Pids in any continuation, and the writer never gets in, if and only if a writer asks between its two locks |
| WaitLocks.CleanupCanHangPids | shim/service.go:394-399 | a run in which the background cleanup is that writer |
| WaitLocks.WriterAlone | shim/ctnholder.go:59-78 | a writer that nobody reads against gets in, takes the container away exactly if init has exited, and then nobody enters |
| EventSpec.SendKeepsOrder | shim/sender.go:74-91 | an event whose start was sent can be appended |
| EventSpec.StarterKeepsInv | shim/service.go:60-82 | a client start keeps the lock and the order at each of its steps |
| EventSpec.ReportKeepsInv | shim/shim.go:463-513 | so does each report of the reaper |
| EventSpec.ExitsFollowStarts | shim/sender.go:74-107 | in every interleaving of starts, exits and kills, an exec exit follows its start in the channel, and the exit of init follows the start or resumption of the task |
| EventSpec.StartsAreAnnouncedOnce | shim/service.go:60-82 | in every interleaving, however many clients start it, an exec is announced at most once, and once exactly if it was started and nobody is about to announce it; the start of the task likewise |
| EventSpec.StartAlone | shim/service.go:60-82 | a client start that nobody interrupts announces exactly a process that it started, and frees the lock |
| EventSpec.BootAlone | shim/shim.go:632-683 | the start of init announces a first start as a start and a later one as a resumption; one that fails announces nothing, and the shim does not serve |
| EventSpec.ReportAlone | shim/shim.go:463-513 | which event a report sends, and which reports wait for the lock |
| EventSpec.ReapAndKill | shim/service.go:210-225 | the reaper takes an exit only once it is done with the last; a kill disables exactly a shim that serves |
| EventSpec.PauseFollowsStartExactly | shim/shim.go:496-512 | a pause that is sent now follows the start if and only if the starting section has already sent |
| EventSpec.PauseOvertakesExactly | shim/shim.go:632-683 | over every run, some pause comes before the start in the channel if and only if the exit of init was reported before the third move of the start section, or after a start that failed |
| EventSpec.PauseOvertakesStart | shim/shim.go:508-511 | the run in which it comes first |
| EventSender.EventSender.PrepareSendL | shim/sender.go:78-84 | takes the step that begins a start section, a client's or the boot's, or has to wait for the lock |
| EventSender.EventSender.SendExecStart | shim/sender.go:101-103 | takes the step that announces an exec |
| EventSender.EventSender.SendStartOfInit | shim/shim.go:670-681 | takes the step that announces a first start as a start and any other as a resumption |
| EventSender.EventSender.Cancel | shim/sender.go:105-107 | takes the step that ends a section |
| EventSender.EventSender.SendEventExit | shim/sender.go:86-91 | takes the step of a report, or has to wait for the lock |
| EventSender.EventSender.SendEventPaused | shim/sender.go:62-64 | takes the step of a report, whoever has the lock |
| EventSender.EventSender.Start | shim/service.go:67-81 | uninterrupted, takes all steps of a client start, announces exactly a start that succeeded, or waits for the lock after the first |
| PublisherSpec.StepKeepsAccounted | shim/publisher.go:79-128 | an event moves between delivered, dropped and pending but is never lost or doubled |
| PublisherSpec.HeadIsAlone | shim/publisher.go:79-92 | the item being tried is nowhere else |
| PublisherSpec.PublishedEventsAreAccounted | shim/publisher.go:79-128 | over every run each event is exactly one of delivered, dropped and pending, tried at most six times and dropped only after the sixth |
| PublisherSpec.MovesUseUpWork | shim/publisher.go:79-101 | every move of the publisher uses up retry allowance |
| PublisherSpec.QueueDrains | shim/publisher.go:79-101 | without new events it comes to rest, and where it rests nothing is pending |
| PublisherSpec.PublishTries | shim/publisher.go:103-128 | in every reachable state an event whose first try succeeds is delivered and not pending, one whose try fails is pending and not delivered, and no other event moves |
| PublisherSpec.ProcessTries | shim/publisher.go:79-92 | so it is for the event at the head of the queue, unless it was tried six times: then it is dropped untried |
| PublisherSpec.DeliveredExactly | shim/publisher.go:79-128 | over every run, with the answers read off the actions: an event is delivered if and only if its last try succeeded, all earlier tries failed, and it is dropped only after six failures |
| RemoteEventsPublisher.RemoteEventsPublisher.Publish | shim/publisher.go:103-128 | an event that cannot be built is refused; otherwise it is delivered if the try succeeds, and if it fails the failure is reported and a goroutine is to retry it |
| RemoteEventsPublisher.RemoteEventsPublisher.Requeue | shim/publisher.go:94-101 | a sleeper puts its item back |
| RemoteEventsPublisher.RemoteEventsPublisher.ProcessQueue | shim/publisher.go:79-92 | the loop over the channel takes one specified step per answer, delivering what succeeds, retrying what fails and dropping what failed six times |
| BroadcastSpec.StepKeepsInv | task/connection.go:95-171 | every step keeps each channel in exactly one place |
| BroadcastSpec.EachSubscriberIsServedOnce | task/connection.go:95-171 | over every run, resets included, a channel waits, is about to be served, or holds one value and was closed once; nobody waits while a value is set |
| BroadcastSpec.ReceivesWhatIsSet | task/connection.go:95-171 | over every run, the one value a subscriber receives is the one set when it subscribes, or else the first one set afterwards; it waits as long as none is |
| BroadcastSpec.AllSeeTheFirstSignal | cmd/eru-systemd-shim/shim/shim.go:596-635 | every subscriber, early or late, sees the first signal and no other |
| BroadcastSpec.NothingIsSentExactly | task/connection.go:95-117 | a subscriber is sent neither service nor exit if and only if Disabled had none to give while somebody waited |
| BroadcastSpec.NothingReachesSubscriber | task/connection.go:95-117 | a run in which one is |
| Subscriptions.SetThenDeliver | task/connection.go:151-171 | a setter that nobody interrupts serves everybody who waited, in order |
| Subscriptions.PostedReaches | task/connection.go:165-170 | of the channels served each was sent the value last, and no other channel was sent anything |
| Subscriptions.ConnMng.Subscribe | task/connection.go:119-142 | served at once if a value is set, otherwise waits |
| Subscriptions.ConnMng.SetService | task/connection.go:151-171 | serves everybody who waited, once |
| Subscriptions.ConnMng.Disabled | task/connection.go:95-117 | disables, cancels a connection attempt and serves everybody who waited, once |
| Subscriptions.ConnMng.Reset | task/connection.go:144-149 | forgets the value and serves nobody |
| Subscriptions.SignalPublisher.Publish | cmd/eru-systemd-shim/shim/shim.go:596-619 | the first signal goes to everybody who waited; a later one changes nothing |
| Subscriptions.SignalPublisher.Subscribe | cmd/eru-systemd-shim/shim/shim.go:621-635 | served at once if there is a signal, otherwise waits |
| ConnectLoop.Connect | task/connection.go:173-213 | the loop ends in the first turn that is disabled, stopped, connected or the tenth failure in all, which alone deletes the bundle |

## Left out

- Real files, fifos, sockets, ttrpc, systemd, runc, cgroups, mounts, consoles and events on the wire: each is an input that succeeds, fails or falls short as it likes.
- The encoding of the status record, and the window between truncating and writing its file (`utils/file.go:82-95`): reading and writing the record are single steps.
- LockProtocol.MutualExclusion: one operation at a time on each manager; ExclusionSurvivesExactly says that it fails otherwise.
- LockProtocol.KillReportIsFinal: the same; see KillSurvivesExactly.
- LockProtocol.RunKeepsInv: one manager per process and bundle. Several managers for one bundle in one process are not modelled.
- StatusManager.StatusManager.LockStatusFile: nothing else moves while it polls, so a lock that stays taken ends like a call that fails; waiting is in LockProtocol.
- StatusManager.StatusManager.UpdateStatus: a write that fails leaves the record as it was; the source truncates the file first (`utils/file.go:82-95`).
- StatusManager.Bundle.Cleanup: models the locks and the pause event, not the deletion of the container and its directory.
- Slice aliasing: the queue keeps the caller's slice (`tasklog/memcache.go:140-145`); chunks here are immutable.
- MemCachedLog.MemCachedLog.WriteFifoLocked: models what the inner Close does (`tasklog/memcache.go:75-78`), not that it takes a mutex its caller holds; LogLocks does.
- MemCachedLog.MemCachedLog.Write: returns from a refused write, which in the source blocks there; see RefusalIsFatalExactly.
- MemCachedLog.MemCachedLog.FlushOnce: the same for a refused write of the flush.
- MemCachedLog.MemCachedLog.FlushBufferToFifo: the same, and no claim that a flush ends while the fifo keeps refusing, because it need not; it is specified for every finite prefix of answers.
- LogLocks.NoWakeupIsLost: covers the one channel that a log registers and writes that are not nil. In LogSpec a flush may happen at any time.
- The bound of 128 events on the sender's channel and of one slot on a subscriber's channel: sends do not block.
- RemoteEventsPublisher.RemoteEventsPublisher.Publish: the reconnecting retry inside one forwardRequest (`shim/publisher.go:130`) is part of one try; closing the publisher is not modelled.
- HolderSpec.RunKeepsInv: the container is created once, by Service.init.
- EventSender.EventSender.Start: leaves the holder's read lock around it to ContainerHolder.
- WaitLocks.WaitHangsExactly: waiting for init; waiting for an exec is not modelled.
- ExecProcess.ExecProcess.SetExited: the pid lock that keeps the reaper out of a start appears only as the assumption, in ExecLifecycle, that exits are reported to processes that have a pid.
- Console, stdin and I/O copying of processes, `Wait` as a blocking call, and an exec's status read through its parent.
- Closing the service's context and sender twice (`shim/shim.go:553-564`, `shim/service.go:326`).
- Timeouts, sleeps, logging, flags, plugin registration, `TaskList`, addresses and spec rewriting.
