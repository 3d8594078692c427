# ATMI's host runtime: a verified model

ATMI runs graphs of CPU kernels, GPU kernels and copies.  A task names the tasks it requires; the host runtime
decides when it may go, gives it a completion signal and a kernel-argument segment from finite pools, and puts
packets on user-mode queues.  Dependencies are enforced in one of two ways: by host callbacks, which run when a
task has finished, or by barrier packets, which let tasks be enqueued before their predecessors finish.

This project models that runtime in Dafny and proves what its locking, counting and recycling are for.

* The two schedulers are state machines.  One locked section (`lock_set` to `unlock_set`) is one atomic event, as is
  each action of a device, so that a run is any interleaving of launching threads, devices and the callback
  thread.  Theorems are about every state that any run reaches.
* What the program writes as loops over mutable state is also written that way: classes with the program's fields,
  whose methods are proved to take exactly the steps of the state machine.
* The other modules cover what the schedulers stand on: lock order, rings, barrier chunking, ordered groups, the
  CPU grid, copies, argument layout and marshalling, the pointer tracker, the compute-unit masks, and the
  dependency generator of the Needleman-Wunsch example, whose tasks are then run on the scheduler.

Files: `HostCallback*.dfy` (callback mode), `Barrier*.dfy` (barrier mode; `BarrierChunks.dfy` on the ring of
`AqlRing.dfy`), `OrderedGroup.dfy`, `LockSet.dfy`, `Grid.dfy`, `CopyTask.dfy`, `KernelArgs.dfy`,
`KernargLayout.dfy`, `PointerTracker.dfy`, `CuMask.dfy`, `Wavefront*.dfy`; `Bags.dfy` and `Bits.dfy` are sums and
bit masks.  `dafny verify dfyconfig.toml` checks them all.

## What does not hold

Six places where the code does not do what one would expect.  Each has a concrete instance, and the condition under
which the code is right.

* Barrier mode can block for ever.  A barrier that has still to see a signal at 0 does not keep that signal from
  being returned to the pool and given to a later task, for which the barrier then waits too.  Say that task a depends
  on task n if a's slot stands behind a barrier that lists the signal of n, and n has not finished.  From any reachable
  state, every run of the devices ends, and ends with all dispatched tasks finished, if and only if nobody depends on
  himself along such a chain (`BarrierCycles.FinishesIffNoCycle`; task by task,
  `BarrierCycles.TaskFinishesIffNoCycle`); whoever is led to a cycle never starts, whatever happens
  (`BarrierCycles.CycleBlocks`).  `BarrierBlocked.RecycledSignalBlocks` is a run that a single thread makes with two
  signals: it launches two tasks, waits for the first and launches a third.  A cycle comes of a dispatch only, and can be
  told before it: if and only if the task's queue has a barrier on the signal it is going to get, or a chain leads from
  what it is going to depend on to a task held up by that signal (`BarrierGuard.CycleIff`).  So a signal that no queued
  barrier lists is safe (`BarrierGuard.GuardedDispatchKeeps`), and with as many signals as tasks nothing blocks
  (`BarrierGuard.FewTasksFinish`).  Dependency safety holds throughout.
* A launch into an ordered group that is being synchronised can be taken off the deque without having been dispatched,
  and be overtaken (`OrderedGroup.LaunchDuringSync`).  Whatever happens later, the group stays in order after last_task_
  has been forgotten if and only if the task launched last has executed by then, and after the deque has been cleared if
  and only if it was empty (`OrderedGroup.ForgetIff`, `OrderedGroup.ClearIff`); in runs that keep to that tasks become
  READY in order (`OrderedGroup.ReadyInOrder`), and all runs without launches during a sync do
  (`OrderedGroup.LaunchesApart`).
* A printed compute-unit mask with an empty list before a non-empty one is read back shifted by a queue; it is read
  back right if and only if there is no such list (`CuMask.PrintsRightIffPacked`).
* ATMI's implicit arguments start where the compiler put its first hidden argument if and only if each later argument
  adjoins the one before it and is hidden or empty (`KernargLayout.BlockAtFirstHidden`).
* If some argument is hidden, the copy of an argument ends at or below the implicit block if and only if the hidden bytes
  up to it do not exceed the explicit bytes and padding behind it; if none is, if and only if it ends within the size
  declared (`KernargLayout.CopyBelowBlockIff`).  For all explicit arguments together the last of them decides
  (`KernargLayout.ExplicitCopiesBelowBlockIff`).  In the layout of `KernargLayout.CopyMayReachBlock` a copy reaches into
  the block, which is not at the first hidden argument either.
* Segments are addressed by 32-bit products.  All 16384 of them are where they should be if and only if together they
  take less than 2^32 bytes (`KernelArgs.SegmentsFitIff`), which 256 KiB of arguments do not
  (`KernelArgs.LargestSegment`).

`enqueue_barrier_async` reads the next list element before it tests that one remains (line 251 of
src/runtime/core/task.cpp); the model tests first.

## Model

| member | source | states |
|---|---|---|
| `HostCallbackLaunch.ReadyAfterPredecessors` | src/runtime/core/task.cpp:1484-1508 | in every run, a task at READY or later has each task that its launch required, an earlier one, at EXECUTED or later and all packets of it retired |
| `HostCallbackLaunch.TaskIsAsLaunched` | src/runtime/core/task.cpp:1783-1793 | over every run a task has the required tasks, the kernel, the number of packets and the arguments of the event that launched it |
| `HostCallbackLaunch.LaunchesAnytime` | src/runtime/core/task.cpp:1783-1804 | at any time a task can be launched that requires any number of earlier tasks, and tried at once |
| `HostCallbackSafety.SignalsConserved` | src/runtime/core/task.cpp:1594-1604 | each signal made at start-up is in the pool, once, or held by exactly one task in flight, never both |
| `HostCallbackSafety.SegmentsConserved` | src/runtime/core/kernel.cpp:231-233 | the same for the segment numbers of every kernel implementation, so that tasks in flight never share kernarg bytes |
| `HostCallbackSafety.FirstInFirstOut` | src/runtime/core/task.cpp:1596-1602 | the ready queue and both pools are first in, first out: each step takes from the front or adds at the end, and only the callback thread takes from the ready queue |
| `HostCallbackLaunch.FiresWhenDone` | src/runtime/core/task.cpp:1903-1909 | the registered completion handler of a task can run, when no other does, if and only if as many of its packets have retired as it was launched with, although signals are recycled; then the task is DISPATCHED, though a copy's handler may be registered before its thread has set the state |
| `HostCallbackSafety.EachStageOnce` | src/runtime/core/task.cpp:1484-1488 | however threads interleave, a task is first tried once, dispatched once and completed once |
| `HostCallbackSafety.RunAdvances` | src/runtime/core/task.cpp:486-493 | over a run, state_ never goes backwards, what the launch fixed never changes, and successors are only added at the end |
| `HostCallbackLaunch.ArgumentsSurvive` | src/runtime/core/task.cpp:1614-1646 | while a kernel task is in flight its segment holds the bytes staged by its launch, whatever other tasks did |
| `HostCallbackLaunch.SegmentIsAsDispatched` | src/runtime/core/task.cpp:990-991 | from its dispatch until its handler runs, the whole segment is what the launch staged followed by the implicit arguments that the dispatch filled in |
| `HostCallbackProgress.QueuedTasksAreStuck` | src/runtime/core/task.cpp:1668-1674 | outside a handler run ReadyTaskQueue holds exactly the launched tasks that wait for no predecessor, each once, and each faces an empty signal pool or the empty segment pool of its kernel |
| `HostCallbackProgress.NeverStuck` | src/runtime/core/task.cpp:827-863 | with at least one signal, while a task is not COMPLETED or a handler runs, some thread or device can take a step other than a new launch |
| `HostCallbackProgress.RunsAreFinite` | src/runtime/core/task.cpp:845-862 | without new tasks a run is no longer than a measure of its first state, which bounds re-tries of queued tasks too |
| `HostCallbackProgress.EveryTaskCompletes` | src/runtime/core/task.cpp:517-555 | from any reachable state, a run without new tasks is finite and can end only with every task COMPLETED, the ready queue empty and every signal back |
| `HostCallbackRuntime.Runtime.LinkPredecessors` | src/runtime/core/task.cpp:1484-1508 | the loop over predecessors_ makes exactly the links of the specification and reports whether all have executed |
| `HostCallbackRuntime.Runtime.ClaimResources` | src/runtime/core/task.cpp:1594-1652 | the new shared state after a task has taken signal and segment is that of the specification, all other fields included |
| `HostCallbackRuntime.Runtime.TryDispatchHostCallback` | src/runtime/core/task.cpp:1457-1679 | one call is exactly one try of the state machine; the task becomes READY if and only if it is not yet, it has been tried before or all required tasks have executed, and there are a free signal and, for a kernel, a free segment |
| `HostCallbackRuntime.Runtime.NotifySuccessors` | src/runtime/core/task.cpp:500-516 | the handler's loop is a run of the state machine that notifies every successor and collects those at zero |
| `HostCallbackRuntime.Runtime.DoProgress` | src/runtime/core/task.cpp:845-862 | draining the ready queue is a run of the state machine that ends with the callback thread idle |
| `HostCallbackRuntime.Runtime.HandleSignalCallback` | src/runtime/core/task.cpp:486-555 | the whole handler is a run of the state machine; afterwards the task is COMPLETED, holds nothing, and no queued task could go |
| `BarrierSafety.TaskIsAsLaunched` | src/runtime/core/task.cpp:1783-1793 | over every run a task requires the tasks, and is in the group, of the event that launched it |
| `BarrierSafety.StartsAfterPredecessors` | src/runtime/core/task.cpp:1284-1299 | in every run, once a kernel has started every task that its launch required has finished, however signals were recycled |
| `BarrierSafety.LaunchableIsSafe` | src/runtime/core/cputask.cpp:189-207 | the same at the moment when a packet processor may launch the head of a queue |
| `BarrierSafety.SignalsConserved` | src/runtime/core/task.cpp:1327-1332 | each signal is in the pool or with exactly one dispatched task, and is 0 exactly when that task has finished |
| `BarrierSafety.SinksStandForAll` | src/runtime/core/task.cpp:1380-1393 | every dispatched task of a group reaches a sink along and_predecessors_ edges, and finished sinks mean that all have finished |
| `BarrierGroups.SinksAreLeast` | src/runtime/core/task.cpp:1380-1393 | a dispatched task is in dispatched_sink_tasks_ if and only if no dispatched task of its group has it as an and-predecessor |
| `BarrierSafety.HandlerSeesFinishedTasks` | src/runtime/core/task.cpp:563-566 | when the handler runs, every task of its batch has finished, though only the sinks were waited for |
| `BarrierSafety.HandlerReturnsOwnedSignals` | src/runtime/core/task.cpp:595-612 | a signal about to be returned is its task's alone and not in the pool |
| `BarrierSafety.DispatchPopsItself` | src/runtime/core/task.cpp:1381-1386 | whichever thread dispatches whichever task it peeked at, pop_front removes that very task |
| `BarrierGroups.CreatedIsToDispatch` | src/runtime/core/task.cpp:2022-2023 | created_tasks_ has exactly the tasks launched into the group and not yet READY, in the order of their launches |
| `BarrierSafety.TryOutcome` | src/runtime/core/task.cpp:1284-1386 | a try goes through if and only if all required tasks have been dispatched and there are a signal and a segment, and then takes the signal at the head of the pool and puts its slot at the end of the queue; otherwise only the task's own state changes |
| `BarrierGroups.ThreadsAreFree` | src/runtime/core/task.cpp:1240-1256 | at any time any launch, any peek, a try of any task ever peeked at on any queue, and the barrier of a sealed batch on any queue are possible |
| `BarrierSafety.RunAdvances` | src/runtime/core/task.cpp:576-611 | over a run, state, signal, and-predecessors and completion of a task are never taken back |
| `BarrierInvariant.ReachesSink` | src/runtime/core/task.cpp:1380-1393 | from any member of a closed set there is a path of and_predecessors_ edges to a sink |
| `BarrierQueues.BarrierPacketsCover` | src/runtime/core/task.cpp:207-269 | every signal asked for is waited for by some packet, all packets are barriers, and only the last has the barrier bit and tells completion |
| `BarrierLively.BarrierPacketsOnly` | src/runtime/core/task.cpp:246-257 | and no other signal is |
| `BarrierProgress.DeviceRunWorks` | src/runtime/core/cputask.cpp:147-207 | every publication, signal seen, packet processed and kernel finished takes one unit of the work there is, so that devices left to themselves stop |
| `BarrierOrder.BarrierBitWaits` | src/runtime/core/task.cpp:234-237 | when a barrier with the barrier bit is looked at, the kernels launched from its queue by earlier events have finished |
| `BarrierCycles.DependsOnPredecessors` | src/runtime/core/task.cpp:1168-1175 | a dispatched task that has not started depends, in the sense of the next rows, on every task that its launch required and that has not finished |
| `BarrierCycles.FinishesIffNoCycle` | src/runtime/core/task.cpp:605-612 | from any reachable state, every run of devices that cannot go on has finished all dispatched tasks if and only if no task depends on itself through barriers on signals of unfinished tasks |
| `BarrierCycles.TaskFinishesIffNoCycle` | src/runtime/core/task.cpp:1160-1175 | the same task by task: it finishes in every such run if and only if no chain of dependencies leads from it to a cycle |
| `BarrierCycles.CycleBlocks` | src/runtime/core/task.cpp:605-612 | a task from which a chain leads to a cycle never starts, whatever devices, threads and handlers do |
| `BarrierGuard.CycleIff` | src/runtime/core/task.cpp:1326-1332 | where there is no cycle the next step makes one if and only if it is a dispatch that closes one: its queue has a barrier on the signal it takes, or a chain leads from what the task will depend on to a task held up by that signal |
| `BarrierGuard.GuardedDispatchKeeps` | src/runtime/core/task.cpp:1326-1332 | so a dispatch with a signal that no queued barrier lists makes none |
| `BarrierGuard.GuardedRunsFinish` | src/runtime/core/task.cpp:1326-1332 | a run without such dispatches has no cycle, and devices always finish what it dispatched |
| `BarrierGuard.FewTasksFinish` | src/runtime/core/task.cpp:1327-1329 | with no more tasks than signals every dispatch is of that kind, since the pool is first in, first out, and nothing blocks |
| `BarrierBlocked.RecycledSignalBlocks` | src/runtime/core/task.cpp:303-333 | a run from an initial state that leads to a cycle, the batch being sealed by a wait; the tasks on it never start |
| `BarrierRuntime.Scheduler.PeekHead` | src/runtime/core/task.cpp:1240-1256 | the head of created_tasks_, or nothing exactly when it is empty |
| `BarrierRuntime.Scheduler.TryDispatchBarrierPacket` | src/runtime/core/task.cpp:1230-1455 | one call is exactly one try of the state machine; the task is dispatched if and only if it is not yet READY, all required tasks have been dispatched, and there are a signal and a segment |
| `BarrierRuntime.Scheduler.SealBatch` | src/runtime/core/task.cpp:1944-1972 | takes all dispatched tasks off a group exactly when it has sinks, and lists each sink once |
| `BarrierRuntime.Scheduler.EnqueueBarrierTasks` | src/runtime/core/task.cpp:1846-1864 | puts one more row of barriers, on all sinks, on the queue |
| `BarrierRuntime.Scheduler.HandleSignalBarrierPkt` | src/runtime/core/task.cpp:558-624 | completes every task of the batch, returns their signals in order, and changes no other task |
| `AqlRing.StoresIntoEmptySlot` | src/runtime/core/task.cpp:211-219 | with any number of producers, a packet is stored only into a slot whose earlier packets have all retired |
| `AqlRing.StoredAreApart` | src/runtime/core/task.cpp:1184-1191 | packets stored and not retired never share a slot and are as their producers left them |
| `AqlRing.RetiresInOrder` | src/runtime/core/cputask.cpp:147-162 | the processor retires exactly the stored packets in index order, and can go on if and only if the next one is stored |
| `AqlRing.SameSlot` | src/runtime/core/task.cpp:215-219 | for power-of-two sizes the producer's mask is the remainder, so that producer and consumer use the same slot |
| `AqlRing.RunOnward` | src/runtime/core/task.cpp:212-213 | room once seen stays, and what is stored stays stored |
| `BarrierChunks.RowIsChunked` | src/runtime/core/task.cpp:189-269 | n signals become (n + 4) / 5 packets of five slots, the non-zero ones of which, concatenated, are the signals in order; only the last has the barrier bit and the completion signal |
| `BarrierChunks.RowAsBarriers` | src/runtime/core/task.cpp:228-266 | the packets on the ring are the barriers of the scheduler's model, with their barrier bits |
| `BarrierChunks.AqlQueue.EnqueueBarrierAsync` | src/runtime/core/task.cpp:169-271 | the loops store that row at consecutive indices and ring the doorbell once, or stop where the ring stays full behind an unstored packet |
| `BarrierChunks.AqlQueue.AwaitRoom` | src/runtime/core/task.cpp:212-213 | the wait ends with the index less than a ring's size ahead of the read index, or the processor has come to a packet that has not been stored |
| `OrderedGroup.ReadyInOrder` | src/runtime/core/task.cpp:1531-1551 | a task is READY only when every task launched earlier into its group is, in every run in which the task launched last has executed when sync forgets last_task_ and the deque is empty when sync clears it |
| `OrderedGroup.ExecutedBeforeChange` | src/runtime/core/task.cpp:1552-1572 | in such runs, where copies and kernels, or CPU and GPU, change over from one launch to the next, the earlier task is EXECUTED before the later is READY |
| `OrderedGroup.PopsItself` | src/runtime/core/task.cpp:1648-1649 | in such runs pop_front removes the task being dispatched, and the deque is not empty then |
| `OrderedGroup.FrontWaitsOnlyAtAChange` | src/runtime/core/task.cpp:1531-1576 | in such runs the front of the deque is held back by its order if and only if the launch before it was of another kind and that task has not executed |
| `OrderedGroup.KindIsAsLaunched` | src/runtime/core/task.cpp:1800-1804 | a task keeps the kind it was launched with |
| `OrderedGroup.SyncGoesOnIff` | src/runtime/core/taskgroup.cpp:76-82 | in such runs a sync forgets last_task_ if and only if the task that was launched last when it began is COMPLETED |
| `OrderedGroup.LaunchesApart` | src/runtime/core/taskgroup.cpp:71-92 | every run in which nothing is launched during a sync is of that kind |
| `OrderedGroup.ForgetIff` | src/runtime/core/taskgroup.cpp:79-82 | after such a run, once last_task_ is forgotten, every continuation without launches during sync keeps READY order, the wait at a change of kind and the right pop, if and only if the task launched last has executed |
| `OrderedGroup.ClearIff` | src/runtime/core/taskgroup.cpp:93-100 | the same once the deque is cleared, if and only if it was empty |
| `OrderedGroup.LaunchDuringSync` | src/runtime/core/taskgroup.cpp:76-91 | a run with a launch during sync leads to a task that may go with the deque empty, and a later one is READY before it |
| `OrderedGroup.Group.TryDispatchOrdered` | src/runtime/core/task.cpp:1531-1576 | a call is exactly one try, by anybody at any time; the task goes if and only if it is not READY, its requires are met, resources are there, and the task before it is READY if of the same kind, or else EXECUTED |
| `OrderedGroup.Group.LaunchTask` | src/runtime/core/task.cpp:1800-1804 | a launch adds the task and tries it; it is READY at once only if nothing was in the deque before it |
| `OrderedGroup.Group.DispatchFronts` | src/runtime/core/task.cpp:829-844 | the drain makes the next n tasks READY in order and stops at the end or at one that does not go |
| `LockSet.MutualExclusion` | src/runtime/core/task.cpp:460-471 | no mutex is held by two threads, in any reachable state |
| `LockSet.OwnsItsSet` | src/runtime/core/task.cpp:460-471 | a thread between the calls owns exactly the mutexes that it last called lock_set with, and outside it owns none |
| `LockSet.NoDeadlock` | src/runtime/core/task.cpp:460-471 | while any thread is in or between lock_set and unlock_set, one such thread can take its next step |
| `LockSet.EverybodyGetsThrough` | src/runtime/core/task.cpp:476-484 | without new calls every order of steps is finite, and nothing but a new call is possible if and only if all threads are outside |
| `LockSet.Mutexes.LockAll` | src/runtime/core/task.cpp:460-471 | takes exactly a prefix of the set, up to the first mutex somebody holds |
| `LockSet.Mutexes.UnlockAll` | src/runtime/core/task.cpp:476-484 | gives back exactly the set |
| `Grid.SignalIsUnretired` | src/runtime/core/task.cpp:1212-1222 | a CPU task's signal is always the number of its packets that have not retired, over any tasks and queues |
| `Grid.ZeroIffAllRan` | src/runtime/core/cputask.cpp:496-500 | the signal is 0 if and only if as many work items have run as the grid of the launch has, or one if it is empty, each once |
| `Grid.NothingTwice` | src/runtime/core/task.cpp:1192-1223 | no work item runs twice, and none runs that is not in the grid its task was launched with |
| `Grid.RunsInside` | src/runtime/core/cputask.cpp:657-685 | in a grid of positive dimensions whatever runs has a flat id below X * Y * Z and a get_global_id inside the grid |
| `Grid.EveryPlaceOnce` | src/runtime/core/cputask.cpp:657-685 | at 0, each (x, y, z) of the grid of the launch has run once, under the flat id (z * X + x) * Y + y, whose get_global_id is (x, y, z) |
| `Grid.CoordinatesOfFlat` | src/runtime/core/cputask.cpp:657-685 | (z * X + x) * Y + y is below X * Y * Z and has get_global_id (x, y, z) |
| `Grid.FlatOfCoordinates` | src/runtime/core/cputask.cpp:657-685 | every flat id of the grid is that of its own coordinates, which lie in the grid |
| `Grid.SingleItemOnOwnQueue` | src/runtime/core/task.cpp:1203-1211 | a task of one work item uses the queue chosen for it, and the swap only reorders the queues |
| `Grid.CpuQueues.AcquireAqlPacket` | src/runtime/core/task.cpp:1192-1223 | the new signal is X * Y * Z, or 1 if that is 0; packet i goes, unstored, to the end of queue i % q_count, and a single one to the queue chosen; what was on the queues stays in front |
| `Grid.CpuQueues.ProcessPacket` | src/runtime/core/cputask.cpp:496-500 | runs the head, decrements its own task's signal and no other |
| `CopyTask.SignalCountsDecrements` | src/runtime/core/data.cpp:451-472 | the signal is always the number of decrements still to come: acquire and dispatch agree on 1 or 2 while the buffers stay as they are |
| `CopyTask.ZeroMeansCopied` | src/runtime/core/data.cpp:567-655 | the signal is 0 exactly when nothing is outstanding, and then the destination holds the source bytes and the state is DISPATCHED |
| `CopyTask.CopyNeverStuck` | src/runtime/core/data.cpp:616-617 | as long as the signal is not 0 the thread or the engine can take a step; the wait for 1 ends |
| `CopyTask.EngineAndHostMemory` | src/runtime/core/data.cpp:451-628 | in every run the engine never copies between a device and unregistered memory: for such a copy it gets the device's buffer and the temporary one, and the host's memcpy only the unregistered buffer |
| `CopyTask.DataTask.AcquireAqlPacket` | src/runtime/core/data.cpp:422-473 | adds 2 to the signal if exactly one buffer is unregistered and the other registered outside CPU memory, and else 1 |
| `CopyTask.DataTask.Dispatch` | src/runtime/core/data.cpp:475-657 | starts the staging thread if and only if exactly one buffer is unregistered and the other registered outside CPU memory, and otherwise announces the copy and hands it to the engine |
| `CopyTask.DataTask.CopyThread` | src/runtime/core/data.cpp:578-628 | afterwards the signal is 0 and the destination holds the source bytes |
| `KernelArgs.CpuOffsets` | src/runtime/core/kernel.cpp:219-226 | the constructor's offsets adjoin one another from 0 to the segment size; arguments do not overlap |
| `KernelArgs.UpdateKernargRegion` | src/runtime/core/task.cpp:1140-1159 | every argument stands at its offset, and no byte behind the last changes |
| `KernelArgs.ReadPointers` | src/runtime/core/cputask.cpp:229-232 | the packet processor's pointers adjoin one another from the region's address on |
| `KernelArgs.ClaimIsMemcpy` | src/runtime/core/task.cpp:1617-1646 | claiming a segment is one copy to free_idx * segment size in the contiguous region, and no other segment changes |
| `KernelArgs.SegmentsFitIff` | src/runtime/core/kernel.cpp:227-233 | computed in 32 bits, every segment's address is right and the segment inside the allocation if and only if 16384 segments take less than 2^32 bytes |
| `KernelArgs.LargestSegment` | src/runtime/core/kernel.cpp:227-233 | that is so exactly for sizes below 256 KiB; for that size the last segment is outside |
| `KernelArgs.ClaimIn32Bits` | src/runtime/core/task.cpp:1614-1621 | and then that copy goes to the address the program computes |
| `KernelArgs.StagedBytesSurvive` | src/runtime/core/task.cpp:1614-1646 | whatever the launch staged short of a GPU kernel's implicit block stands at the same place of the task's segment while it is in flight |
| `KernelArgs.CpuArgumentsRoundTrip` | src/runtime/core/cputask.cpp:223-232 | the i-th pointer a CPU kernel receives addresses exactly the bytes of args[i] staged by its launch, in every run |
| `KernelArgs.PassArguments` | src/runtime/core/cputask.cpp:223-232 | staging, launching, any run and the reader's loop together: the pointers passed to the kernel address the arguments staged |
| `KernargLayout.AlignUpIs` | src/runtime/include/internal.h:216-229 | the bit-mask expression gives the least multiple of a power of two that is not below the value |
| `KernargLayout.Layout` | src/runtime/core/system.cpp:1247-1322 | the loop computes the offsets specified, each aligned and less than an alignment behind the end of the argument before, and as segment size 80 bytes more than all but the hidden arguments take, or than was declared if none is hidden |
| `KernargLayout.ArgumentsApart` | src/runtime/core/system.cpp:1296-1302 | offsets are aligned and increase, and no two arguments overlap |
| `KernargLayout.BytesCounted` | src/runtime/core/system.cpp:1306-1313 | explicit size and hidden sizes together are the end of the last argument: every byte is counted once |
| `KernargLayout.BlockAtFirstHidden` | src/runtime/core/system.cpp:1318-1322 | the explicit size is the first hidden argument's offset if and only if each later argument adjoins and is hidden or empty |
| `KernargLayout.EightByteHiddenFits` | src/runtime/core/system.cpp:1306-1313 | trailing hidden arguments of 8 bytes aligned to 8 meet that condition |
| `KernargLayout.CopiesStayBelowBlock` | src/runtime/core/task.cpp:990-991 | no copy of an argument before the first hidden one reaches ATMI's implicit block |
| `KernargLayout.CopyBelowBlockIff` | src/runtime/core/system.cpp:1306-1322 | the copy of any argument ends at or below the block if and only if the hidden bytes up to it do not exceed explicit bytes and padding behind it, or, with no hidden argument, it ends within the size declared |
| `KernargLayout.ExplicitCopiesBelowBlockIff` | src/runtime/core/system.cpp:1306-1322 | all explicit copies do if and only if the hidden bytes before the last explicit argument do not exceed the padding behind it, or, with no hidden argument, the last ends within the size declared |
| `KernargLayout.CopyMayReachBlock` | src/runtime/core/system.cpp:1306-1322 | the simplest layout in which one does not, and in which the block is not at the first hidden argument |
| `PointerTracker.RunRefines` | src/runtime/core/data.cpp:56-67 | after any operations, overlapping inserts included, the tree is ordered and holds exactly the buffers [p, p + size) of a plain set that ignores an insert meeting a live one |
| `PointerTracker.FindAgrees` | src/runtime/core/data.cpp:69-77 | find answers as a scan over all live buffers: the one with p <= address < p + size, or nothing |
| `PointerTracker.InsertFound` | src/runtime/include/data.h:58-73 | an insert of [p, p + size) makes find answer it for exactly these addresses if none of them was found before, and else changes no answer |
| `PointerTracker.RemoveFound` | src/runtime/core/data.cpp:63-67 | a removal makes the addresses of the buffer around it unknown and changes no other answer |
| `PointerTracker.InOrderIsSorted` | src/runtime/include/data.h:66-73 | in the map's iteration order each range ends below the next one's start |
| `PointerTracker.FindIsStable` | src/runtime/core/data.cpp:69-77 | the answer for a live buffer stays the same whatever is inserted and whatever other buffer is removed |
| `PointerTracker.Tracker.Insert` | src/runtime/core/data.cpp:56-61 | adds the buffer [p, p + size) unless it meets a live one; answers change as in the row above |
| `PointerTracker.Tracker.Remove` | src/runtime/core/data.cpp:63-67 | removes whatever contains the address |
| `PointerTracker.Tracker.Find` | src/runtime/core/data.cpp:69-77 | the descent finds what the scan finds |
| `CuMask.StrtokR` | src/runtime/core/machine.cpp:97-104 | one call gives the token behind the delimiters, up to the next delimiter or the end, and leaves what is behind that |
| `CuMask.AtoiReads` | src/runtime/core/machine.cpp:112-115 | a number is read past white space and a sign, and up to the first character that is no digit |
| `CuMask.Masks.CuMaskParser` | src/runtime/core/machine.cpp:90-134 | adds to mask q the bits of the q-th list, for as many lists and masks as there are, and touches no other mask |
| `CuMask.Masks.SetBits` | src/runtime/core/machine.cpp:120-123 | adds exactly the bits from first on |
| `CuMask.Masks.ParseItem` | src/runtime/core/machine.cpp:111-124 | adds exactly the bits from the first number to the second, or the first alone |
| `CuMask.PrintsRightIffPacked` | src/runtime/core/machine.cpp:104-130 | a printed string is read back as meant if and only if no empty list comes before a non-empty one |
| `CuMask.ListsRoundTrip` | src/runtime/core/machine.cpp:97-104 | for every printed string the parser finds exactly the non-empty lists, in order |
| `CuMask.PrintIs` | src/runtime/core/machine.cpp:90-134 | the printed form is that of "2:0-3,5;17" |
| `CuMask.ReadPrinted` | src/runtime/core/machine.cpp:90-134 | for such strings bit k of mask q is set exactly when it was, or k lies in one of queue q's ranges |
| `CuMask.UnpackedPrintsWrong` | src/runtime/core/machine.cpp:104-130 | otherwise there is a mask and a bit that is set and not meant |
| `CuMask.EmptyQueueShifts` | src/runtime/core/machine.cpp:104-130 | a concrete instance |
| `Wavefront.CountTasks` | examples/runtime/needleman-wunsch/nw.cpp:251-260 | the two counting loops count exactly the tasks that are launched |
| `Wavefront.Launch` | examples/runtime/needleman-wunsch/nw.cpp:276-446 | the loops launch the tasks specified, diagonal by diagonal, and last_task_index is the last diagonal's first task |
| `WavefrontSafety.DepsAreNeighbours` | examples/runtime/needleman-wunsch/nw.cpp:293-396 | the index arithmetic of both halves names exactly the tasks of the blocks at (r - 1, c), (r, c - 1) and (r - 1, c - 1), as far as there are any |
| `WavefrontSafety.PositionsAreBlocks` | examples/runtime/needleman-wunsch/nw.cl:67-68 | every block (r, c) is the one the kernels compute at its position: row blk - 1 - p and column p above, row w - p - 1 and column p + w - blk below |
| `WavefrontSafety.BlockInItsTask` | examples/runtime/needleman-wunsch/nw.cpp:290-296 | every block is in the task that its position says |
| `WavefrontSafety.BlockInNoOther` | examples/runtime/needleman-wunsch/nw.cpp:290-296 | and in no other |
| `WavefrontSafety.NeighboursRequired` | examples/runtime/needleman-wunsch/nw.cpp:293-396 | a task requires the tasks of the blocks to the north, west and northwest of all its blocks |
| `WavefrontSafety.OnlyNeighboursRequired` | examples/runtime/needleman-wunsch/nw.cpp:323-339 | and nothing else, and only tasks launched earlier |
| `WavefrontSafety.AtMostFour` | examples/runtime/needleman-wunsch/nw.cpp:323-329 | four slots a task are enough |
| `WavefrontSafety.TaskToLast` | examples/runtime/needleman-wunsch/nw.cpp:446 | a chain of requirements leads from every task to the last one |
| `WavefrontSafety.LastTaskIsEnough` | examples/runtime/needleman-wunsch/nw.cpp:446 | on the callback-mode scheduler, whatever was launched before the first of them, once the last task is COMPLETED every other has executed |
| `WavefrontRun.WavefrontLaunches` | examples/runtime/needleman-wunsch/nw.cpp:276-446 | from every reachable state of that scheduler a run creates and tries all tasks of the wavefront in order, each with exactly the tasks it requires |

## Left out

- HostCallbackProgress.EveryTaskCompletes: assumes that every packet of a task in flight retires and that a registered handler runs, as the devices and ROCr promise.
- BarrierSafety.StartsAfterPredecessors: for unordered groups, tasks of one packet, and one batch waiting for its barrier at a time, because several batches would share IdentityANDSignal.
- BarrierSafety.LaunchableIsSafe: under the same conditions.
- BarrierSafety.HandlerSeesFinishedTasks: under the same conditions.
- BarrierSafety.RunAdvances: storing packets and setting DISPATCHED are one step; task.cpp:1111-1117 stores a CPU task's packets first, so that a batch sealed by another thread can complete the task before DISPATCHED overwrites COMPLETED.
- BarrierRuntime.Scheduler.EnqueueBarrierTasks: the row is appended in one step; the program enqueues it after it has unlocked mutex_readyq_ (task.cpp:1956-1960), so that with more than five sinks a dispatch can come between its packets.
- BarrierCycles.FinishesIffNoCycle: assumes that packet processors and kernels go on as long as they can, looking at a barrier's signals in order or in any order; under the same conditions as the rows above.
- CopyTask.ZeroMeansCopied: nobody else writes the two buffers during the copy, and their registrations stay as they are between acquire and dispatch.
- CuMask.AtoiReads: numbers are unbounded; for one that no int holds atoi is undefined.
- Grid.SignalIsUnretired: the number of work items is unbounded; the program multiplies the dimensions in a 32-bit int.
- Grid.EveryPlaceOnce: for positive dimensions; with an empty one the source runs one work item, for which get_global_id would divide by zero.
- KernargLayout.Layout: for fewer than 2^31 arguments; kernel_segment_size is not truncated to 32 bits.
- BarrierRuntime.Scheduler.TryDispatchBarrierPacket: whether there is a segment is an input; tasks are records in a sequence, found by id, and aliasing of task objects is captured in callback mode only.
- BarrierRuntime.Scheduler.HandleSignalBarrierPkt: segments are not returned; their pools are modelled in callback mode.
- BarrierRuntime.Scheduler.SealBatch: for the try that fails; the same step stands for `TaskImpl::wait`, task.cpp:303-333, which does not look for sinks first.
- Grid.CpuQueues.AcquireAqlPacket: the wait for a slot is the ring's affair; a queue is the list of its packets not yet retired.
- Groupable tasks, predecessor task groups and their handler, whose successors are not reliably released.
- Synchronous tasks: a try from the callback thread would wait there.
- Ordered groups with requires, and ordered groups in barrier mode.
- OrderedGroup.LaunchesApart: one sync of a group at a time, and not of an empty group, whose last_task_ is NULL.
- KernelArgs.ClaimIsMemcpy: addresses are unbounded; KernelArgs.ClaimIn32Bits says when they are those of the program.
- KernelArgs.StagedBytesSurvive: addresses are unbounded, likewise.
- KernelArgs.CpuArgumentsRoundTrip: addresses are unbounded, likewise.
- KernelArgs.PassArguments: addresses are unbounded, likewise.
- Task templates and `CreateTask`/`ActivateTask`.
- The flag first_created_tasks_dispatched_, which restricts which thread tries and seals when: here any thread may, at any time. In the run of BarrierBlocked.RecycledSignalBlocks no try fails, so the flag stays false in both groups.
- Barrier mode for tasks of several CPU packets, whose barrier is on one queue only, and for staged copies, which read the source before the dependencies are met.
- CPU workers that stop after as many packets as the queue has slots.
- Overflow of 64-bit indices and of the 32-bit predecessor count; weak memory; kernels that need the scheduler's locks while a producer waits for a slot.
- Values of the implicit arguments and who is given a hostcall buffer.
- HSA, ROCr and comgr calls, module loading, environment variables, profiling, printing, and the compiler plugin.
