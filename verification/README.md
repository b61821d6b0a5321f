# Proofs about the V2-Engine actor runtime

This project models the concurrent core of the V2-Engine actor runtime in Dafny and proves what its parts
promise each other. It has six parts.

* **Rings** (`ring*.dfy`). The bounded lock-free queues, with every load, compare-exchange, construction,
  move-out and store as a step of its own, by any number of threads. They refine a FIFO for every capacity
  of at least 2, and only for those; `ring_runs.dfy` says what callers see over whole runs.
* **Execution token** (`token*.dfy`, `dispatcher.dfy`). The protocol by which dispatcher, runtime and
  workers hand one token per actor around: one token, one consumer, no lost wake-up, exact accounting of
  pending work, queues that are first in, first out, and exactly when the drain is graceful. `dispatcher.dfy`
  has the same operations in place, and `dispatcher_steps.dfy` shows that the two agree.
* **Timers** (`timer*.dfy`). The index heap over a mutable pool, the firing rounds with callbacks that
  re-enter the timer, and the scheduler above it; what a caller's request comes to (`timer_requests.dfy`).
* **Allocator** (`free_list.dfy`, `size_class.dfy`, `central*.dfy`, `pool*.dfy`). Intrusive free lists,
  slabs, the central cache and the threads' caches, over all runs of any threads; beneath them the memory
  words, which users overwrite as long as they hold a block.
* **Supervision** (`supervision.dfy`, `restart_budget.dfy`). The mutual recursion of failing restarts, every
  call made of the actor, what becomes of every message, and the restart budgets.
* **Registry** (`registry.dfy`). Names, ids and generation-checked handles.

`basics.dfy` holds what they share.

Concurrent parts are step machines over values; a run is a sequence of states, and the theorems are about
every run. Parts that one thread executes, or that a mutex makes atomic, are also classes with loops, whose
methods are proved to compute the functions that the machines use. History that no step reads (who holds
a token, how often a timer fired, which calls an actor got) is kept beside the state.

Where the code does less than its documentation says, the model follows the code:

* `beginDrain` clears `running_` before it sets `draining_`. A worker whose `acquire` reads both in between
  gets null and may leave with work pending; work is lost when all workers do (`TokenLosses.GracefulExactly`).
* A push that fails leaves its entry uncounted on the pended list, and the drain may end before the entry has
  been run (`TokenLosses.PendedLosesWork`). The list is drained only where `acquire` would return null, which it
  does not while the system is up, so that until a shutdown nobody runs a pended actor
  (`TokenOverflow.PendedOnlyGrows`).
* A redispatch that overflows is counted twice, and the surplus is never taken off `pendingWork_`
  (`TokenOverflow.DriftStaysCounted`). Where nobody has given up before, and as long as
  nobody falls into the gap anew, no worker then leaves the drain, and `stop` waits for all of them
  (`TokenOverflow.OverflowHangsTheDrain`, `TokenDrift.DriftHappens`).
* `pickLeastLoaded` moves the origin of its scan and can miss the shortest of three or more queues.
* A slab that has become empty leaves the partial list for good; `addSlab` always builds a new one, while
  the documentation shows the state going from empty back to partial.
* A timer cancelled while its round is firing never gives its pool slot back.
* An actor that is shut down inside a lifecycle restart still gets the rest of the batch in which that
  happens; only later batches handle nothing. `Supervision.Runtime.late` counts failures of that kind.
* The rings' constructors accept capacity 1, for which they are not queues.

## Model

| member | source | states |
|---|---|---|
| `RingProofs.ReachableInv` | src/core/common/container/lock_free_mpmc_queue.hpp:43-83 | for capacity 2 or more, every state of every interleaving satisfies the ring's invariant: per slot, sequence number, stored element, writer, reader and release history fit together |
| `RingTheorems.RefinesFifo` | src/core/common/container/lock_free_mpmc_queue.hpp:43-83 | each step of any thread is a step of an abstract bounded FIFO: a tail win appends, a head win removes the oldest element, every other step leaves it alone, and a win happens only when the FIFO has room or an element |
| `RingTheorems.TakesEachPositionOnce` | src/core/common/container/lock_free_mpmc_queue.hpp:63-83 | a consumer about to move an element out finds the element put at its position, which nobody has taken; a producer about to construct finds empty storage |
| `RingTheorems.PopReturnsTheElement` | src/core/common/container/lock_free_mpmc_queue.hpp:63-83 | in every interleaving a pop that has taken a position returns, on the step that hands the slot back, the element put there; any other pop that returns reports nothing, and has taken nothing; pops take the position at the head |
| `RingTheorems.PushReportsTheWin` | src/core/common/container/lock_free_mpmc_queue.hpp:43-61 | in every interleaving a push returns true exactly on the step that publishes, at the position it won, the very item it was called with, and false only without having won a position, changing nothing |
| `RingRuns.NothingIsLost` | src/core/common/container/lock_free_mpmc_queue.hpp:43-83 | in every run, at every moment when no thread is inside a slot: the items of the pushes that returned true are, counted with repetition, the elements that pops have returned and those still queued |
| `RingRuns.MailboxReturnsInOrder` | src/core/common/container/lock_free_mpsc_queue.hpp:64-79 | in every run of the single-consumer ring the pops return, one after the other, the elements in the order in which their positions were won, and none is skipped |
| `RingTheorems.TakenArePrefixOfPut` | src/core/common/container/lock_free_mpmc_queue.hpp:43-83 | every position taken holds the value put there and lies below the tail and not above the head; with no thread inside a slot, exactly the positions below the head have been taken and the others wait in order |
| `RingTheorems.PushRefusesOnlyWhenFull` | src/core/common/container/lock_free_mpmc_queue.hpp:43-61 | push returns false if and only if the position one lap before the tail had not been handed back when the slot's sequence was read and the tail had not moved on |
| `RingTheorems.PopReportsEmptyHonestly` | src/core/common/container/lock_free_mpmc_queue.hpp:63-83 | pop returns false if and only if, when the sequence was read, the head had not moved on and the queue was empty or its oldest element not yet published |
| `RingTheorems.CountNeverUnderestimates` | src/core/common/container/lock_free_mpmc_queue.hpp:102-107 | count is at least the true length and at most the capacity, so that a count of zero means truly empty at its second load; it is at most what lies between the head it loaded and the tail, and exact when that head has not moved |
| `RingTheorems.EmptyAgreesWithPop` | src/core/common/container/lock_free_mpsc_queue.hpp:90-94 | empty() answers as pop would, and never calls an empty queue non-empty unless the head has moved on |
| `RingTheorems.StorageIsExclusive` | src/core/common/container/lock_free_mpmc_queue.hpp:43-83 | two different threads inside slots are never inside the same slot |
| `RingLimits.CapacityTwoIsNeeded` | src/core/common/container/lock_free_mpmc_queue.hpp:21-26 | although the constructor accepts 1, the bound tail - head <= capacity, and construction into empty storage only, hold in all runs if and only if the capacity is at least 2 |
| `RingLimits.StalledConsumerRefusesPush` | src/core/common/container/lock_free_mpmc_queue.hpp:56-74 | a reachable state in which push is refused on an empty queue, because a consumer has not handed its slot back |
| `RingLimits.TwoPoppersTakeOneElement` | src/core/common/container/lock_free_mpsc_queue.hpp:64-79 | from a reachable ring with one element, two threads let into the single-consumer pop: one has taken the element when the other is about to move it out of the same, emptied slot; the rule that the execution token enforces is needed |
| `RingClass.LockFreeQueue.Push` | src/core/common/container/lock_free_mpmc_queue.hpp:43-61 | alone on the ring, push appends exactly when there is room, however often the compare-exchange fails spuriously |
| `RingClass.LockFreeQueue.Pop` | src/core/common/container/lock_free_mpmc_queue.hpp:63-83 | alone on the ring, pop returns the oldest element and leaves the rest, or nothing exactly when empty |
| `RingClass.LockFreeQueue.Count` | src/core/common/container/lock_free_mpmc_queue.hpp:102-107 | alone on the ring, count is exact |
| `RingClass.LockFreeQueue.IsEmpty` | src/core/common/container/lock_free_mpmc_queue.hpp:94-98 | alone on the ring, empty is exact |
| `SlotIndex.IndexIsRemainder` | src/core/common/container/lock_free_mpmc_queue.hpp:46-46 | the slot index counted down lap by lap is the remainder by the capacity |
| `TokenAccount.RunInv` | src/core/actor_system/runtime/dispatcher/work_dispatcher.cpp:59-206 | with attached ids below 1024, every state of every run, under any interleaving of senders, workers, stealing, redispatch, pended list and drain, satisfies the protocol's invariant |
| `TokenTheorems.SingleToken` | src/core/actor_system/runtime/dispatcher/work_dispatcher.cpp:59-72 | a slot is held if and only if its actor's token is in some place (dispatching thread, queue entry, pended entry, worker), and it is in one place only |
| `TokenFifo.TakesTheOldest` | src/core/actor_system/runtime/dispatcher/work_dispatcher.cpp:74-117 | a worker that looks for an entry gets one exactly when the queue it tries has one and the pop does not fail; it is the oldest of that queue and names the worker's next actor; the steps that push add their own entry at the end of one queue, and no other step changes a queue |
| `TokenFifo.TakenInOrder` | src/core/actor_system/runtime/dispatcher/work_dispatcher.cpp:165-179 | over every run and for each queue: the actors taken from it, by its worker and by thieves, followed by its entries, are the actors pushed into it, in the order of the pushes |
| `TokenTheorems.SingleConsumer` | src/core/actor_system/runtime/actor_runtime/actor_runtime.cpp:45-55 | two workers are never inside a batch of the same actor at the same time, so that the mailbox has one consumer |
| `TokenTheorems.NoLostWakeup` | src/core/actor_system/runtime/dispatcher/work_dispatcher.cpp:119-128 | a non-stopped actor with unread messages has its slot held, or a sender between push and exchange, or a worker between release and reclaim |
| `TokenTheorems.ExactAccounting` | src/core/actor_system/runtime/dispatcher/work_dispatcher.cpp:65-72 | pendingWork is exactly: queue entries, plus workers between acquire and the end of settleToken, minus pushes not yet counted, plus redispatch overflows so far |
| `TokenTheorems.LeavesWhenDone` | src/core/actor_system/runtime/dispatcher/worker.cpp:28-40 | in every reachable state a worker leaves its loop exactly when, after a null, it reads pendingWork at zero in a drain or finds itself stopped, and gets the null exactly when it reads pendingWork at zero in a drain or falls between beginDrain's two stores |
| `TokenTheorems.OverflowUnreachable` | src/core/actor_system/runtime/dispatcher/work_dispatcher.cpp:130-141 | if there are no more actors than a queue has room, no push into a queue fails in any run, the pended list stays empty and the drift is zero |
| `TokenDrain.GracefulDrain` | src/core/actor_system/runtime/dispatcher/worker.cpp:28-40 | in every run in which after beginDrain only running workers send, no push fails, and fewer workers than there are read running and draining between beginDrain's two stores, once all workers have left their loops every queue is empty and every non-stopped actor's mailbox is empty |
| `TokenLosses.GracefulExactly` | src/core/actor_system/runtime/dispatcher/work_dispatcher.cpp:81-117 | for every number of workers n: all quiet runs with at most the given numbers of gap exits and of failed pushes drain if and only if the gap exits are fewer than n and no push fails |
| `TokenLosses.GapLosesWork` | src/core/actor_system/runtime/dispatcher/work_dispatcher.cpp:81-117 | for every n a run in which all n workers leave in the gap and an entry and a message are left behind, without any failed push |
| `TokenLosses.PendedLosesWork` | src/core/actor_system/runtime/dispatcher/work_dispatcher.cpp:130-194 | for every n a run with one failed push and no gap exit: the pended entry is moved into a queue after the workers have seen pendingWork at zero, and its message stays unread |
| `TokenLosses.LateSendIsLost` | src/core/actor_system/runtime/dispatcher/work_dispatcher.cpp:59-72 | for every n a run from the start, through a drain of idle workers that leaves nothing behind, to a message that is accepted and that nobody is left to read: why only running workers may send after beginDrain |
| `TokenOverflow.DriftStaysCounted` | src/core/actor_system/runtime/dispatcher/work_dispatcher.cpp:130-136 | redispatch overflows are never taken off pendingWork again: it stays at least the drift plus the queued entries, but for additions under way |
| `TokenOverflow.OverflowHangsTheDrain` | src/core/actor_system/runtime/dispatcher/work_dispatcher.cpp:81-109 | after a redispatch overflow, once the drain has begun and while no worker has given up or falls into the gap, no worker ever leaves its loop in any continuation of the run: the drain does not end |
| `TokenDrift.DriftHappens` | src/core/actor_system/runtime/dispatcher/work_dispatcher.cpp:119-141 | for every n a quiet run with a redispatch overflow that comes to a drain in which nobody has given up, so that the hang is real |
| `TokenOverflow.PendedOnlyGrows` | src/core/actor_system/runtime/dispatcher/work_dispatcher.cpp:81-109 | while the system is up the pended list never loses an entry: it is drained in a shutdown only |
| `TokenDrain.NothingHandledAfterShutdown` | src/core/actor_system/runtime/actor_runtime/actor_runtime.cpp:174-175 | once an actor is stopped and no batch of it is running, no later step of the run takes a message from its mailbox |
| `TokenLimits.SharedSlotLosesWakeup` | src/core/actor_system/actor_system.cpp:101-104 | why ids must be below the slot count: with actors 0 and 1024 a run leaves the second one's message with nobody to run it |
| `Dispatcher.PickPrefersHome` | src/core/actor_system/runtime/dispatcher/work_dispatcher.cpp:143-163 | the chosen queue is the home queue, or the home queue is at the watermark and the chosen one strictly shorter |
| `Dispatcher.PickLeavesHome` | src/core/actor_system/runtime/dispatcher/work_dispatcher.cpp:143-163 | an entry goes elsewhere than home if and only if the home queue has reached the watermark and some queue is strictly shorter |
| `Dispatcher.ScanIsRunningMinimum` | src/core/actor_system/runtime/dispatcher/work_dispatcher.cpp:150-163 | the scan looks as often as there are queues, or until it meets an empty one, each time so many places on from the first shortest queue so far, and picks the first shortest queue it has looked at |
| `Dispatcher.LeastLoadedIff` | src/core/actor_system/runtime/dispatcher/work_dispatcher.cpp:150-163 | pickLeastLoaded finds a least loaded queue for all loads if and only if there are at most two queues |
| `Dispatcher.WorkDispatcher.PickLeastLoaded` | src/core/actor_system/runtime/dispatcher/work_dispatcher.cpp:150-163 | the loop computes the scan whose origin moves with the best queue so far |
| `Dispatcher.WorkDispatcher.PickWorker` | src/core/actor_system/runtime/dispatcher/work_dispatcher.cpp:143-148 | home below the watermark or with one worker, else the scan's result |
| `Dispatcher.WorkDispatcher.EnqueueEntry` | src/core/actor_system/runtime/dispatcher/work_dispatcher.cpp:130-141 | the entry goes to the end of the chosen queue, or to the pended list exactly when that queue is full; no entry is lost or doubled |
| `Dispatcher.WorkDispatcher.Dispatch` | src/core/actor_system/runtime/dispatcher/work_dispatcher.cpp:59-68 | one slot changes; an actor whose slot is held gets no second entry; another's entry goes to the end of the queue that pickWorker finds, or, exactly when that is full, of the pended list; the counter follows successful pushes only |
| `Dispatcher.WorkDispatcher.SettleToken` | src/core/actor_system/runtime/dispatcher/work_dispatcher.cpp:119-128 | an actor that goes on keeps its slot and its entry goes to the end of the queue that pickWorker finds, or, exactly when that is full, of the pended list, while the counter stays; one that retires leaves queues alone, frees its slot and is taken off the counter; no other slot changes |
| `DispatcherSteps.DispatchAgrees` | src/core/actor_system/runtime/dispatcher/work_dispatcher.cpp:59-68 | the step machine's dispatch, uninterrupted and with the queue that the class picks, comes to slot, queues, pended list and counter as the class's dispatch does |
| `DispatcherSteps.ReissueAgrees` | src/core/actor_system/runtime/dispatcher/work_dispatcher.cpp:119-136 | so does its settleToken for an actor that goes on |
| `DispatcherSteps.RetireAgrees` | src/core/actor_system/runtime/dispatcher/work_dispatcher.cpp:119-128 | and for one that retires |
| `DispatcherSteps.StealAgrees` | src/core/actor_system/runtime/dispatcher/work_dispatcher.cpp:169-179 | what the class's trySteal takes is what the machine's worker gets from that victim |
| `DispatcherSteps.DrainAgrees` | src/core/actor_system/runtime/dispatcher/work_dispatcher.cpp:181-194 | the step machine's drain of the pended list, uninterrupted and with the queues that the pick finds, comes to the queues, pended list and counter that the class's loop computes |
| `Dispatcher.WorkDispatcher.TrySteal` | src/core/actor_system/runtime/dispatcher/work_dispatcher.cpp:169-179 | takes the first entry of one other queue, never of its own, and finds none only when all other queues are empty |
| `Dispatcher.WorkDispatcher.DrainPendedActor` | src/core/actor_system/runtime/dispatcher/work_dispatcher.cpp:181-194 | the loop that erases from the list it walks computes Flush: each pended entry in turn goes to the end of the queue that the pick finds, or stays if that one is full; each moved one is counted |
| `Dispatcher.FlushConserves` | src/core/actor_system/runtime/dispatcher/work_dispatcher.cpp:181-194 | no entry is lost, doubled or invented between queues and pended list |
| `Dispatcher.FlushAppends` | src/core/actor_system/runtime/dispatcher/work_dispatcher.cpp:181-194 | queues only grow, and only at their ends |
| `Dispatcher.StaysOnlyWhenFull` | src/core/actor_system/runtime/dispatcher/work_dispatcher.cpp:181-194 | entries stay pended only when a queue is full, still so in the end |
| `TimerHeap.SiftUp` | src/core/common/timer/timer_base.hpp:55-60 | push's sift restores heap order and keeps the indices |
| `TimerHeap.SiftDown` | src/core/common/timer/timer_base.hpp:55-60 | pop's sift restores heap order and keeps the indices |
| `TimerHeap.Push` | src/core/common/timer/timer_base.cpp:16-16 | an ordered heap with the index added, under a comparator that reads the pool |
| `TimerHeap.Pop` | src/core/common/timer/timer_base.cpp:58-63 | the heap without its top, ordered again, even if the top's key has already been reset |
| `TimerHeap.TopIsEarliest` | src/core/common/timer/timer_base.hpp:55-60 | the top expires no later than any heaped timer |
| `Timer.AddKeeps` | src/core/common/timer/timer_base.cpp:3-20 | add keeps the structure invariant, also inside a firing round |
| `Timer.PurgeKeeps` | src/core/common/timer/timer_base.cpp:58-63 | purgeDeadEntries keeps the invariant and the live timers, and leaves no dead top |
| `Timer.CancelKeeps` | src/core/common/timer/timer_base.cpp:22-29 | cancel keeps the invariant and removes exactly its id |
| `Timer.TakeTopKeeps` | src/core/common/timer/timer_base.cpp:83-95 | taking the top keeps the invariant and moves a live timer into the round |
| `Timer.RefireOneKeeps` | src/core/common/timer/timer_base.cpp:102-113 | the second section keeps the invariant for each fired id, live, cancelled or cleared |
| `TimerRuns.CollectExact` | src/core/common/timer/timer_base.cpp:80-96 | the first section collects exactly the live timers that are due, each once, by expiry, and leaves their nodes alone |
| `TimerInv.RunInv` | src/core/common/timer/timer_base.cpp:3-132 | every state of every run of timer operations, re-entrant callbacks and scheduler calls satisfies the invariant |
| `TimerTheorems.StructureHolds` | src/core/common/timer/timer_base.cpp:3-38 | no pool index is twice in the heap or in two of heap, free list and round; ids map one to one onto live nodes; the heap is ordered |
| `TimerTheorems.RoundIsExact` | src/core/common/timer/timer_base.cpp:73-99 | in every run each firing round is exactly the live timers with expiry not after now, once each, by expiry |
| `TimerTheorems.OneShotFiresOnce` | src/core/common/timer/timer_base.cpp:100-113 | a one-shot timer is in at most one firing round of a whole run |
| `TimerTheorems.ExpiryKeepsPhase` | src/core/common/timer/timer_base.cpp:106-108 | a timer that waits and has fired n times expires n + 1 intervals after its birth, as TimerRequests.AddKeepsRequest records it from the request |
| `TimerRequests.AddKeepsRequest` | src/core/actor_system/runtime/scheduler/scheduler.cpp:24-33 | in every run a request, to the timer or to the scheduler, gets a new id with a live timer that expires the asked delay after the clock reading, has that delay for its interval and repeats as asked; the scheduler also registers its message |
| `TimerRequests.LivesUntilItEnds` | src/core/common/timer/timer_base.cpp:22-38 | a timer is live from its request on exactly until it is cancelled, all timers are cleared, or a round that fires it ends and it was not asked to repeat |
| `TimerRequests.RequestIsHonoured` | src/core/common/timer/timer_base.cpp:102-113 | at any later moment of a run a live timer that is not in the round has the interval and kind asked for, and expires so many delays after its request as it has fired, and one more; one not asked to repeat has fired at most once |
| `TimerRequests.DueRequestFires` | src/core/common/timer/timer_base.cpp:73-99 | a firing round fires a requested timer if and only if nothing has ended it and its next expiry, counted in delays from the request, has come |
| `TimerTheorems.CancelIsFinal` | src/core/actor_system/runtime/scheduler/scheduler.cpp:35-63 | after Scheduler::cancel of an issued id no later step delivers its message, even when it was in the round that is firing |
| `TimerTheorems.LiveTimerIsDelivered` | src/core/actor_system/runtime/scheduler/scheduler.cpp:51-63 | the callback of a scheduled timer that is still live does deliver its message |
| `TimerTheorems.DeliveriesAreFirings` | src/core/actor_system/runtime/scheduler/scheduler.cpp:51-63 | deliveries of an id never outnumber its firings, so that a one-shot timer's message is delivered at most once |
| `TimerLeak.LostExactly` | src/core/common/timer/timer_base.cpp:102-104 | a pool slot is lost by cancelling a timer that is in the firing round and by nothing else, and stays lost until clear |
| `TimerClass.TimerBase.Add` | src/core/common/timer/timer_base.cpp:3-20 | in place: the state that Timer.Add gives, a fresh id, and rearm exactly when the new timer is earlier than all heaped ones |
| `TimerClass.TimerBase.Cancel` | src/core/common/timer/timer_base.cpp:22-29 | in place: exactly the id is removed; afterwards the heap has no dead top |
| `TimerClass.TimerBase.Clear` | src/core/common/timer/timer_base.cpp:31-38 | in place: everything but the id counter is dropped, which keeps the invariant even during a round |
| `TimerClass.TimerBase.IsAlive` | src/core/common/timer/timer_base.cpp:40-44 | true exactly for the ids in the id map |
| `TimerClass.TimerBase.PurgeDeadEntries` | src/core/common/timer/timer_base.cpp:58-63 | the loop computes Timer.Purge |
| `TimerClass.TimerBase.AllocNode` | src/core/common/timer/timer_base.cpp:118-127 | the slot is nobody's: not heaped, not free, no id leads to it; taking it keeps the structure and disturbs no timer |
| `TimerClass.TimerBase.FreeNode` | src/core/common/timer/timer_base.cpp:129-132 | giving back a slot that nothing uses keeps the structure, and it is the slot that the next timer takes |
| `TimerClass.TimerBase.TakeReady` | src/core/common/timer/timer_base.cpp:80-96 | the loop computes Timer.Collect |
| `TimerClass.TimerBase.Refire` | src/core/common/timer/timer_base.cpp:100-115 | the loop computes TimerRuns.RefireAll |
| `FreeLists.ChainIsUnique` | src/core/common/memory/free_list.hpp:7-9 | what a head leads to is determined by the links |
| `FreeLists.ChainIsAcyclic` | src/core/common/memory/free_list.hpp:14-19 | a chain of links that ends holds no block twice |
| `FreeLists.ChainSurvives` | src/core/common/memory/free_list.hpp:14-19 | only writes to a list's own blocks can disturb it |
| `FreeLists.DoublePushIsACycle` | src/core/common/memory/free_list.hpp:14-19 | the links after a second push of a block that is in the list, wherever it is, never end |
| `FreeLists.FreeList.Push` | src/core/common/memory/free_list.hpp:14-19 | the block goes in front; exactly its own link word is written |
| `FreeLists.FreeList.PushBatch` | src/core/common/memory/free_list.hpp:21-25 | a batch goes in front, the last block first |
| `FreeLists.FreeList.Pop` | src/core/common/memory/free_list.hpp:27-33 | the most recently pushed block, or null exactly when empty |
| `FreeLists.FreeList.PopBatch` | src/core/common/memory/free_list.hpp:35-42 | up to maxCount blocks in last-in-first-out order; the rest stays |
| `SizeClasses.Index` | src/core/common/memory/size_class.hpp:27-34 | the smallest class that fits, whose batch fits the transfer buffer |
| `SizeClasses.SizeCheck` | src/core/common/memory/slab.hpp:23-23 | the power-of-two check lets exactly the powers of two and zero pass |
| `SizeClasses.MaskRoundsDown` | src/core/common/memory/central_cache.hpp:28-28 | and-ing with a mask of cleared low bits rounds down to a multiple |
| `SizeClasses.BlocksAlignedIff` | src/core/common/memory/slab.hpp:28-30 | two neighbouring blocks are both aligned to 2^a if and only if 2^a does not exceed the block size |
| `CentralTheorems.MaskLookupIsRangeSearch` | src/core/common/memory/central_cache.hpp:103-106 | findSlab finds the slab whose range contains the address if one exists and none otherwise |
| `CentralTheorems.BlocksAreAligned` | src/core/common/memory/slab.hpp:25-30 | every block of an aligned slab is aligned to its own size |
| `CentralAccount.BlockIsFound` | src/core/common/memory/central_cache.hpp:103-106 | every block belongs to one slab, and masking its address finds that slab |
| `Centrals.SetSlabPartials` | src/core/common/memory/central_cache.hpp:108-113 | transitionState keeps the partial list exactly the partial slabs, without repetition |
| `Centrals.PartialsKeepOrder` | src/core/common/memory/central_cache.hpp:108-113 | a slab that becomes partial goes to the end of the partial list, one that is so no longer leaves its place, and the others keep their order |
| `CentralOps.FetchBatchMoves` | src/core/common/memory/central_cache.hpp:53-73 | fetchBatch keeps the structure and the exact counter, and hands out blocks that were not handed out |
| `CentralOps.FetchBatchCount` | src/core/common/memory/central_cache.hpp:53-73 | a slab is added exactly when the partial slabs cannot fill the batch, at most one; the batch is full if a slab holds that many, and never empty |
| `CentralOps.FetchTakesInOrder` | src/core/common/memory/central_cache.hpp:53-73 | a fetched batch is the beginning of the partial slabs' free blocks, in the order of the partial list and each slab's from its top on, followed by the new slab's blocks |
| `CentralOps.AllocateMoves` | src/core/common/memory/central_cache.hpp:31-40 | allocate never gets null, keeps the structure and hands out a block that was not handed out |
| `CentralOps.AllocateCount` | src/core/common/memory/central_cache.hpp:31-40 | allocate adds a slab if and only if no slab is partial; otherwise its block was free in the front slab of the partial list, and no other slab changes |
| `CentralOps.FreedBlockComesBack` | src/core/common/memory/central_cache.hpp:31-51 | with no slab partial, allocate after deallocate hands out the freed block and restores the whole cache |
| `CentralOps.DeallocateMoves` | src/core/common/memory/central_cache.hpp:42-51 | deallocate of a block that is handed out takes exactly it back |
| `CentralOps.ReturnBatchMoves` | src/core/common/memory/central_cache.hpp:75-89 | returnBatch takes every block of a handed-out batch back and returns the exact count |
| `CentralOps.CounterIsSumOfUsed` | src/core/common/memory/central_cache.hpp:92-92 | the counter of allocated blocks is the sum of the slabs' used counts |
| `CentralTheorems.EmptySlabGivesNothing` | src/core/common/memory/central_cache.hpp:31-73 | no allocation is served from a slab that has become empty |
| `CentralTheorems.GrowsWithoutBound` | src/core/common/memory/central_cache.hpp:31-51 | n pairs of allocate and deallocate leave n slabs behind with no block in use |
| `PoolProofs.RunInv` | src/core/common/memory/thread_local_cache.hpp:29-102 | every state of every run of any threads on one size class keeps the accounts of blocks |
| `PoolTheorems.BlocksHaveOneOwner` | src/core/common/memory/thread_local_cache.hpp:29-92 | in every run each block is in exactly one of its slab's free list, a thread, a user's hands; nothing else is in any of them |
| `PoolTheorems.CountsAgree` | src/core/common/memory/central_cache.hpp:91-92 | allocatedBlocks is the sum of used counts and the number of blocks in users' hands and threads |
| `PoolTheorems.DrainEmpties` | src/core/common/memory/thread_local_cache.hpp:50-56 | an idle cache holds at most a batch, so that drain leaves it empty and all its blocks are taken back |
| `PoolTheorems.ReturnedIsReturnCount` | src/core/common/memory/thread_local_cache.hpp:89-91 | the assertion returned == returnCount cannot fail |
| `PoolTheorems.FetchSucceeds` | src/core/common/memory/thread_local_cache.hpp:65-76 | a fetch brings at least one block, a full batch if a slab holds that many, and adds at most one slab |
| `PoolTheorems.SlabsAreAddedWhenNeeded` | src/core/common/memory/central_cache.hpp:31-73 | in every run a step adds a slab if and only if it is a fetch that the free blocks of all partial slabs cannot fill, or a direct allocate while no slab is partial; then it adds one |
| `PoolTheorems.AllocateTakesFromPartial` | src/core/common/memory/central_cache.hpp:31-40 | in every run a direct allocate, while a slab is partial, gives the user a block that was free in a partial slab |
| `PoolTheorems.CacheIsAStack` | src/core/common/memory/thread_local_cache.hpp:29-92 | in every run a thread's cache is a stack: allocate pops its top, deallocate pushes, and past a batch the batch on top leaves in one piece, top first; a fetched batch is pushed in order but for its first block, which the user gets; other threads' caches stay |
| `PoolTheorems.FreedIsNext` | src/core/common/memory/thread_local_cache.hpp:29-48 | a block freed into a cache with room is the next one that the thread allocates, and then the whole state is as before |
| `PoolTheorems.EverythingComesBack` | src/core/common/memory/thread_local_cache.hpp:94-102 | when threads have drained and users have freed, every block is free and the counter zero |
| `PoolTheorems.EmptySlabIsRetired` | src/core/common/memory/central_cache.hpp:108-113 | once a slab is empty no later step of a run touches it |
| `PoolLinks.WriteKeepsIff` | src/core/common/memory/free_list.hpp:7-19 | a write into a block's first word leaves a list whole if and only if the block is not in it or the word is the link that is there: why only holders may write |
| `PoolLinkTheorems.ListsStayWhole` | src/core/common/memory/free_list.hpp:14-42 | in every state of every run of any threads, with users writing any word into the blocks that they hold at any moment, the links from the head of each slab's and each thread's list lead through exactly its blocks, the last pushed first, each once, and end |
| `PoolLinkTheorems.PopsReadThePushes` | src/core/common/memory/free_list.hpp:27-42 | at any moment of any run, from any slab's and any thread's list, what pops read from memory are the blocks that the pool's accounts say |
| `PoolLinkProofs.PutAllKeeps` | src/core/common/memory/central_cache.hpp:75-89 | returnBatch's writes to the blocks of a batch in use keep every list whole |
| `PoolLinkProofs.CarveKeeps` | src/core/common/memory/slab.hpp:25-30 | carving a new slab writes into no list, and its own list is whole |
| `CentralClass.CentralCache.AddSlab` | src/core/common/memory/slab.hpp:25-30 | the carving loop and the two insertions compute Centrals.AddSlab |
| `CentralClass.CentralCache.AllocateBatch` | src/core/common/memory/slab.hpp:46-54 | the pop loop and the state transition compute Centrals.TakeFrom |
| `CentralClass.CentralCache.FetchPartials` | src/core/common/memory/central_cache.hpp:58-63 | the loop that removes slabs from the list it walks computes Centrals.FetchFrom |
| `CentralClass.CentralCache.FetchNew` | src/core/common/memory/central_cache.hpp:64-70 | the second loop adds at most one slab |
| `CentralClass.CentralCache.FetchBatch` | src/core/common/memory/central_cache.hpp:53-73 | both loops together compute Centrals.FetchBatch |
| `CentralClass.CentralCache.Allocate` | src/core/common/memory/central_cache.hpp:31-40 | in place: Centrals.Allocate, for which CentralOps.AllocateCount says when a slab is added and whose block is handed out |
| `CentralClass.CentralCache.Deallocate` | src/core/common/memory/central_cache.hpp:42-51 | in place: Centrals.Deallocate |
| `CentralClass.CentralCache.ReturnBatch` | src/core/common/memory/central_cache.hpp:75-89 | the loop computes Centrals.ReturnBatch |
| `CentralClass.ThreadLocalCache.Allocate` | src/core/common/memory/thread_local_cache.hpp:29-36 | the cached block on top, or, from an empty cache, a fetched one |
| `CentralClass.ThreadLocalCache.FetchFromCentral` | src/core/common/memory/thread_local_cache.hpp:65-76 | a batch is fetched; its first block is given out, the others are cached, the last on top |
| `CentralClass.ThreadLocalCache.Deallocate` | src/core/common/memory/thread_local_cache.hpp:38-48 | past a batch exactly one batch goes back and one block stays |
| `CentralClass.ThreadLocalCache.ReturnToCentral` | src/core/common/memory/thread_local_cache.hpp:78-92 | up to a batch is popped and returned, in order |
| `CentralClass.ThreadLocalCache.Drain` | src/core/common/memory/thread_local_cache.hpp:50-56 | the cache ends empty and all its blocks were returned |
| `CentralClass.ThreadLocalCache.DrainAll` | src/core/common/memory/thread_local_cache.hpp:94-102 | buffers of up to 64 return everything, as one batch would |
| `Supervision.HandledMeansHandled` | src/core/actor_system/runtime/actor_runtime/actor_runtime.cpp:174-202 | a message's fate is handled if and only if the actor's handle was called for it and did not throw; handle is called for a message at most once; no ordinary message is consumed |
| `Supervision.DeadLettersAreKept` | src/core/actor_system/runtime/supervisor/supervisor.cpp:56-69 | with a supervisor, every popped message that was neither handled nor consumed is a dead letter, kept or dropped; it is kept if and only if the queue holds it, at a place of its own, and is dropped only on a full queue |
| `Supervision.FailuresAreAnswered` | src/core/actor_system/runtime/supervisor/supervisor.cpp:37-119 | over an actor's whole history every open that threw and every try that failed otherwise has been reported to the supervisor exactly once, and every report used up exactly one restart or broadcast, or stopped the actor, or came after it was stopped; so reports are bounded, and a stopped actor's strategy has no budget left |
| `Supervision.Runtime.ProcessBatch` | src/core/actor_system/runtime/actor_runtime/actor_runtime.cpp:174-202 | messages are tried in order of arrival, once each, and none is lost; the batch ends at its first failure and not before the limit or an empty mailbox; after a failure with a supervisor the mailbox has been emptied and budget used up or the actor stopped; processed counts the successes; a batch begun after shutdown does nothing; the loop ends |
| `Supervision.Runtime.ProcessOne` | src/core/actor_system/runtime/actor_runtime/actor_runtime.cpp:180-199 | the oldest message is tried and gets its fate; after a failure the calls that follow the try are exactly the strategy's answer to the budget left, and with a supervisor the mailbox has been emptied |
| `Supervision.Runtime.Catch` | src/core/actor_system/runtime/actor_runtime/actor_runtime.cpp:184-198 | with a supervisor the failed message is a dead letter, kept exactly when there was room, the mailbox is emptied and the strategy answers; without one it is only logged and no call is made |
| `Supervision.Runtime.TryConsumeLifecycle` | src/core/actor_system/runtime/actor_runtime/actor_runtime.cpp:57-81 | enable opens a closed actor, disable closes an opened one that is not essential, restart restarts an opened one, and otherwise no call is made; requests, and only those, are consumed |
| `Supervision.Runtime.PerformRestart` | src/core/actor_system/runtime/actor_runtime/actor_runtime.cpp:114-141 | the calls made are close and then, exactly when that has left the actor closed, open; an open that throws is answered by exactly what the strategy has for the budget left, and by nothing without a supervisor; with one the mailbox is then empty and budget used up or the actor stopped; the recursion ends on the remaining budget |
| `Supervision.Runtime.TryRestart` | src/core/actor_system/runtime/actor_runtime/actor_runtime.cpp:83-91 | restarts exactly while the count is below the limit, and then uses up one restart; otherwise nothing changes |
| `Supervision.Runtime.Shutdown` | src/core/actor_system/runtime/actor_runtime/actor_runtime.cpp:109-112 | the actor is stopped before the one call of close |
| `Supervision.Supervisor.Bury` | src/core/actor_system/runtime/supervisor/supervisor.cpp:56-69 | the dead-letter queue ends in the failed message and then the whole mailbox, in order, as far as there is room; the mailbox is left empty; fates follow from the room |
| `Supervision.Supervisor.OnActorFailed` | src/core/actor_system/runtime/supervisor/supervisor.cpp:37-119 | dead letters as Bury has them; then the answer by the actor's own policy, or by the default if it has none: shut down without touching any budget (the policy None), restarted below the limit and else shut down (one for one), a broadcast charged below the limit and else shut down (one for all); the calls made are exactly those of that strategy for the budget left; the recursion ends |
| `Supervision.Supervisor.RestartEveryone` | src/core/actor_system/runtime/supervisor/supervisor.cpp:82-112 | a broadcast, without any call of this actor, uses up one of its one-for-all restarts, or the actor is shut down |
| `RestartBudget.CountNeverExceedsLimit` | src/core/actor_system/runtime/actor_runtime/actor_runtime.cpp:83-91 | under any interleaving of loads and weak compare-exchanges the restart count is the number of wins, never above the limit, and refusals are honest |
| `RestartBudget.SwapLosesOnlyToAWinner` | src/core/actor_system/runtime/actor_runtime/actor_runtime.cpp:83-91 | an attempt below its limit succeeds unless its weak compare-exchange fails spuriously or another attempt has succeeded since it last read the count; each success is counted once |
| `RestartBudget.BroadcastsAreBounded` | src/core/actor_system/runtime/supervisor/supervisor.cpp:82-112 | no actor is charged above the limit; without removePolicy the broadcasts of a run are at most actors times limit |
| `RestartBudget.ChargedUpToLimit` | src/core/actor_system/runtime/supervisor/supervisor.cpp:86-92 | in every run an actor's one-for-all count is the number of its failures since its policy was last removed, cut off at the limit |
| `RestartBudget.RefusedOnlyAtLimit` | src/core/actor_system/runtime/supervisor/supervisor.cpp:86-97 | a charge is refused if and only if the actor has failed that often already, and then changes nothing |
| `Registry.HandlesNeverRevive` | src/core/actor_system/actor/actor_registry.cpp:32-38 | an issued handle resolves to what it resolved to before or to nothing, and once to nothing always to nothing |
| `Registry.HandlesNameOneActor` | src/core/actor_system/actor/actor_registry.cpp:13-18 | a handle found by id resolves, at every later point of a run, to the actor it was found for or to nothing |
| `Registry.NamedHandlesNameOneActor` | src/core/actor_system/actor/actor_registry.cpp:6-11 | so does a handle found by name, even when ids are shared |
| `Registry.AddAgreesIff` | src/core/actor_system/actor/actor_registry.cpp:54-66 | add keeps names and ids in agreement if and only if no other name leads to an actor with that id |
| `Registry.RemoveAgreesIff` | src/core/actor_system/actor/actor_registry.cpp:68-77 | remove keeps the agreement if and only if, before the call, no other name or actor has the removed actor's id |
| `Registry.NamesAgreeWithIds` | src/core/actor_system/actor/actor_registry.cpp:6-18 | while ids are distinct, in every run each name leads to the actor and generation of the id index |
| `Registry.SharedIdLosesAName` | src/core/actor_system/actor/actor_registry.cpp:54-66 | two actors with one id: the first one's name gives a handle that is dead |
| `Registry.ActorRegistry.Add` | src/core/actor_system/actor/actor_registry.cpp:54-66 | in place: the new handle was never issued before, resolves to the actor, and is found by its id and by its name; other ids, names and their handles are as before |
| `Registry.ActorRegistry.Remove` | src/core/actor_system/actor/actor_registry.cpp:68-77 | in place: the id and all its handles are gone, and the name, unless another actor has taken it over; other ids, names and their handles are as before |
| `Registry.ActorRegistry.Clear` | src/core/actor_system/actor/actor_registry.cpp:79-83 | afterwards nothing is found and every handle resolves to nothing; generations go on from where they were, so that no handle revives |

## Left out

- Weak memory orders: every atomic access is a sequentially consistent step.
- Wrap-around of positions and counters at 2^64 and of timer ids at 2^31: numbers are unbounded.
- The rings inside the token protocol: dispatcher queues and mailboxes are atomic there; a push may fail although there is room (except in OverflowUnreachable, which needs pushes that fail only on a full queue), a pop may miss an element, and only a count of zero is taken to be exact, which is what the ring theorems provide.
- Liveness: that semaphores, timeouts and spins make progress; waiting is a choice of the scheduler of steps.
- WorkDispatcher::stop clearing the pended list without clearing slots: runs of the token machine end before it.
- Dispatcher.WorkDispatcher.PickLeastLoaded: the queue lengths do not change during the scan, because the class is run by one thread.
- Supervision.Supervisor.OnActorFailed: policies are fixed for a run, nobody else uses the dead-letter queue during a batch, letters carry no reason or time, and other actors' failures do not interleave with one actor's; RestartBudget treats the shared budgets under concurrency.
- Supervision.Runtime.ProcessBatch: producers' messages come from a finite supply, without which the loops that empty the mailbox need not end.
- An exception that leaves processBatch (a close that throws while the actor is being shut down) ends the worker before settleToken; Supervision returns it as threw, and the token machine takes every batch to end normally.
- RestartBudget.CountNeverExceedsLimit: covers the loop only; the restart that follows a win is in Supervision.
- The rearming of the system timer, callbacks' payloads and clocks: the time is a parameter.
- TimerClass.TimerBase.TakeReady: the invariant afterwards is TimerRuns.CollectKeeps, not repeated in the method.
- PoolLinkTheorems.ListsStayWhole: the lists' counts are the lengths of the pool's sequences, and of a block only the first word, which holds the link, is modelled.
- CentralClass.ThreadLocalCache.Allocate: one size class of one thread; the table of nine caches is nine of them.
- Freeing a block twice, or with another size than it was allocated with, is outside what users may do.
- Large allocations, the memory pool's routing, message type erasure, logging and metrics.
- std::priority_queue is modelled as the usual binary heap; std::list, std::vector and hash maps as sequences and maps.
- ActorRegistry::forEachActor and the mutable actor names: an actor's id and name are fixed.
- Operating-system services (timers, epoll, sockets), services and applications built on the core.
