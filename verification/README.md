# FiberTaskingLib: the concurrent core

FiberTaskingLib runs tasks on fibers. A task that waits does not block its thread: its fiber is set
aside and the thread goes on with another one. This project models the four mechanisms that makes
safe and proves what they promise, for any number of threads and fibers and for every interleaving:

* the work-stealing deque (`DequeMachine`; alone, as heap objects, `WaitFreeQueues`),
* the fiber mutex (`FibtexMachine`; as an object with a packed word and linked bundles, `Fibtexes`),
* the wait group (`WaitGroupMachine`, `WaitGroupReuse`; as an object, `WaitGroups`),
* the scheduler's fiber hand-off (`SchedulerMachine`; as an object, `FiberSwitching`), its sleeping
  and waking (`SleepMachine`) and its search for a task (`SearchOrder`, `TaskSearch`).

`EndToEnd` runs the scheduler and a wait group together: the counter counts the group's outstanding
tasks, and a Wait returns only when each of them has run exactly once.

Each machine has a state, a program counter with captured locals for each thread or fiber, and a
function `Step` that takes one atomic action: one load, store or compare-exchange of a shared
location, or one access to a waiting bundle; in the scheduler, one operation on a queue. An action that is
not possible leaves the state as it is, so a run is any sequence of actions, and `Exec` of any sequence from `Init` is any reachable state. A weak
compare-exchange fails whenever the action says so (section 29.6.5 of ISO/IEC 14882:2011). An inductive
invariant is proved of every step, and the properties are read off it for every run. The classes take
the same steps in place, each method proved equal to a step of the machine. What a run was asked to do
(which values Push was called with, which waits asked to be pinned, and so on) is read off its actions by
functions of their own, and the results are stated against that.

| file | what it holds |
|---|---|
| `Options.dfy` | an optional value |
| `Bits.dfy` | bitwise and, or and and-not, powers of two, and why masking an index is taking it modulo the ring size |
| `DequeMachine.dfy` | Push, Pop, Steal and Grow under every interleaving |
| `WaitFreeQueue.dfy` | the ring array and the deque as heap objects, run by one thread at a time |
| `WaiterList.dfy`, `WaiterNodes.dfy` | the list of waiting fibers that Fibtex and WaitGroup share, as a value and as linked nodes |
| `FibtexMachine.dfy`, `Fibtex.dfy` | lock, try_lock, unlock |
| `PackedWords.dfy` | flags and an aligned address in one word |
| `WaitGroupMachine.dfy`, `WaitGroup.dfy` | Add, Done, Wait |
| `FibtexCalls.dfy`, `WaitGroupCalls.dfy`, `SchedulerCalls.dfy` | what callers get: where calls end and what they come to, what was asked for is what is done, and nobody gets stuck |
| `WaitGroupReuse.dfy` | exactly when the counter may be raised from zero |
| `SchedulerMachine.dfy`, `FiberSwitching.dfy` | the worker loop and its queues, waiting, and switching fibers |
| `SleepMachine.dfy` | sleeping threads and pinned ready fibers |
| `SearchOrder.dfy`, `TaskSearch.dfy` | GetNextHiPriTask and GetNextLoPriTask |
| `EndToEnd.dfy`, `PinnedWaits.dfy` | one AddTasks, its tasks and its Waits, on the scheduler |

## Where code and documentation disagree

* `include/ftl/wait_group.h:74-78` says that no Add may follow a Wait, and that a group may be reused
  once every earlier Wait has returned. Keeping both rules is not enough: an Add that brought the
  counter to zero may be delayed before it takes the queue lock, and then wakes a fiber that parked
  after the counter was raised again; that fiber's Wait does not look at the counter once it resumes
  (`source/wait_group.cpp:250-255`). `WaitGroupReuse.DocumentedRulesAllowEarlyReturn` is such a run.
  The comment at `source/wait_group.cpp:163-164`, that the counter reaches zero only once in a cycle,
  is the assumption the code rests on. `WaitGroupMachine.Calm` states it as something visible in one
  state (nobody is still waking waiters, and every Wait that was released has returned), and
  `WaitGroupReuse.RaisingIsSafeExactlyWhenCalm` proves it necessary and sufficient. A rule that a caller
  can check follows from it (`WaitGroupReuse.AllReturnedIsSafe`): raise the counter only when every earlier
  Add, Done and Wait has returned.
* `include/ftl/task_scheduler.h:137-140` calls the last successful steal an offset from the current
  thread's index. The code stores and uses a thread index, and so does the model.

## Model

| member | source | states |
|---|---|---|
| `Bits.MaskIsMod` | include/ftl/wait_free_queue.h:83-89 | masking with a power of two minus one is taking the remainder, for every index and size |
| `Bits.PowerOfTwoTest` | include/ftl/wait_free_queue.h:69-72 | the constructor's test `n & (n - 1) == 0`, on 64 bits, holds of 0 and exactly the powers of two |
| `Bits.OrPlusAnd` | source/fibtex.cpp:88-109 | for all words, or and and together have the bits of both: so or-ing disjoint bits in is adding them, which is what setting a flag bit relies on |
| `Bits.SlotsDistinct` | include/ftl/wait_free_queue.h:83-89 | logical indices less than a ring's size apart never share a slot |
| `DequeMachine.RunKeepsInv` | include/ftl/wait_free_queue.h:112-172 | the invariant about stale indices and arrays holds after every run |
| `DequeMachine.NoPushLostOrDuplicated` | include/ftl/wait_free_queue.h:112-172 | in every run each push is live, claimed by an unfinished Pop, or handed out, exactly once; nothing is handed out twice |
| `DequeMachine.SuccessfulStealIsRight` | include/ftl/wait_free_queue.h:158-172 | a Steal whose compare-exchange succeeds returns what Push was called with for the oldest live item, also when it read it from an array since replaced |
| `DequeMachine.ReturnedValuesWerePushed` | include/ftl/wait_free_queue.h:129-172 | every value a successful Pop or Steal returns is the argument of the call of Push that it hands out |
| `DequeMachine.AskedIsPushed` | include/ftl/wait_free_queue.h:112-127 | the values pushed are, in order, the arguments of the calls of Push, the one in progress excepted |
| `DequeMachine.EachStepIsOneOperation` | include/ftl/wait_free_queue.h:112-172 | every step is nothing, an append at the back, a removal from the back or one from the front of the live items, and what a step removes is what its call claims and then hands out: the deque refines a sequence |
| `DequeMachine.PopFailsOnlyWhenEmpty` | include/ftl/wait_free_queue.h:137-153 | a Pop that is going to return false did so when nothing was live |
| `DequeMachine.StealFailsOnlyWhenBeaten` | include/ftl/wait_free_queue.h:158-172 | a Steal returns false only if another call took the item it was after, or nothing was live but, at most, what a Pop was taking |
| `DequeMachine.PopAlone` | include/ftl/wait_free_queue.h:129-156 | from any reachable state, a Pop made alone takes the newest live item, or nothing if there is none |
| `DequeMachine.StealAlone` | include/ftl/wait_free_queue.h:158-172 | from any reachable state, a Steal made alone takes the oldest live item if it sees one |
| `DequeMachine.OwnerIsWaitFree` | include/ftl/wait_free_queue.h:112-156 | whatever the thieves do, a Push called with n items live is over after n + 5 steps of its own, and a Pop after 6 |
| `DequeMachine.StealIsWaitFree` | include/ftl/wait_free_queue.h:158-172 | whatever the others do, a Steal is over after 5 steps of its own |
| `DequeMachine.ArraysDoubleWhenFull` | include/ftl/wait_free_queue.h:112-121 | arrays hold 32 items, then twice as many each time, and one is replaced only when it is full as Push sees it |
| `DequeMachine.IndexArithmetic` | include/ftl/wait_free_queue.h:112-156 | in every run: top is at most bottom outside Pop, bottom is at least 1 when Pop starts, Push's subtraction does not wrap, sizes are powers of two, live items and the one being pushed have distinct slots |
| `WaitFreeQueues.CircularArray.constructor` | include/ftl/wait_free_queue.h:69-72 | what passes the assertion is an array of n items, and one that works as a ring if n is not 0 |
| `WaitFreeQueues.CircularArray.Put` | include/ftl/wait_free_queue.h:87-89 | sets one logical index and no other within a ring's size of it |
| `WaitFreeQueues.CircularArray.Grow` | include/ftl/wait_free_queue.h:94-101 | a new array of twice the size, linked to the old one, with the same items at every live index |
| `WaitFreeQueues.WaitFreeQueue.constructor` | include/ftl/wait_free_queue.h:49-56 | an empty queue |
| `WaitFreeQueues.WaitFreeQueue.Push` | include/ftl/wait_free_queue.h:112-127 | run alone, appends at the back; the array is replaced, by one of twice the size, exactly when it is full |
| `WaitFreeQueues.WaitFreeQueue.Pop` | include/ftl/wait_free_queue.h:129-156 | run alone, takes from the back, and fails exactly on an empty queue |
| `WaitFreeQueues.WaitFreeQueue.Steal` | include/ftl/wait_free_queue.h:158-172 | run alone, takes from the front, and fails exactly on an empty queue |
| `WaiterList.FollowVisitsQueue` | source/task_scheduler_internal.h:40-41 | following Next from the head of a linked queue visits exactly the queue, in order, and stops |
| `WaiterNodes.BundleTable.Append` | source/fibtex.cpp:118-121 | linking behind the tail, in place, is appending to the list |
| `WaiterNodes.BundleTable.Initialise` | source/task_scheduler.cpp:744-759 | a bundle is initialised: not switched, linked to nothing, and with the thread it is pinned to, if any |
| `FibtexMachine.ExecKeepsInv` | source/fibtex.cpp:73-247 | the invariant holds after every run, barging and spurious failures included |
| `FibtexMachine.MutualExclusion` | include/ftl/fibtex.h:77-133 | at most one fiber is between a successful lock or try_lock and its release |
| `FibtexMachine.EveryAssertionHolds` | source/fibtex.cpp:86-236 | every assertion in LockSlow and UnlockSlow holds where it is evaluated |
| `FibtexMachine.NoLostUpdate` | source/fibtex.cpp:126-147 | while the queue bit is set only its holder changes the word, by a store computed from the word as it still is |
| `FibtexMachine.ListIsQueue` | source/fibtex.cpp:117-147 | whenever the queue bit is clear, the list from the word's head is acyclic, holds each queued fiber once in order of arrival, and the head's QueueTail is the last |
| `FibtexMachine.QueueIsFifo` | source/fibtex.cpp:213-244 | the queue changes only by LockSlow appending its own fiber and UnlockSlow removing the front |
| `FibtexMachine.NoLostWakeUp` | source/fibtex.cpp:73-247 | while anybody is queued, the lock is held or the heir, the fiber dequeued last, is on its way to try for it |
| `FibtexMachine.HeirIsLastDequeued` | source/fibtex.cpp:213-244 | only the store that dequeues the head of the queue changes the heir, and to that head |
| `FibtexMachine.ParkedFiberIsSomewhere` | source/fibtex.cpp:149-160 | a fiber that has switched away is on the list, in exactly one unlocker's hands, or ready |
| `FibtexCalls.CallsEndAsPromised` | include/ftl/fibtex.h:76-133 | a call of lock ends only with the lock held; try_lock never queues, spins or parks; unlock ends without the lock |
| `FibtexCalls.TryLockAlone` | include/ftl/fibtex.h:96-115 | made alone, try_lock takes a lock that is free, also with fibers queued for it, and otherwise changes nothing |
| `FibtexCalls.LockAlone` | include/ftl/fibtex.h:77-87 | made alone, lock takes a lock that is free |
| `FibtexCalls.UnlockAlone` | include/ftl/fibtex.h:123-133 | made alone with nobody queued, unlock leaves the word zero |
| `FibtexCalls.SpinsAtMostForty` | source/fibtex.cpp:73-98 | a call of lock goes around for want of a queue at most 40 times in all, however often it parks in between, and not at all with a single thread |
| `FibtexCalls.StepSpins` | source/fibtex.cpp:73-98 | it goes around only while nobody is queued, counting each time, and goes for the queue only when it may not go around |
| `FibtexCalls.NobodyIsStuck` | source/fibtex.cpp:73-247 | a fiber in a call and not parked can go on, but for an unlock waiting for the queue lock, and then the fiber that holds that can |
| `FibtexCalls.ParkedGoesOn` | source/task_scheduler.cpp:683-690 | a parked fiber is marked as switched by the cleanup, and resumes once it is and is ready |
| `PackedWords.LowBits` | include/ftl/fibtex.h:64-66 | what the three masks extract, as arithmetic, from every word |
| `PackedWords.WordParts` | include/ftl/fibtex.h:61-66 | each mask finds its flag, and the complement of the head mask the address, whatever the rest of the word |
| `PackedWords.UnpackPack` | include/ftl/fibtex.h:61-66 | packing and unpacking a word is a round trip |
| `PackedWords.PackIsInjective` | include/ftl/fibtex.h:61-66 | comparing packed words is comparing their contents, as the compare-exchanges need |
| `PackedWords.WithFirst` | source/fibtex.cpp:136-139 | or-ing in the first waiter's address and clearing the queue bit installs that head and changes nothing else |
| `PackedWords.Released` | source/fibtex.cpp:232-236 | the masks that release both locks leave exactly the new head |
| `Fibtexes.Fibtex.constructor` | source/fibtex.cpp:67-71 | an unlocked Fibtex with nobody waiting |
| `Fibtexes.Fibtex.LockStep` | source/fibtex.cpp:79-112 | each step of lock, try_lock and LockSlow up to the queue lock, on the packed word, is the machine's |
| `Fibtexes.Fibtex.EnqueueStep` | source/fibtex.cpp:117-154 | each step of queueing oneself, on the linked nodes and the packed word, is the machine's |
| `Fibtexes.Fibtex.UnlockStep` | source/fibtex.cpp:164-247 | each step of unlock and UnlockSlow, on nodes and word, is the machine's |
| `Fibtexes.Fibtex.Step` | source/fibtex.cpp:73-247 | the object keeps the machine's invariant, and with it every property above |
| `WaitGroupMachine.ExecKeepsInv` | source/wait_group.cpp:109-256 | the invariant holds after every run that raises the counter from zero only when all is calm |
| `WaitGroupMachine.WaitReturnsAtZero` | source/wait_group.cpp:183-256 | in such runs a Wait returns only while the counter is zero |
| `WaitGroupMachine.EveryAssertionHolds` | source/wait_group.cpp:112-253 | in such runs every assertion holds, also that the slow path of Add finds a queue head |
| `WaitGroupMachine.ZeroingAddStrandsNobody` | source/wait_group.cpp:118-180 | when an Add that brought the counter to zero returns and it is still zero, the queue is empty, nobody is enqueueing, and every parked fiber is ready |
| `WaitGroupMachine.SettledLasts` | source/wait_group.cpp:183-213 | from then on no Wait enqueues until the counter is raised |
| `WaitGroupMachine.ParkedFiberIsSomewhere` | source/wait_group.cpp:169-176 | a parked fiber is queued, in exactly one Add's hands, or ready and in nobody's |
| `WaitGroupMachine.HandedOverOnce` | source/wait_group.cpp:169-176 | in one wait a fiber is passed to AddReadyFiber once: a bundle becomes ready only by the step of the one Add that has it in hand, and stays ready, in nobody's hands, until its fiber resumes |
| `WaitGroupReuse.RaisingIsSafeExactlyWhenCalm` | source/wait_group.cpp:161-164 | at counter zero, raising it lets some schedule make a Wait return early if and only if the state is not calm |
| `WaitGroupReuse.AllReturnedIsSafe` | source/wait_group.cpp:161-164 | at counter zero, once every earlier call on the group has returned, no schedule can make a Wait return early after the counter is raised |
| `WaitGroupReuse.DocumentedRulesAllowEarlyReturn` | include/ftl/wait_group.h:74-78 | a run that keeps the documented rules and ends with a Wait returning at counter one |
| `WaitGroupCalls.CounterIsSum` | source/wait_group.cpp:109-116 | in every run the counter is the sum of what Add was called with, as a 32-bit integer |
| `WaitGroupCalls.CallsKeepToTheirCode` | source/wait_group.cpp:109-256 | Add and Done never wait, Wait never wakes anybody |
| `WaitGroupCalls.WaitIsOverAfterZero` | source/wait_group.cpp:183-256 | in a disciplined run, a call of Wait is over only if the counter was zero at some point since it was made |
| `WaitGroupCalls.WaitAtZeroAlone` | source/wait_group.cpp:183-190 | made alone at counter zero, Wait returns at once and changes nothing |
| `WaitGroupCalls.WaitAboveZeroAlone` | source/wait_group.cpp:183-190 | made at any other counter, Wait goes on to wait |
| `WaitGroupCalls.AddAlone` | source/wait_group.cpp:109-139 | made alone, an Add that leaves the counter positive only changes the counter, and one that brings it to zero with nobody waiting leaves the word as it was |
| `WaitGroupCalls.NobodyIsStuck` | source/wait_group.cpp:109-256 | in a disciplined run, a fiber in a call and not parked can go on, but for an Add waiting for the queue lock, and then the fiber that holds that can |
| `WaitGroupCalls.ParkedGoesOn` | source/task_scheduler.cpp:683-690 | a parked fiber is marked as switched by the cleanup, and resumes once it is and is ready |
| `WaitGroups.PackIsInjective` | include/ftl/wait_group.h:62-66 | comparing packed words of a wait group is comparing their contents |
| `WaitGroups.WaitGroup.constructor` | source/wait_group.cpp:103-107 | a counter at zero and nobody waiting |
| `WaitGroups.WaitGroup.Add` | source/wait_group.cpp:109-116 | the counter changes by delta, wrapping at 32 bits, and the call goes on exactly when it is not positive |
| `WaitGroups.WaitGroup.RunStep` | source/wait_group.cpp:118-256 | each step of Add's waking and of Wait, on the packed word and the linked nodes, is the machine's |
| `WaitGroups.WaitGroup.Step` | source/wait_group.cpp:109-256 | the object keeps the machine's invariant, and with it every property above |
| `SchedulerMachine.ExecKeepsInv` | source/task_scheduler.cpp:100-249 | the invariant, about fibers, threads and tasks and about what every queue, list and buffer holds, is kept by every run |
| `SchedulerMachine.EachItemOnce` | source/task_scheduler.cpp:512-605 | every task and every ready fiber is at most once in all queues, pinned lists, put-back buffers and searching fibers' hands together, and it is there exactly when it was put on a queue and has not been run, or resumed, for that |
| `SchedulerMachine.QueuesAreDeques` | include/ftl/task_scheduler.h:100-128 | every step does at most one operation on one queue: its own thread appends or takes at the back, any other takes at the front, and what is taken is then in that thread's hands or running on it |
| `SchedulerMachine.OneFiberOnePlace` | source/task_scheduler.cpp:607-695 | every fiber is in exactly one place: free, reserved by one searcher, current on one thread, the old fiber of one thread, or parked behind its bundle |
| `SchedulerMachine.NoSharedStack` | source/task_scheduler.cpp:631-672 | no two threads run on the same fiber |
| `SchedulerMachine.CleanUpOncePerSwitch` | source/task_scheduler.cpp:656-672 | whenever a thread switches, CleanUpOldFiber has run exactly once since its last switch and there is nothing to overwrite |
| `SchedulerMachine.CleanUpComesFirst` | source/task_scheduler.cpp:100-108 | a thread with a fiber to clean up after does nothing else first, whichever point its new fiber resumes at |
| `SchedulerMachine.CleanUpWritesPendingFlag` | source/task_scheduler.cpp:683-690 | the flag a cleanup is about to set is that of the old fiber, still away in the same wait and not set yet |
| `SchedulerMachine.FlagSetByLeaver` | source/task_scheduler.cpp:683-690 | FiberIsSwitched is set only by the thread that left the fiber, and before it resumes |
| `SchedulerMachine.ResumedOncePerWait` | source/task_scheduler.cpp:119-173 | a ready fiber is resumed once per wait, after its flag was set, and on the thread it is pinned to |
| `SchedulerMachine.TasksRunOnce` | source/task_scheduler.cpp:128-197 | no task is started twice; one that was pushed and is in no queue, buffer or hand was started, and so was a finished one; a put-back buffer holds something only during its fiber's search |
| `SchedulerCalls.PinIsAsAsked` | source/task_scheduler.cpp:744-759 | a bundle is pinned to the thread of its fiber's latest wait if that asked for it, and to none if it did not |
| `SchedulerCalls.PinnedResumesThere` | source/task_scheduler.cpp:109-166 | a fiber whose latest wait asked to be pinned resumes on the thread it waited on |
| `SchedulerCalls.AddReadyHeedsRequest` | source/task_scheduler.cpp:697-742 | AddReadyFiber appends a fiber that did not ask to be pinned to the calling thread's hi-pri queue, and one that did to the list of the thread it waited on |
| `SchedulerCalls.TaskIsWhereAdded` | source/task_scheduler.cpp:420-439 | a queued task is on the queue of the thread that added it, of the priority it was added with |
| `SchedulerCalls.WhatIsAskedIsKept` | source/task_scheduler.cpp:420-439 | a task that AddTask was called for is in one queue or hand until it is started, and a fiber that AddReadyFiber was called for in one queue, list, buffer or hand until it resumes, for as many calls as were made |
| `SchedulerCalls.PopsAndStealsTake` | source/task_scheduler.cpp:519-556 | a pop takes the newest item of the own queue and a steal the oldest of another's, whenever there is one |
| `SchedulerCalls.BuffersAreStacks` | source/task_scheduler.cpp:526-568 | only the searching thread uses its buffer: it puts a ready fiber not yet switched on top, and moves the top one to the back of its own queue |
| `SchedulerCalls.PinnedListsKeepOrder` | source/task_scheduler.cpp:119-138 | a list of pinned fibers grows only at the end, and loses one fiber at a time, with its flag set, to its own thread, which resumes it |
| `SchedulerCalls.NoThreadIsStuck` | source/task_scheduler.cpp:607-629 | in every reachable state every thread can go on, unless it looks for a free fiber and there is none |
| `FiberSwitching.TaskScheduler.constructor` | source/task_scheduler.cpp:280-376 | fiber 0 belongs to the main thread, every other fiber is free, no other thread runs one |
| `FiberSwitching.TaskScheduler.CleanUpOldFiber` | source/task_scheduler.cpp:674-695 | in place: the old fiber becomes free or switched as its destination says, the destination is forgotten, and the invariant is kept |
| `FiberSwitching.TaskScheduler.InitWaitingFiberBundle` | source/task_scheduler.cpp:744-759 | in place: the current fiber's bundle is registered, not switched, linked to nothing, and pinned to the thread exactly if asked |
| `FiberSwitching.TaskScheduler.ReserveFiber` | source/task_scheduler.cpp:607-629 | a free fiber is taken by one compare-exchange, unless that fails spuriously; one that is not free is left alone |
| `FiberSwitching.TaskScheduler.ReserveFirstFiber` | source/task_scheduler.cpp:72-73 | the same for a thread that has not run a fiber yet |
| `FiberSwitching.TaskScheduler.StartThread` | source/task_scheduler.cpp:75-78 | in place: the thread's first fiber becomes current |
| `FiberSwitching.TaskScheduler.SwitchToFreeFiber` | source/task_scheduler.cpp:761-780 | in place: the reserved fiber becomes current, the old one is due to be marked as waiting |
| `FiberSwitching.TaskScheduler.SwitchToReadyFiber` | source/task_scheduler.cpp:153-166 | in place: the ready fiber becomes current, the old one is due to go to the pool |
| `SleepMachine.PinnedFiberIsNotSleptThrough` | source/task_scheduler.cpp:206-225 | if a thread is asleep and its list of pinned ready fibers is not empty, another thread is between its push and its notify_all for that thread |
| `SleepMachine.NotifyWakesSleeper` | source/task_scheduler.cpp:730-739 | at that notify_all the thread is not between its last check and its wait, and it and all others that sleep wake |
| `SleepMachine.NotifiesOthersOnly` | source/task_scheduler.cpp:730-739 | a thread that readies a fiber pinned to itself makes no notify for it |
| `SleepMachine.PinnedFibersAreKept` | source/task_scheduler.cpp:719-724 | a fiber that AddReadyFiber was called for, pinned to a thread, is on that thread's list or was taken by that thread, or the call has not got that far; as often as it was called |
| `SleepMachine.TakesFirstSwitched` | source/task_scheduler.cpp:119-137 | only a thread itself takes from its list, each time the first fiber that has been switched away from |
| `SleepMachine.SleepsAfterFiveFailures` | source/task_scheduler.cpp:201-228 | a thread is going to sleep, asleep or waking exactly when its last five searches since it found a task, returned from the pool or woke have failed |
| `SleepMachine.SearchKnowsOfPinned` | source/task_scheduler.cpp:116-126 | a search does not count as failed when the look at the list before it found any pinned fiber, ready to take or not |
| `SleepMachine.LocksExclude` | source/task_scheduler.cpp:213-222 | no two threads hold ThreadSleepLock, nor the same PinnedReadyFibersLock |
| `SearchOrder.EveryThreadOnce` | source/task_scheduler.cpp:534-539 | the probes start at the remembered thread and go round upwards, from the last thread to thread 0, so every thread is tried exactly once |
| `SearchOrder.SearchConserves` | source/task_scheduler.cpp:512-579 | the queues and the returned task hold exactly the tasks that the queues and the buffer held |
| `SearchOrder.SearchFindsReady` | source/task_scheduler.cpp:512-579 | run alone, it succeeds if and only if some queue holds a ready task, and returns a task or a fiber that has been switched away from |
| `SearchOrder.OwnTaskComesFirst` | source/task_scheduler.cpp:519-529 | with a ready task on the own queue the newest one is returned, the rest keeps its order with the buffer reversed behind it, and nothing else changes |
| `SearchOrder.RemembersLastVictim` | source/task_scheduler.cpp:532-544 | the thread remembered for the next search is the last one anything was stolen from, and stays the same if nothing was |
| `SearchOrder.StolenTaskIsFirstReady` | source/task_scheduler.cpp:534-556 | a stolen task is the first ready one of the first thread, going round from the remembered one, that has any; the own queue ends as the reversed stolen tasks followed by its own |
| `SearchOrder.FailedSearchCollects` | source/task_scheduler.cpp:560-568 | a failed search leaves the others' queues empty, and the own queue as the reversed stolen tasks followed by its own in order |
| `SearchOrder.SearchLowIsSearch` | source/task_scheduler.cpp:581-605 | where nothing can be unready the low priority search comes to the same as the other, so all of the above holds of it |
| `TaskSearch.TaskQueues.constructor` | include/ftl/task_scheduler.h:106-140 | empty queues, one per thread, and 1 as everyone's last successful steal |
| `TaskSearch.TaskQueues.PopUntilReady` | source/task_scheduler.cpp:519-529 | pops the own queue down to its last ready task, buffering what was not ready |
| `TaskSearch.TaskQueues.StealUntilReady` | source/task_scheduler.cpp:542-555 | steals from one thread up to its first ready task, buffering what was not ready |
| `TaskSearch.TaskQueues.StealFromOthers` | source/task_scheduler.cpp:534-557 | tries the other threads in probe order until one has a ready task |
| `TaskSearch.TaskQueues.PutBack` | source/task_scheduler.cpp:559-568 | the buffer is empty and the own queue has it appended, last one first |
| `TaskSearch.TaskQueues.GetNextHiPriTask` | source/task_scheduler.cpp:512-579 | on the heap queues, the whole outcome of the search: result, task, every queue, remembered thread, empty buffer |
| `TaskSearch.TaskQueues.GetNextLoPriTask` | source/task_scheduler.cpp:581-605 | the same for the low priority queues |
| `EndToEnd.ExecKeepsInv` | source/task_scheduler.cpp:441-466 | scheduler and wait group agree about every fiber after every run with one AddTasks of n tasks, n below 2^31 |
| `EndToEnd.CounterCountsTasks` | source/task_scheduler.cpp:441-466 | from AddTasks on, the counter is the number of the group's tasks that are not yet pushed, queued, in a search's hands, running, or over but not yet decremented |
| `EndToEnd.WaitReturnsAfterAllTasks` | source/task_scheduler.cpp:187-197 | a Wait that returns after AddTasks does so when each of the n tasks has run exactly once, is over, and is in no queue, buffer or hand |
| `EndToEnd.CallsTakeEffect` | source/task_scheduler.cpp:441-466 | a call of Wait has begun with its argument, AddTasks counts n, and Done counts one less and marks its task |
| `PinnedWaits.PinnedWaitReturnsThere` | include/ftl/wait_group.h:91-96 | a Wait called with pinToCurrentThread returns on the thread that called it, whatever happens in between |
| `EndToEnd.BothTakeTheStep` | source/task_scheduler.cpp:697-787 | whenever an action is a step of both the group and the scheduler, both can take it: what the group parks the scheduler parks, what it readies is readied, what resumes was readied |

## Left out

- Weak memory orders and fences: steps are sequentially consistent, and a queue element is read or written in one step.
- The width of `m_top` and `m_bottom`: they are naturals that do not reach 2^64, though Push's and Pop's subtractions are modelled with wrap-around.
- Real context switching, stacks, guard pages and allocation: a switch changes which fiber is current on a thread.
- OS threads, affinity, and the inside of mutexes and condition variables: a mutex is its owner, a condition variable the set of its sleepers.
- Quitting: ThreadEndFunc's barrier, the quit fibers and the destructor.
- Object lifetime: nothing is claimed about destroying a WaitGroup, a Fibtex or a deque, or about reclaiming replaced arrays.
- Fairness and starvation: barging is allowed, and a Steal that returns false may have lost a race.
- Sleeping with tasks that are not pinned: those notifies do not hold ThreadSleepLock, so no claim is made that they are not missed.
- A wait group whose counter is raised again before all is calm, except for the theorem and the run in `WaitGroupReuse`.
- `SchedulerMachine.ExecKeepsInv`: a push, pop or steal is one step on a sequence, which is what `DequeMachine.EachStepIsOneOperation` proves of the deque's own steps; a search may stop at any point and try any thread, the order it really takes is in `SearchOrder` and `TaskSearch`.
- `SchedulerMachine.TasksRunOnce`: does not say that a pushed task runs eventually, which needs fairness.
- `FiberSwitching.TaskScheduler.ReserveFiber`: GetNextFreeFiberIndex's two loads are merged with the compare-exchange that follows them, and its warning is not printed.
- `FiberSwitching.TaskScheduler.SwitchToReadyFiber`: the ready fiber has been chosen, and what the queues and tasks are is ghost in this object, whose methods do not touch them; the searches that choose are in `TaskSearch` and `SleepMachine`.
- `TaskSearch.TaskQueues.GetNextHiPriTask`: the task buffer is an in and out parameter, not an object, and the notify that follows a put-back is in `SleepMachine` as a wake-up at any time.
- `Fibtexes.Fibtex.Step`: captured copies of the word are kept unpacked in a fiber's program counter.
- `EndToEnd.WaitReturnsAfterAllTasks`: one wait group and one AddTasks; AddTask in a loop, as ParallelFor does, may bring the counter to zero several times.
- ParallelFor's batching, thread_local's lazy initialisation, event callbacks, the plumbing of Init, benchmarks and examples.
