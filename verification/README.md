# RT-Thread kernel IPC and four driver loops, in Dafny

This project models the inter-thread communication of the RT-Thread kernel (`rt-thread/src/ipc.c`), its
fixed-block allocator (`mempool.c`), the intrusive lists under both (`rtservice.h`), and four loops of the
STM32 drivers: Ethernet scatter/gather, flash programming and erasing, PWM register arithmetic and DMA receive
accounting. It proves, for every input and over every run, what the code promises about them; where a promise
is false of the code it gives an input and the exact condition under which it holds.

`dafny verify dfyconfig.toml` checks the whole project.

## How the code is modelled

* Every region between `rt_hw_interrupt_disable` and `rt_hw_interrupt_enable` is one atomic step. A run is an
  arbitrary interleaving of steps of any number of threads, with time-outs and resets in between.
* Each core file that changes state in place is a class whose methods change fields, maps, arrays or linked
  nodes as the code does. A method's contract equates the new state with a function of the old one; what the
  code promises is then proved about that function, and over runs of a state machine built from it. A step of
  such a run takes the next state, the threads resumed included, from what the operation itself returns.
* Suspending a thread puts it in a wait list; resuming takes it out and makes it ready; changing a priority
  through `rt_thread_control` sets `current_priority` and nothing else; a timer takes its thread out of the
  wait list. The scheduler and the timers themselves are not part of this model.
* A time-out value is the question whether the caller may wait at all; how long is decided by when the
  time-out step is taken.
* A thread that `rt_thread_detach` has taken off the lists counts as not suspended and has the error `Closing`,
  which is a mark of the model; from then on only the second region of `rt_thread_detach` acts for it.
* `drv_pwm_get` takes the clock division of the timer into account and `drv_pwm_set` does not. The driver programs
  the division 1 only (drv_pwm.c:381), so the two agree; `Pwm.DivisionCloseIff` and `Pwm.DivisionReadsLong` say
  what becomes of a timer whose division something else has changed.

| files | contents |
|---|---|
| `WaitList`, `WaitSide`, `Lists` | wait lists as sequences, the wake-up argument, the same lists as pointers |
| `Arithmetic` | division, used by the driver loops |
| `Objects`, `MutexSpec`, `MutexOps` | thread and mutex records, the invariant, what each region does |
| `MutexSettle` | the priority propagation loop: termination, repair, frame |
| `MutexInv`, `MutexRelease`, `MutexTimeout` | every region keeps the invariant |
| `MutexAnswers` | what each call answers and whom it touches, on the fields of the records |
| `MutexRuns` | whole runs: no inversion, ownership and hold counts |
| `MutexExact`, `MutexCeiling` | exact inheritance and ceilings: which steps and which runs keep them |
| `MutexScene`, `MutexSplit` | steps from small states, and the runs that break exact inheritance |
| `MutexKernel` | the mutex functions over heap objects |
| `Semaphore`, `Event*`, `Mailbox*` | the three other simple objects, their methods and runs |
| `MessageQueue*`, `MessagePriority` | pool, lists and copies of message queues; the deque they refine |
| `MemPool*` | the block allocator and its histories |
| `Ethernet`, `Flash`, `Pwm`, `Dma` | the driver loops |

## What is not as promised

* A mutex waiter that times out or is closed leaves the list in one region and cleans up in another. In between
  its own priority may change, or the mutex may lose its owner, and then the owner can keep a boost that nothing
  accounts for: `MutexSplit.SplitTimeoutLeavesBoost` and `MutexSplit.TwoLeaversLeaveBoost` are two such runs, both
  in an order that a priority scheduler on one processor allows. The comment at ipc.c:1314-1318 says that an owner
  gone by then has reset its priority; in the second run it has not. A step
  keeps every priority accounted for if and only if it is not a clean-up that finds the owner unsettled
  (`MutexExact.StepAccountedIff`). Settled is a question about the state before the clean-up: there is no owner,
  or the guard of ipc.c:1320 holds, or the owner's priority is accounted for by its own initial one, the ceiling,
  a waiter still in the list or another mutex (`MutexTimeout.OwnerSettled`). An owner is never too little urgent
  in any run (`MutexRuns.NoInversion`), and the priority of a mutex nobody is leaving is that of its first waiter
  in any run (`MutexExact.MutexPriorities`).
* A thread should be at least as urgent as the ceiling of a mutex it holds (ipc.c:779-780). A hand-off does not see to
  it (ipc.c:1489-1523): in the run `MutexCeiling.HandOffLosesCeiling` a thread of priority 10 is handed a mutex of
  ceiling 3 and stays at 10. Of all steps exactly a hand-off to a waiter less urgent than the ceiling breaks the
  promise (`MutexCeiling.StepHonoursIff`, `MutexCeiling.HeirDeservedIff`); over runs without one it holds
  (`MutexCeiling.ExactlyDeserved`).
* `stm32_flash_erase` accepts ranges that it does not erase: one below the ROM (`Flash.EraseBelowRom`) and one
  over the end of the address space (`Flash.EraseNothing`). The sectors erased cover the range if and only if it
  starts in the ROM and does not run over the end (`Flash.EraseCoversIff`). The comments above the write and
  erase functions speak of word units; the code writes words, half-words and bytes.
* `drv_pwm_get` multiplies in 32 bits: one second at 84 MHz is programmed right and read back wrong
  (`Pwm.OneSecond`). A period reads back within the resolution of the timer if and only if that product fits
  (`Pwm.PeriodRoundTripIff`, `Pwm.FitsIff`).
* The end-of-buffer branch of `dma_recv_isr` reports a whole buffer when everything has been reported already, as
  after the run of `Dma.WrappedReached` in `Dma.IdleFirst`; a call reports a byte that never came if and only if
  it is that one (`Dma.NoPhantomIff`).

## Model

| member | source | states |
|---|---|---|
| `WaitList.InsertSorted` | rt-thread/src/ipc.c:153-179 | priority insertion keeps a wait list sorted; the new thread stands behind every thread of equal priority and in front of every less urgent one |
| `WaitList.InsertDistinct` | rt-thread/src/ipc.c:131-187 | insertion adds exactly the new thread and no duplicate, at whatever place |
| `WaitList.WithoutDistinct` | rt-thread/include/rtservice.h:86-92 | removal takes out exactly the one thread and keeps the others once each |
| `WaitList.EnqueueEnters` | rt-thread/src/ipc.c:147-184 | the list after a suspension is the old one in its order with the thread put in: last under FIFO, in front of the first less urgent thread under priority |
| `WaitList.WithoutInOrder` | rt-thread/include/rtservice.h:86-92 | the list after a removal is the old one in its order without the one entry |
| `Lists.Init` | rt-thread/include/rtservice.h:47-50 | an initialised node is the empty circular list |
| `Lists.InsertAfter` | rt-thread/include/rtservice.h:58-65 | the circular doubly linked list, seen as a sequence, gains exactly the node, behind `l`; next and prev links agree all round |
| `Lists.InsertBefore` | rt-thread/include/rtservice.h:73-80 | the same in front of `l`; in front of the head is the end of the list |
| `Lists.Remove` | rt-thread/include/rtservice.h:86-92 | the list loses exactly the node, which becomes a list of its own |
| `Lists.RemoveAlone` | rt-thread/include/rtservice.h:86-92 | removing a node that is in no list changes nothing |
| `Lists.IsEmpty` | rt-thread/include/rtservice.h:98-101 | true exactly of the list with no entries |
| `Lists.Len` | rt-thread/include/rtservice.h:107-118 | counts the entries, and ends |
| `Lists.FindPlace` | rt-thread/src/ipc.c:158-177 | the pointer scan stops in front of the first less urgent entry, or at the head |
| `Lists.SuspendOn` | rt-thread/src/ipc.c:147-184 | suspension edits the pointers so that the list, as a sequence, is the FIFO or priority insertion of module WaitList |
| `Lists.ResumeFirst` | rt-thread/src/ipc.c:209-224 | resuming unlinks the first entry and leaves disjoint lists alone |
| `Lists.SAppend` | rt-thread/include/rtservice.h:194-204 | the singly linked list gains the node at its end |
| `Lists.SInsert` | rt-thread/include/rtservice.h:206-210 | the node comes directly behind the head |
| `Lists.SRemove` | rt-thread/include/rtservice.h:225-235 | exactly the node leaves the list; an absent node leaves it as it is |
| `Lists.SLen` | rt-thread/include/rtservice.h:212-223 | counts the entries, and ends |
| `MutexSpec.FoldTakenMeaning` | rt-thread/src/ipc.c:769-789 | the walk over the taken list returns the minimum of the initial priority and of priority and ceiling of every mutex held |
| `MutexSpec.BracketIsFolds` | rt-thread/src/ipc.c:769-789 | the pointwise invariant on a priority is P(t) <= current_priority <= Q(t), both directions, with P the fold with ceilings and Q the one without |
| `MutexSettle.InsertCurs` | rt-thread/src/ipc.c:812-822 | re-inserting a thread keeps the list sorted and makes its head at least as urgent |
| `MutexSettle.RequeueList` | rt-thread/src/ipc.c:807-826 | one re-queue restores order and `mutex->priority`, and keeps who waits |
| `MutexAnswers.RequeuePlace` | rt-thread/src/ipc.c:812-822 | a re-queued thread stands behind every waiter at least as urgent, equal priorities included, and in front of every other; the others keep their order |
| `MutexSettle.TurnDecreases` | rt-thread/src/ipc.c:792-845 | the propagation loop ends on every wait-for graph, cyclic ones included: a measure that each turn decreases |
| `MutexSettle.SettleRepairs` | rt-thread/src/ipc.c:792-845 | from a state wrong only at the first thread, the loop restores the bracket of every thread and the order of every list, for raising and for lowering |
| `MutexSettle.SettleFrame` | rt-thread/src/ipc.c:792-845 | threads and mutexes off the chain keep every field |
| `MutexOps.UpdateRepairs` | rt-thread/src/ipc.c:792-845 | a whole call of `_thread_update_priority` repairs the state and changes only priorities and list order |
| `MutexInv.TakeFreeInv` | rt-thread/src/ipc.c:1217-1234 | taking a free mutex, with or without a ceiling, keeps the invariant |
| `MutexInv.JoinOwner` | rt-thread/src/ipc.c:1271-1279 | after joining, the owner is either urgent enough already or is raised to exactly the new mutex priority |
| `MutexInv.BlockInv` | rt-thread/src/ipc.c:1250-1279 | suspending on an owned mutex, with transitive raising, keeps the invariant |
| `MutexInv.TakeInv` | rt-thread/src/ipc.c:1175-1372 | every way through a take up to its suspension keeps the invariant |
| `MutexAnswers.TakeAnswers` | rt-thread/src/ipc.c:1203-1302 | the answer of every take: RT_EOK on a free mutex, RT_EOK or at 255 holds -RT_EFULL to the owner, and on a mutex of somebody else -RT_ETIMEOUT without waiting and suspension with it |
| `MutexAnswers.TakeFreeAnswers` | rt-thread/src/ipc.c:1217-1234 | a free mutex gets the caller as owner with one hold, the caller the mutex and at least the urgency of the ceiling; no other record changes |
| `MutexAnswers.TakeOwnAnswers` | rt-thread/src/ipc.c:1203-1215 | a nested take changes the hold and nothing else, and at 255 not even that |
| `MutexAnswers.TryAnswers` | rt-thread/src/ipc.c:1239-1248 | a take that may not wait leaves the caller running with error -RT_ETIMEOUT, and every mutex and every other thread as they were |
| `MutexAnswers.BlockAnswers` | rt-thread/src/ipc.c:1250-1279 | a take that may wait suspends the caller on the mutex and puts it on its list; owners, holds and the other lists' members stay, and of the other threads only priorities change |
| `MutexAnswers.JoinPlace` | rt-thread/src/ipc.c:1258-1269 | the caller joins behind every waiter at least as urgent, equal priorities included, and in front of every other; the others keep their order |
| `MutexRelease.HandedIs` | rt-thread/src/ipc.c:1486-1523 | the whole state after a hand-off: new owner, hold 1, first waiter gone, priorities of both threads and the mutex |
| `MutexRelease.HandedTaker` | rt-thread/src/ipc.c:1489-1523 | the new owner is no less urgent than the waiters left behind it, although the ceiling is not applied |
| `MutexRelease.HandedPrioOk` | rt-thread/src/ipc.c:1510-1523 | the mutex priority is that of the next waiter |
| `MutexRelease.ReleaseInv` | rt-thread/src/ipc.c:1426-1543 | every release keeps the invariant: not the owner, nested, last with and without waiters |
| `MutexAnswers.ReleaseAnswers` | rt-thread/src/ipc.c:1426-1464 | RT_EOK to the owner alone; anybody else gets -RT_ERROR and changes nothing but its own error; a nested release only counts |
| `MutexAnswers.FreeAnswers` | rt-thread/src/ipc.c:1466-1532 | the last release without waiters leaves the mutex without owner and holds, off the list of the caller; no other record changes |
| `MutexAnswers.HandOverAnswers` | rt-thread/src/ipc.c:1466-1523 | the last release with waiters wakes the first of them and nobody else, with RT_EOK, one hold and the mutex in its list; the others stay in order |
| `MutexTimeout.AbandonRepairs` | rt-thread/src/ipc.c:1303-1350 | the clean-up after a waiter left makes the state whole, whether or not it recomputes the owner |
| `MutexTimeout.ExpireInv` | rt-thread/src/thread.c:131-160 | the timer half alone keeps the invariant, exact or not, except that the priority of the mutex left may be out of date |
| `MutexTimeout.CleanupLateInv` | rt-thread/src/ipc.c:1303-1350 | the second half, after any number of other regions, brings that mutex up to date and keeps the invariant; the exact one if the owner is settled |
| `MutexTimeout.RemoveInv` | rt-thread/src/scheduler_up.c:411-441 | the first region of rt_thread_detach keeps the invariant as a time-out does, for a waiting thread and for one that has timed out already |
| `MutexTimeout.DetachInv` | rt-thread/src/thread.c:438-456 | the second region, after any number of other regions, brings the mutex up to date and keeps the invariant; the exact one if the owner is settled |
| `MutexTimeout.DetachIs` | rt-thread/src/thread.c:438-456 | dropping the mutex of a thread already off the list is the clean-up of a timed-out take, on the whole state |
| `MutexTimeout.SetCeilingInv` | rt-thread/src/ipc.c:1008-1032 | changing a ceiling keeps the invariant and the shape of all lists; an invalid one changes nothing |
| `MutexTimeout.ReturnInv` | rt-thread/src/ipc.c:1303-1306 | a blocked take that returns RT_EOK owns the mutex |
| `MutexAnswers.ExpireAnswers` | rt-thread/src/thread.c:131-160 | the timer takes exactly its thread off the list, in order, and gives it the error -RT_ETIMEOUT |
| `MutexAnswers.CleanupAnswers` | rt-thread/src/ipc.c:1303-1361 | in every reachable state a take whose wait was cut short finds and returns -RT_ETIMEOUT; the clean-up ends the call and changes nothing else but priorities and list order |
| `MutexAnswers.RemoveAnswers` | rt-thread/src/scheduler_up.c:411-441 | the first region of rt_thread_detach takes exactly its thread off the list, or finds it off already and marks it |
| `MutexAnswers.CeilingAnswers` | rt-thread/src/ipc.c:1008-1032 | a priority below 32 becomes the ceiling and the ceiling before is returned; any other is answered 0xFF and changes nothing |
| `MutexRuns.InitialInv` | rt-thread/src/ipc.c:875-899 | freshly initialised objects satisfy the invariant |
| `MutexRuns.NoInversion` | rt-thread/src/ipc.c:751-845 | over every run, split time-outs included: lists sorted, nobody waits for an unowned mutex, an owner is at least as urgent as every waiter and as its own initial priority |
| `MutexRuns.StepBalanced` | rt-thread/src/ipc.c:1203-1532 | each region changes what a thread holds by exactly the takes and releases that return RT_EOK in it |
| `MutexRuns.HoldCountsTakes` | rt-thread/src/ipc.c:1203-1532 | over every run: hold is the number of completed takes less releases of the owner, at most 255, 0 exactly without an owner; owner and taken list agree |
| `MutexRuns.EokOwns` | rt-thread/src/ipc.c:1203-1234 | a take that returns RT_EOK at once leaves the caller owning the mutex |
| `MutexExact.StepAccountedIff` | rt-thread/src/ipc.c:1175-1543 | every priority stays accounted for by something held, and every mutex nobody is leaving has the priority of its first waiter, in a step if and only if the step is not a clean-up that finds the owner unsettled |
| `MutexExact.RunAccounted` | rt-thread/src/ipc.c:1175-1543 | the same over every run whose clean-ups find their owners settled |
| `MutexExact.MutexPriorities` | rt-thread/src/ipc.c:751-766 | over every run, time-outs split or not and owners settled or not: lists sorted, the priority of a mutex no less urgent than that of its first waiter, and exactly it, or 0xFF, when nobody is leaving the mutex |
| `MutexExact.ExactInheritance` | rt-thread/src/ipc.c:769-845 | over every run whose clean-ups find their owners settled, time-outs split or not, P(t) <= current_priority <= Q(t) for every thread; equality when the mutexes held have no ceiling; init_priority when nothing is held |
| `MutexExact.WholeSettled` | rt-thread/src/ipc.c:1303-1350 | in every run whose clean-ups directly follow the time-out or removal they belong to all owners are settled, so the exact results hold of it |
| `MutexCeiling.DeservedIff` | rt-thread/src/ipc.c:769-789 | within the bracket a thread has exactly the priority `_thread_get_mutex_priority` computes if and only if it is at least as urgent as every ceiling it holds |
| `MutexCeiling.HandedHonoursIff` | rt-thread/src/ipc.c:1486-1523 | a hand-off keeps all ceilings honoured if and only if the new owner was at least as urgent as the ceiling |
| `MutexCeiling.HeirDeservedIff` | rt-thread/src/ipc.c:1486-1523 | a new owner that had the priority it deserved has it after the hand-off if and only if it was at least as urgent as the ceiling |
| `MutexCeiling.StepHonoursIff` | rt-thread/src/ipc.c:1175-1543 | of all steps exactly a hand-off to a waiter less urgent than the ceiling breaks the ceilings |
| `MutexCeiling.ExactlyDeserved` | rt-thread/src/ipc.c:769-845 | over every run whose hand-offs go to waiters as urgent as the ceiling and whose clean-ups find their owners settled, every thread has at all times exactly the minimum of its own priority and priority and ceiling of every mutex it holds |
| `MutexCeiling.HandOffLosesCeiling` | rt-thread/src/ipc.c:1486-1523 | a concrete legal run of four regions after which a thread of priority 10 owns a mutex with ceiling 3 |
| `MutexSplit.SplitTimeoutLeavesBoost` | rt-thread/src/ipc.c:1303-1350 | a concrete legal run, in an order a priority scheduler allows, in which another thread raises the leaving waiter between the two halves: up to the last clean-up every priority is accounted for, that clean-up finds the owner unsettled, and the owner keeps a priority nobody accounts for |
| `MutexSplit.TwoLeaversLeaveBoost` | rt-thread/src/ipc.c:1303-1350 | a concrete legal run, in an order a priority scheduler allows, in which the second of two leavers finds no owner although the former owner has not reset its priority, against the comment at 1314-1318 |
| `MutexKernel.Kernel.GetMutexPriority` | rt-thread/src/ipc.c:769-789 | the loop over taken mutexes computes the fold |
| `MutexKernel.Kernel.UpdateMutexPriority` | rt-thread/src/ipc.c:751-766 | stores and returns the head waiter's priority or 0xFF |
| `MutexKernel.Kernel.RequeueThread` | rt-thread/src/ipc.c:807-826 | remove, re-insert, refresh: the new records |
| `MutexKernel.Kernel.PropagateOnce` | rt-thread/src/ipc.c:805-843 | one loop turn equals one turn of the specification, and says whether to go on |
| `MutexKernel.Kernel.UpdateThreadPriority` | rt-thread/src/ipc.c:792-845 | the loop over heap objects equals the recursive specification, and terminates |
| `MutexKernel.Kernel.TakeMutex` | rt-thread/src/ipc.c:1175-1302 | the whole new state of a take up to its suspension, and its answer by who owns the mutex and how often |
| `MutexKernel.Kernel.HandOver` | rt-thread/src/ipc.c:1486-1523 | the whole new state of a hand-off |
| `MutexKernel.Kernel.ReleaseMutex` | rt-thread/src/ipc.c:1426-1543 | the whole new state of a release, and RT_EOK exactly to the owner |
| `MutexKernel.Kernel.ThreadTimeout` | rt-thread/src/thread.c:131-160 | the whole new state when a timer fires: the thread ready with -RT_ETIMEOUT and off the list |
| `MutexKernel.Kernel.RemoveThread` | rt-thread/src/scheduler_up.c:411-441 | the whole new state when a thread inside a take is taken off the lists |
| `MutexKernel.Kernel.CleanUpAfter` | rt-thread/src/ipc.c:1309-1350 | the whole new state after re-reading the mutex priority and recomputing the owner |
| `MutexKernel.Kernel.FinishTimedOut` | rt-thread/src/ipc.c:1309-1361 | the whole new state at the end of a take that timed out, which returns -RT_ETIMEOUT |
| `MutexKernel.Kernel.DropThread` | rt-thread/src/ipc.c:952-997 | the whole new state of `rt_mutex_drop_thread` |
| `MutexKernel.Kernel.DetachThread` | rt-thread/src/thread.c:438-456 | the whole new state of the second region of rt_thread_detach |
| `MutexKernel.Kernel.SetPriorityCeiling` | rt-thread/src/ipc.c:1008-1032 | the whole new state and the returned ceiling, 0xFF for an invalid one |
| `WaitSide.SignalLosesNone` | rt-thread/src/ipc.c:209-224 | an operation that adds one item and resumes exactly the first sleeper, if there is one, loses no wake-up |
| `WaitSide.TakeLosesNone` | rt-thread/src/ipc.c:2707-2788 | a thread that takes an item, resumed or stealing, leaves enough wake-ups for the rest |
| `WaitSide.SleepLosesNone` | rt-thread/src/ipc.c:2715-2732 | a thread sleeps only when there is nothing |
| `WaitSide.ExpireLosesNone` | rt-thread/src/thread.c:131-160 | a time-out loses no wake-up |
| `WaitSide.QueuedJoins` | rt-thread/src/ipc.c:147-184 | a suspended thread stands where the flag of the object wants it, the others in their order |
| `Semaphore.Counter.TakeOne` | rt-thread/src/ipc.c:525-586 | RT_EOK if and only if there was a unit, and exactly one is taken; -RT_ETIMEOUT if and only if there was none and the caller may not wait, with nothing changed; otherwise the caller alone is queued |
| `Semaphore.Counter.ReleaseOne` | rt-thread/src/ipc.c:666-683 | the first sleeper, if there is one, is resumed and the others stay in order; else the count goes up, or -RT_EFULL at 65535 with nothing changed |
| `Semaphore.Counter.Reset` | rt-thread/src/ipc.c:711-738 | all waiters resumed in order, value cut to 16 bits |
| `Semaphore.TakeAnswers` | rt-thread/src/ipc.c:525-586 | status, count and list of a take in every case |
| `Semaphore.ReleaseAnswers` | rt-thread/src/ipc.c:666-683 | status, count, list and resumed thread of a release in every case |
| `Semaphore.StepInv` | rt-thread/src/ipc.c:502-693 | value > 0 only with an empty list; value <= 65535 |
| `Semaphore.UnitsConserved` | rt-thread/src/ipc.c:502-693 | over every run without reset: initial value + releases that returned RT_EOK = value + takes that returned RT_EOK + hand-offs not yet returned |
| `Event.ScanSplits` | rt-thread/src/ipc.c:1805-1869 | the scan of the wait list resumes exactly the satisfied waiters, keeps the others, and never takes the -RT_EINVAL exit for waiters with a legitimate option |
| `Event.SatisfiedIs` | rt-thread/src/ipc.c:1812-1838 | waiting for all is over if and only if every bit waited for is set, waiting for any if and only if one of them is |
| `Event.ScanInOrder` | rt-thread/src/ipc.c:1805-1864 | waiters are resumed, and kept, in list order |
| `Event.DeliveredRight` | rt-thread/src/ipc.c:1820-1838 | a resumed waiter receives exactly the bits it waited for that are set: all it waited for under AND, at least one under OR |
| `Event.ClearedExactly` | rt-thread/src/ipc.c:1853-1868 | a bit is cleared if and only if some resumed CLEAR waiter received it |
| `Event.SendMeaning` | rt-thread/src/ipc.c:1784-1879 | a send to a stable event succeeds and leaves it stable; a flag is set afterwards if and only if it was set or sent and no resumed CLEAR waiter received it |
| `Event.RecvAtOnce` | rt-thread/src/ipc.c:1949-1981 | a receive succeeds at once exactly when its condition holds; it delivers and clears exactly the right bits |
| `Event.RecvStable` | rt-thread/src/ipc.c:1949-2036 | a receive keeps the event stable, also when the caller goes to sleep |
| `Event.RecvSleeps` | rt-thread/src/ipc.c:1924-2036 | a receive is suspended if and only if its condition does not hold and it may wait; the flags stay, and the list gains exactly its want, with these bits and this option; without waiting -RT_ETIMEOUT, with nothing changed |
| `Event.SleeperServed` | rt-thread/src/ipc.c:1784-2036 | from a receive that sleeps to a send: a send that completes the condition resumes it with exactly the right bits and clears them if asked to, any other leaves it asleep with its bits and option |
| `Event.FewerFlags` | rt-thread/src/ipc.c:1865-1868 | clearing flags satisfies nobody, which is why one scan is enough |
| `EventRuns.NobodySleepsSatisfied` | rt-thread/src/ipc.c:1784-2118 | over every run of sends, receives, time-outs and resets no suspended condition holds, and the -RT_EINVAL exit is unreachable |
| `EventRuns.RemoveIs` | rt-thread/src/thread.c:131-160 | a time-out takes exactly its thread off the list, and the others keep their order |
| `EventObject.EventFlags.ScanWaiters` | rt-thread/src/ipc.c:1805-1864 | the loop that edits the list while walking it equals the recursive scan, waiters' records included |
| `EventObject.EventFlags.SendEvent` | rt-thread/src/ipc.c:1784-1879 | the whole new state and result of a send |
| `EventObject.EventFlags.ReceiveEvent` | rt-thread/src/ipc.c:1915-2045 | the whole new state, result and received bits of a receive up to its suspension; a sleeper stands in the list with its bits and option in its record |
| `EventObject.EventFlags.ResetEvent` | rt-thread/src/ipc.c:2090-2118 | every sleeper resumed with an error, no flag set |
| `Mailbox.WrapIsModulo` | rt-thread/src/ipc.c:2485-2488 | one conditional subtraction is the modulo of the offsets |
| `Mailbox.Ring.OffsetsModular` | rt-thread/src/ipc.c:2482-2498 | (out_offset + entry) mod size = in_offset |
| `Mailbox.Ring.Append` | rt-thread/src/ipc.c:2482-2498 | the window gains the mail at its end, and the RT_MB_ENTRY_MAX exit is never taken |
| `Mailbox.Ring.Send` | rt-thread/src/ipc.c:2414-2511 | append to a bounded deque: new contents, lists and result; a send that succeeds resumes exactly the first sleeping receiver |
| `Mailbox.Ring.Urgent` | rt-thread/src/ipc.c:2593-2645 | prepend by rewinding out_offset: new contents and result; exactly the first sleeping receiver is resumed |
| `Mailbox.Ring.Detach` | rt-thread/src/ipc.c:2776-2788 | reads the oldest mail and advances: the old contents are it followed by the new |
| `Mailbox.Ring.Receive` | rt-thread/src/ipc.c:2707-2803 | new contents, lists, result and the mail received; exactly the first sleeping sender is resumed |
| `Mailbox.Ring.Reset` | rt-thread/src/ipc.c:2845-2877 | everyone on both lists resumed in order, all offsets zero |
| `Mailbox.SendAnswers` | rt-thread/src/ipc.c:2414-2511 | a send with room appends and resumes exactly the first sleeping receiver; without room it queues exactly the caller, or answers -RT_EFULL and changes nothing |
| `Mailbox.UrgentAnswers` | rt-thread/src/ipc.c:2606-2645 | the same for urgent mail, in front and without waiting |
| `Mailbox.RecvAnswers` | rt-thread/src/ipc.c:2707-2803 | a receive with mail takes the oldest and resumes exactly the first sleeping sender; without mail it queues exactly the caller, or answers -RT_ETIMEOUT and changes nothing |
| `MailboxRuns.StepInv` | rt-thread/src/ipc.c:2379-2877 | each step keeps the invariant with time-outs, stealing and resets |
| `MailboxRuns.NoLostWakeup` | rt-thread/src/ipc.c:2414-2803 | over every run, with the threads the operations themselves resume: while someone sleeps on a side, the items (or free slots) are at most the resumed threads of that side that have not rechecked; entry <= size |
| `MailboxRuns.FirstInFirstOut` | rt-thread/src/ipc.c:2379-2811 | over every run without urgent mail and resets: what was in it, then sent, is what was received, then what is left |
| `MailboxRuns.NothingLost` | rt-thread/src/ipc.c:2379-2811 | with urgent mail the same as multisets |
| `MailboxRuns.UrgentIsNext` | rt-thread/src/ipc.c:2606-2626 | urgent mail is the next one received |
| `MessageQueue.Queue.constructor` | rt-thread/src/ipc.c:2957-2983 | the free list holds every block once; the message list is empty |
| `MessageQueue.Queue.TakeFreeBlock` | rt-thread/src/ipc.c:3254-3322 | the first free block, or asleep, or full; both lists stay well formed |
| `MessageQueue.Queue.FinishSend` | rt-thread/src/ipc.c:3363-3400 | the block is appended or prepended with head, tail and entry right; exactly the first sleeping receiver is resumed; the RT_MQ_ENTRY_MAX exit is never taken |
| `MessageQueue.Queue.TakeFirstMessage` | rt-thread/src/ipc.c:3645-3727 | the first message is unlinked with head, tail and entry right |
| `MessageQueue.Queue.FinishReceive` | rt-thread/src/ipc.c:3744-3763 | the block goes in front of the free list; exactly the first sleeping sender is resumed |
| `MessageQueue.Queue.Reset` | rt-thread/src/ipc.c:3842-3877 | all messages go back to the free list in the order of the loop; everyone on both lists is resumed in order |
| `MessageQueue.Queue.CopyIn` | rt-thread/src/ipc.c:3327-3333 | the block holds exactly the bytes sent and their length; the queue, its lists included, is as it was |
| `MessageQueue.Queue.CopyOut` | rt-thread/src/ipc.c:3732-3738 | min(length, size) bytes are copied out |
| `MessageQueue.Queue.LinkByPriority` | rt-thread/src/ipc.c:3337-3362 | the pointer surgery in every case (empty, head, middle, tail) inserts the block in front of the first message of lower priority, in the list and in its priorities; the order kept is WaitList.InsertSorted |
| `MessageQueue.TakeBlockAnswers` | rt-thread/src/ipc.c:3254-3322 | a send with a free block takes the first; without one it queues exactly the caller, or answers -RT_EFULL and changes nothing |
| `MessageQueue.LinkAnswers` | rt-thread/src/ipc.c:3363-3400 | linking puts the block at the end, or in front if urgent, and resumes exactly the first sleeping receiver |
| `MessageQueue.TakeMessageAnswers` | rt-thread/src/ipc.c:3645-3727 | a receive with a message unlinks the first; without one it queues exactly the caller, or answers -RT_ETIMEOUT and changes nothing |
| `MessageQueue.FreeAnswers` | rt-thread/src/ipc.c:3744-3763 | the block goes back in front of the free list, and exactly the first sleeping sender is resumed |
| `MessageQueue.ResetAnswers` | rt-thread/src/ipc.c:3842-3877 | a reset puts every message on the free list, the last one first, in front of what was free, and empties both wait lists |
| `WaitList.DistinctFits` | rt-thread/src/ipc.c:3378-3387 | distinct blocks of a pool are no more than its size, so the entry counter cannot overflow |
| `MessagePriority.StopsRight` | rt-thread/src/ipc.c:3343-3362 | the scan stops behind every message at least as urgent and in front of every other |
| `MessagePriority.RunOrdered` | rt-thread/src/ipc.c:3337-3362 | over every run the list stays sorted by priority, then by order of linking |
| `MessagePriority.NextIsMostUrgent` | rt-thread/src/ipc.c:3714-3721 | the message unlinked next is the most urgent, and among those the one linked first |
| `MessageQueueInv.StepInv` | rt-thread/src/ipc.c:3206-3881 | every step, one byte of a payload copy included, keeps block, data and wake-up invariants |
| `MessageQueueDeque.StepRefines` | rt-thread/src/ipc.c:3206-3881 | each step acts on a bounded deque of byte strings as its effect says: linking appends or prepends, unlinking removes the front, everything else does nothing |
| `MessageQueueDeque.LinkedWhole` | rt-thread/src/ipc.c:3327-3376 | a block is linked only when it holds its whole message, although copies run with interrupts enabled |
| `MessageQueueDeque.DeliveredWhole` | rt-thread/src/ipc.c:3732-3738 | a finished receive delivered exactly the first min(length, size) bytes of the message it unlinked |
| `MessageQueueDeque.ReachableOk` | rt-thread/src/ipc.c:2957-2983 | over every run, with the threads the operations themselves resume: the blocks are partitioned into free list, message list and hands of threads, and no wake-up is lost on either side |
| `MessageQueueDeque.Bounded` | rt-thread/src/ipc.c:3254-3320 | the deque never holds more messages than the queue has blocks |
| `MessageQueueDeque.RunRefines` | rt-thread/src/ipc.c:3206-3881 | over every run, urgent messages, time-outs and resets included, the contents are what appends, prepends, pops and clears in the order of linking and unlinking make of the contents before, and every receive gets the front |
| `MessageQueueDeque.FirstInFirstOut` | rt-thread/src/ipc.c:3206-3771 | over every run without urgent messages and resets: contents, then messages linked, are messages unlinked, then contents |
| `MemPool.SlotsApart` | rt-thread/src/mempool.c:123-128 | slots do not overlap |
| `MemPool.FullOk` | rt-thread/src/mempool.c:122-131 | the initial list goes through all slots in order |
| `MemPool.PopOk` | rt-thread/src/mempool.c:387-399 | taking the first block keeps the list well formed and every other header as it was; the header then names the pool |
| `MemPool.PushOk` | rt-thread/src/mempool.c:425-439 | putting a block back keeps the list well formed |
| `MemPool.Pool.SlotsDisjoint` | rt-thread/src/mempool.c:107-128 | every slot lies inside the memory of the pool, and no two overlap |
| `MemPool.Pool.constructor` | rt-thread/src/mempool.c:89-136 | sizes aligned, block count, and a free list of all slots |
| `MemPool.Pool.ThreadFreeList` | rt-thread/src/mempool.c:122-133 | the loop links all slots and ends the list |
| `MemPool.Pool.AllocBlock` | rt-thread/src/mempool.c:319-407 | a block whose header names the pool, or RT_NULL and the caller asleep at the front of the list, or RT_NULL; the free count stays the length of the well-formed list |
| `MemPool.Pool.FreeBlock` | rt-thread/src/mempool.c:415-465 | the block is the new first free one and exactly the first sleeper is resumed |
| `MemPool.AllocAnswers` | rt-thread/src/mempool.c:319-407 | an allocation takes the first free block; without one exactly the caller goes to the front of the sleepers, or gets RT_NULL with nothing changed |
| `MemPool.FreeAnswers` | rt-thread/src/mempool.c:415-465 | a free puts the block in front and resumes exactly the first sleeper |
| `MemPool.AlignMeaning` | rt-thread/include/rtdef.h:461-470 | sizes are rounded to the nearest multiples of a word on either side |
| `MemPoolRuns.StepInv` | rt-thread/src/mempool.c:319-465 | each step keeps: free and handed-out slots partition the pool, wake-ups are not lost |
| `MemPoolRuns.NeverHandedOutTwice` | rt-thread/src/mempool.c:319-465 | over every history a block handed out is one nobody holds; free count + held = total; no wake-up is lost |
| `Ethernet.Ring.CopyPbuf` | drivers/drv_eth.c:218-250 | one pbuf, of any length and at any offset, extends the stream in the descriptor buffers by its bytes |
| `Ethernet.Ring.Transmit` | drivers/drv_eth.c:207-251 | it succeeds if and only if every descriptor the chain needs is the driver's own; then the buffers hold the bytes of the chain in order and framelength is their sum |
| `Ethernet.Ring.FillPbuf` | drivers/drv_eth.c:332-351 | the inner loop reads the next bytes of the stream |
| `Ethernet.Ring.Receive` | drivers/drv_eth.c:326-353 | the chain, whatever its shape, receives the bytes of the buffers in order |
| `Ethernet.Ring.ReleaseSegments` | drivers/drv_eth.c:355-363 | exactly the descriptors of the frame go back to the DMA |
| `Ethernet.Loopback` | drivers/drv_eth.c:207-352 | what was transmitted is received, into any chain of the same total length, as the same bytes, if and only if the descriptors needed were the driver's own |
| `Ethernet.FullKept` | drivers/drv_eth.c:223-245 | writing one buffer leaves the earlier ones alone until the ring comes round |
| `Flash.SectorContains` | drivers/drv_flash_f4.c:58-93 | the sector found contains the address if and only if the address is in the table |
| `Flash.SectorSizes` | drivers/drv_flash_f4.c:26-34 | four sectors of 16 Kbytes, one of 64 and three of 128, from 0x08000000 and without gaps |
| `Flash.EraseCoversIff` | drivers/drv_flash_f4.c:315-342 | an accepted erase covers its range, first and last sector both meeting it, if and only if the range starts in the ROM and does not run over the end of the address space |
| `Flash.EraseBelowRom` | drivers/drv_flash_f4.c:315-342 | a concrete range below the ROM that is accepted and erases sector 0 |
| `Flash.EraseNothing` | drivers/drv_flash_f4.c:315-342 | a concrete range over the end of the address space that is accepted and whose loop of sectors is empty |
| `Flash.Device.WriteUnit` | drivers/drv_flash_f4.c:232-287 | an aligned word, half-word or byte is programmed, read back and compared; the bytes before it stay |
| `Flash.Device.Write` | drivers/drv_flash_f4.c:210-297 | when the size is returned the flash holds the buffer and nothing else changed; when it fails nothing outside the range did; blank flash on a part without faults is always written; the loop ends |
| `Flash.Device.Erase` | drivers/drv_flash_f4.c:309-360 | on success exactly the sectors from that of the first address to that of the last are blank, none if the last comes first, and so the range when it lies in the ROM; a part without faults never fails |
| `Pwm.Timer.Set` | drivers/drv_pwm.c:310-333 | the registers programmed |
| `Pwm.Timer.Get` | drivers/drv_pwm.c:264-276 | the configuration read back |
| `Pwm.RegistersFit` | drivers/drv_pwm.c:314-332 | auto-reload fits 16 bits, at least three ticks, 1 <= compare <= auto-reload |
| `Pwm.NothingCut` | drivers/drv_pwm.c:312-314 | with any timer clock below 1 GHz neither the period in ticks nor the prescaler is cut by its width |
| `Pwm.PrescalerKeptIff` | drivers/drv_pwm.c:312-314 | at any clock the prescaler fits its 16-bit register if and only if the period is below 65536 * 65535 ticks |
| `Pwm.FitsIff` | drivers/drv_pwm.c:273-314 | below 1 GHz nothing is lost to 32 bits if and only if the product read back does not exceed them |
| `Pwm.PeriodRoundTripIff` | drivers/drv_pwm.c:273-321 | 0 <= requested - read back < scale * 1000 / clk + 1 if and only if neither the period in ticks nor the product read back exceeds 32 bits |
| `Pwm.ShortPeriod` | drivers/drv_pwm.c:316-319 | fewer than three ticks are lengthened to three and read back as no less than asked |
| `Pwm.PulseRoundTrip` | drivers/drv_pwm.c:322-330 | a pulse no longer than a period that fits is never cut to it and reads back as closely |
| `Pwm.ShortPulse` | drivers/drv_pwm.c:323-327 | a pulse of fewer than two scaled ticks is lengthened to two |
| `Pwm.LongPulse` | drivers/drv_pwm.c:323-331 | below 1 GHz a pulse no shorter than the period is cut to the whole period |
| `Pwm.OneSecond` | drivers/drv_pwm.c:273-275 | a concrete second at 84 MHz, programmed right and read back wrong |
| `Pwm.DivisionCloseIff` | drivers/drv_pwm.c:263-311 | below 1 GHz a period that fits reads back within the same bound of what was asked for if and only if the division, which the driver sets to 1, is 1 |
| `Pwm.DivisionReadsLong` | drivers/drv_pwm.c:263-275 | the same registers read with a divided clock are at least two or four times as long |
| `Pwm.DividedIs` | drivers/drv_pwm.c:264-271 | the divided clock is the clock over 1, 2 or 4, rounded down |
| `Dma.Uart.Isr` | drivers/drv_usart_v2.c:392-423 | the length reported and the position remembered |
| `Dma.ReportOf` | drivers/drv_usart_v2.c:396-416 | what each of the three interrupts reports of any number of bytes |
| `Dma.PositionKept` | drivers/drv_usart_v2.c:418-422 | the remembered position stays that of the last report |
| `Dma.NoPhantomIff` | drivers/drv_usart_v2.c:396-416 | a call reports no byte that has not arrived if and only if it is not the end-of-buffer interrupt with nothing unreported |
| `Dma.IdleExactIff` | drivers/drv_usart_v2.c:398-403 | the idle interrupt reports everything if and only if less than a whole buffer was unreported |
| `Dma.CallExact` | drivers/drv_usart_v2.c:392-423 | in every reachable state of the protocol an idle or end-of-buffer call reports exactly what is unreported; a half-way call that or nothing |
| `Dma.SumExact` | drivers/drv_usart_v2.c:392-423 | over every run the lengths add up to no more than has arrived, and to exactly that after the next idle or end-of-buffer call |
| `Dma.WrappedReached` | drivers/drv_usart_v2.c:392-423 | a legal run of bytes and calls leads to the state of Dma.IdleFirst |
| `Dma.IdleFirst` | drivers/drv_usart_v2.c:398-416 | a concrete state in which serving the idle interrupt first makes the end-of-buffer one report a buffer that never came |

## Left out

- MutexExact.ExactInheritance: is about runs whose clean-ups find their owners settled; of others it is false, see MutexSplit.TwoLeaversLeaveBoost, and MutexExact.StepAccountedIff says at which step it fails.
- MutexCeiling.ExactlyDeserved: is about runs whose hand-offs besides go to waiters as urgent as the ceiling; MutexCeiling.StepHonoursIff says at which step the ceilings fail.
- MutexTimeout.RemoveInv: between the two regions of `rt_thread_detach` the code still takes the thread for a suspended waiter. Raising its priority then would put it back into the list and read the owner of the mutex, which may be null by then, and its timer could make it ready again; those interleavings are not part of this model.
- MutexTimeout.DetachInv: as the line before says of MutexTimeout.RemoveInv.
- Semaphore.UnitsConserved: runs have no reset, which sets the value to anything; the reset itself is Semaphore.Counter.Reset.
- MailboxRuns.FirstInFirstOut: runs have no urgent mail and no reset; MailboxRuns.NothingLost covers urgent mail, MailboxRuns.StepInv covers resets.
- MessageQueueDeque.FirstInFirstOut: runs have no urgent messages and no reset; MessageQueueDeque.RunRefines covers both.
- Ethernet.Ring.Transmit: for a chain longer than all buffers of the ring only the length is stated, because the code then overwrites its own first buffer.
- Ethernet.Loopback: needs a chain that fits the ring, for the same reason; the transfer between the two rings is the identity.
- MemPool.Pool.constructor: needs memory for at least one block; with none the code writes its end mark in front of the memory. Sizes are unbounded, so the 32-bit wrap of the alignment is not modelled.
- Dma.SumExact: needs less than a buffer unreported and the end-of-buffer interrupt served before the idle one after a wrap; Dma.IdleExactIff and Dma.NoPhantomIff say that both are necessary. A counter read at the instant of its reload is taken as reloaded.
- Pwm.Timer.Get: a clock below 1 MHz divides by zero in the code and is excluded.
- Pwm.DivisionCloseIff: is about clocks below 1 GHz, periods of three ticks or more and periods that fit; Pwm.ShortPeriod and Pwm.PeriodRoundTripIff are about the others.
- Flash.Device.Write: the returned size is a number; a size of 2^31 or more would come out negative through `int`.
- Priorities of threads waiting for semaphores, events, mailboxes and message queues are arbitrary at each suspension: only mutexes re-sort their lists when a priority changes, so those lists are not claimed to stay sorted.
- Event sets are sets of bit numbers 0 to 31 instead of words.
- In the runs of semaphores, events, mailboxes, message queues and pools threads are numbers; in the mutex model they are objects.
- Object detach and delete (they leave owner fields as they were), dynamic creation, names, hooks, logging, parameter checks and debugging macros.
- Signals, interruptible and killable waits, multi-processor locks and user-space threads: not configured.
- Scheduler, timer, thread and heap internals, `rt_schedule` and the choice of the next running thread.
- Closing a thread that waits for something other than a mutex.
- HAL set-up, `HAL_ETH_TransmitFrame`, status registers, clocks, channels and dead time of timers, the serial layer behind `rt_hw_serial_isr`.
- The 32-bit wrap of `framelength`, and reads outside the flash through `stm32_flash_read`.
- Flash sectors from number 8 on: not defined for a part of 256 Kbytes.
- The queues' `rt_*_control` commands other than reset, and initialisation other than that listed above.
