# Verification of the `ContentionQueue` hand-off protocol

`ContentionQueue` lets many threads process values one at a time. A call either finds the front
free and takes it (the fast path), or it pushes a task into a FIFO and parks on a condition
variable of its own. The call at the front runs its callback; the callback may look at and take the
values of later tasks, and it may unlock the mutex meanwhile. Whoever leaves, normally or by
unwinding, wakes exactly the head task and thereby passes the front on, or releases the front if
the queue is empty. This project models that protocol for any number of calls, any queue length and
any interleaving, and proves what the comments of the source argue informally.

## How the model is built

- `TaskState.dfy`, `SharedState.dfy`, `Queue.dfy`, `QueueHandle.dfy`: the source's objects as
  classes with mutable fields, one method for each critical section. `QueueState.dfy` has the same
  critical sections as functions on values; the methods are proved equal to them.
- `Protocol.dfy`: a transition system over a snapshot (mutex owner, poison flags, shared fields,
  state words, a program counter for each call, and a history). An action is one critical section,
  so actions interleave exactly where the mutex is not held: in `Condvar::wait`, inside `unlocked`,
  between an unwind and the relock, and while a caller has the guard. Spurious wakeups, callers
  that reuse a returned guard at once, and concurrent clearing of either poison are actions.
- Each method of `ContentionQueue` and `QueueHandle` also carries a ghost snapshot and is proved to
  take it through exactly one action, from any reachable snapshot to a reachable one. So any
  interleaving of the methods is a run of the protocol.
- `Invariant.dfy` is the inductive invariant; `Safety.dfy`, `History.dfy`, `Interference.dfy`,
  `Poison.dfy`, `Frames.dfy`, `Reports.dfy`, `Progress.dfy`, `Hang.dfy`, `Liveness.dfy`,
  `Cascade.dfy` and `Facade.dfy` state the results. They hold in every reachable state or for every run, finite or
  infinite; none bounds the number of calls or steps.
- `Liveness.FairRun` lists what an infinite run must satisfy: no leaked guard; a callback takes
  finitely many steps and does not stop for ever with the mutex in hand and no window open; callers
  let go of the mutex; and a turn that can make its next step again and again makes one. The relock
  that ends `unlocked` is such a step, so the last point also covers the end of its closure.
- Calls are named by the order in which they run `try_acquire_front_fast`. That is only a way to
  name them: which task is pushed, popped, woken or granted is always read from the queue itself.
- `State.broken` becomes true if the modelled code pops an empty queue, pops the task of another
  call, touches a task whose stack frame is gone, or fails an `expect` of the handle. It is proved
  to stay false.

## Where the code differs from its documentation

The model follows the code. `Config.unwindDropsGuard` is a constant of the model: false is the code
as written, true is the documented intent. Safety is proved for both.

- **Unwinding callbacks.** The guard sits in a `MaybeUninit` while the callback runs
  (src/queue.rs:557), so an unwinding callback leaks it and src/queue.rs:644 locks a mutex that its
  own thread still holds. README.md:29-32 promises that unwinds cause no hangs.
  `Counterexamples.UnwindCanHang` is a run in which two calls wait for ever, `Hang.StuckForever`
  shows that nothing ever moves again, and `Hang.NoHangIff` gives the exact condition.
- **Queue poison on the fast path.** src/interface.rs:66-67 promises a panic if a preceding call
  panicked. Only calls that waited look at the flag (src/queue.rs:494-540).
  `Counterexamples.FastPathSkipsQueuePoison` is a run. `Poison.StoppedIffFrontLocked` is the exact
  condition: a call that arrives after a panic is stopped iff it finds the front locked.
- **The panic bit.** src/interface.rs:103-107 says that `ProcessingPanicked` tells how the call that
  took the value ended. The bit tells how the immediate predecessor left. As written every such
  report is false (`Reports.AsWrittenAlarmsAreFalse`; `Counterexamples.PanicReportCanBeWrong` is a
  run). `Reports.ReliableIff` says for which options, and with or without clearing of queue poison,
  all reports of all runs are right; `Reports.PanicReportExact` says for one report of one run when
  it is raised and when it is right.

## Model

| member | source | states |
|---|---|---|
| TaskStates.TaskState.WaitUntilAtFront | src/task_state.rs:74-93 | the waiting loop parks before its first look, leaves at the first word with the front bit whatever caused the wakeups before, reports the panic bit of that same word, and leaves the word as the others made it, whether it is left or still parked |
| TaskStates.TaskState.Recheck | src/task_state.rs:88-91 | one pass of that loop: it is left iff the front bit is set, otherwise the owner parks again |
| TaskStates.TaskState.WakeFrontTask | src/task_state.rs:99-105 | ors the front bit in and ends the sleep, never clearing a bit |
| TaskStates.TaskState.WakeFrontTaskPanicking | src/task_state.rs:111-117 | ors both bits in and ends the sleep |
| SharedState.ErasedTask.Take | src/task.rs:131-181 | empties the slot and hands its value out once |
| SharedState.MutexExclusive.TryAcquireFrontFast | src/queue.rs:295-314 | succeeds iff the front was not locked, and locks it then and only then |
| SharedState.MutexExclusive.constructor | src/queue.rs:168-178 | nothing is locked, poisoned or queued |
| SharedState.MutexExclusive.PushBack | src/queue.rs:349-368 | the new task is behind all old ones, full, with a state of its own |
| SharedState.MutexExclusive.PushAndPark | src/queue.rs:349-383 | push, then park with word 0 |
| SharedState.MutexExclusive.Park | src/task_state.rs:80 | puts one call to sleep and leaves its word and all other states alone |
| SharedState.MutexExclusive.Recheck | src/task_state.rs:79-92 | one pass of the waiting loop of one call, leaving all other states alone |
| SharedState.MutexExclusive.PopFront | src/queue.rs:396-412 | removes exactly the head and classifies its owner by the emptied slot and the panic bit |
| SharedState.MutexExclusive.Wake | src/task_state.rs:99-117 | the call woken gets the bits that tell how its predecessor left, and no other state changes |
| SharedState.MutexExclusive.HandOn | src/queue.rs:724-785 | writes the word of the head only, or unlocks the front if there is no head |
| SharedState.MutexExclusive.PoisonAndHandOn | src/queue.rs:652-706 | poisons the queue and hands on with the panic bit |
| SharedState.MutexExclusive.SetQueuePoisoned | src/queue.rs:893 | writes the flag and nothing else |
| SharedState.MutexExclusive.Take | src/queue_handle.rs:173-182 | empties one slot and leaves length, order and all other slots alone |
| Queue.ContentionQueue.EmptySlot | src/queue_handle.rs:173-182 | the same for the whole queue: the slot's old value comes out and the object is in the snapshot with that slot emptied |
| Queue.ContentionQueue.constructor | src/queue.rs:160-179 | the initial state of the protocol |
| Queue.ContentionQueue.Begin | src/queue.rs:481-519 | a new call is exactly one arrival step: front acquired and mutex kept, or task queued, mutex released and a fresh state registered for it |
| Queue.ContentionQueue.EnterQueue | src/queue.rs:349-383 | the slow path is exactly one arrival step, from any reachable state in which the front is locked |
| Queue.ContentionQueue.AfterWait | src/task_state.rs:79-92 | one return of `wait` is exactly one wake check, and it keeps the mutex iff the loop is left |
| Queue.ContentionQueue.PopOwnTask | src/queue.rs:396-412 | the queue is not empty and its head is the task of the popping call; popping is one protocol step and yields the classification the protocol assigns |
| Queue.ContentionQueue.AssertQueueNotPoisoned | src/queue.rs:529-550 | fails iff poison is unwrapped and set; a failure frees and poisons the mutex; success keeps the mutex and its poison flag as they were and continues as classified |
| Queue.ContentionQueue.AssertMutexNotPoisoned | src/queue.rs:553-582 | fails iff mutex poison is unwrapped and set; success starts the callback with a fresh handle; the poison flag is the same afterwards either way |
| Queue.ContentionQueue.AfterCallback | src/queue.rs:582-596 | the return of a callback is one protocol step that keeps the mutex and touches neither the queue nor any poison |
| Queue.ContentionQueue.LeaveOk | src/queue.rs:712-787 | the Ok exit is one protocol step; afterwards the front is locked iff the queue is not empty, and the mutex is still held for the caller |
| Queue.ContentionQueue.LeaveErr | src/queue.rs:642-709 | the Err exit is one protocol step, also after tasks arrived in the gap; the queue is poisoned and the mutex free |
| Queue.ContentionQueue.ClearPoison | src/queue.rs:882-896 | clears only the queue poison, as one step, leaving the mutex free |
| QueueHandles.QueueHandle.constructor | src/queue_handle.rs:87-115 | a new handle starts at index 0 and is where the protocol says |
| QueueHandles.QueueHandle.Peek | src/queue_handle.rs:120-159 | shows the earliest value in arrival order that nobody has taken; the slot it reads is full, so its `expect` cannot fire |
| QueueHandles.QueueHandle.Pop | src/queue_handle.rs:166-198 | takes that same value, as one protocol step, and moves on by one iff there was one |
| QueueHandles.QueueHandle.TakeNext | src/queue_handle.rs:173-195 | the slot it empties was full and held the next value in arrival order, so the `expect` of `pop` cannot fire |
| QueueHandles.QueueHandle.IsQueuePoisoned | src/queue_handle.rs:382-388 | reports the poison flag of the snapshot |
| QueueHandles.QueueHandle.ClearQueuePoison | src/queue_handle.rs:396-402 | clears the flag from inside a callback, as one step |
| QueueHandles.QueueHandle.OpenWindow | src/queue_handle.rs:259-285 | `unlocked` frees the mutex, poisoning it iff the thread is unwinding then, and keeps the handle where it was |
| QueueHandles.QueueHandle.CloseWindow | src/queue_handle.rs:289-350 | after the window the mutex is held again and the handle is still valid where it was |
| Invariant.InvStep | src/queue_state.rs:30-58 | every action of every call keeps all stated invariants of the shared state together |
| Invariant.ReachableInv | src/queue_state.rs:30-58 | so they hold in every reachable state |
| Safety.SinglePermission | src/queue.rs:77-118 | in every reachable state `front_locked` holds iff one call holds the front or the head has been offered it; never both, never two; unlocked implies an empty queue; only the head's word carries the front bit |
| Safety.MutualExclusion | src/queue.rs:102-107 | a call is between two lock operations iff it is the one that holds the mutex |
| Safety.StrictFifo | src/queue_handle.rs:27-28 | grants happen in arrival order, and granted calls followed by queued ones are all calls |
| Safety.NoBarging | src/queue.rs:295-314 | the fast path is taken iff every earlier call has left, also by a caller that reuses its guard |
| Safety.QueueShape | src/queue_state.rs:30-33 | emptied slots come before full ones; an active handle's index is the length of the emptied run; that run is empty when a callback is about to start |
| Safety.HandleSeesNextArrival | src/queue_handle.rs:51-57 | what a handle sees at its index is the first unsettled value in arrival order, or nothing when all are settled |
| Safety.OwnTaskPop | src/queue_state.rs:47-50 | a call that leaves the waiting loop holds the mutex and finds its own task at the head |
| Safety.NoLostWakeup | src/task_state.rs:79-105 | a sleeping call has word 0; a call with the front bit is awake and at the head |
| Safety.QueuedTasksAlive | src/queue.rs:322-326 | no call has returned or unwound while its task is queued |
| Safety.TakenValuesStayAlive | src/queue_handle.rs:128-141 | while a callback is active, inside `unlocked` too, the owner of every value it took is waiting and its emptied task is still queued |
| Safety.NeverBroken | src/queue.rs:396-404 | no reachable state has seen an undefined or foreign pop, a dangling task or a failed `expect` |
| Safety.PermissionDiscipline | src/queue.rs:120-125 | every call appears at most once among grants and once among exits, has left iff it exited, and the hand-over recorded at an exit is what the next grant used |
| Safety.GivesUpExactlyOnce | src/queue.rs:642-787 | at an exit exactly the leaving call holds the front, afterwards nobody does; the head has been offered it iff the queue was not empty at that moment, otherwise the front is unlocked |
| Safety.WordChangesOnceAtHead | src/queue_state.rs:36-37 | only an exit writes a word, only the head's, and only from 0 |
| Safety.WordHistory | src/task_state.rs:8-9 | over any run a word changes at most once, from 0 to 1 or from 0 to 3 |
| Safety.DecisionTable | src/task_state.rs:19-40 | a woken call always falls in a row of the table, and its next two steps end as that row says |
| Frames.QueueFlagStep | src/queue.rs:652-656 | for every action: queue poison is set afterwards iff the action is an Err exit, or it was set and the action is not a clear |
| Frames.QueueFlagRun | src/interface.rs:63-67 | after any run the queue is poisoned iff an Err exit was not followed by a clear, or it was poisoned before and nobody cleared it |
| Frames.MutexFlagStep | src/queue.rs:529-555 | for every action: the mutex is poisoned afterwards iff the action drops a guard while unwinding, or it was poisoned and the action is not a clear |
| Frames.MutexFlagRun | src/interface.rs:54-58 | after any run the mutex is poisoned iff such a drop was not followed by a clear, or it was poisoned before and nobody cleared it |
| Frames.PoisonedMutexStops | src/interface.rs:54-58 | from a poisoned mutex on, in any run that does not clear it and with mutex poison unwrapped, no callback begins, and whoever looks at the mutex unwinds |
| Frames.NobodyPanicsUnasked | src/queue.rs:529-596 | from a state without poison, in any run in which no caller, window or callback panics: both flags stay clear, every call that leaves returns, and it ran its own callback to the end iff its value was not taken |
| Frames.MutexStep | src/queue.rs:102-107 | for every action: who has the mutex afterwards, with the exact lists of actions that lock it and that let go of it |
| Frames.SleepStep | src/task_state.rs:79-105 | for every action: a sleeper is woken only by a spurious wakeup or as the head at an exit, and a waiter sleeps again only by finding no front bit |
| Frames.SpuriousWakeup | src/task_state.rs:79-92 | any sleeper can be woken spuriously; that changes nothing else; it can look at its word iff the mutex is free, and that leads back to the very state before |
| Frames.EnvironmentIsFree | src/queue.rs:809-824 | in every reachable state a caller with the guard may submit any value or drop the guard, and a free mutex may be locked |
| Frames.CallbackIsFree | src/queue_handle.rs:120-402 | in every reachable state an active callback may use every handle operation, return or unwind; inside `unlocked` it waits only for the mutex |
| History.TakenByEarlierCallback | src/queue_handle.rs:161-198 | a taken value was taken once, by an earlier call whose own callback had begun, together with all values between the two |
| History.ExactResult | src/queue.rs:544-550 | `Processed` iff the own value went to the own callback and that did not unwind; otherwise the result is decided by the emptied slot and by how the call right before left, except where poison stops it; discarded iff poison stopped a call with a full slot |
| History.UnwindsForAReason | src/queue.rs:529-555 | every unwinding exit has one of three causes, with the option that allows it |
| History.ProcessedIffCallbackReturned | src/queue.rs:582-596 | in any run a finished call reports `Processed` iff its own callback returned in that run |
| History.BatchNeverRuns | README.md:24-27 | after a callback that took n values has ended, the owners of those n values never run their callbacks, whatever happens |
| History.BatchGrantedNext | src/queue.rs:727-784 | these owners are granted the front next, in the order of taking, each handed over by the one before |
| History.BatchEnds | README.md:25-26 | the value behind the batch, once settled, was taken by nobody |
| Interference.WindowIsAppendOnly | src/queue_handle.rs:216-373 | any number of steps of other threads inside `unlocked` only appends full tasks: old slots, words, the handle and the histories of grants, fates and exits are unchanged |
| Interference.PeekedValueStays | src/queue_handle.rs:220-373 | a value peeked before the window is what `peek` shows and what `pop` takes after it |
| Poison.PoisonCascade | src/queue.rs:529-540 | after an Err exit and until a clear, a later call is stopped by queue poison iff it had to wait, and then its callback never runs |
| Poison.QueuedHadToWait | src/queue.rs:642-705 | every task queued at that exit is among those calls |
| Poison.WaitsIffFrontLocked | src/queue.rs:481-498 | a call has to wait iff the front was locked when it arrived |
| Poison.NoCellLater | src/queue.rs:483-493 | a call that did not have to wait has no state word in any later state |
| Poison.StoppedIffFrontLocked | src/interface.rs:66-67 | in any run with an Err exit, an arrival after it and no clear, the arriving call is stopped by queue poison iff the front was locked when it arrived |
| Reports.ReliableIff | src/interface.rs:103-107 | all reports of all runs agree with how the takers ended iff: with queue poison unwrapped, nobody may clear it, or mutex poison is ignored and unwinding callbacks hang; with queue poison ignored, unwinding callbacks hang |
| Reports.PanicReportExact | src/interface.rs:103-107 | the first of a batch reports a panic iff the taker's callback unwound; a later one iff queue poison is unwrapped, its neighbour found it set and it found it cleared; that is right iff the neighbour found the unwrapped poison just when the taker's callback unwound |
| Reports.FlagDecides | src/queue.rs:529-540 | in any run a call is stopped by queue poison iff the poison is unwrapped and was set at the call's one check; a call that learns of its result made that check |
| Reports.AsWrittenAlarmsAreFalse | src/queue.rs:557-582 | in the code as written whoever reports a panic had its value taken by a call that returned normally |
| Reports.NeverClearedReportsRight | src/interface.rs:66-72 | with queue poison unwrapped and never cleared, a taken call that returns reports `ProcessedElsewhere`, and its taker returned |
| Reports.PanicReportWithoutUnwrapping | src/interface.rs:68-73 | with queue poison ignored, a report is right iff it is the first of its batch or the taker returned |
| Progress.NoDeadlock | src/queue.rs:120-125 | while a call is pending and none is stuck, the current turn has an enabled step, or a caller holds the mutex |
| Progress.WorkIsBounded | src/queue.rs:642-787 | in any run the hand-over steps are bounded by what was left at the start, eight for each arrival and one for each spurious wakeup |
| Progress.GrantedAfterHandOvers | src/queue.rs:727-784 | the task at position j has been granted or offered the front after j + 1 exits |
| Progress.Drain | src/queue.rs:727-784 | from any state without a stuck call there is a way for all pending calls to leave without arrivals, unwinds or outside help |
| Progress.DoneMeansIdle | src/queue.rs:695-704 | when all calls have left, the queue is empty, the front unlocked, and every value settled |
| Hang.StuckForever | src/queue.rs:644 | once a callback has unwound with its guard leaked, no step ever changes the queue, the mutex or any call again |
| Hang.CanFinishIffNotStuck | src/queue.rs:644 | all pending calls can leave iff no call is stuck |
| Hang.NoHangIff | README.md:29-32 | after any run all pending calls can leave iff no callback of the run unwound or unwinding releases the mutex |
| Hang.CascadeCanEnd | src/queue.rs:642-709 | a run exists in which all calls queued at an Err exit leave stopped by poison and the queue ends empty and unlocked |
| Cascade.CascadeEnds | src/queue.rs:642-709 | in every infinite run after an Err exit, with a fair scheduler and callers that let go of the mutex, if nobody clears the poison, arrivals stop and none comes after the front was released: no callback is ever active, and from some time on all calls have left, those behind the exit stopped by poison, and the queue is empty and unlocked |
| Liveness.CallbackEnds | src/queue_handle.rs:289-350 | in every fair run a callback ends: its handle operations and windows run out, and the relock of `unlocked` gets the mutex |
| Liveness.TurnKeepsMoving | src/queue.rs:642-787 | in every fair run a pending turn always moves on with the hand-over |
| Liveness.EveryCallLeaves | src/queue.rs:120-125 | in every fair run each call leaves in the end, even with endless arrivals and spurious wakeups |
| Facade.ValuesConserved | src/queue.rs:396-412 | the submitted values, in arrival order, are exactly the settled ones, then the one in hand, then the queued ones |
| Facade.RefineStep | src/queue.rs:790-799 | every protocol step is invisible or is exactly one permitted event of the user's view of the queue |
| Facade.ProtocolRefinesFacade | src/queue.rs:790-799 | every run of the protocol is a run of that view, and both end with the same active task, FIFO and merged list |
| Counterexamples.UnwindCanHang | README.md:29-32 | a concrete run of the code as written after which two calls wait in every continuation |
| Counterexamples.FastPathSkipsQueuePoison | src/interface.rs:66-67 | a concrete run in which a callback starts although queue poison is set and unwrapped |
| Counterexamples.PanicReportCanBeWrong | src/interface.rs:103-107 | a concrete run of the code as written in which `ProcessingPanicked` is reported although the taker returned normally |
| Counterexamples.PanicReportCanBeMissed | src/interface.rs:103-107 | a concrete run, if unwinding callbacks let go of the mutex, in which `ProcessedElsewhere` is reported although the taker unwound |

## Left out

- Lifetime erasure, `transmute` and raw pointers (src/task.rs): a task is an object with an owner; that its owner's frame outlives every use is proved (`Safety.QueuedTasksAlive`, `Safety.TakenValuesStayAlive`).
- The internals of `std::sync::Mutex`, `Condvar` and `VecDeque`: their contracts are assumed (atomic unlock-and-park, spurious wakeups, one waiter for each condition variable), and the queue is a sequence.
- The mutex-address check (src/queue.rs:191-263): one mutex is assumed, and the guard passed in is a guard of it, which the source does not check either.
- Out-of-memory aborts, `AbortIfNotAtFront` and the abort of a failing relock (src/queue.rs:921-937, src/queue_handle.rs:322-349).
- The contents of `front_state`, of the mutex-protected user state, and callback return values; a callback is any finite sequence of handle operations ending in a return or an unwind.
- Calls that begin on a thread that is already unwinding: a failed assertion is taken to poison the mutex, which the standard library skips for a guard created during a panic. For callbacks, `unlocked` windows and callers both outcomes are modelled.
- Nested `process` calls from a callback: for safety they are ordinary other calls; for progress it is assumed that a callback does not wait for its own call.
- `lock_and_process` and `is_queue_poisoned` (src/queue.rs:842-876): a lock followed by `process`, and a read.
- The closure passed to `unlocked`: its two ends are methods, what happens between them is any run of the protocol.
- Linking the methods to threads: a method starts only when its action is enabled; that the standard library blocks a thread until then is part of the assumed contracts.
- `Debug` implementations, marker traits, `src/poisoning.rs`, `src/externally_synchronized.rs` and the build configuration.
