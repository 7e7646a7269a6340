// The hand-off protocol of `ContentionQueue` as a transition system. An action is one critical
// section, so actions interleave exactly where the mutex is not held.
module Protocol {
  import opened Base
  import opened TaskStates
  import opened QueueState

  datatype PanicOptions = PanicOptions(unwrapMutexPoison: bool, unwrapQueuePoison: bool)

  /** `unwindDropsGuard` says whether a callback that unwinds releases the mutex. It is false in
      src/queue.rs:557-582, where the guard sits in a `MaybeUninit`; it is true in the design. */
  datatype Config = Config(options: PanicOptions, unwindDropsGuard: bool)

  /** `Caller` stands for any code outside the queue that holds a guard. */
  datatype Owner = Free | Caller | Held(holder: Id)

  datatype ProcessResult = Processed | ProcessedElsewhere | ProcessingPanicked

  datatype Cause = QueuePoison | MutexPoison | CallbackPanic

  datatype Outcome = Returned(result: ProcessResult) | Unwound(cause: Cause)

  /** Where a call is in its body. */
  datatype Pc =
    | Waiting                            // in `wait_until_at_front`, without the mutex
    | Leaving(panicked: bool)            // left that loop, own task still queued
    | Classified(waited: TaskWaitResult) // own task popped, queue poison not yet checked
    | Ready(value: Value)                // holds its value, mutex poison not yet checked
    | Running(nextIdx: nat)              // in the callback, mutex held
    | Unlocked(nextIdx: nat)             // in the callback, inside `unlocked`
    | Finished(result: ProcessResult)    // `try_process_unchecked` returned
    | Unwinding(cause: Cause)            // unwound, guard dropped, about to relock
    | Stuck                              // unwound, guard leaked, relocking its own mutex
    | Done(outcome: Outcome)

  // The history, kept for stating properties. No action looks at it.
  datatype Via = Fast | Woken
  datatype Grant = Grant(id: Id, via: Via)
  datatype Fate = OwnCallback | TakenBy(taker: Id) | Discarded
  datatype Settled = Settled(id: Id, value: Value, fate: Fate)
  datatype Handoff = Transferred(to: Id) | Released
  datatype Exit = Exit(id: Id, outcome: Outcome, handoff: Handoff)
  datatype Log = Log(arrivals: seq<Value>, grants: seq<Grant>, fates: seq<Settled>, exits: seq<Exit>)

  /** `broken` records an undefined `unwrap_unchecked`, a task popped by somebody else than its
      owner, a dangling task reference or a failed `expect`. */
  datatype State = State(
    mutex: Owner,
    mutexPoisoned: bool,
    shared: Shared,
    cells: map<Id, Cell>,
    pcs: seq<Pc>,
    log: Log,
    broken: bool)

  datatype Action =
    | CallerLock
    | CallerUnlock(panicking: bool)
    | ClearQueuePoison
    | ClearMutexPoison
    | Start(v: Value)
    | Spurious(i: Id)
    | WakeCheck(i: Id)
    | PopFront(i: Id)
    | CheckQueuePoison(i: Id)
    | CheckMutexPoison(i: Id)
    | HandlePeek(i: Id)
    | HandlePop(i: Id)
    | HandleClear(i: Id)
    | Unlock(i: Id, panicking: bool)
    | Relock(i: Id)
    | CallbackReturn(i: Id)
    | CallbackUnwind(i: Id, poisons: bool)
    | ExitOk(i: Id)
    | ExitErr(i: Id)

  function Init(): State {
    State(Free, false, Shared(false, false, []), map[], [], Log([], [], [], []), false)
  }

  /** The stack frame that a queued task points into still exists. */
  predicate Alive(s: State, i: Id) {
    i < |s.pcs| && (s.pcs[i].Waiting? || s.pcs[i].Leaving?)
  }

  predicate At(s: State, i: Id) {
    i < |s.pcs|
  }

  predicate Enabled(s: State, a: Action) {
    match a
    case CallerLock => s.mutex.Free?
    case CallerUnlock(_) => s.mutex.Caller?
    case ClearQueuePoison => s.mutex.Free?
    case ClearMutexPoison => true
    case Start(_) => s.mutex.Caller?
    case Spurious(i) => At(s, i) && s.pcs[i].Waiting? && i in s.cells && s.cells[i].sleeping
    case WakeCheck(i) =>
      At(s, i) && s.pcs[i].Waiting? && i in s.cells && !s.cells[i].sleeping && s.mutex.Free?
    case PopFront(i) => At(s, i) && s.pcs[i].Leaving?
    case CheckQueuePoison(i) => At(s, i) && s.pcs[i].Classified?
    case CheckMutexPoison(i) => At(s, i) && s.pcs[i].Ready?
    case HandlePeek(i) => At(s, i) && s.pcs[i].Running?
    case HandlePop(i) => At(s, i) && s.pcs[i].Running?
    case HandleClear(i) => At(s, i) && s.pcs[i].Running?
    case Unlock(i, _) => At(s, i) && s.pcs[i].Running?
    case Relock(i) => At(s, i) && s.pcs[i].Unlocked? && s.mutex.Free?
    case CallbackReturn(i) => At(s, i) && s.pcs[i].Running?
    case CallbackUnwind(i, _) => At(s, i) && s.pcs[i].Running?
    case ExitOk(i) => At(s, i) && s.pcs[i].Finished?
    case ExitErr(i) => At(s, i) && s.pcs[i].Unwinding? && s.mutex.Free?
  }

  function Settle(log: Log, i: Id, v: Value, fate: Fate): Log {
    log.(fates := log.fates + [Settled(i, v, fate)])
  }

  /** src/queue.rs:481-498 and 349-383: the fast path, or push and park. */
  function DoStart(s: State, v: Value): State {
    var i := |s.pcs|;
    var log := s.log.(arrivals := s.log.arrivals + [v]);
    if CanAcquire(s.shared) then
      s.(mutex := Held(i),
         shared := Acquired(s.shared),
         pcs := s.pcs + [Ready(v)],
         log := log.(grants := log.grants + [Grant(i, Fast)]))
    else
      s.(mutex := Free,
         shared := Pushed(s.shared, i, v),
         cells := s.cells[i := PARKED],
         pcs := s.pcs + [Waiting],
         log := log)
  }

  function DoSpurious(s: State, i: Id): State
    requires i in s.cells
  {
    s.(cells := s.cells[i := s.cells[i].(sleeping := false)])
  }

  /** src/task_state.rs:80-91. */
  function DoWakeCheck(s: State, i: Id): State
    requires At(s, i) && i in s.cells
  {
    var word := s.cells[i].word;
    var s' := s.(cells := s.cells[i := Rechecked(s.cells[i])]);
    if AtFront(word) then s'.(mutex := Held(i), pcs := s.pcs[i := Leaving(Panicking(word))]) else s'
  }

  /** src/queue.rs:396-412. It pops whatever task is at the head. */
  function DoPopFront(s: State, i: Id): State
    requires At(s, i) && s.pcs[i].Leaving?
  {
    var queue := s.shared.queue;
    if queue == [] then s.(broken := true) else
    s.(shared := Popped(s.shared),
       pcs := s.pcs[i := Classified(Classify(queue[0].value, s.pcs[i].panicked))],
       log := s.log.(grants := s.log.grants + [Grant(i, Woken)]),
       broken := s.broken || queue[0].owner != i)
  }

  /** An assertion of `try_process_unchecked` fails: the guard, a plain local, is dropped. */
  function Fail(s: State, i: Id, cause: Cause): State
    requires At(s, i)
  {
    s.(mutex := Free, mutexPoisoned := true, pcs := s.pcs[i := Unwinding(cause)])
  }

  /** src/queue.rs:529-550. */
  function DoCheckQueuePoison(c: Config, s: State, i: Id): State
    requires At(s, i) && s.pcs[i].Classified?
  {
    var waited := s.pcs[i].waited;
    if c.options.unwrapQueuePoison && s.shared.queuePoisoned then
      var s' := Fail(s, i, QueuePoison);
      if waited.Process? then s'.(log := Settle(s.log, i, waited.value, Discarded)) else s'
    else
      s.(pcs := s.pcs[i :=
        match waited
        case Process(v) => Ready(v)
        case Elsewhere => Finished(ProcessedElsewhere)
        case Panicked => Finished(ProcessingPanicked)])
  }

  /** src/queue.rs:553-582, up to the start of the callback. */
  function DoCheckMutexPoison(c: Config, s: State, i: Id): State
    requires At(s, i) && s.pcs[i].Ready?
  {
    var v := s.pcs[i].value;
    if c.options.unwrapMutexPoison && s.mutexPoisoned then
      Fail(s, i, MutexPoison).(log := Settle(s.log, i, v, Discarded))
    else
      s.(pcs := s.pcs[i := Running(0)], log := Settle(s.log, i, v, OwnCallback))
  }

  /** The handle may look at slot `k`: the slot is missing, or it is full and its owner waits. */
  predicate SlotUsable(s: State, k: nat) {
    k < |s.shared.queue| ==> s.shared.queue[k].value.Some? && Alive(s, s.shared.queue[k].owner)
  }

  /** src/queue_handle.rs:166-198. */
  function DoHandlePop(s: State, i: Id): State
    requires At(s, i) && s.pcs[i].Running?
  {
    var n := s.pcs[i].nextIdx;
    if n >= |s.shared.queue| then s else
    var slot := s.shared.queue[n];
    var s' := s.(shared := TakenAt(s.shared, n),
                 pcs := s.pcs[i := Running(n + 1)],
                 broken := s.broken || !SlotUsable(s, n));
    if slot.value.Some? then s'.(log := Settle(s.log, slot.owner, slot.value.value, TakenBy(i))) else s'
  }

  /** src/queue.rs:582 when the callback unwinds. */
  function DoCallbackUnwind(c: Config, s: State, i: Id, poisons: bool): State
    requires At(s, i)
  {
    if c.unwindDropsGuard then
      s.(mutex := Free,
         mutexPoisoned := s.mutexPoisoned || poisons,
         pcs := s.pcs[i := Unwinding(CallbackPanic)])
    else
      s.(pcs := s.pcs[i := Stuck])
  }

  /** The common part of both exits: wake the head, or release the front. */
  function Depart(s: State, i: Id, outcome: Outcome): State
    requires At(s, i)
  {
    var queue := s.shared.queue;
    s.(shared := HandedOn(s.shared),
       cells := CellsHandedOn(s.shared, s.cells, outcome.Returned?),
       pcs := s.pcs[i := Done(outcome)],
       log := s.log.(exits := s.log.exits +
         [Exit(i, outcome, if queue == [] then Released else Transferred(queue[0].owner))]),
       broken := s.broken || (queue != [] && !Alive(s, queue[0].owner)))
  }

  /** src/queue.rs:712-787; the guard goes back to the caller. */
  function DoExitOk(s: State, i: Id): State
    requires At(s, i) && s.pcs[i].Finished?
  {
    Depart(s, i, Returned(s.pcs[i].result)).(mutex := Caller)
  }

  /** src/queue.rs:642-709, one critical section from the relock to the drop of the guard. */
  function DoExitErr(s: State, i: Id): State
    requires At(s, i) && s.pcs[i].Unwinding?
  {
    Depart(s.(shared := s.shared.(queuePoisoned := true)), i, Unwound(s.pcs[i].cause))
  }

  function Apply(c: Config, s: State, a: Action): State
    requires Enabled(s, a)
  {
    match a
    case CallerLock => s.(mutex := Caller)
    case CallerUnlock(p) => s.(mutex := Free, mutexPoisoned := s.mutexPoisoned || p)
    case ClearQueuePoison => s.(shared := s.shared.(queuePoisoned := false))
    case ClearMutexPoison => s.(mutexPoisoned := false)
    case Start(v) => DoStart(s, v)
    case Spurious(i) => DoSpurious(s, i)
    case WakeCheck(i) => DoWakeCheck(s, i)
    case PopFront(i) => DoPopFront(s, i)
    case CheckQueuePoison(i) => DoCheckQueuePoison(c, s, i)
    case CheckMutexPoison(i) => DoCheckMutexPoison(c, s, i)
    case HandlePeek(i) => s.(broken := s.broken || !SlotUsable(s, s.pcs[i].nextIdx))
    case HandlePop(i) => DoHandlePop(s, i)
    case HandleClear(i) => s.(shared := s.shared.(queuePoisoned := false))
    case Unlock(i, p) =>
      s.(mutex := Free,
         mutexPoisoned := s.mutexPoisoned || p,
         pcs := s.pcs[i := Unlocked(s.pcs[i].nextIdx)])
    case Relock(i) => s.(mutex := Held(i), pcs := s.pcs[i := Running(s.pcs[i].nextIdx)])
    case CallbackReturn(i) => s.(pcs := s.pcs[i := Finished(Processed)])
    case CallbackUnwind(i, p) => DoCallbackUnwind(c, s, i, p)
    case ExitOk(i) => DoExitOk(s, i)
    case ExitErr(i) => DoExitErr(s, i)
  }

  /** Call `k` takes the step itself. */
  predicate StepOf(a: Action, k: Id) {
    && !a.CallerLock? && !a.CallerUnlock? && !a.ClearQueuePoison? && !a.ClearMutexPoison? && !a.Start?
    && a.i == k
  }

  /** No step moves the program counter of another call that has arrived. */
  lemma OnlyActorMoves(c: Config, s: State, a: Action, k: Id)
    requires Enabled(s, a) && k < |s.pcs| && !StepOf(a, k)
    ensures k < |Apply(c, s, a).pcs| && Apply(c, s, a).pcs[k] == s.pcs[k]
  {
  }

  /** A call begins by waiting or with the front in its hands. */
  lemma NewcomersStart(c: Config, s: State, a: Action, j: Id)
    requires Enabled(s, a) && j >= |s.pcs|
    ensures j < |Apply(c, s, a).pcs| ==> Apply(c, s, a).pcs[j].Waiting? || Apply(c, s, a).pcs[j].Ready?
    ensures a != CheckQueuePoison(j)
  {
  }

  // Runs: any finite sequence of enabled actions, by any number of calls.

  predicate Legal(c: Config, s: State, run: seq<Action>)
    decreases |run|
  {
    run == [] || (Enabled(s, run[0]) && Legal(c, Apply(c, s, run[0]), run[1..]))
  }

  function Exec(c: Config, s: State, run: seq<Action>): State
    requires Legal(c, s, run)
    decreases |run|
  {
    if run == [] then s else Exec(c, Apply(c, s, run[0]), run[1..])
  }

  ghost predicate Reachable(c: Config, s: State) {
    exists run :: Legal(c, Init(), run) && Exec(c, Init(), run) == s
  }

  lemma {:induction false} ExecConcat(c: Config, s: State, first: seq<Action>, second: seq<Action>)
    requires Legal(c, s, first)
    requires Legal(c, Exec(c, s, first), second)
    ensures Legal(c, s, first + second)
    ensures Exec(c, s, first + second) == Exec(c, Exec(c, s, first), second)
    decreases |first|
  {
    if first == [] {
      assert first + second == second;
    } else {
      assert (first + second)[1..] == first[1..] + second;
      ExecConcat(c, Apply(c, s, first[0]), first[1..], second);
    }
  }

  /** What a run reaches from a reachable state is reachable. */
  lemma ReachableExtends(c: Config, s: State, run: seq<Action>)
    requires Reachable(c, s)
    requires Legal(c, s, run)
    ensures Reachable(c, Exec(c, s, run))
  {
    var before :| Legal(c, Init(), before) && Exec(c, Init(), before) == s;
    ExecConcat(c, Init(), before, run);
  }
}
