// src/queue.rs: the critical sections of `ContentionQueue` as methods over its mutable state. A
// ghost snapshot of the protocol runs along. Each method is proved to take it through exactly one
// action, so any interleaving of these methods by any number of threads is a run of the protocol
// and has all the properties of such runs.
module Queue {
  import opened Base
  import opened TaskStates
  import opened QueueState
  import opened SharedState
  import opened Protocol
  import opened Safety
  import S = Invariant

  /** The mutex of the caller: whether somebody holds a guard of it, and its poison flag. */
  class Mutex {
    var locked: bool
    var poisoned: bool

    constructor ()
      ensures !locked && !poisoned
    {
      locked := false;
      poisoned := false;
    }
  }

  class ContentionQueue {
    const options: PanicOptions
    const mutex: Mutex
    const me: MutexExclusive
    ghost const unwindDropsGuard: bool
    ghost var model: State

    ghost function Setting(): Config {
      Config(options, unwindDropsGuard)
    }

    ghost function Repr(): set<object>
      reads this, me
    {
      {this, mutex} + me.Repr()
    }

    /** The mutable state is what the snapshot says, and a run of the protocol leads there. */
    ghost predicate Valid()
      reads this, mutex, me, me.queue, me.states.Values
    {
      && me.Valid()
      && me.shared == model.shared
      && me.cells == model.cells
      && mutex.locked == !model.mutex.Free?
      && mutex.poisoned == model.mutexPoisoned
      && Reachable(Setting(), model)
    }

    /** The snapshot has taken action `a`. */
    twostate predicate Took(a: Action)
      reads this
    {
      Enabled(old(model), a) && model == Apply(Setting(), old(model), a)
    }

    constructor (options: PanicOptions, ghost unwindDropsGuard: bool)
      ensures Valid() && model == Init() && fresh(Repr())
      ensures this.options == options && this.unwindDropsGuard == unwindDropsGuard
    {
      this.options := options;
      this.unwindDropsGuard := unwindDropsGuard;
      mutex := new Mutex();
      me := new MutexExclusive();
      model := Init();
      new;
      assert Legal(Setting(), Init(), []) && Exec(Setting(), Init(), []) == Init();
    }

    /** The start of `try_process_unchecked`, with a guard from the caller: the fast path, or push
        and park. A parked call keeps its state; its guard is gone. */
    method Begin(value: Value) returns (state: TaskState?)
      requires Valid() && Enabled(model, Start(value))
      modifies this`model, mutex`locked, me
      ensures Valid() && Took(Start(value))
      ensures state == null <==> !old(me.frontLocked)
      ensures mutex.locked <==> state == null
      ensures state != null ==> me.states == old(me.states)[|old(model).pcs| := state]
    {
      var acquired := me.TryAcquireFrontFast();
      if acquired {
        StartReaches(Setting(), model, value);
        model := DoStart(model, value);
        state := null;
      } else {
        state := EnterQueue(value);
      }
    }

    /** The start of `try_wait_until_at_front`, up to the first `wait`. */
    method EnterQueue(value: Value) returns (state: TaskState)
      requires Valid() && Enabled(model, Start(value)) && me.frontLocked
      modifies this`model, mutex`locked, me`queue, me`shared, me`cells, me`states
      ensures Valid() && Took(Start(value))
      ensures !mutex.locked && me.states == old(me.states)[|old(model).pcs| := state]
    {
      ghost var i := |model.pcs|;
      StartReaches(Setting(), model, value);
      ghost var next := DoStart(model, value);
      assert next.shared == Pushed(model.shared, i, value) && next.cells == model.cells[i := PARKED];
      assert next.mutex.Free? && next.mutexPoisoned == model.mutexPoisoned;
      state := me.PushAndPark(i, value);
      mutex.locked := false;
      model := next;
    }

    /** `wait` has returned in call `i` with the mutex locked again: src/task_state.rs:80-91. */
    method AfterWait(ghost i: Id, state: TaskState) returns (panicked: Option<bool>)
      requires Valid() && Enabled(model, WakeCheck(i)) && state == me.states[i]
      modifies this`model, mutex`locked, me`cells, state
      ensures Valid() && Took(WakeCheck(i))
      ensures match panicked
        case Some(p) => model.pcs[i] == Leaving(p) && mutex.locked
        case None => model.pcs[i] == Waiting && !mutex.locked
    {
      WakeCheckReaches(Setting(), model, i);
      panicked := me.Recheck(i, state);
      mutex.locked := panicked.Some?;
      model := DoWakeCheck(model, i);
    }

    /** src/queue.rs:396-412. There is a task to pop, and it is that of call `i` itself. */
    method PopOwnTask(ghost i: Id, panicked: bool) returns (waited: TaskWaitResult)
      requires Valid() && Enabled(model, PopFront(i)) && model.pcs[i] == Leaving(panicked)
      modifies this`model, me`queue, me`shared, me`popped
      ensures Valid() && Took(PopFront(i))
      ensures model.pcs[i] == Classified(waited)
      ensures old(model).shared.queue != [] && old(model).shared.queue[0].owner == i
    {
      ReachableStep(Setting(), model, PopFront(i));
      OwnTaskPop(Setting(), model, i);
      ghost var next := DoPopFront(model, i);
      waited := me.PopFront(panicked);
      model := next;
    }

    /** src/queue.rs:529-550. A failed assertion drops the guard while unwinding. */
    method AssertQueueNotPoisoned(ghost i: Id, waited: TaskWaitResult) returns (passed: bool)
      requires Valid() && Enabled(model, CheckQueuePoison(i)) && model.pcs[i] == Classified(waited)
      modifies this`model, mutex
      ensures Valid() && Took(CheckQueuePoison(i))
      ensures passed <==> !(options.unwrapQueuePoison && old(me.queuePoisoned))
      ensures !passed ==> model.pcs[i] == Unwinding(QueuePoison) && !mutex.locked && mutex.poisoned
      ensures passed ==> mutex.locked && mutex.poisoned == old(mutex.poisoned)
      ensures passed && waited.Process? ==> model.pcs[i] == Ready(waited.value)
      ensures passed && waited.Elsewhere? ==> model.pcs[i] == Finished(ProcessedElsewhere)
      ensures passed && waited.Panicked? ==> model.pcs[i] == Finished(ProcessingPanicked)
    {
      MutexHeld(i);
      ReachableStep(Setting(), model, CheckQueuePoison(i));
      passed := !(options.unwrapQueuePoison && me.queuePoisoned);
      if !passed {
        mutex.locked := false;
        mutex.poisoned := true;
      }
      model := DoCheckQueuePoison(Setting(), model, i);
    }

    /** src/queue.rs:553-555; if it passes, the callback is given its value. */
    method AssertMutexNotPoisoned(ghost i: Id) returns (passed: bool)
      requires Valid() && Enabled(model, CheckMutexPoison(i))
      modifies this`model, mutex
      ensures Valid() && Took(CheckMutexPoison(i))
      ensures passed <==> !(options.unwrapMutexPoison && old(mutex.poisoned))
      ensures passed ==> model.pcs[i] == Running(0) && mutex.locked
      ensures !passed ==> model.pcs[i] == Unwinding(MutexPoison) && !mutex.locked
      ensures mutex.poisoned == old(mutex.poisoned)
    {
      MutexHeld(i);
      ReachableStep(Setting(), model, CheckMutexPoison(i));
      passed := !(options.unwrapMutexPoison && mutex.poisoned);
      if !passed {
        mutex.locked := false;
        mutex.poisoned := true;
      }
      model := DoCheckMutexPoison(Setting(), model, i);
    }

    /** src/queue.rs:582-596 when the callback returns: the guard is taken back out of the handle, and
        neither the queue nor the mutex is touched, nor is any poison looked at. */
    method AfterCallback(ghost i: Id)
      requires Valid() && Enabled(model, CallbackReturn(i))
      modifies this`model
      ensures Valid() && Took(CallbackReturn(i))
      ensures i < |model.pcs| && model.pcs[i] == Finished(Processed) && mutex.locked
    {
      MutexHeld(i);
      ReachableStep(Setting(), model, CallbackReturn(i));
      model := model.(pcs := model.pcs[i := Finished(Processed)]);
    }

    /** The Ok exit of `process_unchecked`; the guard goes back to the caller. */
    method LeaveOk(ghost i: Id)
      requires Valid() && Enabled(model, ExitOk(i))
      modifies this`model, me`frontLocked, me`shared, me`cells, me.states.Values
      ensures Valid() && Took(ExitOk(i))
      ensures me.frontLocked <==> me.queue != []
      ensures mutex.locked
    {
      MutexHeld(i);
      ReachableStep(Setting(), model, ExitOk(i));
      LockedWhileHeld(Setting(), model, i);
      ghost var next := DoExitOk(model, i);
      me.HandOn(true);
      model := next;
    }

    /** The Err exit, from the relock to the drop of that guard: the mutex is free before and after. */
    method LeaveErr(ghost i: Id)
      requires Valid() && Enabled(model, ExitErr(i))
      modifies this`model, mutex`locked, me`frontLocked, me`queuePoisoned, me`shared, me`cells, me.states.Values
      ensures Valid() && Took(ExitErr(i))
      ensures me.queuePoisoned && (me.frontLocked <==> me.queue != [])
      ensures !mutex.locked
    {
      ReachableStep(Setting(), model, ExitErr(i));
      LockedWhileHeld(Setting(), model, i);
      ghost var next := DoExitErr(model, i);
      me.PoisonAndHandOn();
      model := next;
    }

    /** `clear_queue_poison`, which locks the mutex for itself. */
    method ClearPoison()
      requires Valid() && Enabled(model, ClearQueuePoison)
      modifies this`model, mutex`locked, me`queuePoisoned, me`shared
      ensures Valid() && Took(ClearQueuePoison)
      ensures !me.queuePoisoned && !mutex.locked
    {
      ReachableStep(Setting(), model, ClearQueuePoison);
      mutex.locked := true;
      me.SetQueuePoisoned(false);
      mutex.locked := false;
      model := model.(shared := model.shared.(queuePoisoned := false));
    }

    /** A callback empties slot `k`, which leads to the reachable snapshot `next`. */
    method EmptySlot(k: nat, ghost next: State) returns (slot: Option<Value>)
      requires Valid() && k < |me.queue|
      requires Reachable(Setting(), next) && next.shared == TakenAt(model.shared, k)
      requires next.cells == model.cells && next.mutex == model.mutex && next.mutexPoisoned == model.mutexPoisoned
      modifies this`model, me`shared, me.queue
      ensures Valid() && model == next
      ensures slot == old(model.shared.queue)[k].value
    {
      slot := me.Take(k);
      model := next;
    }

    /** The call whose step it is has the guard in its hands. */
    lemma MutexHeld(i: Id)
      requires Valid() && i < |model.pcs| && S.HoldsMutex(model.pcs[i])
      ensures model.mutex == Held(i) && mutex.locked
    {
      MutualExclusion(Setting(), model, i);
    }
  }

  lemma StartReaches(c: Config, s: State, v: Value)
    requires Reachable(c, s) && Enabled(s, Start(v))
    ensures Reachable(c, DoStart(s, v))
    ensures |s.pcs| !in s.cells
  {
    NewcomerHasNoCell(c, s);
    ReachableStep(c, s, Start(v));
  }

  lemma WakeCheckReaches(c: Config, s: State, i: Id)
    requires Reachable(c, s) && Enabled(s, WakeCheck(i))
    ensures Reachable(c, DoWakeCheck(s, i))
  {
    ReachableStep(c, s, WakeCheck(i));
  }

  lemma LockedWhileHeld(c: Config, s: State, i: Id)
    requires Reachable(c, s) && i < |s.pcs| && S.HoldsFront(s.pcs[i])
    ensures s.shared.frontLocked
  {
    SinglePermission(c, s);
    assert i in Holders(s);
  }
}
