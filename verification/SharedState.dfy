// src/queue_state.rs and src/task.rs in the form of the source: mutable fields guarded by the
// mutex. Every method is proved against a function of QueueState.dfy.
module SharedState {
  import opened Base
  import opened TaskStates
  import opened QueueState

  /** A queued task points to the state in its owner's stack frame. */
  class ErasedTask {
    const state: TaskState
    var value: Option<Value>
    ghost const serial: nat // how many tasks were pushed before it

    constructor (state: TaskState, value: Value, ghost serial: nat)
      ensures this.state == state && this.value == Some(value) && this.serial == serial
    {
      this.state := state;
      this.serial := serial;
      this.value := Some(value);
    }

    /** Empties the slot and leaves the task where it is. */
    method Take() returns (taken: Option<Value>)
      modifies this
      ensures taken == old(value) && value == None
    {
      taken := value;
      value := None;
    }
  }

  class MutexExclusive {
    var frontLocked: bool
    var queuePoisoned: bool
    var queue: seq<ErasedTask>

    // The same as values; `states` has the `TaskState` of every call that ever had to wait.
    ghost var shared: Shared
    ghost var cells: map<Id, Cell>
    ghost var states: map<Id, TaskState>
    ghost var popped: nat // how many tasks were popped so far

    ghost function Repr(): set<object>
      reads this
    {
      {this} + (set t: ErasedTask | t in queue) + states.Values
    }

    ghost predicate QueueMatches()
      reads this, queue
    {
      && |queue| == |shared.queue|
      && (forall k :: 0 <= k < |queue| ==>
            && queue[k].serial == popped + k
            && queue[k].value == shared.queue[k].value
            && shared.queue[k].owner in states
            && queue[k].state == states[shared.queue[k].owner])
    }

    ghost predicate StatesMatch()
      reads this, states.Values
    {
      && states.Keys == cells.Keys
      && (forall i :: i in states ==> states[i].owner == i && states[i].View() == cells[i])
    }

    ghost predicate Valid()
      reads this, queue, states.Values
    {
      && frontLocked == shared.frontLocked
      && queuePoisoned == shared.queuePoisoned
      && QueueMatches()
      && StatesMatch()
    }

    constructor ()
      ensures Valid() && fresh(Repr())
      ensures shared == Shared(false, false, []) && cells == map[] && states == map[]
    {
      frontLocked, queuePoisoned, queue := false, false, [];
      shared, cells, states, popped := Shared(false, false, []), map[], map[], 0;
    }

    method TryAcquireFrontFast() returns (acquired: bool)
      requires Valid()
      modifies this`frontLocked, this`shared
      ensures Valid()
      ensures acquired == CanAcquire(old(shared))
      ensures shared == if acquired then Acquired(old(shared)) else old(shared)
    {
      if frontLocked {
        acquired := false;
      } else {
        frontLocked := true;
        acquired := true;
        shared := Acquired(shared);
      }
    }

    /** Call `i` creates its state and pushes its task. */
    method PushBack(ghost i: Id, value: Value) returns (state: TaskState)
      requires Valid() && i !in states
      modifies this`queue, this`shared, this`cells, this`states
      ensures Valid()
      ensures shared == Pushed(old(shared), i, value)
      ensures cells == old(cells)[i := Cell(0, false)]
      ensures states == old(states)[i := state] && fresh(state)
    {
      state := new TaskState(i);
      var task := new ErasedTask(state, value, popped + |queue|);
      queue := queue + [task];
      shared := Pushed(shared, i, value);
      cells := cells[i := Cell(0, false)];
      states := states[i := state];
    }

    /** Call `i` enters `wait` for the first time, on its state `state`. */
    method Park(ghost i: Id, state: TaskState)
      requires Valid() && i in states && state == states[i]
      modifies this`cells, state
      ensures Valid()
      ensures cells == old(cells)[i := old(cells[i]).(sleeping := true)]
    {
      state.Park();
      cells := cells[i := cells[i].(sleeping := true)];
    }

    /** The slow path of call `i`: push, then wait. */
    method PushAndPark(ghost i: Id, value: Value) returns (state: TaskState)
      requires Valid() && i !in states
      modifies this`queue, this`shared, this`cells, this`states
      ensures Valid()
      ensures shared == Pushed(old(shared), i, value)
      ensures cells == old(cells)[i := PARKED]
      ensures states == old(states)[i := state] && fresh(state)
    {
      state := PushBack(i, value);
      Park(i, state);
    }

    /** `wait` has returned in call `i`, whose state is `state`. */
    method Recheck(ghost i: Id, state: TaskState) returns (panicked: Option<bool>)
      requires Valid() && i in states && state == states[i]
      modifies this`cells, state
      ensures Valid()
      ensures cells == old(cells)[i := Rechecked(old(cells[i]))]
      ensures panicked == if AtFront(cells[i].word) then Some(Panicking(cells[i].word)) else None
    {
      panicked := state.Recheck();
      cells := cells[i := Rechecked(cells[i])];
    }

    /** Pops whatever task is at the head and says what that means for its owner. */
    method PopFront(panicked: bool) returns (waited: TaskWaitResult)
      requires Valid() && shared.queue != []
      modifies this`queue, this`shared, this`popped
      ensures Valid() && Repr() <= old(Repr()) && states == old(states)
      ensures shared == Popped(old(shared))
      ensures waited == Classify(old(shared).queue[0].value, panicked)
    {
      var task := queue[0];
      queue := queue[1..];
      shared := Popped(shared);
      popped := popped + 1;
      match task.value {
        case Some(value) => waited := Process(value);
        case None => waited := if panicked then Panicked else Elsewhere;
      }
    }

    /** Wakes call `i`, whose state is `state`. */
    method Wake(ghost i: Id, state: TaskState, returned: bool)
      requires Valid() && i in states && state == states[i]
      modifies this`cells, state
      ensures Valid()
      ensures cells == old(cells)[i := Notified(old(cells[i]), OfferedWord(returned))]
    {
      if returned {
        state.WakeFrontTask();
      } else {
        state.WakeFrontTaskPanicking();
      }
      cells := cells[i := Notified(cells[i], OfferedWord(returned))];
    }

    /** Gives the front up: wakes the head task, or unlocks the front if there is none. */
    method HandOn(returned: bool)
      requires Valid()
      modifies this`frontLocked, this`shared, this`cells, states.Values
      ensures Valid()
      ensures shared == HandedOn(old(shared))
      ensures cells == CellsHandedOn(old(shared), old(cells), returned)
    {
      if |queue| > 0 {
        Wake(shared.queue[0].owner, queue[0].state, returned);
      } else {
        frontLocked := false;
        shared := shared.(frontLocked := false);
      }
    }

    method SetQueuePoisoned(poisoned: bool)
      requires Valid()
      modifies this`queuePoisoned, this`shared
      ensures Valid() && shared == old(shared).(queuePoisoned := poisoned)
    {
      queuePoisoned := poisoned;
      shared := shared.(queuePoisoned := poisoned);
    }

    /** The same for a call that unwound: poisons the queue first. */
    method PoisonAndHandOn()
      requires Valid()
      modifies this`frontLocked, this`queuePoisoned, this`shared, this`cells, states.Values
      ensures Valid()
      ensures shared == HandedOn(old(shared).(queuePoisoned := true))
      ensures cells == CellsHandedOn(old(shared), old(cells), false)
    {
      SetQueuePoisoned(true);
      HandOn(false);
    }

    /** Empties slot `k`. */
    method Take(k: nat) returns (taken: Option<Value>)
      requires Valid() && k < |queue|
      modifies this`shared, queue
      ensures Valid()
      ensures taken == old(shared).queue[k].value
      ensures shared == TakenAt(old(shared), k)
    {
      taken := queue[k].Take();
      shared := TakenAt(shared, k);
    }
  }
}
