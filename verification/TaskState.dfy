// src/task_state.rs: the two-bit state word of a waiting task and its condition variable.
module TaskStates {
  import opened Base

  const FRONT_BIT: bv8 := 1
  const PANIC_BIT: bv8 := 2

  predicate AtFront(word: bv8) {
    word & FRONT_BIT != 0
  }

  predicate Panicking(word: bv8) {
    word & PANIC_BIT != 0
  }

  /** A `TaskState` seen as a value. `sleeping` says that the owner is in the wait set of the
      condition variable; once it is false the owner is waiting for the mutex instead. */
  datatype Cell = Cell(word: bv8, sleeping: bool)

  /** The cell of a task whose owner has just parked for the first time. */
  const PARKED := Cell(0, true)

  /** `*state |= bits` followed by `notify_one`: the owner is the only possible waiter. */
  function Notified(cell: Cell, bits: bv8): Cell {
    Cell(cell.word | bits, false)
  }

  /** One pass of the waiting loop after `wait` has returned: leave, or park again. */
  function Rechecked(cell: Cell): Cell {
    cell.(sleeping := !AtFront(cell.word))
  }

  /** The word a task carries once its predecessor has handed it the front. */
  function OfferedWord(predecessorReturned: bool): bv8 {
    if predecessorReturned then FRONT_BIT else PANIC_BIT | FRONT_BIT
  }

  class TaskState {
    ghost const owner: Id
    var word: bv8
    var sleeping: bool

    constructor (ghost owner: Id)
      ensures View() == Cell(0, false) && this.owner == owner
    {
      this.owner := owner;
      word := 0;
      sleeping := false;
    }

    function View(): Cell
      reads this
    {
      Cell(word, sleeping)
    }

    /** The part of `Condvar::wait` that enters the wait set. */
    method Park()
      modifies this
      ensures View() == old(View()).(sleeping := true)
    {
      sleeping := true;
    }

    method WakeFrontTask()
      modifies this
      ensures View() == Notified(old(View()), OfferedWord(true))
    {
      word := word | FRONT_BIT;
      sleeping := false;
    }

    method WakeFrontTaskPanicking()
      modifies this
      ensures View() == Notified(old(View()), OfferedWord(false))
    {
      word := word | (PANIC_BIT | FRONT_BIT);
      sleeping := false;
    }

    /** One pass of the loop of `wait_until_at_front`, after `wait` returned with the mutex held.
        `panicked` is present exactly when the loop is left. */
    method Recheck() returns (panicked: Option<bool>)
      modifies this
      ensures View() == Rechecked(old(View()))
      ensures panicked == if AtFront(word) then Some(Panicking(word)) else None
    {
      if word & FRONT_BIT != 0 {
        sleeping := false;
        panicked := Some(word & PANIC_BIT != 0);
      } else {
        sleeping := true;
        panicked := None;
      }
    }

    /** The loop of `wait_until_at_front` as its own thread sees it: `observed[k]` is what the others
        have made of the word by the time `wait` returns for the (k+1)-th time, whatever caused that
        return. The loop parks before the first look, leaves at the first word with FRONT_BIT, and
        reports PANIC_BIT of that very word. No result means that it is still parked. It only reads:
        the word stays as the others left it. */
    method WaitUntilAtFront(observed: seq<bv8>) returns (waits: nat, panicked: Option<bool>)
      modifies this
      ensures 1 <= waits <= |observed| + 1
      ensures forall k :: 0 <= k < waits - 1 ==> !AtFront(observed[k])
      ensures match panicked
        case None =>
          && waits == |observed| + 1
          && View() == Cell(if observed == [] then old(word) else observed[|observed| - 1], true)
        case Some(p) =>
          && waits <= |observed|
          && AtFront(observed[waits - 1]) && p == Panicking(observed[waits - 1])
          && View() == Cell(observed[waits - 1], false)
    {
      Park();
      waits := 1;
      while waits <= |observed|
        invariant 1 <= waits <= |observed| + 1
        invariant View() == Cell(if waits == 1 then old(word) else observed[waits - 2], true)
        invariant forall k :: 0 <= k < waits - 1 ==> !AtFront(observed[k])
      {
        word, sleeping := observed[waits - 1], false;
        panicked := Recheck();
        if panicked.Some? {
          return;
        }
        waits := waits + 1;
      }
      panicked := None;
    }
  }
}
