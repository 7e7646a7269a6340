// src/queue_state.rs and src/task.rs as values: the fields guarded by the mutex, and what each
// critical section does to them. The classes in SharedState.dfy are proved against these functions.
module QueueState {
  import opened Base
  import opened TaskStates

  /** A queued task: whose stack frame it points into, and its value unless that was taken. */
  datatype Slot = Slot(owner: Id, value: Option<Value>)

  datatype Shared = Shared(frontLocked: bool, queuePoisoned: bool, queue: seq<Slot>)

  datatype TaskWaitResult = Process(value: Value) | Elsewhere | Panicked

  predicate CanAcquire(m: Shared) {
    !m.frontLocked
  }

  function Acquired(m: Shared): Shared {
    m.(frontLocked := true)
  }

  function Pushed(m: Shared, i: Id, v: Value): Shared {
    m.(queue := m.queue + [Slot(i, Some(v))])
  }

  function Popped(m: Shared): Shared
    requires m.queue != []
  {
    m.(queue := m.queue[1..])
  }

  function Classify(value: Option<Value>, panicked: bool): TaskWaitResult {
    match value
    case Some(v) => Process(v)
    case None => if panicked then Panicked else Elsewhere
  }

  function TakenAt(m: Shared, k: nat): Shared
    requires k < |m.queue|
  {
    m.(queue := m.queue[k := m.queue[k].(value := None)])
  }

  function HandedOn(m: Shared): Shared {
    if m.queue == [] then m.(frontLocked := false) else m
  }

  function CellsHandedOn(m: Shared, cells: map<Id, Cell>, returned: bool): map<Id, Cell> {
    if m.queue == [] || m.queue[0].owner !in cells then cells else
    var i := m.queue[0].owner;
    cells[i := Notified(cells[i], OfferedWord(returned))]
  }

  /** What `peek` shows, and what `pop` returns. */
  function PeekAt(m: Shared, k: nat): Option<Value> {
    if k < |m.queue| then m.queue[k].value else None
  }
}
