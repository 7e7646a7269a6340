// The queue as its users are told about it (src/queue.rs:790-799): one active task, a FIFO of
// unprocessed values popped from second place, and the merged tasks that still have to be told.
// Every run of the protocol is a run of this facade.
module Facade {
  import opened Base
  import opened QueueState
  import opened Protocol
  import opened Invariant

  datatype Entry = Entry(id: Id, value: Value)

  /** What the active task is doing. */
  datatype Active =
    | Nobody
    | Promoted(entry: Entry) // at the front with its own value, callback not begun
    | Serving(id: Id)        // its callback has begun
    | Told(id: Id)           // its value was merged; it only learns the outcome

  /** `predecessor` is how the task that was active before left; None before the first. */
  datatype View = View(active: Active, fifo: seq<Entry>, merged: seq<Id>, predecessor: Option<Outcome>)

  datatype Event =
    | Silent
    | Arrive(entry: Entry)   // becomes active at once iff there is nothing at all before it
    | Promote                // the oldest unprocessed task becomes active
    | Tell                   // the oldest merged task becomes active
    | Begin                  // the active task's callback is given its own value
    | Merge(entry: Entry)    // the active callback takes this value from second place
    | Leave(outcome: Outcome)

  const EMPTY := View(Nobody, [], [], None)

  predicate Idle(v: View) {
    v.active.Nobody? && v.fifo == [] && v.merged == []
  }

  /** Merged tasks are told before any unprocessed task is promoted. */
  predicate Allowed(v: View, e: Event) {
    match e
    case Silent => true
    case Arrive(_) => true
    case Promote => v.active.Nobody? && v.merged == [] && v.fifo != []
    case Tell => v.active.Nobody? && v.merged != []
    case Begin => v.active.Promoted?
    case Merge(entry) => v.active.Serving? && v.fifo != [] && v.fifo[0] == entry
    case Leave(outcome) =>
      match v.active
      case Nobody => false
      case Promoted(_) => outcome in {Unwound(QueuePoison), Unwound(MutexPoison)}
      case Serving(_) => outcome in {Returned(Processed), Unwound(CallbackPanic)}
      case Told(_) =>
        || outcome == Unwound(QueuePoison)
        || (v.predecessor.Some? &&
            outcome == Returned(if v.predecessor.value.Returned? then ProcessedElsewhere else ProcessingPanicked))
  }

  function Follow(v: View, e: Event): View
    requires Allowed(v, e)
  {
    match e
    case Silent => v
    case Arrive(entry) => if Idle(v) then v.(active := Promoted(entry)) else v.(fifo := v.fifo + [entry])
    case Promote => v.(active := Promoted(v.fifo[0]), fifo := v.fifo[1..])
    case Tell => v.(active := Told(v.merged[0]), merged := v.merged[1..])
    case Begin => v.(active := Serving(v.active.entry.id))
    case Merge(entry) => v.(fifo := v.fifo[1..], merged := v.merged + [entry.id])
    case Leave(outcome) => v.(active := Nobody, predecessor := Some(outcome))
  }

  // --- The abstraction ----------------------------------------------------------------------------

  function FifoOfHead(head: Slot): seq<Entry> {
    match head.value
    case Some(v) => [Entry(head.owner, v)]
    case None => []
  }

  /** The slots still full, in queue order. */
  function Fifo(queue: seq<Slot>): seq<Entry> {
    if queue == [] then [] else FifoOfHead(queue[0]) + Fifo(queue[1..])
  }

  function MergedOfHead(head: Slot): seq<Id> {
    if head.value.None? then [head.owner] else []
  }

  /** The owners of the emptied slots, in queue order. */
  function Merged(queue: seq<Slot>): seq<Id> {
    if queue == [] then [] else MergedOfHead(queue[0]) + Merged(queue[1..])
  }

  function ActiveOf(log: Log, pcs: seq<Pc>): Active {
    var x := Turn(log);
    if !Occupied(log) || x >= |pcs| then Nobody
    else if HasValueInHand(pcs[x]) then Promoted(Entry(x, ValueInHand(pcs[x])))
    else if x >= |log.fates| then Serving(x)
    else match log.fates[x].fate
      case TakenBy(_) => Told(x)
      case Discarded => Promoted(Entry(x, log.fates[x].value))
      case OwnCallback => Serving(x)
  }

  function Predecessor(log: Log): Option<Outcome> {
    if log.exits == [] then None else Some(log.exits[|log.exits| - 1].outcome)
  }

  function Abs(s: State): View {
    View(ActiveOf(s.log, s.pcs), Fifo(s.shared.queue), Merged(s.shared.queue), Predecessor(s.log))
  }

  /** What a protocol step looks like from outside. Waking up, parking, spurious wakeups, looking
      at poison, unlocking and relocking cannot be seen. */
  function EventOf(c: Config, s: State, a: Action): Event
    requires Enabled(s, a)
  {
    match a
    case Start(v) => Arrive(Entry(|s.pcs|, v))
    case PopFront(i) =>
      if s.shared.queue != [] && s.shared.queue[0].value.Some? then Promote else Tell
    case CheckMutexPoison(i) => if c.options.unwrapMutexPoison && s.mutexPoisoned then Silent else Begin
    case HandlePop(i) =>
      var n := s.pcs[i].nextIdx;
      if n < |s.shared.queue| && s.shared.queue[n].value.Some?
      then Merge(Entry(s.shared.queue[n].owner, s.shared.queue[n].value.value)) else Silent
    case ExitOk(i) => Leave(Returned(s.pcs[i].result))
    case ExitErr(i) => Leave(Unwound(s.pcs[i].cause))
    case _ => Silent
  }

  lemma Associative<T>(x: seq<T>, y: seq<T>, z: seq<T>)
    ensures (x + y) + z == x + (y + z)
  {
  }

  lemma {:induction false} FifoConcat(a: seq<Slot>, b: seq<Slot>)
    ensures Fifo(a + b) == Fifo(a) + Fifo(b)
  {
    if a == [] {
      assert a + b == b;
    } else {
      assert (a + b)[1..] == a[1..] + b && (a + b)[0] == a[0];
      FifoConcat(a[1..], b);
      Associative(FifoOfHead(a[0]), Fifo(a[1..]), Fifo(b));
    }
  }

  lemma {:induction false} MergedConcat(a: seq<Slot>, b: seq<Slot>)
    ensures Merged(a + b) == Merged(a) + Merged(b)
  {
    if a == [] {
      assert a + b == b;
    } else {
      assert (a + b)[1..] == a[1..] + b && (a + b)[0] == a[0];
      MergedConcat(a[1..], b);
      Associative(MergedOfHead(a[0]), Merged(a[1..]), Merged(b));
    }
  }

  lemma {:induction false} AllEmptied(queue: seq<Slot>)
    requires forall k :: 0 <= k < |queue| ==> queue[k].value.None?
    ensures Fifo(queue) == [] && |Merged(queue)| == |queue|
  {
    if queue != [] {
      AllEmptied(queue[1..]);
    }
  }

  lemma {:induction false} AllFull(queue: seq<Slot>)
    requires forall k :: 0 <= k < |queue| ==> queue[k].value.Some?
    ensures Merged(queue) == [] && |Fifo(queue)| == |queue|
  {
    if queue != [] {
      AllFull(queue[1..]);
    }
  }

  /** The two lists of a queue with one slot singled out. */
  lemma AroundSlot(queue: seq<Slot>, n: nat)
    requires n < |queue|
    ensures Fifo(queue) == Fifo(queue[..n]) + (FifoOfHead(queue[n]) + Fifo(queue[n + 1..]))
    ensures Merged(queue) == Merged(queue[..n]) + (MergedOfHead(queue[n]) + Merged(queue[n + 1..]))
  {
    assert queue == queue[..n] + queue[n..];
    FifoConcat(queue[..n], queue[n..]);
    MergedConcat(queue[..n], queue[n..]);
    assert queue[n..][0] == queue[n] && queue[n..][1..] == queue[n + 1..];
  }

  lemma DropEmpty<T>(x: seq<T>, y: seq<T>)
    ensures x + (y + []) == x + y && [] + x == x && x + [] == x
  {
  }

  lemma FifoAround(queue: seq<Slot>, n: nat)
    requires n < |queue| && forall k :: 0 <= k < n ==> queue[k].value.None?
    ensures Fifo(queue) == FifoOfHead(queue[n]) + Fifo(queue[n + 1..])
  {
    AroundSlot(queue, n);
    AllEmptied(queue[..n]);
    DropEmpty(FifoOfHead(queue[n]) + Fifo(queue[n + 1..]), []);
  }

  lemma MergedAround(queue: seq<Slot>, n: nat)
    requires n < |queue| && forall k :: n < k < |queue| ==> queue[k].value.Some?
    ensures Merged(queue) == Merged(queue[..n]) + MergedOfHead(queue[n])
  {
    AroundSlot(queue, n);
    AllFull(queue[n + 1..]);
    DropEmpty(Merged(queue[..n]), MergedOfHead(queue[n]));
  }

  lemma TakeFromFifo(queue: seq<Slot>, n: nat, queue': seq<Slot>)
    requires n < |queue| == |queue'| && queue[n].value.Some? && queue'[n].value.None?
    requires queue'[n + 1..] == queue[n + 1..]
    requires forall k :: 0 <= k < n ==> queue[k].value.None? && queue'[k].value.None?
    ensures Fifo(queue) == [Entry(queue[n].owner, queue[n].value.value)] + Fifo(queue')
  {
    FifoAround(queue, n);
    FifoAround(queue', n);
    DropEmpty(Fifo(queue[n + 1..]), []);
    assert Fifo(queue') == Fifo(queue[n + 1..]);
  }

  lemma TakeToMerged(queue: seq<Slot>, n: nat, queue': seq<Slot>)
    requires n < |queue| == |queue'| && queue[n].value.Some? && queue'[n] == queue[n].(value := None)
    requires queue'[..n] == queue[..n]
    requires forall k :: n < k < |queue| ==> queue[k].value.Some? && queue'[k].value.Some?
    ensures Merged(queue') == Merged(queue) + [queue[n].owner]
  {
    MergedAround(queue, n);
    MergedAround(queue', n);
    DropEmpty(Merged(queue[..n]), []);
  }

  /** Emptying the first full slot moves it from the FIFO to the merged list. */
  lemma TakeMoves(queue: seq<Slot>, n: nat)
    requires n < |queue|
    requires forall k :: 0 <= k < |queue| ==> (queue[k].value.None? <==> k < n)
    ensures var queue' := queue[n := queue[n].(value := None)];
      && Fifo(queue) == [Entry(queue[n].owner, queue[n].value.value)] + Fifo(queue')
      && Merged(queue') == Merged(queue) + [queue[n].owner]
  {
    var queue' := queue[n := queue[n].(value := None)];
    TakeFromFifo(queue, n, queue');
    TakeToMerged(queue, n, queue');
  }

  /** No emptied slot stands behind a full one. */
  lemma FullHeadMeansNoMerged(c: Config, s: State)
    requires Inv(c, s) && s.shared.queue != [] && s.shared.queue[0].value.Some?
    ensures Merged(s.shared.queue) == []
  {
    AllFull(s.shared.queue);
  }

  // --- Conservation of values -----------------------------------------------------------------------

  function Submitted(arrivals: seq<Value>): seq<Entry> {
    seq(|arrivals|, k requires 0 <= k < |arrivals| => Entry(k, arrivals[k]))
  }

  function SettledEntries(fates: seq<Settled>): seq<Entry> {
    seq(|fates|, k requires 0 <= k < |fates| => Entry(fates[k].id, fates[k].value))
  }

  /** The value that a call has popped or kept but not yet settled. */
  function InHand(log: Log, pcs: seq<Pc>): seq<Entry> {
    var x := Turn(log);
    if Occupied(log) && x < |pcs| && HasValueInHand(pcs[x]) then [Entry(x, ValueInHand(pcs[x]))] else []
  }

  /** Every submitted value is, in arrival order, either settled, or in the hand of the one call
      that is about to settle it, or still in its slot. None is lost, doubled or reordered. */
  lemma ValuesConserved(c: Config, s: State)
    requires Reachable(c, s)
    ensures Submitted(s.log.arrivals) ==
              SettledEntries(s.log.fates) + InHand(s.log, s.pcs) + Fifo(s.shared.queue)
  {
    ReachableInv(c, s);
    Conserved(s.log, s.pcs, s.shared.queue);
  }

  lemma Conserved(log: Log, pcs: seq<Pc>, queue: seq<Slot>)
    requires LogOk(log) && QueueOk(queue, log, Emptied(log, pcs))
    requires Occupied(log) && Turn(log) < |pcs| && HasValueInHand(pcs[Turn(log)]) ==>
               InHandOk(log, ValueInHand(pcs[Turn(log)]))
    ensures Submitted(log.arrivals) == SettledEntries(log.fates) + InHand(log, pcs) + Fifo(queue)
  {
    var all, f, e := Submitted(log.arrivals), |log.fates|, Emptied(log, pcs);
    FullSlotsAre(queue, e - Granted(log), all[e..]);
    SettledFirst(log);
    if e > f {
      assert all[f..e] == [all[f]];
    }
    assert all == all[..f] + all[f..e] + all[e..];
  }

  lemma SettledFirst(log: Log)
    requires LogOk(log)
    ensures SettledEntries(log.fates) == Submitted(log.arrivals)[..|log.fates|]
  {
  }

  lemma {:induction false} FullSlotsAre(queue: seq<Slot>, n: nat, entries: seq<Entry>)
    requires n + |entries| == |queue|
    requires forall k :: 0 <= k < n ==> queue[k].value.None?
    requires forall k :: n <= k < |queue| ==>
               queue[k] == Slot(entries[k - n].id, Some(entries[k - n].value))
    ensures Fifo(queue) == entries
  {
    if queue != [] {
      if n > 0 {
        FullSlotsAre(queue[1..], n - 1, entries);
      } else {
        FullSlotsAre(queue[1..], 0, entries[1..]);
        assert entries == [entries[0]] + entries[1..];
      }
    }
  }

  // --- Refinement, step by step --------------------------------------------------------------------

  predicate Refines(c: Config, s: State, a: Action)
    requires Enabled(s, a)
  {
    Allowed(Abs(s), EventOf(c, s, a)) && Abs(Apply(c, s, a)) == Follow(Abs(s), EventOf(c, s, a))
  }

  lemma RefineStart(c: Config, s: State, v: Value)
    requires Inv(c, s) && Enabled(s, Start(v))
    ensures Refines(c, s, Start(v))
  {
    if CanAcquire(s.shared) {
      RefineFastStart(c, s, v);
    } else {
      RefineSlowStart(c, s, v);
    }
  }

  lemma RefineFastStart(c: Config, s: State, v: Value)
    requires Inv(c, s) && Enabled(s, Start(v)) && CanAcquire(s.shared)
    ensures Abs(DoStart(s, v)) == Follow(Abs(s), Arrive(Entry(|s.pcs|, v)))
  {
    assert Idle(Abs(s));
  }

  lemma RefineSlowStart(c: Config, s: State, v: Value)
    requires Inv(c, s) && Enabled(s, Start(v)) && !CanAcquire(s.shared)
    ensures Abs(DoStart(s, v)) == Follow(Abs(s), Arrive(Entry(|s.pcs|, v)))
  {
    PushedLast(s.shared.queue, Slot(|s.pcs|, Some(v)));
    ActiveUnmoved(s.log, s.pcs, v);
    if !Occupied(s.log) {
      IdleMeansEmpty(s.shared.queue);
    }
    assert !Idle(Abs(s));
  }

  lemma PushedLast(queue: seq<Slot>, slot: Slot)
    requires slot.value.Some?
    ensures Fifo(queue + [slot]) == Fifo(queue) + [Entry(slot.owner, slot.value.value)]
    ensures Merged(queue + [slot]) == Merged(queue)
  {
    FifoConcat(queue, [slot]);
    MergedConcat(queue, [slot]);
    assert [slot][1..] == [];
  }

  lemma ActiveUnmoved(log: Log, pcs: seq<Pc>, v: Value)
    requires Occupied(log) ==> Turn(log) < |pcs|
    ensures ActiveOf(log.(arrivals := log.arrivals + [v]), pcs + [Waiting]) == ActiveOf(log, pcs)
  {
  }

  lemma IdleMeansEmpty(queue: seq<Slot>)
    requires queue != []
    ensures Fifo(queue) != [] || Merged(queue) != []
  {
  }

  lemma RefinePopFront(c: Config, s: State, i: Id)
    requires Inv(c, s) && Enabled(s, PopFront(i))
    ensures Refines(c, s, PopFront(i))
  {
    Actor(c, s, i);
    if s.shared.queue[0].value.Some? {
      FullHeadMeansNoMerged(c, s);
    }
    HeadValue(c, s);
    RefinePopped(c, s, i);
  }

  lemma RefinePopped(c: Config, s: State, i: Id)
    requires Enabled(s, PopFront(i)) && |s.log.grants| == Turn(s.log) == i && s.shared.queue != []
    requires if s.shared.queue[0].value.Some? then Merged(s.shared.queue) == []
             else i < |s.log.fates| && s.log.fates[i].fate.TakenBy?
    requires s.shared.queue[0].owner == i
    ensures Refines(c, s, PopFront(i))
  {
    ActiveAfterPop(s.log, s.pcs, DoPopFront(s, i).pcs[i]);
  }

  /** An emptied head was emptied by a callback; a full one still shows what was submitted. */
  lemma HeadValue(c: Config, s: State)
    requires Inv(c, s) && !Occupied(s.log) && s.shared.queue != []
    ensures var x, f := Turn(s.log), s.log.fates;
      if s.shared.queue[0].value.Some? then |f| == x else |f| > x && f[x].fate.TakenBy?
  {
  }

  lemma ActiveAfterPop(log: Log, pcs: seq<Pc>, pc: Pc)
    requires |log.grants| == Turn(log) < |pcs|
    requires HasValueInHand(pc) || (Turn(log) < |log.fates| && log.fates[Turn(log)].fate.TakenBy?)
    ensures var x := Turn(log);
      ActiveOf(log.(grants := log.grants + [Grant(x, Woken)]), pcs[x := pc]) ==
        if HasValueInHand(pc) then Promoted(Entry(x, ValueInHand(pc))) else Told(x)
  {
  }

  lemma RefineHandlePop(c: Config, s: State, i: Id)
    requires Inv(c, s) && Enabled(s, HandlePop(i))
    ensures Refines(c, s, HandlePop(i))
  {
    HandlePopTakes(c, s, i);
    QueueSplit(c, s, i);
    RefineTaken(c, s, i);
  }

  lemma QueueSplit(c: Config, s: State, i: Id)
    requires Inv(c, s) && Enabled(s, HandlePop(i))
    ensures var n, queue := s.pcs[i].nextIdx, s.shared.queue;
      && (forall k :: 0 <= k < |queue| ==> (queue[k].value.None? <==> k < n))
      && (n < |queue| ==> queue[n] == Slot(|s.log.fates|, Some(s.log.arrivals[|s.log.fates|])))
  {
    HandleSlot(c, s, i);
  }

  lemma RefineTaken(c: Config, s: State, i: Id)
    requires Enabled(s, HandlePop(i)) && i == Turn(s.log) && Occupied(s.log)
    requires RunningOk(s.log, s.pcs[i].nextIdx)
    requires var n, queue := s.pcs[i].nextIdx, s.shared.queue;
      forall k :: 0 <= k < |queue| ==> (queue[k].value.None? <==> k < n)
    ensures Refines(c, s, HandlePop(i))
  {
    if s.pcs[i].nextIdx < |s.shared.queue| {
      TakeMoves(s.shared.queue, s.pcs[i].nextIdx);
    }
  }

  /** Between acquiring and leaving, a settled value alone decides how the active task looks. */
  lemma ActiveSettled(log: Log, pcs: seq<Pc>, pc: Pc)
    requires Occupied(log) && Turn(log) < |pcs| && !HasValueInHand(pc) && !HasValueInHand(pcs[Turn(log)])
    ensures ActiveOf(log, pcs[Turn(log) := pc]) == ActiveOf(log, pcs)
  {
  }

  lemma RefineQueuePoison(c: Config, s: State, i: Id)
    requires Inv(c, s) && Enabled(s, CheckQueuePoison(i))
    ensures Refines(c, s, CheckQueuePoison(i))
  {
    TurnOfHolder(c, s, i);
    RefineQueuePoisonChecked(c, s, i);
  }

  lemma TurnOfHolder(c: Config, s: State, i: Id)
    requires Inv(c, s) && i < |s.pcs| && HoldsFront(s.pcs[i])
    ensures i == Turn(s.log) && Occupied(s.log)
    ensures HasValueInHand(s.pcs[i]) ==> |s.log.fates| == i
  {
    Actor(c, s, i);
  }

  lemma RefineQueuePoisonChecked(c: Config, s: State, i: Id)
    requires Enabled(s, CheckQueuePoison(i)) && i == Turn(s.log) && Occupied(s.log)
    requires HasValueInHand(s.pcs[i]) ==> |s.log.fates| == i
    ensures Refines(c, s, CheckQueuePoison(i))
  {
    if HasValueInHand(s.pcs[i]) {
      ActiveSettles(s.log, s.pcs, Unwinding(QueuePoison), Discarded);
    } else {
      ActiveSettled(s.log, s.pcs, DoCheckQueuePoison(c, s, i).pcs[i]);
    }
  }

  /** Settling the active task's own value: its callback begins, or nothing can be seen. */
  lemma ActiveSettles(log: Log, pcs: seq<Pc>, pc: Pc, fate: Fate)
    requires Occupied(log) && |log.fates| == Turn(log) < |pcs|
    requires HasValueInHand(pcs[Turn(log)]) && !HasValueInHand(pc) && !fate.TakenBy?
    ensures var x, v := Turn(log), ValueInHand(pcs[Turn(log)]);
      && ActiveOf(log, pcs) == Promoted(Entry(x, v))
      && ActiveOf(Settle(log, x, v, fate), pcs[x := pc]) ==
           (if fate == OwnCallback then Serving(x) else Promoted(Entry(x, v)))
  {
  }

  lemma RefineMutexPoison(c: Config, s: State, i: Id)
    requires Inv(c, s) && Enabled(s, CheckMutexPoison(i))
    ensures Refines(c, s, CheckMutexPoison(i))
  {
    TurnOfHolder(c, s, i);
    RefineMutexPoisonChecked(c, s, i);
  }

  lemma RefineMutexPoisonChecked(c: Config, s: State, i: Id)
    requires Enabled(s, CheckMutexPoison(i)) && i == Turn(s.log) && Occupied(s.log) && |s.log.fates| == i
    ensures Refines(c, s, CheckMutexPoison(i))
  {
    if c.options.unwrapMutexPoison && s.mutexPoisoned {
      ActiveSettles(s.log, s.pcs, Unwinding(MutexPoison), Discarded);
    } else {
      ActiveSettles(s.log, s.pcs, Running(0), OwnCallback);
    }
  }

  /** How the active task may look when it is about to leave with `outcome`. */
  lemma LeaveAllowed(c: Config, log: Log, pcs: seq<Pc>, outcome: Outcome, fifo: seq<Entry>, merged: seq<Id>)
    requires Occupied(log) && Turn(log) < |pcs| && !HasValueInHand(pcs[Turn(log)])
    requires Fits(c, log, Turn(log), outcome)
    ensures Allowed(View(ActiveOf(log, pcs), fifo, merged, Predecessor(log)), Leave(outcome))
  {
    match outcome
    case Returned(Processed) =>
    case Returned(ProcessedElsewhere) =>
    case Returned(ProcessingPanicked) =>
    case Unwound(QueuePoison) =>
    case Unwound(MutexPoison) =>
    case Unwound(CallbackPanic) =>
  }

  lemma AbsAfterExit(s: State, i: Id, outcome: Outcome)
    requires i < |s.pcs| && i == Turn(s.log) && |s.log.grants| == i + 1
    ensures Abs(Depart(s, i, outcome)) == Abs(s).(active := Nobody, predecessor := Some(outcome))
  {
  }

  lemma RefineExit(c: Config, s: State, a: Action)
    requires Inv(c, s) && Enabled(s, a) && (a.ExitOk? || a.ExitErr?)
    ensures Refines(c, s, a)
  {
    Actor(c, s, a.i);
    var outcome := if a.ExitOk? then Returned(s.pcs[a.i].result) else Unwound(s.pcs[a.i].cause);
    RefineLeaving(c, s, a, outcome);
  }

  lemma RefineLeaving(c: Config, s: State, a: Action, outcome: Outcome)
    requires Enabled(s, a) && (a.ExitOk? || a.ExitErr?) && a.i == Turn(s.log) && |s.log.grants| == a.i + 1
    requires outcome == if a.ExitOk? then Returned(s.pcs[a.i].result) else Unwound(s.pcs[a.i].cause)
    requires Fits(c, s.log, a.i, outcome)
    ensures Refines(c, s, a)
  {
    LeaveAllowed(c, s.log, s.pcs, outcome, Fifo(s.shared.queue), Merged(s.shared.queue));
    AbsAfterExit(s, a.i, outcome);
    AbsAfterExit(s.(shared := s.shared.(queuePoisoned := true)), a.i, outcome);
  }

  lemma RefineCallback(c: Config, s: State, a: Action)
    requires Inv(c, s) && Enabled(s, a) && ByCallback(a) && !a.HandlePop?
    ensures Refines(c, s, a)
  {
    Actor(c, s, a.i);
    RefineInCallback(c, s, a);
  }

  lemma RefineInCallback(c: Config, s: State, a: Action)
    requires Enabled(s, a) && ByCallback(a) && !a.HandlePop? && a.i == Turn(s.log) && Occupied(s.log)
    ensures Refines(c, s, a)
  {
    var s' := Apply(c, s, a);
    assert s'.log == s.log && s'.shared.queue == s.shared.queue;
    assert s'.pcs == s.pcs[a.i := s'.pcs[a.i]];
    ActiveSettled(s.log, s.pcs, s'.pcs[a.i]);
  }

  lemma RefineOutside(c: Config, s: State, a: Action)
    requires Inv(c, s) && Enabled(s, a)
    requires ByEnvironment(a) || a.Spurious? || a.WakeCheck?
    ensures Refines(c, s, a)
  {
    RefineUnseen(c, s, a);
  }

  lemma RefineUnseen(c: Config, s: State, a: Action)
    requires Enabled(s, a) && (ByEnvironment(a) || a.Spurious? || a.WakeCheck?)
    requires Occupied(s.log) ==> Turn(s.log) < |s.pcs| && !s.pcs[Turn(s.log)].Waiting?
    ensures Refines(c, s, a)
  {
    var s' := Apply(c, s, a);
    assert s'.log == s.log && s'.shared.queue == s.shared.queue;
    assert ActiveOf(s'.log, s'.pcs) == ActiveOf(s.log, s.pcs);
  }

  lemma RefineStep(c: Config, s: State, a: Action)
    requires Inv(c, s) && Enabled(s, a)
    ensures Refines(c, s, a)
  {
    if a.Start? {
      RefineStart(c, s, a.v);
    } else if a.PopFront? {
      RefinePopFront(c, s, a.i);
    } else if a.HandlePop? {
      RefineHandlePop(c, s, a.i);
    } else if a.CheckQueuePoison? {
      RefineQueuePoison(c, s, a.i);
    } else if a.CheckMutexPoison? {
      RefineMutexPoison(c, s, a.i);
    } else if a.ExitOk? || a.ExitErr? {
      RefineExit(c, s, a);
    } else if ByCallback(a) {
      RefineCallback(c, s, a);
    } else {
      RefineOutside(c, s, a);
    }
  }

  // --- Refinement of whole runs ----------------------------------------------------------------------

  predicate FacadeRun(v: View, events: seq<Event>)
    decreases |events|
  {
    events == [] || (Allowed(v, events[0]) && FacadeRun(Follow(v, events[0]), events[1..]))
  }

  function FacadeEnd(v: View, events: seq<Event>): View
    requires FacadeRun(v, events)
    decreases |events|
  {
    if events == [] then v else FacadeEnd(Follow(v, events[0]), events[1..])
  }

  function EventsOf(c: Config, s: State, run: seq<Action>): seq<Event>
    requires Legal(c, s, run)
    decreases |run|
  {
    if run == [] then [] else [EventOf(c, s, run[0])] + EventsOf(c, Apply(c, s, run[0]), run[1..])
  }

  lemma {:induction false} RunRefines(c: Config, s: State, run: seq<Action>)
    requires Inv(c, s) && Legal(c, s, run)
    ensures FacadeRun(Abs(s), EventsOf(c, s, run))
    ensures FacadeEnd(Abs(s), EventsOf(c, s, run)) == Abs(Exec(c, s, run))
    decreases |run|
  {
    if run != [] {
      var s' := Apply(c, s, run[0]);
      RefineStep(c, s, run[0]);
      InvStep(c, s, run[0]);
      RunRefines(c, s', run[1..]);
      var events := EventsOf(c, s, run);
      assert events[0] == EventOf(c, s, run[0]) && events[1..] == EventsOf(c, s', run[1..]);
    }
  }

  /** Seen from outside, every run of the protocol is a run of the facade, and the two agree at
      the end on the active task, the FIFO and the merged tasks. */
  lemma ProtocolRefinesFacade(c: Config, run: seq<Action>)
    requires Legal(c, Init(), run)
    ensures FacadeRun(EMPTY, EventsOf(c, Init(), run))
    ensures FacadeEnd(EMPTY, EventsOf(c, Init(), run)) == Abs(Exec(c, Init(), run))
  {
    RunRefines(c, Init(), run);
  }
}
