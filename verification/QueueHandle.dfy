// src/queue_handle.rs: what a callback can do with the queue while it is at the front.
module QueueHandles {
  import opened Base
  import opened QueueState
  import opened Protocol
  import opened Safety
  import opened Queue

  class QueueHandle {
    const queue: ContentionQueue
    ghost const id: Id
    var nextIdx: nat

    ghost function Pc(): Protocol.Pc
      requires id < |queue.model.pcs|
      reads this, queue
    {
      queue.model.pcs[id]
    }

    /** The handle belongs to an active callback, and it points where the snapshot says. */
    ghost predicate Valid()
      reads this, queue, queue.mutex, queue.me, queue.me.queue, queue.me.states.Values
    {
      && queue.Valid()
      && id < |queue.model.pcs|
      && (Pc() == Running(nextIdx) || Pc() == Unlocked(nextIdx))
    }

    constructor (queue: ContentionQueue, ghost id: Id)
      requires queue.Valid() && id < |queue.model.pcs| && queue.model.pcs[id] == Running(0)
      ensures Valid() && this.queue == queue && this.id == id && nextIdx == 0
    {
      this.queue := queue;
      this.id := id;
      nextIdx := 0;
    }

    /** The value that is next in arrival order, if it has arrived. */
    ghost function NextArrival(): Option<Value>
      reads queue
    {
      var log := queue.model.log;
      if |log.fates| < |log.arrivals| then Some(log.arrivals[|log.fates|]) else None
    }

    /** Shows the next value in arrival order. The slot it looks at, if there is one, is full. */
    method Peek() returns (value: Option<Value>)
      requires Valid() && Pc().Running?
      ensures value == NextArrival()
      ensures Enabled(queue.model, HandlePeek(id))
      ensures Apply(queue.Setting(), queue.model, HandlePeek(id)) == queue.model
    {
      HandleSeesNextArrival(queue.Setting(), queue.model, id);
      if nextIdx < |queue.me.queue| {
        var slot := queue.me.queue[nextIdx].value;
        assert slot.Some?;
        value := slot;
      } else {
        value := None;
      }
    }

    /** Takes that value. */
    method Pop() returns (value: Option<Value>)
      requires Valid() && Pc().Running?
      modifies this`nextIdx, queue`model, queue.me`shared, queue.me.queue
      ensures Valid() && Pc().Running? && queue.Took(HandlePop(id))
      ensures value == old(NextArrival())
      ensures nextIdx == old(nextIdx) + if value.Some? then 1 else 0
    {
      if nextIdx < |queue.me.queue| {
        value := TakeNext();
        nextIdx := nextIdx + 1;
      } else {
        PopEffect(queue.Setting(), queue.model, id);
        value := None;
      }
    }

    /** The slot at `nextIdx` is emptied; the handle does not point behind it yet. */
    method TakeNext() returns (slot: Option<Value>)
      requires Valid() && Pc().Running? && nextIdx < |queue.me.queue|
      modifies queue`model, queue.me`shared, queue.me.queue
      ensures queue.Valid() && queue.Took(HandlePop(id))
      ensures id < |queue.model.pcs| && Pc() == Running(old(nextIdx) + 1)
      ensures slot == old(NextArrival()) && slot.Some?
    {
      PopEffect(queue.Setting(), queue.model, id);
      slot := queue.EmptySlot(nextIdx, DoHandlePop(queue.model, id));
    }

    method IsQueuePoisoned() returns (poisoned: bool)
      requires Valid() && Pc().Running?
      ensures poisoned == queue.model.shared.queuePoisoned
    {
      poisoned := queue.me.queuePoisoned;
    }

    method ClearQueuePoison()
      requires Valid() && Pc().Running?
      modifies queue`model, queue.me`queuePoisoned, queue.me`shared
      ensures Valid() && Pc().Running? && queue.Took(HandleClear(id))
      ensures !queue.me.queuePoisoned
    {
      ReachableStep(queue.Setting(), queue.model, HandleClear(id));
      queue.me.SetQueuePoisoned(false);
      queue.model := queue.model.(shared := queue.model.shared.(queuePoisoned := false));
    }

    /** `ReLock::new`, the start of `unlocked`. A guard that is dropped while its thread unwinds
        poisons the mutex. */
    method OpenWindow(panicking: bool)
      requires Valid() && Pc().Running?
      modifies queue`model, queue.mutex
      ensures Valid() && Pc().Unlocked? && queue.Took(Unlock(id, panicking))
      ensures !queue.mutex.locked && nextIdx == old(nextIdx)
      ensures queue.mutex.poisoned == (old(queue.mutex.poisoned) || panicking)
    {
      ReachableStep(queue.Setting(), queue.model, Unlock(id, panicking));
      queue.mutex.locked := false;
      queue.mutex.poisoned := queue.mutex.poisoned || panicking;
      queue.model := Apply(queue.Setting(), queue.model, Unlock(id, panicking));
    }

    /** The drop of `ReLock`, the end of `unlocked`, once the mutex can be had. */
    method CloseWindow()
      requires Valid() && Pc().Unlocked? && queue.model.mutex.Free?
      modifies queue`model, queue.mutex`locked
      ensures Valid() && Pc().Running? && queue.Took(Relock(id))
      ensures queue.mutex.locked && nextIdx == old(nextIdx)
    {
      ReachableStep(queue.Setting(), queue.model, Relock(id));
      queue.mutex.locked := true;
      queue.model := Apply(queue.Setting(), queue.model, Relock(id));
    }
  }

  lemma PopEffect(c: Config, s: State, i: Id)
    requires Reachable(c, s) && Enabled(s, HandlePop(i))
    ensures var s', n := DoHandlePop(s, i), s.pcs[i].nextIdx;
      && Reachable(c, s')
      && PeekAt(s.shared, n) == (if |s.log.fates| < |s.log.arrivals| then Some(s.log.arrivals[|s.log.fates|]) else None)
      && (n < |s.shared.queue| <==> |s.log.fates| < |s.log.arrivals|)
      && if n < |s.shared.queue|
         then s'.shared == TakenAt(s.shared, n) && i < |s'.pcs| && s'.pcs[i] == Running(n + 1)
              && s'.cells == s.cells && s'.mutex == s.mutex && s'.mutexPoisoned == s.mutexPoisoned
         else s' == s
    ensures Apply(c, s, HandlePop(i)) == DoHandlePop(s, i)
  {
    HandleSeesNextArrival(c, s, i);
    ReachableStep(c, s, HandlePop(i));
  }
}
