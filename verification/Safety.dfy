// What holds in every reachable state, for any number of calls and any interleaving.
module Safety {
  import opened Base
  import opened TaskStates
  import opened QueueState
  import opened Protocol
  import opened Invariant

  /** The calls that hold the front permission. */
  function Holders(s: State): set<Id> {
    set i | 0 <= i < |s.pcs| && HoldsFront(s.pcs[i])
  }

  /** The head task has been woken and its owner has not popped it yet. */
  predicate HeadOffered(s: State) {
    && s.shared.queue != []
    && s.shared.queue[0].owner in s.cells
    && AtFront(s.cells[s.shared.queue[0].owner].word)
  }

  /** `front_locked` means exactly that one call holds the permission, or that it lies with the
      head task. Never both, and never two calls, not even while the mutex is free. */
  lemma SinglePermission(c: Config, s: State)
    requires Reachable(c, s)
    ensures s.shared.frontLocked <==> Holders(s) != {} || HeadOffered(s)
    ensures !(Holders(s) != {} && HeadOffered(s))
    ensures forall i, j :: i in Holders(s) && j in Holders(s) ==> i == j
    ensures !s.shared.frontLocked ==> s.shared.queue == []
    ensures forall k :: 0 < k < |s.shared.queue| ==>
              s.shared.queue[k].owner in s.cells && !AtFront(s.cells[s.shared.queue[k].owner].word)
  {
    ReachableInv(c, s);
    BitsOfOffer(true);
    BitsOfOffer(false);
    var x := Turn(s.log);
    if Occupied(s.log) {
      assert x in Holders(s);
    }
  }

  /** At most one thread is past the mutex, and it is the one that the mutex names. */
  lemma MutualExclusion(c: Config, s: State, i: Id)
    requires Reachable(c, s) && i < |s.pcs|
    ensures HoldsMutex(s.pcs[i]) <==> s.mutex == Held(i)
  {
    ReachableInv(c, s);
  }

  /** The front goes round in arrival order, and the queue continues that order: granted calls,
      then queued ones, are exactly all calls. */
  lemma StrictFifo(c: Config, s: State)
    requires Reachable(c, s)
    ensures |s.log.grants| + |s.shared.queue| == |s.pcs|
    ensures forall k :: 0 <= k < |s.log.grants| ==> s.log.grants[k].id == k
    ensures forall j :: 0 <= j < |s.shared.queue| ==> s.shared.queue[j].owner == |s.log.grants| + j
  {
    ReachableInv(c, s);
  }

  /** A call that takes the fast path overtakes nobody: every earlier call has left. This holds
      also for a caller that reuses the guard it has just been given back. */
  lemma NoBarging(c: Config, s: State, v: Value)
    requires Reachable(c, s) && Enabled(s, Start(v))
    ensures var s' := Apply(c, s, Start(v));
      (s'.pcs[|s.pcs|].Ready? <==> forall i :: 0 <= i < |s.pcs| ==> s.pcs[i].Done?)
  {
    ReachableInv(c, s);
    if Turn(s.log) < |s.pcs| {
      assert !s.pcs[Turn(s.log)].Done?;
    }
  }

  /** The length of the run of emptied slots at the head of the queue. */
  function EmptyRun(queue: seq<Slot>): (n: nat)
    ensures n <= |queue|
    ensures forall k :: 0 <= k < n ==> queue[k].value.None?
    ensures n < |queue| ==> queue[n].value.Some?
  {
    if queue == [] || queue[0].value.Some? then 0 else 1 + EmptyRun(queue[1..])
  }

  /** No full slot stands before an emptied one, a handle points right behind the emptied run,
      and a call about to run its callback finds that run empty. */
  lemma QueueShape(c: Config, s: State)
    requires Reachable(c, s)
    ensures forall k :: EmptyRun(s.shared.queue) <= k < |s.shared.queue| ==> s.shared.queue[k].value.Some?
    ensures forall i :: 0 <= i < |s.pcs| && InCallback(s.pcs[i]) ==> s.pcs[i].nextIdx == EmptyRun(s.shared.queue)
    ensures forall i :: 0 <= i < |s.pcs| && s.pcs[i].Ready? ==> EmptyRun(s.shared.queue) == 0
  {
    ReachableInv(c, s);
    EmptyRunIs(s.shared.queue, Emptied(s.log, s.pcs) - Granted(s.log));
  }

  lemma {:induction false} EmptyRunIs(queue: seq<Slot>, n: nat)
    requires n <= |queue|
    requires forall k :: 0 <= k < |queue| ==> (queue[k].value.None? <==> k < n)
    ensures EmptyRun(queue) == n
  {
    if n > 0 {
      EmptyRunIs(queue[1..], n - 1);
    }
  }

  /** `peek` and `pop` show the earliest value that nobody has taken yet, or nothing when every
      submitted value has been taken; in particular their `expect` never fires. */
  lemma HandleSeesNextArrival(c: Config, s: State, i: Id)
    requires Reachable(c, s) && i < |s.pcs| && InCallback(s.pcs[i])
    ensures var f := |s.log.fates|;
      PeekAt(s.shared, s.pcs[i].nextIdx) == if f < |s.log.arrivals| then Some(s.log.arrivals[f]) else None
    ensures SlotUsable(s, s.pcs[i].nextIdx)
  {
    ReachableInv(c, s);
    HandleSlot(c, s, i);
  }

  /** A call that leaves the waiting loop finds its own task, and that at the head. */
  lemma OwnTaskPop(c: Config, s: State, i: Id)
    requires Reachable(c, s) && i < |s.pcs| && s.pcs[i].Leaving?
    ensures s.shared.queue != [] && s.shared.queue[0].owner == i
    ensures s.mutex == Held(i)
  {
    ReachableInv(c, s);
    Actor(c, s, i);
  }

  /** Whoever sleeps has word 0, so whoever has been handed the front is awake, and it is the
      head of the queue. */
  lemma NoLostWakeup(c: Config, s: State, i: Id)
    requires Reachable(c, s) && i < |s.pcs| && s.pcs[i].Waiting?
    ensures i in s.cells
    ensures s.cells[i].sleeping ==> s.cells[i].word == 0
    ensures AtFront(s.cells[i].word) ==>
              !s.cells[i].sleeping && s.shared.queue != [] && s.shared.queue[0].owner == i
    ensures s.cells[i].word in {0, OfferedWord(true), OfferedWord(false)}
  {
    ReachableInv(c, s);
    BitsOfOffer(true);
    assert Turn(s.log) <= i;
  }

  /** A queued task points into a stack frame that still exists, and a call that has left has no
      task in the queue. */
  lemma QueuedTasksAlive(c: Config, s: State, j: nat)
    requires Reachable(c, s) && j < |s.shared.queue|
    ensures Alive(s, s.shared.queue[j].owner)
    ensures s.shared.queue[j].owner < |s.pcs| && !s.pcs[s.shared.queue[j].owner].Done?
  {
    ReachableInv(c, s);
  }

  /** While a callback is active, inside `unlocked` too, the owner of every value that it took
      has not moved: it waits, and its emptied task is still queued. */
  lemma TakenValuesStayAlive(c: Config, s: State, i: Id, k: Id)
    requires Reachable(c, s) && i < |s.pcs| && InCallback(s.pcs[i])
    requires k < |s.log.fates| && s.log.fates[k].fate == TakenBy(i)
    ensures k < |s.pcs| && s.pcs[k].Waiting?
    ensures Slot(k, None) in s.shared.queue
  {
    ReachableInv(c, s);
    Actor(c, s, i);
    assert TakenInOrder(s.log, k);
    assert s.shared.queue[k - Granted(s.log)] == Slot(k, None);
  }

  /** No undefined pop, no foreign pop, no dangling task, no failed `expect`, in any run. */
  lemma NeverBroken(c: Config, s: State)
    requires Reachable(c, s)
    ensures !s.broken
  {
    ReachableInv(c, s);
  }

  /** A call has left exactly when it acquired the front once and gave it up once; the front was
      passed on iff the queue was not empty then, and the next grant tells which it was. */
  lemma PermissionDiscipline(c: Config, s: State, i: Id)
    requires Reachable(c, s) && i < |s.pcs|
    ensures |s.log.exits| <= |s.log.grants| <= |s.log.exits| + 1
    ensures forall k :: 0 <= k < |s.log.grants| ==> (s.log.grants[k].id == i <==> k == i)
    ensures forall k :: 0 <= k < |s.log.exits| ==> (s.log.exits[k].id == i <==> k == i)
    ensures s.pcs[i].Done? <==> i < |s.log.exits|
    ensures HoldsFront(s.pcs[i]) <==> |s.log.exits| <= i < |s.log.grants|
    ensures s.pcs[i].Done? ==> s.pcs[i].outcome == s.log.exits[i].outcome
    ensures i + 1 < |s.log.grants| && s.log.grants[i + 1].via.Woken? ==> s.log.exits[i].handoff == Transferred(i + 1)
    ensures i + 1 < |s.log.grants| && s.log.grants[i + 1].via.Fast? ==> s.log.exits[i].handoff == Released
  {
    ReachableInv(c, s);
  }

  /** Both exits give the front up in the same way, looking at the queue of that very moment:
      also at tasks that arrived while an unwinding call was without the mutex. */
  lemma GivesUpExactlyOnce(c: Config, s: State, a: Action)
    requires Reachable(c, s) && Enabled(s, a) && (a.ExitOk? || a.ExitErr?)
    ensures var s' := Apply(c, s, a);
      && Holders(s) == {a.i} && Holders(s') == {}
      && (HeadOffered(s') <==> s.shared.queue != [])
      && (s'.shared.frontLocked <==> s.shared.queue != [])
      && s'.shared.queue == s.shared.queue
  {
    ReachableInv(c, s);
    Actor(c, s, a.i);
    assert Holders(s) == {a.i};
    ExitWrites(c, s, a);
    BitsOfOffer(a.ExitOk?);
  }

  // --- The state word ---------------------------------------------------------------------------

  lemma ExitWrites(c: Config, s: State, a: Action)
    requires Inv(c, s) && Enabled(s, a) && (a.ExitOk? || a.ExitErr?)
    ensures var s' := Apply(c, s, a);
      && s'.pcs == s.pcs[a.i := s'.pcs[a.i]] && s'.pcs[a.i].Done?
      && s'.shared.queue == s.shared.queue
      && s'.shared.frontLocked == (s.shared.queue != [])
      && if s.shared.queue == [] then s'.cells == s.cells else
           var h := s.shared.queue[0].owner;
           && h in s.cells && s.cells[h].word == 0
           && s'.cells == s.cells[h := Cell(OfferedWord(a.ExitOk?), false)]
  {
    Actor(c, s, a.i);
    BitsOfOffer(a.ExitOk?);
  }

  /** Only an exit writes a word, and only that of the head task, from 0. */
  lemma WordChangesOnceAtHead(c: Config, s: State, a: Action, i: Id)
    requires Reachable(c, s) && Enabled(s, a) && i in s.cells
    ensures var s' := Apply(c, s, a);
      && i in s'.cells
      && (s'.cells[i].word != s.cells[i].word ==>
            && (a.ExitOk? || a.ExitErr?)
            && s.shared.queue != [] && s.shared.queue[0].owner == i
            && s.cells[i].word == 0
            && s'.cells[i].word == OfferedWord(a.ExitOk?))
  {
    if a.ExitOk? || a.ExitErr? {
      ReachableInv(c, s);
      ExitWrites(c, s, a);
    } else {
      OthersKeepWords(c, s, a, i);
    }
  }

  lemma OthersKeepWords(c: Config, s: State, a: Action, i: Id)
    requires Reachable(c, s) && Enabled(s, a) && i in s.cells && !a.ExitOk? && !a.ExitErr?
    ensures i in Apply(c, s, a).cells && Apply(c, s, a).cells[i].word == s.cells[i].word
  {
    if a.Start? {
      NewcomerHasNoCell(c, s);
    } else if !a.Spurious? && !a.WakeCheck? {
      CellsUntouched(c, s, a);
    }
  }

  lemma NewcomerHasNoCell(c: Config, s: State)
    requires Reachable(c, s)
    ensures |s.pcs| !in s.cells
  {
    ReachableInv(c, s);
  }

  lemma CellsUntouched(c: Config, s: State, a: Action)
    requires Enabled(s, a) && !a.ExitOk? && !a.ExitErr? && !a.Start? && !a.Spurious? && !a.WakeCheck?
    ensures Apply(c, s, a).cells == s.cells
  {
  }

  lemma {:induction false} WordHistory(c: Config, s: State, run: seq<Action>, i: Id)
    requires Reachable(c, s) && Legal(c, s, run) && i in s.cells
    ensures var t := Exec(c, s, run);
      && i in t.cells
      && (t.cells[i].word == s.cells[i].word
          || (s.cells[i].word == 0 && t.cells[i].word in {OfferedWord(true), OfferedWord(false)}))
    decreases |run|
  {
    if run != [] {
      WordChangesOnceAtHead(c, s, run[0], i);
      ReachableStep(c, s, run[0]);
      BitsOfOffer(true);
      BitsOfOffer(false);
      WordHistory(c, Apply(c, s, run[0]), run[1..], i);
    }
  }

  lemma ReachableStep(c: Config, s: State, a: Action)
    requires Reachable(c, s) && Enabled(s, a)
    ensures Reachable(c, Apply(c, s, a))
  {
    OneStep(c, s, a);
    ReachableExtends(c, s, [a]);
  }

  lemma OneStep(c: Config, s: State, a: Action)
    requires Enabled(s, a)
    ensures Legal(c, s, [a]) && Exec(c, s, [a]) == Apply(c, s, a)
  {
    var run, s' := [a], Apply(c, s, a);
    assert run[1..] == [];
    assert Legal(c, s', []) && Exec(c, s', []) == s';
  }

  /** The table of src/task_state.rs:19-40: what a woken call does next is decided by its word,
      its own slot and the queue poison, and every case that occurs is a row of the table. */
  lemma DecisionTable(c: Config, s: State, i: Id)
    requires Reachable(c, s) && i < |s.pcs| && s.pcs[i].Leaving?
    ensures i in s.cells && s.cells[i].word in {OfferedWord(true), OfferedWord(false)}
    ensures i < |s.log.arrivals|
    ensures |s.shared.queue| > 0 && s.shared.queue[0].owner == i
    ensures Enabled(s, PopFront(i))
    ensures var popped := Apply(c, s, PopFront(i));
      && Enabled(popped, CheckQueuePoison(i))
      && Apply(c, popped, CheckQueuePoison(i)).pcs[i] ==
           if c.options.unwrapQueuePoison && s.shared.queuePoisoned then Unwinding(QueuePoison)
           else if s.shared.queue[0].value.Some? then Ready(s.log.arrivals[i])
           else if s.cells[i].word == OfferedWord(false) then Finished(ProcessingPanicked)
           else Finished(ProcessedElsewhere)
  {
    ReachableInv(c, s);
    Actor(c, s, i);
    BitsOfOffer(true);
    BitsOfOffer(false);
  }
}
