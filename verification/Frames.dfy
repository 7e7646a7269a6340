// Who changes what: the two poison flags, the mutex, and who sleeps. Each law says of every action
// whether it writes that part of the state, so no action does anything to it on the side.
module Frames {
  import opened Base
  import opened TaskStates
  import opened QueueState
  import opened Protocol
  import opened Invariant
  import opened Safety
  import opened History
  import opened Poison

  // --- Queue poison ---------------------------------------------------------------------------------

  /** Queue poison is set by an Err exit and cleared by `clear_queue_poison`, from outside or through a
      handle. Nothing else writes it, neither a callback that returns nor a call that looks at it. */
  lemma QueueFlagStep(c: Config, s: State, a: Action)
    requires Enabled(s, a)
    ensures Apply(c, s, a).shared.queuePoisoned <==> a.ExitErr? || (s.shared.queuePoisoned && ClearsNothing(a))
  {
  }

  /** The run has an Err exit after which nobody clears the queue poison. */
  predicate QueuePoisonedIn(run: seq<Action>) {
    run != [] && ((run[0].ExitErr? && ClearFree(run[1..])) || QueuePoisonedIn(run[1..]))
  }

  /** After any run the queue is poisoned iff somebody unwound and nobody has cleared it since. */
  lemma {:induction false} QueueFlagRun(c: Config, s: State, run: seq<Action>)
    requires Legal(c, s, run)
    ensures Exec(c, s, run).shared.queuePoisoned <==>
              QueuePoisonedIn(run) || (s.shared.queuePoisoned && ClearFree(run))
    decreases |run|
  {
    if run != [] {
      QueueFlagStep(c, s, run[0]);
      QueueFlagRun(c, Apply(c, s, run[0]), run[1..]);
      assert run == [run[0]] + run[1..];
    }
  }

  // --- Mutex poison ---------------------------------------------------------------------------------

  /** A guard is dropped on an unwinding thread: by a caller, at the start of `unlocked`, by a callback
      that lets go of its guard, or by a failing assertion about either poison. */
  predicate DropsUnwinding(c: Config, s: State, a: Action) {
    match a
    case CallerUnlock(panicking) => panicking
    case Unlock(_, panicking) => panicking
    case CallbackUnwind(_, poisons) => c.unwindDropsGuard && poisons
    case CheckQueuePoison(_) => c.options.unwrapQueuePoison && s.shared.queuePoisoned
    case CheckMutexPoison(_) => c.options.unwrapMutexPoison && s.mutexPoisoned
    case _ => false
  }

  /** The mutex is poisoned by such a drop only, and stays so until the poison is cleared. */
  lemma MutexFlagStep(c: Config, s: State, a: Action)
    requires Enabled(s, a)
    ensures Apply(c, s, a).mutexPoisoned <==>
              DropsUnwinding(c, s, a) || (s.mutexPoisoned && !a.ClearMutexPoison?)
  {
  }

  predicate NoMutexClear(run: seq<Action>) {
    forall a :: a in run ==> !a.ClearMutexPoison?
  }

  /** The run has such a drop after which nobody clears the mutex poison. */
  predicate MutexPoisonedIn(c: Config, s: State, run: seq<Action>)
    requires Legal(c, s, run)
    decreases |run|
  {
    run != [] &&
    ((DropsUnwinding(c, s, run[0]) && NoMutexClear(run[1..])) ||
     MutexPoisonedIn(c, Apply(c, s, run[0]), run[1..]))
  }

  /** After any run the mutex is poisoned iff a guard was dropped while unwinding and nobody has
      cleared the poison since. */
  lemma {:induction false} MutexFlagRun(c: Config, s: State, run: seq<Action>)
    requires Legal(c, s, run)
    ensures Exec(c, s, run).mutexPoisoned <==>
              MutexPoisonedIn(c, s, run) || (s.mutexPoisoned && NoMutexClear(run))
    decreases |run|
  {
    if run != [] {
      MutexFlagStep(c, s, run[0]);
      MutexFlagRun(c, Apply(c, s, run[0]), run[1..]);
      assert run == [run[0]] + run[1..];
    }
  }

  lemma NoCallbackBegins(c: Config, s: State, a: Action)
    requires Enabled(s, a) && s.mutexPoisoned && c.options.unwrapMutexPoison
    ensures var fates, fates' := s.log.fates, Apply(c, s, a).log.fates;
      && |fates| <= |fates'|
      && (forall k :: |fates| <= k < |fates'| ==> fates'[k].fate != OwnCallback)
    ensures a.CheckMutexPoison? ==> Apply(c, s, a).pcs[a.i] == Unwinding(MutexPoison)
  {
    if ByCallback(a) {
      TakesOnly(c, s, a);
    }
  }

  lemma TakesOnly(c: Config, s: State, a: Action)
    requires Enabled(s, a) && ByCallback(a)
    ensures var fates, fates' := s.log.fates, Apply(c, s, a).log.fates;
      && |fates| <= |fates'|
      && (forall k :: |fates| <= k < |fates'| ==> fates'[k].fate != OwnCallback)
  {
  }

  /** src/interface.rs:54-58: once the mutex is poisoned, and until somebody clears it, a call that
      unwraps mutex poison never begins its callback; it panics when it looks at the mutex. */
  lemma {:induction false} PoisonedMutexStops(c: Config, s: State, run: seq<Action>)
    requires Legal(c, s, run) && s.mutexPoisoned && NoMutexClear(run) && c.options.unwrapMutexPoison
    ensures var t := Exec(c, s, run);
      && t.mutexPoisoned
      && |s.log.fates| <= |t.log.fates|
      && (forall k :: |s.log.fates| <= k < |t.log.fates| ==> t.log.fates[k].fate != OwnCallback)
      && (forall i: Id :: Enabled(t, CheckMutexPoison(i)) ==>
            Apply(c, t, CheckMutexPoison(i)).pcs[i] == Unwinding(MutexPoison))
    decreases |run|
  {
    if run == [] {
      forall i: Id | Enabled(s, CheckMutexPoison(i))
        ensures Apply(c, s, CheckMutexPoison(i)).pcs[i] == Unwinding(MutexPoison)
      {
        NoCallbackBegins(c, s, CheckMutexPoison(i));
      }
    } else {
      var s', t := Apply(c, s, run[0]), Exec(c, s, run);
      MutexFlagStep(c, s, run[0]);
      NoCallbackBegins(c, s, run[0]);
      PoisonedMutexStops(c, s', run[1..]);
      LogGrows(c, s', run[1..]);
      assert s'.log.fates == t.log.fates[..|s'.log.fates|];
    }
  }

  // --- Without panics -------------------------------------------------------------------------------

  /** Neither the program around the queue nor a callback panics with a guard in its hands. */
  predicate Calm(a: Action) {
    && !(a.CallerUnlock? && a.panicking)
    && !(a.Unlock? && a.panicking)
    && !a.CallbackUnwind?
  }

  /** No poison, and nobody is unwinding. */
  predicate Unharmed(s: State) {
    && !s.shared.queuePoisoned && !s.mutexPoisoned
    && (forall i :: 0 <= i < |s.pcs| ==> !s.pcs[i].Unwinding?)
  }

  lemma UnharmedStep(c: Config, s: State, a: Action)
    requires Enabled(s, a) && Unharmed(s) && Calm(a)
    ensures Unharmed(Apply(c, s, a))
    ensures var exits, exits' := s.log.exits, Apply(c, s, a).log.exits;
      && |exits| <= |exits'|
      && (forall k :: |exits| <= k < |exits'| ==> exits'[k].outcome.Returned?)
  {
    if ByCallback(a) || ByEnvironment(a) {
      UnharmedQuietStep(c, s, a);
    } else {
      UnharmedHandOver(c, s, a);
    }
  }

  lemma UnharmedQuietStep(c: Config, s: State, a: Action)
    requires Enabled(s, a) && Unharmed(s) && Calm(a) && (ByCallback(a) || ByEnvironment(a))
    ensures Unharmed(Apply(c, s, a)) && Apply(c, s, a).log.exits == s.log.exits
  {
  }

  lemma UnharmedHandOver(c: Config, s: State, a: Action)
    requires Enabled(s, a) && Unharmed(s) && !ByCallback(a) && !ByEnvironment(a)
    ensures Unharmed(Apply(c, s, a))
    ensures var exits, exits' := s.log.exits, Apply(c, s, a).log.exits;
      && |exits| <= |exits'|
      && (forall k :: |exits| <= k < |exits'| ==> exits'[k].outcome.Returned?)
  {
  }

  lemma {:induction false} UnharmedRun(c: Config, s: State, run: seq<Action>)
    requires Legal(c, s, run) && Unharmed(s) && forall a :: a in run ==> Calm(a)
    ensures var t := Exec(c, s, run);
      && Unharmed(t)
      && |s.log.exits| <= |t.log.exits|
      && (forall k :: |s.log.exits| <= k < |t.log.exits| ==> t.log.exits[k].outcome.Returned?)
    decreases |run|
  {
    if run != [] {
      var s', t := Apply(c, s, run[0]), Exec(c, s, run);
      UnharmedStep(c, s, run[0]);
      UnharmedRun(c, s', run[1..]);
      LogGrows(c, s', run[1..]);
      assert s'.log.exits == t.log.exits[..|s'.log.exits|];
    }
  }

  /** As long as nobody panics, the queue does not make anybody panic, whatever the options: the flags
      stay clear, and every call that leaves returns. It has run its callback to the end, unless its
      value was taken; then it hears that it was processed elsewhere. */
  lemma NobodyPanicsUnasked(c: Config, s: State, run: seq<Action>, k: Id)
    requires Reachable(c, s) && Unharmed(s) && Legal(c, s, run) && forall a :: a in run ==> Calm(a)
    ensures Unharmed(Exec(c, s, run))
    ensures var log := Exec(c, s, run).log;
      |s.log.exits| <= k < |log.exits| ==>
        && k < |log.fates|
        && log.exits[k].outcome.Returned?
        && (log.fates[k].fate == OwnCallback <==> log.exits[k].outcome == Returned(Processed))
        && (log.fates[k].fate.TakenBy? <==> log.exits[k].outcome != Returned(Processed))
        && (|s.log.exits| < k && log.fates[k].fate.TakenBy? ==> log.exits[k].outcome == Returned(ProcessedElsewhere))
  {
    var t := Exec(c, s, run);
    UnharmedRun(c, s, run);
    ReachableExtends(c, s, run);
    if |s.log.exits| <= k < |t.log.exits| {
      ExactResult(c, t, k);
    }
  }

  // --- The mutex ------------------------------------------------------------------------------------

  /** The steps that lock the mutex when it is free. A waiter that looks and parks again only borrows
      it within the step, and so do an Err exit and `clear_queue_poison`. */
  predicate Locks(s: State, a: Action) {
    || a.CallerLock? || a.Relock?
    || (a.WakeCheck? && a.i in s.cells && AtFront(s.cells[a.i].word))
  }

  /** The steps that let go of a mutex that is held. */
  predicate Releases(c: Config, s: State, a: Action) {
    || a.CallerUnlock? || a.Unlock?
    || (a.Start? && s.shared.frontLocked)
    || (a.CheckQueuePoison? && DropsUnwinding(c, s, a))
    || (a.CheckMutexPoison? && DropsUnwinding(c, s, a))
    || (a.CallbackUnwind? && c.unwindDropsGuard)
  }

  /** Who has the mutex after a step. That it names the right call is Safety.MutualExclusion. */
  lemma MutexStep(c: Config, s: State, a: Action)
    requires Reachable(c, s) && Enabled(s, a)
    ensures Locks(s, a) ==> s.mutex.Free?
    ensures Releases(c, s, a) ==> !s.mutex.Free?
    ensures var mutex := Apply(c, s, a).mutex;
      && (mutex.Free? <==> (s.mutex.Free? && !Locks(s, a)) || Releases(c, s, a))
      && (mutex.Caller? <==>
            a.CallerLock? || a.ExitOk? || (s.mutex.Caller? && !a.CallerUnlock? && !a.Start?))
  {
    if !ByEnvironment(a) && !a.Start? && HoldsMutex(s.pcs[a.i]) {
      MutualExclusion(c, s, a.i);
    }
    MutexOfNext(c, s, a);
  }

  lemma MutexOfNext(c: Config, s: State, a: Action)
    requires Enabled(s, a)
    requires !ByEnvironment(a) && !a.Start? && HoldsMutex(s.pcs[a.i]) ==> s.mutex == Held(a.i)
    ensures Locks(s, a) ==> s.mutex.Free?
    ensures Releases(c, s, a) ==> !s.mutex.Free?
    ensures var mutex := Apply(c, s, a).mutex;
      && (mutex.Free? <==> (s.mutex.Free? && !Locks(s, a)) || Releases(c, s, a))
      && (mutex.Caller? <==>
            a.CallerLock? || a.ExitOk? || (s.mutex.Caller? && !a.CallerUnlock? && !a.Start?))
  {
  }

  // --- Sleep and spurious wakeups -------------------------------------------------------------------

  /** A waiter is woken by a spurious wakeup or by the exit of the call before it, and falls asleep
      again only by looking at a word without the front bit. */
  lemma SleepStep(c: Config, s: State, a: Action, i: Id)
    requires Reachable(c, s) && Enabled(s, a) && i in s.cells
    ensures i in Apply(c, s, a).cells
    ensures var woken := a == Spurious(i) ||
                         ((a.ExitOk? || a.ExitErr?) && s.shared.queue != [] && s.shared.queue[0].owner == i);
      Apply(c, s, a).cells[i].sleeping <==>
        if s.cells[i].sleeping then !woken else a == WakeCheck(i) && !AtFront(s.cells[i].word)
  {
    if a.ExitOk? || a.ExitErr? {
      ReachableInv(c, s);
      ExitWrites(c, s, a);
    } else {
      SleepWithoutExit(c, s, a, i);
    }
  }

  lemma SleepWithoutExit(c: Config, s: State, a: Action, i: Id)
    requires Reachable(c, s) && Enabled(s, a) && i in s.cells && !a.ExitOk? && !a.ExitErr?
    ensures i in Apply(c, s, a).cells
    ensures Apply(c, s, a).cells[i].sleeping <==>
              if s.cells[i].sleeping then a != Spurious(i) else a == WakeCheck(i) && !AtFront(s.cells[i].word)
  {
    if a.Start? {
      NewcomerHasNoCell(c, s);
    } else if !a.Spurious? && !a.WakeCheck? {
      CellsUntouched(c, s, a);
    }
  }

  /** A sleeping waiter can be woken at any time for no reason. It is then awake, with the mutex yet to
      be had, and nothing else has changed. It looks at its word as soon as the mutex is free, finds
      no front bit, and sleeps again exactly as before. */
  lemma SpuriousWakeup(c: Config, s: State, i: Id)
    requires Reachable(c, s) && i < |s.pcs| && s.pcs[i].Waiting? && i in s.cells && s.cells[i].sleeping
    ensures Enabled(s, Spurious(i))
    ensures var s' := Apply(c, s, Spurious(i));
      && s' == s.(cells := s.cells[i := Cell(0, false)])
      && (Enabled(s', WakeCheck(i)) <==> s.mutex.Free?)
      && (s.mutex.Free? ==> Apply(c, s', WakeCheck(i)) == s)
  {
    NoLostWakeup(c, s, i);
    BitsOfOffer(true);
  }

  // --- What can happen next -------------------------------------------------------------------------

  /** The environment is not held up: whoever has the guard may submit any value however long the queue
      is, drop the guard, panicking or not, and a free mutex can be locked by anybody. */
  lemma EnvironmentIsFree(c: Config, s: State, v: Value, panicking: bool)
    requires Reachable(c, s)
    ensures s.mutex.Caller? <==> Enabled(s, Start(v))
    ensures s.mutex.Caller? <==> Enabled(s, CallerUnlock(panicking))
    ensures s.mutex.Free? <==> Enabled(s, CallerLock)
    ensures s.mutex.Free? <==> Enabled(s, ClearQueuePoison)
    ensures Enabled(s, ClearMutexPoison)
  {
  }

  /** Nor is a callback: with the mutex in hand it may do anything that a handle offers, return, or
      unwind; inside `unlocked` it waits for the mutex and for nothing else. */
  lemma CallbackIsFree(c: Config, s: State, i: Id, panicking: bool)
    requires Reachable(c, s) && i < |s.pcs| && InCallback(s.pcs[i])
    ensures s.pcs[i].Running? ==>
              && Enabled(s, HandlePeek(i)) && Enabled(s, HandlePop(i)) && Enabled(s, HandleClear(i))
              && Enabled(s, Unlock(i, panicking))
              && Enabled(s, CallbackReturn(i)) && Enabled(s, CallbackUnwind(i, panicking))
    ensures s.pcs[i].Unlocked? ==> (Enabled(s, Relock(i)) <==> s.mutex.Free?)
  {
  }
}
