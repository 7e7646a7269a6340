// Concrete runs of the code as written in which a documented promise fails. The exact conditions
// under which the promises hold are in Poison.dfy, Reports.dfy and Hang.dfy.
module Counterexamples {
  import opened Base
  import opened TaskStates
  import opened QueueState
  import opened Protocol
  import opened Safety
  import opened Poison
  import opened Hang

  /** The default options and the guard handling of the source. */
  const AS_WRITTEN := Config(PanicOptions(true, true), false)

  lemma InitReachable()
    ensures Reachable(AS_WRITTEN, Init())
  {
    assert Legal(AS_WRITTEN, Init(), []) && Exec(AS_WRITTEN, Init(), []) == Init();
  }

  /** Call 0 met a poisoned mutex and unwound; then the mutex poison was cleared. */
  function AfterFirstPanic(): State {
    State(Free, false, Shared(false, true, []), map[], [Done(Unwound(MutexPoison))],
          Log([10], [Grant(0, Fast)], [Settled(0, 10, Discarded)], [Exit(0, Unwound(MutexPoison), Released)]),
          false)
  }

  lemma ReachAfterFirstPanic()
    ensures Reachable(AS_WRITTEN, AfterFirstPanic())
  {
    var c := AS_WRITTEN;
    InitReachable();
    var s0 := Init();
    ReachableStep(c, s0, CallerLock);
    var s1 := Apply(c, s0, CallerLock);
    ReachableStep(c, s1, CallerUnlock(true));
    var s2 := Apply(c, s1, CallerUnlock(true));
    ReachableStep(c, s2, CallerLock);
    var s3 := Apply(c, s2, CallerLock);
    ReachableStep(c, s3, Start(10));
    var s4 := Apply(c, s3, Start(10));
    ReachableStep(c, s4, CheckMutexPoison(0));
    var s5 := Apply(c, s4, CheckMutexPoison(0));
    ReachableStep(c, s5, ExitErr(0));
    var s6 := Apply(c, s5, ExitErr(0));
    ReachableStep(c, s6, ClearMutexPoison);
    assert Apply(c, s6, ClearMutexPoison) == AfterFirstPanic();
  }

  /** src/interface.rs:66-67 promises that with queue poison unwrapped a call panics if a preceding
      one did. A call on the fast path does not: its callback is run. */
  lemma FastPathSkipsQueuePoison(v: Value)
    ensures var c, s := AS_WRITTEN, AfterFirstPanic();
      && Reachable(c, s) && c.options.unwrapQueuePoison && s.shared.queuePoisoned
      && Legal(c, s, [CallerLock, Start(v), CheckMutexPoison(1)])
      && Exec(c, s, [CallerLock, Start(v), CheckMutexPoison(1)]).pcs == s.pcs + [Running(0)]
  {
    var c, s := AS_WRITTEN, AfterFirstPanic();
    ReachAfterFirstPanic();
    var s1 := Apply(c, s, CallerLock);
    var s2 := Apply(c, s1, Start(v));
    var s3 := Apply(c, s2, CheckMutexPoison(1));
    assert Legal(c, s3, []) && Exec(c, s3, []) == s3;
    assert Legal(c, s2, [CheckMutexPoison(1)]) && Exec(c, s2, [CheckMutexPoison(1)]) == s3;
    var tail := [Start(v), CheckMutexPoison(1)];
    assert tail[1..] == [CheckMutexPoison(1)];
    assert Legal(c, s1, tail) && Exec(c, s1, tail) == s3;
    assert [CallerLock, Start(v), CheckMutexPoison(1)][1..] == tail;
  }

  /** Call 1 is in its callback; while it had the mutex unlocked, calls 2 and 3 arrived. */
  function InWindow(): State {
    var before := AfterFirstPanic();
    State(Free, false, Shared(true, true, [Slot(2, Some(12)), Slot(3, Some(13))]),
          map[2 := PARKED, 3 := PARKED],
          before.pcs + [Unlocked(0), Waiting, Waiting],
          Log([10, 11, 12, 13], [Grant(0, Fast), Grant(1, Fast)],
              before.log.fates + [Settled(1, 11, OwnCallback)], before.log.exits),
          false)
  }

  lemma ReachInWindow()
    ensures Reachable(AS_WRITTEN, InWindow())
  {
    var c := AS_WRITTEN;
    ReachAfterFirstPanic();
    var s0 := AfterFirstPanic();
    ReachableStep(c, s0, CallerLock);
    var s1 := Apply(c, s0, CallerLock);
    ReachableStep(c, s1, Start(11));
    var s2 := Apply(c, s1, Start(11));
    ReachableStep(c, s2, CheckMutexPoison(1));
    var s3 := Apply(c, s2, CheckMutexPoison(1));
    ReachableStep(c, s3, Unlock(1, false));
    var s4 := Apply(c, s3, Unlock(1, false));
    ReachableStep(c, s4, CallerLock);
    var s5 := Apply(c, s4, CallerLock);
    ReachableStep(c, s5, Start(12));
    var s6 := Apply(c, s5, Start(12));
    ReachableStep(c, s6, CallerLock);
    var s7 := Apply(c, s6, CallerLock);
    ReachableStep(c, s7, Start(13));
    assert Apply(c, s7, Start(13)) == InWindow();
  }

  /** Call 1 has taken both values and its callback is about to return. */
  function BothTaken(): State {
    var before := InWindow();
    State(Held(1), false, Shared(true, true, [Slot(2, None), Slot(3, None)]),
          before.cells,
          [Done(Unwound(MutexPoison)), Running(2), Waiting, Waiting],
          Log(before.log.arrivals, before.log.grants,
              before.log.fates + [Settled(2, 12, TakenBy(1)), Settled(3, 13, TakenBy(1))],
              before.log.exits),
          false)
  }

  lemma ReachBothTaken()
    ensures Reachable(AS_WRITTEN, BothTaken())
  {
    var c := AS_WRITTEN;
    ReachInWindow();
    var s0 := InWindow();
    ReachableStep(c, s0, Relock(1));
    var s1 := Apply(c, s0, Relock(1));
    ReachableStep(c, s1, HandlePop(1));
    var s2 := Apply(c, s1, HandlePop(1));
    ReachableStep(c, s2, HandlePop(1));
    assert Apply(c, s2, HandlePop(1)) == BothTaken();
  }

  /** Call 1 has returned normally. */
  function TakerReturned(): State {
    var before := BothTaken();
    State(Free, false, before.shared,
          map[2 := Cell(1, false), 3 := PARKED],
          [Done(Unwound(MutexPoison)), Done(Returned(Processed)), Waiting, Waiting],
          Log(before.log.arrivals, before.log.grants, before.log.fates,
              before.log.exits + [Exit(1, Returned(Processed), Transferred(2))]),
          false)
  }

  lemma ReachTakerReturned()
    ensures Reachable(AS_WRITTEN, TakerReturned())
  {
    var c := AS_WRITTEN;
    ReachBothTaken();
    var s0 := BothTaken();
    ReachableStep(c, s0, CallbackReturn(1));
    var s1 := Apply(c, s0, CallbackReturn(1));
    ReachableStep(c, s1, ExitOk(1));
    var s2 := Apply(c, s1, ExitOk(1));
    ReachableStep(c, s2, CallerUnlock(false));
    assert Apply(c, s2, CallerUnlock(false)) == TakerReturned();
  }

  /** Call 2 has popped its own task. */
  function NeighbourPopped(): State {
    var before := TakerReturned();
    State(Held(2), false, Shared(true, true, [Slot(3, None)]),
          before.cells,
          [Done(Unwound(MutexPoison)), Done(Returned(Processed)), Classified(Elsewhere), Waiting],
          before.log.(grants := before.log.grants + [Grant(2, Woken)]),
          false)
  }

  lemma ReachNeighbourPopped()
    ensures Reachable(AS_WRITTEN, NeighbourPopped())
  {
    var c := AS_WRITTEN;
    ReachTakerReturned();
    var s0 := TakerReturned();
    ReachableStep(c, s0, WakeCheck(2));
    var s1 := Apply(c, s0, WakeCheck(2));
    ReachableStep(c, s1, PopFront(2));
    assert Apply(c, s1, PopFront(2)) == NeighbourPopped();
  }

  /** Call 2 was stopped by the old queue poison, which was cleared right after. */
  function NeighbourPanicked(): State {
    var before := NeighbourPopped();
    State(Free, true, Shared(true, false, [Slot(3, None)]),
          map[2 := Cell(1, false), 3 := Cell(3, false)],
          [Done(Unwound(MutexPoison)), Done(Returned(Processed)), Done(Unwound(QueuePoison)), Waiting],
          before.log.(exits := before.log.exits + [Exit(2, Unwound(QueuePoison), Transferred(3))]),
          false)
  }

  lemma ReachNeighbourPanicked()
    ensures Reachable(AS_WRITTEN, NeighbourPanicked())
  {
    var c := AS_WRITTEN;
    ReachNeighbourPopped();
    var s0 := NeighbourPopped();
    ReachableStep(c, s0, CheckQueuePoison(2));
    var s1 := Apply(c, s0, CheckQueuePoison(2));
    ReachableStep(c, s1, ExitErr(2));
    var s2 := Apply(c, s1, ExitErr(2));
    ReachableStep(c, s2, ClearQueuePoison);
    assert Apply(c, s2, ClearQueuePoison) == NeighbourPanicked();
  }

  /** Call 3 has popped its own task. */
  function LastPopped(): State {
    var before := NeighbourPanicked();
    State(Held(3), true, Shared(true, false, []), before.cells, before.pcs[3 := Classified(Panicked)],
          before.log.(grants := before.log.grants + [Grant(3, Woken)]), false)
  }

  lemma ReachLastPopped()
    ensures Reachable(AS_WRITTEN, LastPopped())
  {
    var c := AS_WRITTEN;
    ReachNeighbourPanicked();
    var s0 := NeighbourPanicked();
    ReachableStep(c, s0, WakeCheck(3));
    var s1 := Apply(c, s0, WakeCheck(3));
    ReachableStep(c, s1, PopFront(3));
    assert Apply(c, s1, PopFront(3)) == LastPopped();
  }

  /** Call 3 reports a panic of the call that processed it. */
  function Misreported(): State {
    var before := LastPopped();
    State(Caller, true, Shared(false, false, []), before.cells,
          before.pcs[3 := Done(Returned(ProcessingPanicked))],
          before.log.(exits := before.log.exits + [Exit(3, Returned(ProcessingPanicked), Released)]), false)
  }

  lemma ReachMisreported()
    ensures Reachable(AS_WRITTEN, Misreported())
  {
    var c := AS_WRITTEN;
    ReachLastPopped();
    var s0 := LastPopped();
    ReachableStep(c, s0, CheckQueuePoison(3));
    var s1 := Apply(c, s0, CheckQueuePoison(3));
    ReachableStep(c, s1, ExitOk(3));
    assert Apply(c, s1, ExitOk(3)) == Misreported();
  }

  /** src/interface.rs:103-107 says that `ProcessingPanicked` means that the call which was
      processing the task panicked. Here that call returned normally. */
  lemma PanicReportCanBeWrong()
    ensures Reachable(AS_WRITTEN, Misreported())
    ensures Misreported().log.fates[3].fate == TakenBy(1)
    ensures Misreported().log.exits[3].outcome == Returned(ProcessingPanicked)
    ensures Misreported().log.exits[1].outcome == Returned(Processed)
  {
    ReachMisreported();
  }

  /** A callback unwound while two calls wait. */
  function Leaked(): State {
    var before := InWindow();
    before.(mutex := Held(1), pcs := [Done(Unwound(MutexPoison)), Stuck, Waiting, Waiting])
  }

  lemma ReachLeaked()
    ensures Reachable(AS_WRITTEN, Leaked())
  {
    var c := AS_WRITTEN;
    ReachInWindow();
    var s0 := InWindow();
    ReachableStep(c, s0, Relock(1));
    var s1 := Apply(c, s0, Relock(1));
    ReachableStep(c, s1, CallbackUnwind(1, true));
    assert Apply(c, s1, CallbackUnwind(1, true)) == Leaked();
  }

  /** README.md:31-32 says that unwinds do not cause indefinite hangs. Here calls 2 and 3 wait for
      ever, whatever anybody does. */
  lemma UnwindCanHang(run: seq<Action>)
    requires Legal(AS_WRITTEN, Leaked(), run)
    ensures Reachable(AS_WRITTEN, Leaked())
    ensures Exec(AS_WRITTEN, Leaked(), run).pcs == [Done(Unwound(MutexPoison)), Stuck, Waiting, Waiting]
  {
    ReachLeaked();
    assert Leaked().pcs[1].Stuck?;
    StuckForever(AS_WRITTEN, Leaked(), run);
  }

  // --- If unwinding callbacks did let go of the mutex ---------------------------------------------------

  /** Call 0 is in its callback; calls 1 and 2 arrived while it had the mutex unlocked. */
  function TwoWaiting(): State {
    State(Held(0), false, Shared(true, false, [Slot(1, Some(11)), Slot(2, Some(12))]),
          map[1 := PARKED, 2 := PARKED], [Running(0), Waiting, Waiting],
          Log([10, 11, 12], [Grant(0, Fast)], [Settled(0, 10, OwnCallback)], []), false)
  }

  /** The same before anybody else has arrived. */
  function OneInWindow(): State {
    State(Free, false, Shared(true, false, []), map[], [Unlocked(0)],
          Log([10], [Grant(0, Fast)], [Settled(0, 10, OwnCallback)], []), false)
  }

  lemma ReachOneInWindow(c: Config, clearing: bool)
    ensures ReachableIf(c, clearing, OneInWindow())
  {
    var s0 := Init();
    assert Legal(c, s0, []) && Exec(c, s0, []) == s0 && ClearFree([]);
    var s1 := Apply(c, s0, CallerLock);
    var s2 := Apply(c, s1, Start(10));
    var s3 := Apply(c, s2, CheckMutexPoison(0));
    ReachableIfThree(c, clearing, s0, CallerLock, Start(10), CheckMutexPoison(0));
    ReachableIfStep(c, clearing, s3, Unlock(0, false));
    assert Apply(c, s3, Unlock(0, false)) == OneInWindow();
  }

  lemma ReachTwoWaiting(c: Config, clearing: bool)
    ensures ReachableIf(c, clearing, TwoWaiting())
  {
    ReachOneInWindow(c, clearing);
    var s0 := OneInWindow();
    var s1 := Apply(c, s0, CallerLock);
    var s2 := Apply(c, s1, Start(11));
    ReachableIfThree(c, clearing, s0, CallerLock, Start(11), CallerLock);
    var s3 := Apply(c, s2, CallerLock);
    var s4 := Apply(c, s3, Start(12));
    ReachableIfStep(c, clearing, s3, Start(12));
    ReachableIfStep(c, clearing, s4, Relock(0));
    assert Apply(c, s4, Relock(0)) == TwoWaiting();
  }

  /** Call 0 has taken both values. */
  function TwoTaken(): State {
    var before := TwoWaiting();
    State(Held(0), false, Shared(true, false, [Slot(1, None), Slot(2, None)]),
          before.cells, [Running(2), Waiting, Waiting],
          Log(before.log.arrivals, before.log.grants,
              before.log.fates + [Settled(1, 11, TakenBy(0)), Settled(2, 12, TakenBy(0))], []), false)
  }

  lemma ReachTwoTaken(c: Config, clearing: bool)
    ensures ReachableIf(c, clearing, TwoTaken())
  {
    ReachTwoWaiting(c, clearing);
    var s0 := TwoWaiting();
    ReachableIfStep(c, clearing, s0, HandlePop(0));
    var s1 := Apply(c, s0, HandlePop(0));
    ReachableIfStep(c, clearing, s1, HandlePop(0));
    assert Apply(c, s1, HandlePop(0)) == TwoTaken();
  }

  /** Its callback has unwound and call 1 has been woken. Queue poison is set, unless it is
      unwrapped: then it was cleared. */
  function TakerUnwound(poisoned: bool): State {
    var before := TwoTaken();
    State(Free, false, Shared(true, poisoned, before.shared.queue),
          map[1 := Cell(3, false), 2 := PARKED], [Done(Unwound(CallbackPanic)), Waiting, Waiting],
          before.log.(exits := [Exit(0, Unwound(CallbackPanic), Transferred(1))]), false)
  }

  lemma ReachTakerUnwound(c: Config, clearing: bool)
    requires c.unwindDropsGuard
    ensures ReachableIf(c, clearing, TakerUnwound(true))
  {
    ReachTwoTaken(c, clearing);
    var s0 := TwoTaken();
    ReachableIfStep(c, clearing, s0, CallbackUnwind(0, false));
    var s1 := Apply(c, s0, CallbackUnwind(0, false));
    ReachableIfStep(c, clearing, s1, ExitErr(0));
    assert Apply(c, s1, ExitErr(0)) == TakerUnwound(true);
  }

  lemma ReachTakerForgiven(c: Config, clearing: bool)
    requires c.unwindDropsGuard && (c.options.unwrapQueuePoison ==> clearing)
    ensures ReachableIf(c, clearing, TakerUnwound(!c.options.unwrapQueuePoison))
  {
    ReachTakerUnwound(c, clearing);
    if c.options.unwrapQueuePoison {
      ReachableIfStep(c, clearing, TakerUnwound(true), ClearQueuePoison);
    }
  }

  /** Call 1 has popped its own task. */
  function FirstPopped(poisoned: bool): State {
    var before := TakerUnwound(poisoned);
    State(Held(1), false, Shared(true, poisoned, [Slot(2, None)]), before.cells,
          before.pcs[1 := Classified(Panicked)],
          before.log.(grants := before.log.grants + [Grant(1, Woken)]), false)
  }

  lemma ReachFirstPopped(c: Config, clearing: bool, poisoned: bool)
    requires ReachableIf(c, clearing, TakerUnwound(poisoned))
    ensures ReachableIf(c, clearing, FirstPopped(poisoned))
  {
    var s0 := TakerUnwound(poisoned);
    ReachableIfStep(c, clearing, s0, WakeCheck(1));
    var s1 := Apply(c, s0, WakeCheck(1));
    ReachableIfStep(c, clearing, s1, PopFront(1));
    assert Apply(c, s1, PopFront(1)) == FirstPopped(poisoned);
  }

  /** Call 1 has told of the panic. */
  function FirstTold(poisoned: bool): State {
    var before := FirstPopped(poisoned);
    State(Caller, false, before.shared, map[1 := Cell(3, false), 2 := Cell(1, false)],
          before.pcs[1 := Done(Returned(ProcessingPanicked))],
          before.log.(exits := before.log.exits + [Exit(1, Returned(ProcessingPanicked), Transferred(2))]), false)
  }

  lemma ReachFirstTold(c: Config, clearing: bool, poisoned: bool)
    requires ReachableIf(c, clearing, FirstPopped(poisoned)) && !(c.options.unwrapQueuePoison && poisoned)
    ensures ReachableIf(c, clearing, FirstTold(poisoned))
  {
    var s0 := FirstPopped(poisoned);
    ReachableIfStep(c, clearing, s0, CheckQueuePoison(1));
    var s1 := Apply(c, s0, CheckQueuePoison(1));
    ReachableIfStep(c, clearing, s1, ExitOk(1));
    assert Apply(c, s1, ExitOk(1)) == FirstTold(poisoned);
  }

  /** Call 2 has popped its own task. */
  function SecondPopped(poisoned: bool): State {
    var before := FirstTold(poisoned);
    State(Held(2), false, Shared(true, poisoned, []), before.cells,
          before.pcs[2 := Classified(Elsewhere)],
          before.log.(grants := before.log.grants + [Grant(2, Woken)]), false)
  }

  lemma ReachSecondPopped(c: Config, clearing: bool, poisoned: bool)
    requires ReachableIf(c, clearing, FirstTold(poisoned))
    ensures ReachableIf(c, clearing, SecondPopped(poisoned))
  {
    var s0 := FirstTold(poisoned);
    var s1 := Apply(c, s0, CallerUnlock(false));
    var s2 := Apply(c, s1, WakeCheck(2));
    ReachableIfThree(c, clearing, s0, CallerUnlock(false), WakeCheck(2), PopFront(2));
    assert Apply(c, s2, PopFront(2)) == SecondPopped(poisoned);
  }

  /** Call 2 has told that its value was processed. */
  function SecondTold(poisoned: bool): State {
    var before := SecondPopped(poisoned);
    State(Caller, false, Shared(false, poisoned, []), before.cells,
          before.pcs[2 := Done(Returned(ProcessedElsewhere))],
          before.log.(exits := before.log.exits + [Exit(2, Returned(ProcessedElsewhere), Released)]), false)
  }

  lemma ReachSecondTold(c: Config, clearing: bool, poisoned: bool)
    requires ReachableIf(c, clearing, SecondPopped(poisoned)) && !(c.options.unwrapQueuePoison && poisoned)
    ensures ReachableIf(c, clearing, SecondTold(poisoned))
  {
    var s0 := SecondPopped(poisoned);
    ReachableIfStep(c, clearing, s0, CheckQueuePoison(2));
    var s1 := Apply(c, s0, CheckQueuePoison(2));
    ReachableIfStep(c, clearing, s1, ExitOk(2));
    assert Apply(c, s1, ExitOk(2)) == SecondTold(poisoned);
  }

  /** The opposite error: call 2 hears nothing of the unwinding of the call that took its value. */
  lemma PanicReportCanBeMissed(c: Config, clearing: bool)
    requires c.unwindDropsGuard && (c.options.unwrapQueuePoison ==> clearing)
    ensures var s := SecondTold(!c.options.unwrapQueuePoison);
      && ReachableIf(c, clearing, s)
      && s.log.fates[2].fate == TakenBy(0)
      && s.log.exits[2].outcome == Returned(ProcessedElsewhere)
      && s.log.exits[0].outcome == Unwound(CallbackPanic)
  {
    var q := !c.options.unwrapQueuePoison;
    ReachTakerForgiven(c, clearing);
    ReachFirstPopped(c, clearing, q);
    ReachFirstTold(c, clearing, q);
    ReachSecondPopped(c, clearing, q);
    ReachSecondTold(c, clearing, q);
  }
}
