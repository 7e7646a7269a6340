// A poison cascade comes to an end, however the threads are scheduled.
module Cascade {
  import opened Base
  import opened Protocol
  import opened Invariant
  import opened Safety
  import opened History
  import opened Poison
  import opened Progress
  import opened Hang
  import opened Liveness

  /** Every call behind `i` that has arrived had to wait. */
  predicate AllWaited(s: State, i: Id) {
    forall l :: i < l < |s.pcs| ==> l in s.cells
  }

  /** No callback is active. */
  predicate NoCallback(s: State) {
    forall l :: 0 <= l < |s.pcs| ==> !InCallback(s.pcs[l])
  }

  /** Everybody has left and the queue is idle; whoever came behind call `i` was stopped by the
      poison, and its callback was never begun. */
  predicate Over(s: State, i: Id) {
    && AllDone(s)
    && s.shared.queue == [] && !s.shared.frontLocked && s.shared.queuePoisoned
    && |s.log.exits| == |s.pcs| == |s.log.fates|
    && (forall l :: i < l < |s.pcs| ==>
          s.log.exits[l].outcome == Unwound(QueuePoison) && s.log.fates[l].fate != OwnCallback)
  }

  /** What a cascade is like at every moment. */
  predicate InCascade(c: Config, s: State, i: Id) {
    Inv(c, s) && i < Turn(s.log) && Cascading(s, i + 1) && AllWaited(s, i)
  }

  lemma CascadeStarts(c: Config, s: State, i: Id)
    requires Inv(c, s) && Enabled(s, ExitErr(i))
    ensures InCascade(c, Apply(c, s, ExitErr(i)), i)
    ensures !AnyStuck(Apply(c, s, ExitErr(i)))
  {
    Actor(c, s, i);
    InvStep(c, s, ExitErr(i));
    CascadeBegins(c, s, ExitErr(i));
    NotStuckAfterExit(c, s, i);
    WaitersHaveCells(c, Apply(c, s, ExitErr(i)), i);
  }

  lemma WaitersHaveCells(c: Config, s: State, i: Id)
    requires Inv(c, s) && Granted(s.log) == i + 1
    ensures AllWaited(s, i)
  {
  }

  /** A step of a cascade: nobody clears the poison, and whoever arrives finds the front locked. */
  predicate CascadeAction(s: State, a: Action) {
    ClearsNothing(a) && (a.Start? ==> s.shared.frontLocked)
  }

  lemma CascadeGoesOn(c: Config, s: State, a: Action, i: Id)
    requires InCascade(c, s, i) && Enabled(s, a) && CascadeAction(s, a) && c.options.unwrapQueuePoison
    ensures InCascade(c, Apply(c, s, a), i)
  {
    InvStep(c, s, a);
    CascadingStep(c, s, a, i + 1);
    LogGrowsStep(c, s, a);
    AllWaitedStep(c, s, a, i);
  }

  lemma AllWaitedStep(c: Config, s: State, a: Action, i: Id)
    requires Enabled(s, a) && AllWaited(s, i) && (a.Start? ==> s.shared.frontLocked)
    ensures AllWaited(Apply(c, s, a), i)
  {
    if !a.ExitOk? && !a.ExitErr? && !a.Start? && !a.Spurious? && !a.WakeCheck? {
      CellsUntouched(c, s, a);
      NobodyArrives(c, s, a);
    }
  }

  lemma NobodyArrives(c: Config, s: State, a: Action)
    requires Enabled(s, a) && !a.Start?
    ensures |Apply(c, s, a).pcs| == |s.pcs|
  {
  }

  /** Whoever holds the front in a cascade is being stopped. */
  lemma NobodyServes(c: Config, s: State, i: Id)
    requires InCascade(c, s, i)
    ensures NoCallback(s)
  {
    forall l | 0 <= l < |s.pcs| ensures !InCallback(s.pcs[l]) {
      if !s.pcs[l].Waiting? && !s.pcs[l].Done? {
        Actor(c, s, l);
        assert l in s.cells;
      }
    }
  }

  lemma {:induction false} CascadeRun(c: Config, states: States, actions: Actions, i: Id, n: nat)
    requires InfiniteRun(c, states, actions) && c.options.unwrapQueuePoison && InCascade(c, states(0), i)
    requires forall m: nat :: CascadeAction(states(m), actions(m))
    ensures InCascade(c, states(n), i) && NoCallback(states(n))
    decreases n
  {
    if n > 0 {
      CascadeRun(c, states, actions, i, n - 1);
      assert Enabled(states(n - 1), actions(n - 1)) && CascadeAction(states(n - 1), actions(n - 1));
      assert states(n - 1 + 1) == Apply(c, states(n - 1), actions(n - 1));
      CascadeGoesOn(c, states(n - 1), actions(n - 1), i);
    }
    NobodyServes(c, states(n), i);
  }

  lemma NoCallbackStep(s: State, a: Action)
    requires Enabled(s, a) && NoCallback(s)
    ensures !ByCallback(a)
  {
  }

  /** Without callbacks nothing is asked of callbacks. */
  lemma FairWithoutCallbacks(c: Config, states: States, actions: Actions)
    requires InfiniteRun(c, states, actions) && !AnyStuck(states(0))
    requires forall n: nat :: NoCallback(states(n))
    requires CallersLetGo(states) && FairlyScheduled(states, actions)
    ensures FairRun(c, states, actions)
  {
    forall n: nat ensures !ByCallback(actions(n)) {
      assert NoCallback(states(n)) && Enabled(states(n), actions(n));
      NoCallbackStep(states(n), actions(n));
    }
    forall i: Id ensures QuietInTheEnd(actions, i) {
      assert QuietFrom(actions, i, 0);
    }
    forall n: nat ensures !TurnRunning(states(n)) {
      assert NoCallback(states(n));
    }
  }

  lemma {:induction false} NoNewcomers(c: Config, states: States, actions: Actions, n: nat, m: nat)
    requires InfiniteRun(c, states, actions) && n <= m
    requires forall k: nat :: n <= k ==> !actions(k).Start?
    ensures |states(m).pcs| == |states(n).pcs|
    decreases m
  {
    if n < m {
      NoNewcomers(c, states, actions, n, m - 1);
      assert Enabled(states(m - 1), actions(m - 1));
      assert states(m - 1 + 1) == Apply(c, states(m - 1), actions(m - 1));
      NobodyArrives(c, states(m - 1), actions(m - 1));
    }
  }

  ghost predicate EndsOver(states: States, i: Id) {
    exists n: nat :: OverFrom(states, i, n)
  }

  ghost predicate OverFrom(states: States, i: Id, n: nat) {
    forall m: nat :: n <= m ==> Over(states(m), i)
  }

  lemma DoneIsOver(c: Config, s: State, i: Id)
    requires InCascade(c, s, i) && Reachable(c, s) && Turn(s.log) == |s.pcs|
    ensures Over(s, i)
  {
    PendingTurn(c, s);
    DoneMeansIdle(c, s);
    forall l | i < l < |s.pcs|
      ensures s.log.exits[l].outcome == Unwound(QueuePoison) && s.log.fates[l].fate != OwnCallback
    {
      assert l in s.cells;
      assert Fits(c, s.log, l, s.log.exits[l].outcome);
    }
  }

  /** The cascade after an Err exit, in every run with a fair scheduler and callers that let go of
      the mutex, when arrivals stop some time (at `quiet`) and nobody clears the poison: no callback
      is ever active again, and there comes a time from which on everybody has left, stopped by the
      poison unless it was there before, and the queue is empty and unlocked. Calls may go on
      arriving for a while, as long as the front has not been released. */
  lemma CascadeEnds(c: Config, s: State, i: Id, states: States, actions: Actions, quiet: nat)
    requires Reachable(c, s) && Enabled(s, ExitErr(i)) && c.options.unwrapQueuePoison
    requires InfiniteRun(c, states, actions) && states(0) == Apply(c, s, ExitErr(i))
    requires forall n: nat :: CascadeAction(states(n), actions(n))
    requires forall n: nat :: quiet <= n ==> !actions(n).Start?
    requires CallersLetGo(states) && FairlyScheduled(states, actions)
    ensures forall n: nat :: NoCallback(states(n))
    ensures EndsOver(states, i)
  {
    ReachableInv(c, s);
    CascadeStarts(c, s, i);
    CascadeEndsFrom(c, i, states, actions, quiet);
  }

  lemma CascadeEndsFrom(c: Config, i: Id, states: States, actions: Actions, quiet: nat)
    requires c.options.unwrapQueuePoison && InfiniteRun(c, states, actions)
    requires InCascade(c, states(0), i) && !AnyStuck(states(0))
    requires forall n: nat :: CascadeAction(states(n), actions(n))
    requires forall n: nat :: quiet <= n ==> !actions(n).Start?
    requires CallersLetGo(states) && FairlyScheduled(states, actions)
    ensures forall n: nat :: NoCallback(states(n))
    ensures EndsOver(states, i)
  {
    forall n: nat ensures InCascade(c, states(n), i) && NoCallback(states(n)) {
      CascadeRun(c, states, actions, i, n);
    }
    FairWithoutCallbacks(c, states, actions);
    var last := |states(quiet).pcs| - 1;
    assert InCascade(c, states(quiet), i);
    EveryCallLeaves(c, states, actions, quiet, last);
    var n: nat :| quiet <= n && HasLeft(states(n), last);
    forall m: nat | n <= m ensures Over(states(m), i) {
      assert InCascade(c, states(m), i);
      OverOnceLeft(c, states, actions, i, quiet, n, m);
    }
    assert OverFrom(states, i, n);
  }

  lemma OverOnceLeft(c: Config, states: States, actions: Actions, i: Id, quiet: nat, n: nat, m: nat)
    requires InfiniteRun(c, states, actions) && quiet <= n <= m
    requires forall k: nat :: quiet <= k ==> !actions(k).Start?
    requires |states(quiet).pcs| > 0 && HasLeft(states(n), |states(quiet).pcs| - 1)
    requires InCascade(c, states(m), i)
    ensures Over(states(m), i)
  {
    NoNewcomers(c, states, actions, quiet, n);
    NoNewcomers(c, states, actions, quiet, m);
    NeverBehind(c, states, actions, n, m);
    RunInv(c, states, actions, n);
    RunInv(c, states, actions, m);
    LastHasLeft(c, states(n));
    DoneIsOver(c, states(m), i);
  }

  lemma LastHasLeft(c: Config, s: State)
    requires Inv(c, s) && |s.pcs| > 0 && HasLeft(s, |s.pcs| - 1)
    ensures Turn(s.log) == |s.pcs|
  {
  }
}
