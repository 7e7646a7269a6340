// Infinite runs: under a fair scheduler every call leaves in the end, however many others arrive.
module Liveness {
  import opened Base
  import opened Protocol
  import opened Invariant
  import opened Safety
  import opened History
  import opened Progress
  import opened Hang

  type States = nat -> State
  type Actions = nat -> Action

  ghost predicate InfiniteRun(c: Config, states: States, actions: Actions) {
    && Reachable(c, states(0))
    && (forall n: nat :: Enabled(states(n), actions(n)))
    && (forall n: nat :: states(n + 1) == Apply(c, states(n), actions(n)))
  }

  /** The current turn moves on with the hand-over. */
  predicate TurnMoves(s: State, a: Action) {
    HandOverStep(a) && StepOf(a, Turn(s.log))
  }

  /** The same, or it gets the mutex back at the end of `unlocked`. */
  predicate TurnSteps(s: State, a: Action) {
    (HandOverStep(a) || a.Relock?) && StepOf(a, Turn(s.log))
  }

  // --- What is asked of the environment ---------------------------------------------------------

  /** A callback takes finitely many steps, windows opened and closed included. It need not end in
      any other sense: how it gets on is said by the next two. */
  ghost predicate CallbacksFinite(actions: Actions) {
    forall i: Id :: QuietInTheEnd(actions, i)
  }

  ghost predicate QuietInTheEnd(actions: Actions, i: Id) {
    exists n: nat :: QuietFrom(actions, i, n)
  }

  ghost predicate QuietFrom(actions: Actions, i: Id, n: nat) {
    forall m: nat :: n <= m ==> !CallbackStepOf(actions(m), i)
  }

  predicate CallbackStepOf(a: Action, i: Id) {
    ByCallback(a) && StepOf(a, i)
  }

  /** A callback that has the mutex and no window open does not stop for ever: it uses its handle,
      opens a window, or ends. */
  ghost predicate CallbacksGoOn(states: States, actions: Actions) {
    forall n: nat :: TurnRunning(states(n)) ==> GoesOnAfter(states, actions, n)
  }

  ghost predicate GoesOnAfter(states: States, actions: Actions, n: nat) {
    exists m: nat :: n <= m && CallbackStepOf(actions(m), Turn(states(n).log))
  }

  /** A caller that holds the mutex lets go of it some time. */
  ghost predicate CallersLetGo(states: States) {
    forall n: nat :: LetGoAfter(states, n)
  }

  ghost predicate LetGoAfter(states: States, n: nat) {
    exists m: nat :: n <= m && !states(m).mutex.Caller?
  }

  /** The scheduler and the lock are fair: a turn that can make its next step again and again makes
      one. Inside `unlocked` that step is the relock, so this is also where the closure ends. It
      says nothing of a callback that has the mutex. */
  ghost predicate FairlyScheduled(states: States, actions: Actions) {
    forall n: nat :: ReadyAgainAndAgain(states, n) ==> StepsAfter(states, actions, n)
  }

  /** No callback unwinds with its guard leaked. */
  ghost predicate NoLeak(c: Config, actions: Actions) {
    c.unwindDropsGuard || forall n: nat :: !actions(n).CallbackUnwind?
  }

  /** All of these. */
  ghost predicate FairRun(c: Config, states: States, actions: Actions) {
    && InfiniteRun(c, states, actions) && NoLeak(c, actions) && !AnyStuck(states(0))
    && CallbacksFinite(actions) && CallbacksGoOn(states, actions)
    && CallersLetGo(states) && FairlyScheduled(states, actions)
  }

  predicate TurnPending(s: State) {
    Turn(s.log) < |s.pcs|
  }

  predicate TurnRunning(s: State) {
    TurnPending(s) && s.pcs[Turn(s.log)].Running?
  }

  predicate TurnInCallback(s: State) {
    TurnPending(s) && InCallback(s.pcs[Turn(s.log)])
  }

  predicate TurnReady(s: State) {
    TurnPending(s) && !TurnRunning(s) && Enabled(s, HelpfulAction(s)) && TurnSteps(s, HelpfulAction(s))
  }

  ghost predicate ReadyAgainAndAgain(states: States, n: nat) {
    forall m: nat :: n <= m ==> ReadyAfter(states, m)
  }

  ghost predicate ReadyAfter(states: States, m: nat) {
    exists k: nat :: m <= k && TurnReady(states(k))
  }

  ghost predicate StepsAfter(states: States, actions: Actions, n: nat) {
    exists m: nat :: n <= m && TurnSteps(states(m), actions(m))
  }

  ghost predicate MovesAfter(states: States, actions: Actions, n: nat) {
    exists m: nat :: n <= m && TurnMoves(states(m), actions(m))
  }

  function StageOfTurn(s: State): nat {
    if Turn(s.log) < |s.pcs| then Stage(s.pcs[Turn(s.log)]) else 0
  }

  /** `t` is at least as far as `s`; calls are never unmade. */
  predicate NotBehind(s: State, t: State) {
    && |s.pcs| <= |t.pcs|
    && Turn(s.log) <= Turn(t.log)
    && (Turn(t.log) == Turn(s.log) < |s.pcs| ==> StageOfTurn(t) <= StageOfTurn(s))
  }

  lemma StepNotBehind(c: Config, s: State, a: Action)
    requires Inv(c, s) && Enabled(s, a)
    ensures NotBehind(s, Apply(c, s, a))
    ensures var s' := Apply(c, s, a);
      TurnMoves(s, a) && Turn(s'.log) == Turn(s.log) ==> StageOfTurn(s') < StageOfTurn(s)
  {
    var x, s' := Turn(s.log), Apply(c, s, a);
    if StepOf(a, x) && x < |s.pcs| {
      OwnStepAhead(c, s, a);
    } else {
      OthersKeepTurn(c, s, a);
    }
  }

  lemma OwnStepAhead(c: Config, s: State, a: Action)
    requires Inv(c, s) && Enabled(s, a) && Turn(s.log) < |s.pcs| && StepOf(a, Turn(s.log))
    ensures NotBehind(s, Apply(c, s, a))
    ensures var s' := Apply(c, s, a);
      TurnMoves(s, a) && Turn(s'.log) == Turn(s.log) ==> StageOfTurn(s') < StageOfTurn(s)
  {
    if a.WakeCheck? {
      BitsOfOffer(s.log.exits[a.i - 1].outcome.Returned?);
    } else {
      OwnStepStage(c, s, a);
    }
  }

  lemma OwnStepStage(c: Config, s: State, a: Action)
    requires Enabled(s, a) && Turn(s.log) < |s.pcs| && StepOf(a, Turn(s.log)) && !a.WakeCheck?
    requires a.PopFront? ==> s.shared.queue != []
    ensures NotBehind(s, Apply(c, s, a))
    ensures var s' := Apply(c, s, a);
      TurnMoves(s, a) && Turn(s'.log) == Turn(s.log) ==> StageOfTurn(s') < StageOfTurn(s)
  {
  }

  lemma OthersKeepTurn(c: Config, s: State, a: Action)
    requires Inv(c, s) && Enabled(s, a) && !(Turn(s.log) < |s.pcs| && StepOf(a, Turn(s.log)))
    ensures !TurnMoves(s, a) && NotBehind(s, Apply(c, s, a))
  {
    if Turn(s.log) < |s.pcs| {
      OnlyActorMoves(c, s, a, Turn(s.log));
    }
    ExitIsOwn(c, s, a);
  }

  /** Nobody but the current turn leaves. */
  lemma ExitIsOwn(c: Config, s: State, a: Action)
    requires Inv(c, s) && Enabled(s, a) && !(Turn(s.log) < |s.pcs| && StepOf(a, Turn(s.log)))
    ensures Apply(c, s, a).log.exits == s.log.exits
    ensures |s.pcs| <= |Apply(c, s, a).pcs|
    ensures !TurnMoves(s, a)
  {
    if a.ExitOk? || a.ExitErr? {
      Actor(c, s, a.i);
    } else {
      OnlyExitsExit(c, s, a);
      LogGrowsStep(c, s, a);
    }
  }

  lemma {:induction false} RunInv(c: Config, states: States, actions: Actions, n: nat)
    requires InfiniteRun(c, states, actions)
    ensures Reachable(c, states(n)) && Inv(c, states(n))
    decreases n
  {
    if n > 0 {
      RunInv(c, states, actions, n - 1);
      assert Enabled(states(n - 1), actions(n - 1));
      assert states(n - 1 + 1) == Apply(c, states(n - 1), actions(n - 1));
      ReachableStep(c, states(n - 1), actions(n - 1));
    }
    ReachableInv(c, states(n));
  }

  lemma {:induction false} NeverBehind(c: Config, states: States, actions: Actions, n: nat, m: nat)
    requires InfiniteRun(c, states, actions) && n <= m
    ensures NotBehind(states(n), states(m))
    decreases m
  {
    if n < m {
      NeverBehind(c, states, actions, n, m - 1);
      RunInv(c, states, actions, m - 1);
      assert Enabled(states(m - 1), actions(m - 1));
      assert states(m - 1 + 1) == Apply(c, states(m - 1), actions(m - 1));
      StepNotBehind(c, states(m - 1), actions(m - 1));
    }
  }

  // --- No turn is passed over, no call starves --------------------------------------------------

  lemma {:induction false} NeverStuck(c: Config, states: States, actions: Actions, n: nat)
    requires InfiniteRun(c, states, actions) && NoLeak(c, actions) && !AnyStuck(states(0))
    ensures !AnyStuck(states(n))
    decreases n
  {
    if n > 0 {
      NeverStuck(c, states, actions, n - 1);
      RunInv(c, states, actions, n - 1);
      assert Enabled(states(n - 1), actions(n - 1));
      assert states(n - 1 + 1) == Apply(c, states(n - 1), actions(n - 1));
      StuckByUnwindStep(c, states(n - 1), actions(n - 1));
    }
  }

  /** As long as the turn does not move it stays the turn, and in its callback if it was there. */
  lemma {:induction false} SameTurnUntilMoved(c: Config, states: States, actions: Actions, n: nat, m: nat)
    requires InfiniteRun(c, states, actions) && n <= m && TurnPending(states(n))
    requires forall k: nat :: n <= k < m ==> !TurnMoves(states(k), actions(k))
    ensures TurnPending(states(m)) && Turn(states(m).log) == Turn(states(n).log)
    ensures TurnInCallback(states(n)) ==> TurnInCallback(states(m))
    decreases m - n
  {
    if n < m {
      UnmovedNow(c, states, actions, n);
      SameTurnUntilMoved(c, states, actions, n + 1, m);
    }
  }

  lemma UnmovedNow(c: Config, states: States, actions: Actions, n: nat)
    requires InfiniteRun(c, states, actions)
    requires TurnPending(states(n)) && !TurnMoves(states(n), actions(n))
    ensures TurnPending(states(n + 1)) && Turn(states(n + 1).log) == Turn(states(n).log)
    ensures TurnInCallback(states(n)) ==> TurnInCallback(states(n + 1))
  {
    RunInv(c, states, actions, n);
    assert Enabled(states(n), actions(n));
    assert states(n + 1) == Apply(c, states(n), actions(n));
    UnmovedStaysPending(c, states(n), actions(n));
    if TurnInCallback(states(n)) {
      UnmovedStaysInCallback(c, states(n), actions(n));
    }
  }

  lemma UnmovedStaysPending(c: Config, s: State, a: Action)
    requires Inv(c, s) && Enabled(s, a) && TurnPending(s) && !TurnMoves(s, a)
    ensures TurnPending(Apply(c, s, a)) && Turn(Apply(c, s, a).log) == Turn(s.log)
  {
    if a.ExitOk? || a.ExitErr? {
      Actor(c, s, a.i);
    } else {
      LogGrowsStep(c, s, a);
      OnlyExitsExit(c, s, a);
    }
  }

  lemma UnmovedStaysInCallback(c: Config, s: State, a: Action)
    requires Enabled(s, a) && TurnInCallback(s) && !TurnMoves(s, a)
    ensures var s', x := Apply(c, s, a), Turn(s.log); x < |s'.pcs| && InCallback(s'.pcs[x])
  {
    var x := Turn(s.log);
    if StepOf(a, x) {
      CallbackStays(c, s, a);
    } else {
      OnlyActorMoves(c, s, a, x);
    }
  }

  lemma CallbackStays(c: Config, s: State, a: Action)
    requires Enabled(s, a) && TurnInCallback(s) && !HandOverStep(a) && StepOf(a, Turn(s.log))
    ensures var s', x := Apply(c, s, a), Turn(s.log); x < |s'.pcs| && InCallback(s'.pcs[x])
  {
  }

  /** A pending turn that is not running its callback can step as soon as no caller has the mutex. */
  lemma ReadyUnlessCaller(c: Config, s: State)
    requires Reachable(c, s) && TurnPending(s) && !AnyStuck(s) && !s.mutex.Caller? && !TurnRunning(s)
    ensures TurnReady(s)
  {
    ReachableInv(c, s);
    PendingTurn(c, s);
    HelpEnabled(c, s);
  }

  /** If from `n` on the turn is never seen running its callback, it is ready again and again. */
  lemma ReadyIfNotRunning(c: Config, states: States, actions: Actions, n: nat)
    requires FairRun(c, states, actions) && TurnPending(states(n)) && !MovesAfter(states, actions, n)
    requires forall k: nat :: n <= k ==> !TurnRunning(states(k))
    ensures ReadyAgainAndAgain(states, n)
  {
    forall m: nat | n <= m ensures ReadyAfter(states, m) {
      assert LetGoAfter(states, m);
      var k: nat :| m <= k && !states(k).mutex.Caller?;
      SameTurnUntilMoved(c, states, actions, n, k);
      NeverStuck(c, states, actions, k);
      RunInv(c, states, actions, k);
      ReadyUnlessCaller(c, states(k));
    }
  }

  /** A callback ends: its handle operations and windows run out, and then it neither stops with
      the mutex in hand nor waits for ever to get it back. */
  lemma CallbackEnds(c: Config, states: States, actions: Actions, n: nat)
    requires FairRun(c, states, actions) && TurnInCallback(states(n))
    ensures MovesAfter(states, actions, n)
  {
    if !MovesAfter(states, actions, n) {
      var x := Turn(states(n).log);
      assert QuietInTheEnd(actions, x);
      var quiet: nat :| QuietFrom(actions, x, quiet);
      var from := if quiet < n then n else quiet;
      forall k: nat | from <= k ensures TurnInCallback(states(k)) && Turn(states(k).log) == x && !TurnRunning(states(k)) {
        SameTurnUntilMoved(c, states, actions, n, k);
        if TurnRunning(states(k)) {
          assert false;
        }
      }
      assert !MovesAfter(states, actions, from);
      ReadyIfNotRunning(c, states, actions, from);
    }
  }

  lemma StepsOrRelocks(c: Config, states: States, actions: Actions, n: nat)
    requires InfiniteRun(c, states, actions) && TurnSteps(states(n), actions(n))
    ensures TurnMoves(states(n), actions(n)) || TurnInCallback(states(n))
  {
    assert Enabled(states(n), actions(n));
  }

  /** Every pending turn moves in the end. */
  lemma TurnKeepsMoving(c: Config, states: States, actions: Actions, n: nat)
    requires FairRun(c, states, actions) && TurnPending(states(n))
    ensures MovesAfter(states, actions, n)
  {
    if !MovesAfter(states, actions, n) {
      forall k: nat | n <= k ensures !TurnInCallback(states(k)) {
        if TurnInCallback(states(k)) {
          CallbackEnds(c, states, actions, k);
        }
      }
      ReadyIfNotRunning(c, states, actions, n);
      var m: nat :| n <= m && TurnSteps(states(m), actions(m));
      StepsOrRelocks(c, states, actions, m);
    }
  }

  ghost predicate LeavesAfter(states: States, n: nat, i: Id) {
    exists m: nat :: n <= m && HasLeft(states(m), i)
  }

  predicate HasLeft(s: State, i: Id) {
    i < |s.pcs| && s.pcs[i].Done?
  }

  /** No starvation: a call that has arrived leaves at some later time, although arrivals, spurious
      wakeups and other users of the mutex may go on for ever. */
  lemma {:induction false} EveryCallLeaves(c: Config, states: States, actions: Actions, n: nat, i: Id)
    requires FairRun(c, states, actions) && i < |states(n).pcs|
    ensures LeavesAfter(states, n, i)
    decreases if Turn(states(n).log) <= i then i + 1 - Turn(states(n).log) else 0, StageOfTurn(states(n))
  {
    RunInv(c, states, actions, n);
    if i < Turn(states(n).log) {
      assert HasLeft(states(n), i);
    } else {
      TurnKeepsMoving(c, states, actions, n);
      var k: nat :| n <= k && TurnMoves(states(k), actions(k));
      NeverBehind(c, states, actions, n, k);
      RunInv(c, states, actions, k);
      assert Enabled(states(k), actions(k));
      assert states(k + 1) == Apply(c, states(k), actions(k));
      StepNotBehind(c, states(k), actions(k));
      EveryCallLeaves(c, states, actions, k + 1, i);
      var m: nat :| k + 1 <= m && HasLeft(states(m), i);
      assert n <= m;
    }
  }
}
