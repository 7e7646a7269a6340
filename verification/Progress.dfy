// Progress: nobody is left behind, except when a callback unwinds with its guard leaked.
module Progress {
  import opened Base
  import opened Protocol
  import opened Invariant
  import opened Safety
  import opened History
  import opened Poison

  predicate AllDone(s: State) {
    forall i :: 0 <= i < |s.pcs| ==> s.pcs[i].Done?
  }

  predicate AnyStuck(s: State) {
    exists i :: 0 <= i < |s.pcs| && s.pcs[i].Stuck?
  }

  /** When every call has left, the queue is as it was at the start. */
  lemma DoneMeansIdle(c: Config, s: State)
    requires Reachable(c, s) && AllDone(s)
    ensures s.shared.queue == [] && !s.shared.frontLocked && |s.log.exits| == |s.pcs| == |s.log.fates|
  {
    ReachableInv(c, s);
    PendingTurn(c, s);
    if |s.pcs| > 0 {
      assert Fits(c, s.log, |s.pcs| - 1, s.log.exits[|s.pcs| - 1].outcome);
    }
  }

  // --- Every pending call can be helped ---------------------------------------------------------

  /** The next step of the current turn; first the caller who holds the mutex lets go of it, and
      a running callback ends. */
  function HelpfulAction(s: State): Action {
    var x := Turn(s.log);
    if s.mutex.Caller? then CallerUnlock(false)
    else if x >= |s.pcs| then CallerLock
    else
      match s.pcs[x]
      case Waiting => WakeCheck(x)
      case Leaving(_) => PopFront(x)
      case Classified(_) => CheckQueuePoison(x)
      case Ready(_) => CheckMutexPoison(x)
      case Running(_) => CallbackReturn(x)
      case Unlocked(_) => Relock(x)
      case Finished(_) => ExitOk(x)
      case Unwinding(_) => ExitErr(x)
      case Stuck => CallerLock
      case Done(_) => CallerLock
  }

  /** No deadlock: while a call is pending and none is stuck, a step of the current turn is
      possible, or the mutex is with a caller. */
  lemma NoDeadlock(c: Config, s: State)
    requires Reachable(c, s) && !AllDone(s) && !AnyStuck(s)
    ensures Enabled(s, HelpfulAction(s))
    ensures s.mutex.Caller? || StepOf(HelpfulAction(s), Turn(s.log))
  {
    ReachableInv(c, s);
    PendingTurn(c, s);
    HelpEnabled(c, s);
  }

  lemma PendingTurn(c: Config, s: State)
    requires Inv(c, s)
    ensures AllDone(s) <==> Turn(s.log) == |s.pcs|
    ensures AnyStuck(s) <==> Turn(s.log) < |s.pcs| && s.pcs[Turn(s.log)].Stuck?
  {
    if Turn(s.log) < |s.pcs| {
      assert !s.pcs[Turn(s.log)].Done?;
    }
  }

  lemma HelpEnabled(c: Config, s: State)
    requires Inv(c, s) && Turn(s.log) < |s.pcs| && !s.pcs[Turn(s.log)].Stuck?
    ensures Enabled(s, HelpfulAction(s))
    ensures s.mutex.Caller? || StepOf(HelpfulAction(s), Turn(s.log))
  {
  }

  // --- How far the current turn still is from its end -------------------------------------------

  function Stage(pc: Pc): nat {
    match pc
    case Waiting => 8
    case Leaving(_) => 7
    case Classified(_) => 6
    case Ready(_) => 5
    case Running(_) => 4
    case Unlocked(_) => 4
    case Finished(_) => 1
    case Unwinding(_) => 1
    case Stuck => 1
    case Done(_) => 0
  }

  /** Waiters behind the current turn that are awake although nobody has woken them. */
  function AwakeForNothing(s: State): set<Id> {
    set i | i in s.cells && i > Turn(s.log) && !s.cells[i].sleeping
  }

  function Measure(s: State): nat {
    var x := Turn(s.log);
    |AwakeForNothing(s)| + if x < |s.pcs| then 8 * (|s.pcs| - 1 - x) + Stage(s.pcs[x]) else 0
  }

  /** Steps of the hand-over itself, as opposed to steps of callbacks, callers and the clock. */
  predicate HandOverStep(a: Action) {
    || a.WakeCheck? || a.PopFront? || a.CheckQueuePoison? || a.CheckMutexPoison?
    || a.CallbackReturn? || a.CallbackUnwind? || a.ExitOk? || a.ExitErr?
  }

  function Credit(a: Action): nat {
    if a.Start? then 8 else if a.Spurious? then 1 else 0
  }

  lemma MeasureStep(c: Config, s: State, a: Action)
    requires Inv(c, s) && Enabled(s, a)
    ensures Measure(Apply(c, s, a)) + (if HandOverStep(a) then 1 else 0) <= Measure(s) + Credit(a)
  {
    var s' := Apply(c, s, a);
    if a.WakeCheck? {
      MeasureWakeCheck(c, s, a.i);
    } else if a.Spurious? {
      MeasureSpurious(s, a.i);
    } else if a.ExitOk? || a.ExitErr? {
      MeasureExit(c, s, a);
    } else if ByCallback(a) {
      Actor(c, s, a.i);
      MeasureInCallback(c, s, a);
    } else {
      MeasureElse(c, s, a);
    }
  }

  lemma Bounded(small: set<Id>, large: set<Id>)
    requires small <= large
    ensures |small| <= |large|
  {
    var rest := large - small;
    assert large == small + rest;
  }

  lemma MeasureSpurious(s: State, i: Id)
    requires Enabled(s, Spurious(i))
    ensures Measure(DoSpurious(s, i)) <= Measure(s) + 1
  {
    Bounded(AwakeForNothing(DoSpurious(s, i)), AwakeForNothing(s) + {i});
  }

  lemma MeasureWakeCheck(c: Config, s: State, i: Id)
    requires Inv(c, s) && Enabled(s, WakeCheck(i))
    ensures Measure(DoWakeCheck(s, i)) < Measure(s)
  {
    var s' := DoWakeCheck(s, i);
    if i == Turn(s.log) {
      BitsOfOffer(s.log.exits[i - 1].outcome.Returned?);
      assert AwakeForNothing(s') == AwakeForNothing(s);
    } else {
      BitsOfOffer(true);
      assert AwakeForNothing(s') == AwakeForNothing(s) - {i};
      assert i in AwakeForNothing(s);
    }
  }

  lemma MeasureExit(c: Config, s: State, a: Action)
    requires Inv(c, s) && Enabled(s, a) && (a.ExitOk? || a.ExitErr?)
    ensures Measure(Apply(c, s, a)) < Measure(s)
  {
    Actor(c, s, a.i);
    ExitWrites(c, s, a);
    MeasureAfterExit(s, Apply(c, s, a));
  }

  lemma MeasureAfterExit(s: State, s': State)
    requires |s'.log.exits| == |s.log.exits| + 1 && |s'.pcs| == |s.pcs|
    requires Turn(s.log) < |s.pcs| && (s.pcs[Turn(s.log)].Finished? || s.pcs[Turn(s.log)].Unwinding?)
    requires Turn(s'.log) < |s.pcs| ==> s'.pcs[Turn(s'.log)].Waiting?
    requires forall i :: i in s'.cells && i > Turn(s'.log) ==> i in s.cells && s'.cells[i] == s.cells[i]
    ensures Measure(s') < Measure(s)
  {
    Bounded(AwakeForNothing(s'), AwakeForNothing(s));
  }

  lemma MeasureInCallback(c: Config, s: State, a: Action)
    requires Enabled(s, a) && ByCallback(a) && a.i == Turn(s.log)
    ensures Measure(Apply(c, s, a)) + (if HandOverStep(a) then 1 else 0) <= Measure(s)
  {
    assert AwakeForNothing(Apply(c, s, a)) == AwakeForNothing(s);
  }

  lemma MeasureElse(c: Config, s: State, a: Action)
    requires Inv(c, s) && Enabled(s, a)
    requires ByEnvironment(a) || a.Start? || a.PopFront? || a.CheckQueuePoison? || a.CheckMutexPoison?
    ensures Measure(Apply(c, s, a)) + (if HandOverStep(a) then 1 else 0) <= Measure(s) + Credit(a)
  {
    if a.Start? {
      MeasureStart(c, s, a.v);
    } else {
      if !ByEnvironment(a) {
        Actor(c, s, a.i);
      }
      MeasureQuiet(c, s, a);
    }
  }

  lemma MeasureStart(c: Config, s: State, v: Value)
    requires Inv(c, s) && Enabled(s, Start(v))
    ensures Measure(DoStart(s, v)) <= Measure(s) + 8
  {
    assert AwakeForNothing(DoStart(s, v)) == AwakeForNothing(s);
  }

  lemma MeasureQuiet(c: Config, s: State, a: Action)
    requires Enabled(s, a)
    requires ByEnvironment(a) || a.PopFront? || a.CheckQueuePoison? || a.CheckMutexPoison?
    requires !ByEnvironment(a) ==> a.i == Turn(s.log)
    requires a.PopFront? ==> s.shared.queue != []
    ensures Measure(Apply(c, s, a)) + (if HandOverStep(a) then 1 else 0) <= Measure(s)
  {
    assert AwakeForNothing(Apply(c, s, a)) == AwakeForNothing(s);
  }

  function HandOverSteps(run: seq<Action>): nat {
    if run == [] then 0 else (if HandOverStep(run[0]) then 1 else 0) + HandOverSteps(run[1..])
  }

  function Credits(run: seq<Action>): nat {
    if run == [] then 0 else Credit(run[0]) + Credits(run[1..])
  }

  /** The work of a run is bounded: between any two states of any interleaving, the hand-over
      takes at most what was left at the start, eight steps for each new arrival, and one for
      each spurious wakeup. Callbacks and callers may take as many steps of their own as they
      like. So if arrivals, spurious wakeups and callbacks come to an end, so does the run. */
  lemma {:induction false} WorkIsBounded(c: Config, s: State, run: seq<Action>)
    requires Reachable(c, s) && Legal(c, s, run)
    ensures HandOverSteps(run) + Measure(Exec(c, s, run)) <= Measure(s) + Credits(run)
    decreases |run|
  {
    if run != [] {
      ReachableInv(c, s);
      MeasureStep(c, s, run[0]);
      ReachableStep(c, s, run[0]);
      WorkIsBounded(c, Apply(c, s, run[0]), run[1..]);
    }
  }

  /** The task at queue position `j` gets the front after at most `j + 1` exits. */
  lemma GrantedAfterHandOvers(c: Config, s: State, run: seq<Action>, j: nat)
    requires Reachable(c, s) && Legal(c, s, run) && j < |s.shared.queue|
    requires |Exec(c, s, run).log.exits| >= |s.log.exits| + j + 1
    ensures var t, i := Exec(c, s, run), s.shared.queue[j].owner;
      || (i < |t.log.grants| && t.log.grants[i].id == i)
      || (HeadOffered(t) && t.shared.queue[0].owner == i)
  {
    var t := Exec(c, s, run);
    ReachableExtends(c, s, run);
    ReachableInv(c, s);
    LogGrows(c, s, run);
    GrantedOrOffered(c, t, s.shared.queue[j].owner);
  }

  lemma GrantedOrOffered(c: Config, t: State, i: Id)
    requires Reachable(c, t) && i < |t.pcs| && i <= |t.log.exits|
    ensures (i < |t.log.grants| && t.log.grants[i].id == i) || (HeadOffered(t) && t.shared.queue[0].owner == i)
  {
    ReachableInv(c, t);
    if i >= |t.log.grants| {
      BitsOfOffer(t.log.exits[i - 1].outcome.Returned?);
    }
  }

  // --- Finishing --------------------------------------------------------------------------------

  /** A way for everybody to leave without new arrivals and without help from the outside: no
      poison is cleared, callbacks just return and callers let go of the mutex. */
  predicate Plain(a: Action) {
    !a.Start? && ClearsNothing(a) && !a.ClearMutexPoison? && !a.CallbackUnwind? && !a.Spurious?
  }

  predicate Finishes(c: Config, s: State, run: seq<Action>) {
    && Legal(c, s, run)
    && AllDone(Exec(c, s, run))
    && (forall a :: a in run ==> Plain(a))
  }

  function Rank(s: State): nat {
    var x := Turn(s.log);
    3 * Measure(s) + (if s.mutex.Caller? then 1 else 0) + (if x < |s.pcs| && s.pcs[x].Unlocked? then 1 else 0)
  }

  lemma HelpDecreases(c: Config, s: State)
    requires Inv(c, s) && Turn(s.log) < |s.pcs| && !s.pcs[Turn(s.log)].Stuck?
    ensures var a := HelpfulAction(s);
      && Plain(a)
      && Enabled(s, a)
      && Rank(Apply(c, s, a)) < Rank(s)
      && !AnyStuck(Apply(c, s, a))
  {
    var a := HelpfulAction(s);
    HelpEnabled(c, s);
    if s.mutex.Caller? {
      assert AwakeForNothing(Apply(c, s, a)) == AwakeForNothing(s);
      PendingTurn(c, s);
    } else {
      HelpOwnStep(c, s, a);
      MeasureStep(c, s, a);
      HelpSticksNobody(c, s, a);
    }
  }

  /** The helped call itself ends up neither stuck nor in a new window. */
  lemma HelpOwnStep(c: Config, s: State, a: Action)
    requires Enabled(s, a) && a == HelpfulAction(s) && Turn(s.log) < |s.pcs| && StepOf(a, Turn(s.log))
    ensures var s', x := Apply(c, s, a), Turn(s.log);
      && |s'.pcs| == |s.pcs|
      && ((a.PopFront? && s.shared.queue == []) || (!s'.pcs[x].Stuck? && !s'.pcs[x].Unlocked?))
      && s'.log.exits == (if a.ExitOk? || a.ExitErr? then s.log.exits + [s'.log.exits[|s.log.exits|]] else s.log.exits)
      && (HandOverStep(a) || (a.Relock? && s'.mutex.Held?))
  {
  }

  lemma HelpSticksNobody(c: Config, s: State, a: Action)
    requires Inv(c, s) && Enabled(s, a) && a == HelpfulAction(s) && Turn(s.log) < |s.pcs|
    requires StepOf(a, Turn(s.log)) && |Apply(c, s, a).pcs| == |s.pcs|
    requires !Apply(c, s, a).pcs[Turn(s.log)].Stuck?
    ensures !AnyStuck(Apply(c, s, a))
    ensures forall i :: Turn(s.log) < i < |s.pcs| ==> Apply(c, s, a).pcs[i].Waiting?
  {
    forall i | 0 <= i < |s.pcs| && i != Turn(s.log) ensures Apply(c, s, a).pcs[i] == s.pcs[i] {
      OnlyActorMoves(c, s, a, i);
    }
  }

  lemma {:induction false} Drain(c: Config, s: State) returns (run: seq<Action>)
    requires Inv(c, s) && !AnyStuck(s)
    ensures Finishes(c, s, run)
    decreases Rank(s)
  {
    PendingTurn(c, s);
    if Turn(s.log) == |s.pcs| {
      run := [];
    } else {
      var a := HelpfulAction(s);
      HelpDecreases(c, s);
      InvStep(c, s, a);
      var rest := Drain(c, Apply(c, s, a));
      run := [a] + rest;
      assert run[1..] == rest;
    }
  }

  ghost predicate CanFinish(c: Config, s: State) {
    exists run :: Legal(c, s, run) && AllDone(Exec(c, s, run))
  }
}
