// What happens to every value and to every call over a whole run.
module History {
  import opened Base
  import opened Protocol
  import opened Invariant
  import opened Safety

  // --- Taken values ---------------------------------------------------------------------------------

  /** A value that was taken was taken by an earlier call whose own callback had begun, and all
      values that arrived in between were taken by that call too. */
  lemma TakenByEarlierCallback(c: Config, s: State, k: Id)
    requires Reachable(c, s) && k < |s.log.fates| && s.log.fates[k].fate.TakenBy?
    ensures var j := s.log.fates[k].fate.taker;
      && j < k
      && s.log.fates[j].fate == OwnCallback
      && (forall l :: j < l <= k ==> s.log.fates[l].fate == TakenBy(j))
  {
    ReachableInv(c, s);
    TakenRun(s.log, k);
  }

  lemma {:induction false} TakenRun(log: Log, k: nat)
    requires FatesOk(log) && k < |log.fates| && log.fates[k].fate.TakenBy?
    ensures var j := log.fates[k].fate.taker;
      && j < k
      && log.fates[j].fate == OwnCallback
      && (forall l :: j < l <= k ==> log.fates[l].fate == TakenBy(j))
  {
    assert TakenInOrder(log, k);
    if log.fates[k - 1].fate.TakenBy? {
      TakenRun(log, k - 1);
    }
  }

  // --- Results ------------------------------------------------------------------------------------

  /** What the invariant says about the history alone. */
  lemma HistoryOk(c: Config, s: State)
    requires Reachable(c, s)
    ensures LogOk(s.log) && FatesOk(s.log) && ResultsOk(c, s.log)
  {
    ReachableInv(c, s);
  }

  /** What a call reports is decided by what became of its value and by how the call before it
      left, except where poison stopped it. */
  lemma ExactResult(c: Config, s: State, k: Id)
    requires Reachable(c, s) && k < |s.log.exits|
    ensures k < |s.log.fates| && k < |s.log.grants|
    ensures var o, fate := s.log.exits[k].outcome, s.log.fates[k].fate;
      && (fate.TakenBy? ==> k > 0)
      && (o == Returned(Processed) <==> fate == OwnCallback && o != Unwound(CallbackPanic))
      && (o == Returned(ProcessedElsewhere) <==>
            fate.TakenBy? && o != Unwound(QueuePoison) && s.log.exits[k - 1].outcome.Returned?)
      && (o == Returned(ProcessingPanicked) <==>
            fate.TakenBy? && o != Unwound(QueuePoison) && s.log.exits[k - 1].outcome.Unwound?)
      && (fate == Discarded <==> !fate.TakenBy? && o in {Unwound(QueuePoison), Unwound(MutexPoison)})
  {
    HistoryOk(c, s);
    assert Fits(c, s.log, k, s.log.exits[k].outcome);
    if s.log.fates[k].fate.TakenBy? {
      assert TakenInOrder(s.log, k);
    }
  }

  /** An unwinding call has a reason: it waited and the queue poison is unwrapped, the mutex
      poison is unwrapped, or its callback unwound and let go of the mutex. */
  lemma UnwindsForAReason(c: Config, s: State, k: Id)
    requires Reachable(c, s) && k < |s.log.exits| && s.log.exits[k].outcome.Unwound?
    ensures k < |s.log.fates| && k < |s.log.grants|
    ensures match s.log.exits[k].outcome.cause
      case QueuePoison => c.options.unwrapQueuePoison && s.log.grants[k].via.Woken? && s.log.fates[k].fate != OwnCallback
      case MutexPoison => c.options.unwrapMutexPoison && s.log.fates[k].fate == Discarded
      case CallbackPanic => c.unwindDropsGuard && s.log.fates[k].fate == OwnCallback
  {
    HistoryOk(c, s);
    assert Fits(c, s.log, k, s.log.exits[k].outcome);
  }

  predicate RanToReturn(s: State, k: Id) {
    k < |s.pcs| && s.pcs[k] in {Finished(Processed), Done(Returned(Processed))}
  }

  /** `Processed` is reported exactly by the calls whose own callback returned in the run. */
  lemma ProcessedIffCallbackReturned(c: Config, run: seq<Action>, k: Id)
    requires Legal(c, Init(), run) && k < |Exec(c, Init(), run).pcs|
    requires Exec(c, Init(), run).pcs[k].Done?
    ensures Exec(c, Init(), run).pcs[k].outcome == Returned(Processed) <==> CallbackReturn(k) in run
  {
    ReturnsInRun(c, Init(), run, k);
  }

  lemma {:induction false} ReturnsInRun(c: Config, s: State, run: seq<Action>, k: Id)
    requires Inv(c, s) && Legal(c, s, run)
    ensures RanToReturn(Exec(c, s, run), k) <==> RanToReturn(s, k) || CallbackReturn(k) in run
    decreases |run|
  {
    if run != [] {
      ReturnsInStep(c, s, run[0], k);
      InvStep(c, s, run[0]);
      ReturnsInRun(c, Apply(c, s, run[0]), run[1..], k);
      assert run == [run[0]] + run[1..];
    }
  }

  lemma ReturnsInStep(c: Config, s: State, a: Action, k: Id)
    requires Inv(c, s) && Enabled(s, a)
    ensures RanToReturn(Apply(c, s, a), k) <==> RanToReturn(s, k) || a == CallbackReturn(k)
  {
    if k < |s.pcs| && StepOf(a, k) {
      ReturnsInOwnStep(c, s, a, k);
    } else if k < |s.pcs| {
      OnlyActorMoves(c, s, a, k);
    } else {
      NewcomersStart(c, s, a, k);
      NoneReturnsUnstarted(s, a, k);
    }
  }

  lemma NoneReturnsUnstarted(s: State, a: Action, k: Id)
    requires Enabled(s, a) && k >= |s.pcs|
    ensures a != CallbackReturn(k)
  {
  }

  lemma ReturnsInOwnStep(c: Config, s: State, a: Action, k: Id)
    requires Enabled(s, a) && StepOf(a, k)
    requires k < |s.pcs|
    ensures RanToReturn(Apply(c, s, a), k) <==> RanToReturn(s, k) || a == CallbackReturn(k)
  {
  }

  // --- Growth of the history ----------------------------------------------------------------------

  predicate Extends(older: Log, newer: Log) {
    && older.arrivals <= newer.arrivals
    && older.grants <= newer.grants
    && older.fates <= newer.fates
    && older.exits <= newer.exits
  }

  lemma {:induction false} LogGrows(c: Config, s: State, run: seq<Action>)
    requires Legal(c, s, run)
    ensures Extends(s.log, Exec(c, s, run).log)
    ensures |s.pcs| <= |Exec(c, s, run).pcs|
    decreases |run|
  {
    if run != [] {
      LogGrowsStep(c, s, run[0]);
      LogGrows(c, Apply(c, s, run[0]), run[1..]);
    }
  }

  lemma LogGrowsStep(c: Config, s: State, a: Action)
    requires Enabled(s, a)
    ensures Extends(s.log, Apply(c, s, a).log)
    ensures |s.pcs| <= |Apply(c, s, a).pcs|
  {
    if ByCallback(a) || ByEnvironment(a) {
      LogGrowsInCallback(c, s, a);
    }
  }

  lemma LogGrowsInCallback(c: Config, s: State, a: Action)
    requires Enabled(s, a) && (ByCallback(a) || ByEnvironment(a))
    ensures Extends(s.log, Apply(c, s, a).log)
    ensures |s.pcs| == |Apply(c, s, a).pcs|
  {
  }

  lemma OnlyExitsExit(c: Config, s: State, a: Action)
    requires Enabled(s, a) && !a.ExitOk? && !a.ExitErr?
    ensures Apply(c, s, a).log.exits == s.log.exits
  {
  }

  // --- Batch release ------------------------------------------------------------------------------

  /** The callback is over. */
  predicate PastCallback(pc: Pc) {
    pc.Finished? || pc.Unwinding? || pc.Stuck? || pc.Done?
  }

  lemma {:induction false} NoMoreTakes(c: Config, s: State, run: seq<Action>, i: Id)
    requires Legal(c, s, run) && i < |s.pcs| && PastCallback(s.pcs[i])
    ensures var t := Exec(c, s, run);
      && |s.log.fates| <= |t.log.fates|
      && (forall k :: |s.log.fates| <= k < |t.log.fates| ==> t.log.fates[k].fate != TakenBy(i))
    decreases |run|
  {
    if run != [] {
      var s', t := Apply(c, s, run[0]), Exec(c, s, run);
      NoTakeStep(c, s, run[0], i);
      NoMoreTakes(c, s', run[1..], i);
      LogGrows(c, s', run[1..]);
      assert s'.log.fates == t.log.fates[..|s'.log.fates|];
    }
  }

  lemma NoTakeStep(c: Config, s: State, a: Action, i: Id)
    requires Enabled(s, a) && i < |s.pcs| && PastCallback(s.pcs[i])
    ensures var s' := Apply(c, s, a);
      && i < |s'.pcs| && PastCallback(s'.pcs[i])
      && |s.log.fates| <= |s'.log.fates|
      && (forall k :: |s.log.fates| <= k < |s'.log.fates| ==> s'.log.fates[k].fate != TakenBy(i))
  {
    if ByCallback(a) {
      NoTakeInCallback(c, s, a, i);
    }
  }

  lemma NoTakeInCallback(c: Config, s: State, a: Action, i: Id)
    requires Enabled(s, a) && ByCallback(a) && i < |s.pcs| && PastCallback(s.pcs[i])
    ensures var s' := Apply(c, s, a);
      && i < |s'.pcs| && PastCallback(s'.pcs[i])
      && |s.log.fates| <= |s'.log.fates|
      && (forall k :: |s.log.fates| <= k < |s'.log.fates| ==> s'.log.fates[k].fate != TakenBy(i))
  {
  }

  /** From the end of a callback that took `n` values to any later point `t`. */
  lemma AfterCallback(c: Config, s: State, i: Id, n: nat, end: Action, run: seq<Action>)
    requires Reachable(c, s) && i < |s.pcs| && s.pcs[i] == Running(n)
    requires Enabled(s, end) && (end == CallbackReturn(i) || (end.CallbackUnwind? && end.i == i))
    requires Legal(c, Apply(c, s, end), run)
    ensures var t := Exec(c, Apply(c, s, end), run);
      && Reachable(c, t)
      && Extends(s.log, t.log)
      && (forall k :: |s.log.fates| <= k < |t.log.fates| ==> t.log.fates[k].fate != TakenBy(i))
    ensures RunningOk(s.log, n) && Turn(s.log) == i
  {
    ReachableInv(c, s);
    HandleSlot(c, s, i);
    ReachableStep(c, s, end);
    ReachableExtends(c, Apply(c, s, end), run);
    NoMoreTakes(c, Apply(c, s, end), run, i);
    LogGrows(c, Apply(c, s, end), run);
  }

  /** A callback that took `n` values ends. Whatever happens then, and for as long as it goes on:
      the values taken were those of the next `n` calls, and none of these calls runs its own
      callback, whichever way it leaves. */
  lemma BatchNeverRuns(c: Config, s: State, i: Id, n: nat, end: Action, run: seq<Action>, l: Id)
    requires Reachable(c, s) && i < |s.pcs| && s.pcs[i] == Running(n)
    requires Enabled(s, end) && (end == CallbackReturn(i) || (end.CallbackUnwind? && end.i == i))
    requires Legal(c, Apply(c, s, end), run) && i < l <= i + n
    ensures var log := Exec(c, Apply(c, s, end), run).log;
      && l < |log.fates|
      && log.fates[l].fate == TakenBy(i)
      && (l < |log.exits| ==>
            log.exits[l].outcome in {Returned(ProcessedElsewhere), Returned(ProcessingPanicked), Unwound(QueuePoison)})
  {
    var t := Exec(c, Apply(c, s, end), run);
    AfterCallback(c, s, i, n, end, run);
    assert t.log.fates[l] == s.log.fates[l];
    HistoryOk(c, t);
    TakenOutcome(c, t.log, l);
  }

  lemma TakenOutcome(c: Config, log: Log, l: nat)
    requires ResultsOk(c, log) && l < |log.fates| && log.fates[l].fate.TakenBy?
    ensures l < |log.exits| ==>
              log.exits[l].outcome in {Returned(ProcessedElsewhere), Returned(ProcessingPanicked), Unwound(QueuePoison)}
  {
    if l < |log.exits| {
      assert Fits(c, log, l, log.exits[l].outcome);
    }
  }

  /** Those `n` calls are the next ones to be granted the front, in the order in which their
      values were taken, each by hand-over from the one before it. */
  lemma BatchGrantedNext(c: Config, s: State, i: Id, n: nat, end: Action, run: seq<Action>, l: Id)
    requires Reachable(c, s) && i < |s.pcs| && s.pcs[i] == Running(n)
    requires Enabled(s, end) && (end == CallbackReturn(i) || (end.CallbackUnwind? && end.i == i))
    requires Legal(c, Apply(c, s, end), run) && i < l <= i + n
    ensures var log := Exec(c, Apply(c, s, end), run).log;
      l < |log.grants| ==>
        log.grants[l] == Grant(l, Woken) && |log.exits| >= l && log.exits[l - 1].handoff == Transferred(l)
  {
    var s', t := Apply(c, s, end), Exec(c, Apply(c, s, end), run);
    AfterCallback(c, s, i, n, end, run);
    ReachableStep(c, s, end);
    StillWaiting(c, s, i, n, l);
    WordHistory(c, s', run, l);
    ReachableInv(c, t);
  }

  lemma StillWaiting(c: Config, s: State, i: Id, n: nat, l: Id)
    requires Reachable(c, s) && i < |s.pcs| && s.pcs[i] == Running(n) && i < l <= i + n
    ensures l in s.cells
  {
    ReachableInv(c, s);
    HandleSlot(c, s, i);
  }

  /** The batch ends where the taking ended: the value behind it, once settled, was not taken. */
  lemma BatchEnds(c: Config, s: State, i: Id, n: nat, end: Action, run: seq<Action>)
    requires Reachable(c, s) && i < |s.pcs| && s.pcs[i] == Running(n)
    requires Enabled(s, end) && (end == CallbackReturn(i) || (end.CallbackUnwind? && end.i == i))
    requires Legal(c, Apply(c, s, end), run)
    ensures var log := Exec(c, Apply(c, s, end), run).log;
      i + n + 1 < |log.fates| ==> !log.fates[i + n + 1].fate.TakenBy?
  {
    var t, l := Exec(c, Apply(c, s, end), run), i + n + 1;
    AfterCallback(c, s, i, n, end, run);
    assert t.log.fates[l - 1] == s.log.fates[l - 1];
    HistoryOk(c, t);
    if l < |t.log.fates| {
      SameHands(t.log, i, l);
    }
  }

  lemma SameHands(log: Log, i: nat, l: nat)
    requires FatesOk(log) && i < l < |log.fates|
    requires log.fates[l - 1].fate == if l - 1 == i then OwnCallback else TakenBy(i)
    ensures log.fates[l].fate.TakenBy? ==> log.fates[l].fate == TakenBy(i)
  {
    if log.fates[l].fate.TakenBy? {
      assert TakenInOrder(log, l);
    }
  }
}
