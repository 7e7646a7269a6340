// What the panic bit tells a call whose value was taken. src/interface.rs:103-107 says it tells how
// the call that took the value ended; the code tells how the call right before it left.
module Reports {
  import opened Base
  import opened Protocol
  import opened Invariant
  import opened History
  import opened Poison
  import opened Counterexamples

  /** Call `k` has returned although its value was taken. */
  predicate Told(log: Log, k: Id) {
    && k < |log.exits| && log.exits[k].outcome.Returned?
    && k < |log.fates| && log.fates[k].fate.TakenBy?
  }

  /** The documented meaning: `ProcessingPanicked` is reported iff the taker unwound. */
  predicate ReportRight(log: Log, k: Id)
    requires Told(log, k)
  {
    var m := log.fates[k].fate.taker;
    && m < |log.exits|
    && (log.exits[k].outcome == Returned(ProcessingPanicked) <==> log.exits[m].outcome.Unwound?)
  }

  predicate AllReportsRight(log: Log) {
    forall k :: 0 <= k < |log.exits| && Told(log, k) ==> ReportRight(log, k)
  }

  // --- One report -----------------------------------------------------------------------------------

  /** The report is right for the first value of a batch, and otherwise iff the neighbour was stopped
      by queue poison just when the taker unwound. */
  lemma ReportByNeighbour(c: Config, s: State, k: Id)
    requires Reachable(c, s) && Told(s.log, k)
    ensures var m := s.log.fates[k].fate.taker;
      && 0 <= m < k && s.log.fates[m].fate == OwnCallback
      && (ReportRight(s.log, k) <==>
            (k == m + 1 || (s.log.exits[k - 1].outcome == Unwound(QueuePoison) <==> s.log.exits[m].outcome.Unwound?)))
  {
    TakenByEarlierCallback(c, s, k);
    ExactResult(c, s, k);
    ExactResult(c, s, k - 1);
  }

  /** With queue poison ignored, only the first call of a batch ever hears that the taker
      unwound; the report is right for a later one iff the taker returned. */
  lemma PanicReportWithoutUnwrapping(c: Config, s: State, k: Id)
    requires Reachable(c, s) && Told(s.log, k) && !c.options.unwrapQueuePoison
    ensures var m := s.log.fates[k].fate.taker;
      && 0 <= m < k
      && (ReportRight(s.log, k) <==> k == m + 1 || s.log.exits[m].outcome.Returned?)
  {
    ReportByNeighbour(c, s, k);
    HistoryOk(c, s);
    assert Fits(c, s.log, k - 1, s.log.exits[k - 1].outcome);
  }

  /** In the code as written every report of a panic is false: the taker returned normally. */
  lemma AsWrittenAlarmsAreFalse(c: Config, s: State, k: Id)
    requires Reachable(c, s) && !c.unwindDropsGuard
    requires k < |s.log.exits| && s.log.exits[k].outcome == Returned(ProcessingPanicked)
    ensures Told(s.log, k)
    ensures var m := s.log.fates[k].fate.taker; m < |s.log.exits| && s.log.exits[m].outcome == Returned(Processed)
  {
    ExactResult(c, s, k);
    ReportByNeighbour(c, s, k);
    ExactResult(c, s, s.log.fates[k].fate.taker);
    UnwoundTaker(c, s, s.log.fates[k].fate.taker);
  }

  lemma UnwoundTaker(c: Config, s: State, m: Id)
    requires Reachable(c, s) && m < |s.log.exits| && m < |s.log.fates| && s.log.fates[m].fate == OwnCallback
    ensures s.log.exits[m].outcome in {Returned(Processed), Unwound(CallbackPanic)}
    ensures s.log.exits[m].outcome.Unwound? ==> c.unwindDropsGuard
  {
    HistoryOk(c, s);
    assert Fits(c, s.log, m, s.log.exits[m].outcome);
  }

  /** With queue poison unwrapped and never cleared every report is right: a taken call that returns
      hears `ProcessedElsewhere`, and its taker did return. */
  lemma NeverClearedReportsRight(c: Config, run: seq<Action>, k: Id)
    requires Legal(c, Init(), run) && ClearFree(run) && c.options.unwrapQueuePoison
    requires Told(Exec(c, Init(), run).log, k)
    ensures var log := Exec(c, Init(), run).log;
      var m := log.fates[k].fate.taker;
      && log.exits[k].outcome == Returned(ProcessedElsewhere)
      && m < k && log.exits[m].outcome == Returned(Processed)
  {
    var t := Exec(c, Init(), run);
    assert Reachable(c, t);
    AllCascadingRun(c, Init(), run);
    ExactResult(c, t, k);
    ReportByNeighbour(c, t, k);
    WaitedIfTaken(c, t, k);
    var m := t.log.fates[k].fate.taker;
    UnwoundTaker(c, t, m);
    assert t.log.exits[k - 1].outcome.Unwound? ==> Cascading(t, k);
  }

  lemma WaitedIfTaken(c: Config, s: State, k: Id)
    requires Reachable(c, s) && Told(s.log, k)
    ensures k < |s.log.grants| && s.log.grants[k].via.Woken?
  {
    HistoryOk(c, s);
    assert Fits(c, s.log, k, s.log.exits[k].outcome);
  }

  // --- The poison that a call saw, and how its callback ended -----------------------------------------

  /** The poison flag as call `j` found it when it checked it in the run, if it did. */
  function FlagSeen(c: Config, s: State, run: seq<Action>, j: Id): Option<bool>
    requires Legal(c, s, run)
    decreases |run|
  {
    if run == [] then None
    else if run[0] == CheckQueuePoison(j) then Some(s.shared.queuePoisoned)
    else FlagSeen(c, Apply(c, s, run[0]), run[1..], j)
  }

  predicate PastPoisonCheck(s: State, j: Id) {
    j < |s.pcs| && !s.pcs[j].Waiting? && !s.pcs[j].Leaving? && !s.pcs[j].Classified?
  }

  predicate StoppedByPoison(s: State, j: Id) {
    j < |s.pcs| && s.pcs[j] in {Unwinding(QueuePoison), Done(Unwound(QueuePoison))}
  }

  /** Call `j` has learnt what its wait was good for. */
  predicate Concluded(s: State, j: Id) {
    || StoppedByPoison(s, j)
    || (j < |s.pcs| && s.pcs[j] in {Finished(ProcessedElsewhere), Finished(ProcessingPanicked),
                                    Done(Returned(ProcessedElsewhere)), Done(Returned(ProcessingPanicked))})
  }

  lemma CheckOwnStep(c: Config, s: State, a: Action, j: Id)
    requires Enabled(s, a) && StepOf(a, j) && j < |s.pcs|
    ensures var s' := Apply(c, s, a);
      && (PastPoisonCheck(s, j) ==> PastPoisonCheck(s', j) && a != CheckQueuePoison(j))
      && (a == CheckQueuePoison(j) ==> PastPoisonCheck(s', j) && !StoppedByPoison(s, j))
      && (StoppedByPoison(s', j) <==>
            StoppedByPoison(s, j) || (a == CheckQueuePoison(j) && c.options.unwrapQueuePoison && s.shared.queuePoisoned))
      && (Concluded(s', j) ==> Concluded(s, j) || a == CheckQueuePoison(j))
  {
  }

  lemma CheckStep(c: Config, s: State, a: Action, j: Id)
    requires Enabled(s, a)
    ensures var s' := Apply(c, s, a);
      && (PastPoisonCheck(s, j) ==> PastPoisonCheck(s', j) && a != CheckQueuePoison(j))
      && (a == CheckQueuePoison(j) ==> PastPoisonCheck(s', j) && !StoppedByPoison(s, j))
      && (StoppedByPoison(s', j) <==>
            StoppedByPoison(s, j) || (a == CheckQueuePoison(j) && c.options.unwrapQueuePoison && s.shared.queuePoisoned))
      && (Concluded(s', j) ==> Concluded(s, j) || a == CheckQueuePoison(j))
  {
    if j < |s.pcs| {
      if StepOf(a, j) {
        CheckOwnStep(c, s, a, j);
      } else {
        OnlyActorMoves(c, s, a, j);
      }
    } else {
      NewcomersStart(c, s, a, j);
    }
  }

  lemma {:induction false} NoSecondCheck(c: Config, s: State, run: seq<Action>, j: Id)
    requires Legal(c, s, run) && PastPoisonCheck(s, j)
    ensures FlagSeen(c, s, run, j).None?
    decreases |run|
  {
    if run != [] {
      CheckStep(c, s, run[0], j);
      NoSecondCheck(c, Apply(c, s, run[0]), run[1..], j);
    }
  }

  /** A call is stopped by queue poison iff the poison is unwrapped and it found it set. */
  lemma {:induction false} FlagDecides(c: Config, s: State, run: seq<Action>, j: Id)
    requires Legal(c, s, run)
    ensures var t := Exec(c, s, run);
      && (StoppedByPoison(t, j) <==>
            StoppedByPoison(s, j) || (c.options.unwrapQueuePoison && FlagSeen(c, s, run, j) == Some(true)))
      && (Concluded(t, j) ==> Concluded(s, j) || FlagSeen(c, s, run, j).Some?)
    decreases |run|
  {
    if run != [] {
      var s' := Apply(c, s, run[0]);
      CheckStep(c, s, run[0], j);
      FlagDecides(c, s', run[1..], j);
      if run[0] == CheckQueuePoison(j) {
        NoSecondCheck(c, s', run[1..], j);
      }
    }
  }

  /** The callback of call `m` unwound in the run. */
  predicate Unwinds(run: seq<Action>, m: Id) {
    exists a :: a in run && a.CallbackUnwind? && a.i == m
  }

  predicate CallbackUnwound(s: State, m: Id) {
    m < |s.pcs| && s.pcs[m] in {Stuck, Unwinding(CallbackPanic), Done(Unwound(CallbackPanic))}
  }

  lemma UnwoundOwnStep(c: Config, s: State, a: Action, m: Id)
    requires Enabled(s, a) && StepOf(a, m) && m < |s.pcs|
    ensures CallbackUnwound(Apply(c, s, a), m) <==> CallbackUnwound(s, m) || (a.CallbackUnwind? && a.i == m)
  {
  }

  lemma {:induction false} UnwoundInRun(c: Config, s: State, run: seq<Action>, m: Id)
    requires Legal(c, s, run)
    ensures CallbackUnwound(Exec(c, s, run), m) <==> CallbackUnwound(s, m) || Unwinds(run, m)
    decreases |run|
  {
    if run != [] {
      var a := run[0];
      if m < |s.pcs| {
        if StepOf(a, m) {
          UnwoundOwnStep(c, s, a, m);
        } else {
          OnlyActorMoves(c, s, a, m);
        }
      } else {
        NewcomersStart(c, s, a, m);
      }
      UnwoundInRun(c, Apply(c, s, a), run[1..], m);
      assert run == [a] + run[1..];
    }
  }

  // --- The exact conditions -----------------------------------------------------------------------------

  /** Which report a taken call `k` hears. The first of a batch hears of a panic iff the taker's
      callback unwound. A later one does iff queue poison is unwrapped, its neighbour found the
      poison set, and it found it cleared itself: the taker has no part in it. So the report is
      right iff the neighbour found the poison, unwrapped, just when the taker's callback unwound. */
  lemma PanicReportExact(c: Config, run: seq<Action>, k: Id)
    requires Legal(c, Init(), run) && Told(Exec(c, Init(), run).log, k)
    ensures var log := Exec(c, Init(), run).log;
      var m := log.fates[k].fate.taker;
      var alarm := log.exits[k].outcome == Returned(ProcessingPanicked);
      && m < k
      && (k == m + 1 ==> (alarm <==> Unwinds(run, m)) && ReportRight(log, k))
      && (k > m + 1 ==>
            var neighbour, own := FlagSeen(c, Init(), run, k - 1), FlagSeen(c, Init(), run, k);
            && neighbour.Some? && own.Some?
            && (alarm <==> c.options.unwrapQueuePoison && neighbour.value && !own.value)
            && (ReportRight(log, k) <==> ((c.options.unwrapQueuePoison && neighbour.value) <==> Unwinds(run, m))))
  {
    var t := Exec(c, Init(), run);
    assert Reachable(c, t);
    var m := t.log.fates[k].fate.taker;
    ReportByNeighbour(c, t, k);
    ExactResult(c, t, k);
    UnwoundTaker(c, t, m);
    LeftAsLogged(c, t, m);
    LeftAsLogged(c, t, k);
    UnwoundInRun(c, Init(), run, m);
    FlagDecides(c, Init(), run, k);
    if k > m + 1 {
      TakenByEarlierCallback(c, t, k);
      NeighbourTaken(c, t, k - 1);
      LeftAsLogged(c, t, k - 1);
      FlagDecides(c, Init(), run, k - 1);
    }
  }

  lemma LeftAsLogged(c: Config, s: State, k: Id)
    requires Reachable(c, s) && k < |s.log.exits|
    ensures k < |s.pcs| && s.pcs[k] == Done(s.log.exits[k].outcome)
  {
    ReachableInv(c, s);
  }

  lemma NeighbourTaken(c: Config, s: State, l: Id)
    requires Reachable(c, s) && l < |s.log.exits| && l < |s.log.fates| && s.log.fates[l].fate.TakenBy?
    ensures s.log.exits[l].outcome in {Returned(ProcessedElsewhere), Returned(ProcessingPanicked), Unwound(QueuePoison)}
  {
    HistoryOk(c, s);
    TakenOutcome(c, s.log, l);
  }

  // --- When a caller can rely on the reports ---------------------------------------------------------------

  /** Every report of every run is right; `clearing` says whether queue poison may be cleared. */
  ghost predicate Reliable(c: Config, clearing: bool) {
    forall s :: ReachableIf(c, clearing, s) ==> AllReportsRight(s.log)
  }

  /** The documented meaning of `ProcessingPanicked`, for a caller who knows the options and whether
      anybody clears queue poison. With queue poison unwrapped it holds iff nobody clears the poison,
      or nothing can poison the queue to begin with; with queue poison ignored it holds iff an
      unwinding callback hangs, as in the code as written, and so never reports at all. */
  lemma ReliableIff(c: Config, clearing: bool)
    ensures Reliable(c, clearing) <==>
              if c.options.unwrapQueuePoison
              then !clearing || !(c.options.unwrapMutexPoison || c.unwindDropsGuard)
              else !c.unwindDropsGuard
  {
    if c.unwindDropsGuard && (c.options.unwrapQueuePoison ==> clearing) {
      PanicReportCanBeMissed(c, clearing);
      var s := SecondTold(!c.options.unwrapQueuePoison);
      assert Told(s.log, 2) && !ReportRight(s.log, 2);
    } else if c == AS_WRITTEN && clearing {
      PanicReportCanBeWrong();
      assert ReachableIf(c, true, Misreported());
      assert Told(Misreported().log, 3) && !ReportRight(Misreported().log, 3);
    } else {
      forall s | ReachableIf(c, clearing, s) ensures AllReportsRight(s.log) {
        RightOtherwise(c, clearing, s);
      }
    }
  }

  lemma RightOtherwise(c: Config, clearing: bool, s: State)
    requires ReachableIf(c, clearing, s)
    requires c.unwindDropsGuard ==> c.options.unwrapQueuePoison && !clearing
    requires c == AS_WRITTEN ==> !clearing
    ensures AllReportsRight(s.log)
  {
    var run :| Legal(c, Init(), run) && Exec(c, Init(), run) == s && (clearing || ClearFree(run));
    forall k | 0 <= k < |s.log.exits| && Told(s.log, k) ensures ReportRight(s.log, k) {
      if c.options.unwrapQueuePoison && !clearing {
        NeverClearedReportsRight(c, run, k);
      } else {
        ReportByNeighbour(c, s, k);
        UnwoundTaker(c, s, s.log.fates[k].fate.taker);
        if c.options.unwrapQueuePoison {
          UnpoisonedRun(c, Init(), run);
        } else {
          PanicReportWithoutUnwrapping(c, s, k);
        }
      }
    }
  }

  /** Nothing has ever gone wrong. */
  predicate Unpoisoned(s: State) {
    && !s.shared.queuePoisoned
    && (forall i :: 0 <= i < |s.pcs| ==> !s.pcs[i].Unwinding?)
    && (forall k :: 0 <= k < |s.log.exits| ==> s.log.exits[k].outcome.Returned?)
  }

  lemma UnpoisonedStep(c: Config, s: State, a: Action)
    requires Enabled(s, a) && Unpoisoned(s) && !c.options.unwrapMutexPoison && !c.unwindDropsGuard
    ensures Unpoisoned(Apply(c, s, a))
  {
    if ByCallback(a) || ByEnvironment(a) {
      UnpoisonedQuietStep(c, s, a);
    } else {
      UnpoisonedHandOver(c, s, a);
    }
  }

  lemma UnpoisonedQuietStep(c: Config, s: State, a: Action)
    requires Enabled(s, a) && Unpoisoned(s) && !c.unwindDropsGuard && (ByCallback(a) || ByEnvironment(a))
    ensures Unpoisoned(Apply(c, s, a))
  {
  }

  lemma UnpoisonedHandOver(c: Config, s: State, a: Action)
    requires Enabled(s, a) && Unpoisoned(s) && !c.options.unwrapMutexPoison
    requires !ByCallback(a) && !ByEnvironment(a)
    ensures Unpoisoned(Apply(c, s, a))
  {
  }

  lemma {:induction false} UnpoisonedRun(c: Config, s: State, run: seq<Action>)
    requires Legal(c, s, run) && Unpoisoned(s) && !c.options.unwrapMutexPoison && !c.unwindDropsGuard
    ensures Unpoisoned(Exec(c, s, run))
    decreases |run|
  {
    if run != [] {
      UnpoisonedStep(c, s, run[0]);
      UnpoisonedRun(c, Apply(c, s, run[0]), run[1..]);
    }
  }
}
