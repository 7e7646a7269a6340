// Queue poison: who is stopped by it.
module Poison {
  import opened Base
  import opened QueueState
  import opened Protocol
  import opened Invariant
  import opened Safety
  import opened History

  predicate ClearsNothing(a: Action) {
    !a.ClearQueuePoison? && !a.HandleClear?
  }

  /** Every call from `from` on that waited has been stopped by the poison, or will be as soon as
      it looks at it. */
  predicate Cascading(s: State, from: nat) {
    && s.shared.queuePoisoned
    && StoppedSince(s.log, from)
    && (Occupied(s.log) && from <= Turn(s.log) < |s.pcs| && s.log.grants[Turn(s.log)].via.Woken? ==>
          BeingStopped(s.pcs[Turn(s.log)]))
  }

  predicate StoppedSince(log: Log, from: nat) {
    forall k :: from <= k < |log.exits| && k < |log.grants| && log.grants[k].via.Woken? ==>
      log.exits[k].outcome == Unwound(QueuePoison)
  }

  predicate BeingStopped(pc: Pc) {
    pc.Classified? || pc == Unwinding(QueuePoison)
  }

  lemma CascadingStep(c: Config, s: State, a: Action, from: nat)
    requires Inv(c, s) && Enabled(s, a) && ClearsNothing(a) && c.options.unwrapQueuePoison
    requires Cascading(s, from)
    ensures Cascading(Apply(c, s, a), from)
  {
    if ByCallback(a) {
      Actor(c, s, a.i);
      CascadingInCallback(c, s, a, from);
    } else if a.PopFront? || a.CheckQueuePoison? || a.CheckMutexPoison? || a.ExitOk? || a.ExitErr? {
      Actor(c, s, a.i);
      CascadingInTurn(c, s, a, from);
    } else {
      CascadingOutside(c, s, a, from);
    }
  }

  lemma CascadingInTurn(c: Config, s: State, a: Action, from: nat)
    requires a.PopFront? || a.CheckQueuePoison? || a.CheckMutexPoison? || a.ExitOk? || a.ExitErr?
    requires Enabled(s, a) && c.options.unwrapQueuePoison && a.i == Turn(s.log)
    requires Turn(s.log) <= Granted(s.log) <= Turn(s.log) + 1
    requires HoldsFront(s.pcs[a.i]) <==> Occupied(s.log)
    requires Cascading(s, from)
    ensures Cascading(Apply(c, s, a), from)
  {
    if a.ExitOk? || a.ExitErr? {
      CascadingAtExit(c, s, a, from);
    }
  }

  lemma CascadingAtExit(c: Config, s: State, a: Action, from: nat)
    requires (a.ExitOk? || a.ExitErr?) && Enabled(s, a) && a.i == Turn(s.log)
    requires Granted(s.log) == Turn(s.log) + 1 && Cascading(s, from)
    ensures Cascading(Apply(c, s, a), from)
  {
  }

  lemma CascadingOutside(c: Config, s: State, a: Action, from: nat)
    requires Enabled(s, a) && ClearsNothing(a)
    requires ByEnvironment(a) || a.Start? || a.Spurious? || a.WakeCheck?
    requires Turn(s.log) <= Granted(s.log) <= |s.pcs| && (Occupied(s.log) ==> HoldsFront(s.pcs[Turn(s.log)]))
    requires CanAcquire(s.shared) ==> Granted(s.log) == |s.pcs| == Turn(s.log)
    requires Cascading(s, from)
    ensures Cascading(Apply(c, s, a), from)
  {
  }

  lemma CascadingInCallback(c: Config, s: State, a: Action, from: nat)
    requires Enabled(s, a) && ByCallback(a) && ClearsNothing(a) && a.i == Turn(s.log)
    requires Cascading(s, from)
    ensures Cascading(Apply(c, s, a), from)
  {
  }

  lemma {:induction false} CascadingRun(c: Config, s: State, run: seq<Action>, from: nat)
    requires Inv(c, s) && Legal(c, s, run) && c.options.unwrapQueuePoison
    requires forall a :: a in run ==> ClearsNothing(a)
    requires Cascading(s, from)
    ensures Cascading(Exec(c, s, run), from)
    decreases |run|
  {
    if run != [] {
      CascadingStep(c, s, run[0], from);
      InvStep(c, s, run[0]);
      CascadingRun(c, Apply(c, s, run[0]), run[1..], from);
    }
  }

  /** After an Err exit, as long as nobody clears the poison: a call that leaves was stopped by the
      poison exactly when it had to wait. That covers every task queued at the exit and every task
      pushed later, in FIFO order. A call on the fast path is never stopped by it. */
  lemma PoisonCascade(c: Config, s: State, i: Id, run: seq<Action>, l: Id)
    requires Reachable(c, s) && Enabled(s, ExitErr(i)) && c.options.unwrapQueuePoison
    requires Legal(c, Apply(c, s, ExitErr(i)), run) && forall a :: a in run ==> ClearsNothing(a)
    requires i < l < |Exec(c, Apply(c, s, ExitErr(i)), run).log.exits|
    ensures var t := Exec(c, Apply(c, s, ExitErr(i)), run);
      && (t.log.exits[l].outcome == Unwound(QueuePoison) <==> l in t.cells)
      && (l in t.cells ==> l < |t.log.fates| && t.log.fates[l].fate != OwnCallback)
  {
    var s', t := Apply(c, s, ExitErr(i)), Exec(c, Apply(c, s, ExitErr(i)), run);
    ReachableInv(c, s);
    Actor(c, s, i);
    CascadeBegins(c, s, ExitErr(i));
    InvStep(c, s, ExitErr(i));
    CascadingRun(c, s', run, i + 1);
    InvRun(c, s', run);
    assert Fits(c, t.log, l, t.log.exits[l].outcome);
  }

  /** A task that is queued when the cascade begins has a cell then and ever after. */
  lemma QueuedHadToWait(c: Config, s: State, run: seq<Action>, j: nat)
    requires Reachable(c, s) && Legal(c, s, run) && j < |s.shared.queue|
    ensures s.shared.queue[j].owner in Exec(c, s, run).cells
  {
    ReachableInv(c, s);
    WordHistory(c, s, run, s.shared.queue[j].owner);
  }

  /** Which calls have a cell: those that found the front locked when they arrived. */
  lemma WaitsIffFrontLocked(c: Config, s: State, v: Value)
    requires Reachable(c, s) && Enabled(s, Start(v))
    ensures |s.pcs| in Apply(c, s, Start(v)).cells <==> s.shared.frontLocked
  {
    ReachableInv(c, s);
  }

  /** Whoever arrived without having to wait never has a state word afterwards. */
  lemma {:induction false} NoCellLater(c: Config, s: State, run: seq<Action>, j: Id)
    requires Legal(c, s, run) && j < |s.pcs| && j !in s.cells
    ensures j !in Exec(c, s, run).cells
    decreases |run|
  {
    if run != [] {
      NoCellStep(c, s, run[0], j);
      LogGrowsStep(c, s, run[0]);
      NoCellLater(c, Apply(c, s, run[0]), run[1..], j);
    }
  }

  lemma NoCellStep(c: Config, s: State, a: Action, j: Id)
    requires Enabled(s, a) && j < |s.pcs| && j !in s.cells
    ensures j !in Apply(c, s, a).cells
  {
    if !a.ExitOk? && !a.ExitErr? && !a.Start? && !a.Spurious? && !a.WakeCheck? {
      CellsUntouched(c, s, a);
    }
  }

  /** src/interface.rs:66-67 promises that with queue poison unwrapped a call panics if one before
      it did and nobody has cleared the poison since. A call that arrives after the first panic does
      so exactly if it found the front locked. `before` and `after` are what happens between the
      panic and the arrival, and from then on. */
  lemma StoppedIffFrontLocked(c: Config, s: State, i: Id, before: seq<Action>, v: Value, after: seq<Action>)
    requires Reachable(c, s) && Enabled(s, ExitErr(i)) && c.options.unwrapQueuePoison
    requires Legal(c, Apply(c, s, ExitErr(i)), before) && forall a :: a in before ==> ClearsNothing(a)
    requires Enabled(Exec(c, Apply(c, s, ExitErr(i)), before), Start(v))
    requires Legal(c, Apply(c, Exec(c, Apply(c, s, ExitErr(i)), before), Start(v)), after)
    requires forall a :: a in after ==> ClearsNothing(a)
    ensures var u := Exec(c, Apply(c, s, ExitErr(i)), before);
      var exits := Exec(c, Apply(c, u, Start(v)), after).log.exits;
      |u.pcs| < |exits| ==> (exits[|u.pcs|].outcome == Unwound(QueuePoison) <==> u.shared.frontLocked)
  {
    var s' := Apply(c, s, ExitErr(i));
    var u := Exec(c, s', before);
    var u' := Apply(c, u, Start(v));
    var run, l := before + ([Start(v)] + after), |u.pcs|;
    ArrivalInRun(c, s', before, v, after);
    ReachableStep(c, s, ExitErr(i));
    ReachableExtends(c, s', before);
    ReachableStep(c, u, Start(v));
    Newer(c, s, i, before);
    if l < |Exec(c, u', after).log.exits| {
      PoisonCascade(c, s, i, run, l);
      WaitsIffFrontLocked(c, u, v);
      if u.shared.frontLocked {
        WordHistory(c, u', after, l);
      } else {
        NoCellLater(c, u', after, l);
      }
    }
  }

  lemma ArrivalInRun(c: Config, s: State, before: seq<Action>, v: Value, after: seq<Action>)
    requires Legal(c, s, before) && Enabled(Exec(c, s, before), Start(v))
    requires Legal(c, Apply(c, Exec(c, s, before), Start(v)), after)
    ensures var run := before + ([Start(v)] + after);
      && Legal(c, s, run)
      && Exec(c, s, run) == Exec(c, Apply(c, Exec(c, s, before), Start(v)), after)
  {
    var tail := [Start(v)] + after;
    assert tail[0] == Start(v) && tail[1..] == after;
    ExecConcat(c, s, before, tail);
  }

  /** Whoever arrives after an exit comes behind the call that left. */
  lemma Newer(c: Config, s: State, i: Id, run: seq<Action>)
    requires Enabled(s, ExitErr(i)) && Legal(c, Apply(c, s, ExitErr(i)), run)
    ensures i < |Exec(c, Apply(c, s, ExitErr(i)), run).pcs|
  {
    LogGrowsStep(c, s, ExitErr(i));
    LogGrows(c, Apply(c, s, ExitErr(i)), run);
  }

  // --- Runs in which nobody clears the poison -------------------------------------------------------

  predicate ClearFree(run: seq<Action>) {
    forall a :: a in run ==> ClearsNothing(a)
  }

  /** A run leads to `s`, one that clears nothing unless clearing is allowed. */
  ghost predicate ReachableIf(c: Config, clearing: bool, s: State) {
    exists run :: Legal(c, Init(), run) && Exec(c, Init(), run) == s && (clearing || ClearFree(run))
  }

  lemma ReachableIfStep(c: Config, clearing: bool, s: State, a: Action)
    requires ReachableIf(c, clearing, s) && Enabled(s, a) && (clearing || ClearsNothing(a))
    ensures ReachableIf(c, clearing, Apply(c, s, a))
  {
    var run :| Legal(c, Init(), run) && Exec(c, Init(), run) == s && (clearing || ClearFree(run));
    OneStep(c, s, a);
    ExecConcat(c, Init(), run, [a]);
    assert clearing || ClearFree(run + [a]);
  }

  lemma ReachableIfThree(c: Config, clearing: bool, s: State, a: Action, b: Action, d: Action)
    requires ReachableIf(c, clearing, s)
    requires Enabled(s, a) && Enabled(Apply(c, s, a), b) && Enabled(Apply(c, Apply(c, s, a), b), d)
    requires clearing || (ClearsNothing(a) && ClearsNothing(b) && ClearsNothing(d))
    ensures ReachableIf(c, clearing, Apply(c, Apply(c, Apply(c, s, a), b), d))
  {
    ReachableIfStep(c, clearing, s, a);
    ReachableIfStep(c, clearing, Apply(c, s, a), b);
    ReachableIfStep(c, clearing, Apply(c, Apply(c, s, a), b), d);
  }

  /** The poison of every unwound call is still on its way. */
  predicate AllCascading(s: State) {
    forall j :: 0 <= j < |s.log.exits| && s.log.exits[j].outcome.Unwound? ==> Cascading(s, j + 1)
  }

  lemma AllCascadingStep(c: Config, s: State, a: Action)
    requires Inv(c, s) && Enabled(s, a) && ClearsNothing(a) && c.options.unwrapQueuePoison
    requires AllCascading(s)
    ensures AllCascading(Apply(c, s, a))
  {
    var s' := Apply(c, s, a);
    forall j | 0 <= j < |s'.log.exits| && s'.log.exits[j].outcome.Unwound? ensures Cascading(s', j + 1) {
      if j < |s.log.exits| {
        LogGrowsStep(c, s, a);
        CascadingStep(c, s, a, j + 1);
      } else if a.ExitOk? || a.ExitErr? {
        Actor(c, s, a.i);
        CascadeBegins(c, s, a);
      } else {
        OnlyExitsExit(c, s, a);
      }
    }
  }

  lemma CascadeBegins(c: Config, s: State, a: Action)
    requires Inv(c, s) && Enabled(s, a) && (a.ExitOk? || a.ExitErr?) && a.i == Turn(s.log)
    ensures Turn(Apply(c, s, a).log) == a.i + 1
    ensures Apply(c, s, a).log.exits[a.i].outcome.Unwound? ==> Cascading(Apply(c, s, a), a.i + 1)
  {
    Actor(c, s, a.i);
  }

  lemma {:induction false} AllCascadingRun(c: Config, s: State, run: seq<Action>)
    requires Inv(c, s) && Legal(c, s, run) && ClearFree(run) && c.options.unwrapQueuePoison
    requires AllCascading(s)
    ensures AllCascading(Exec(c, s, run))
    decreases |run|
  {
    if run != [] {
      AllCascadingStep(c, s, run[0]);
      InvStep(c, s, run[0]);
      AllCascadingRun(c, Apply(c, s, run[0]), run[1..]);
    }
  }
}
