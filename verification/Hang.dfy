// The one way to hang: a callback unwinds while its guard sits in the `MaybeUninit` of
// src/queue.rs:557. The guard is leaked, and line 644 locks the mutex of its own thread.
module Hang {
  import opened Base
  import opened TaskStates
  import opened Protocol
  import opened Invariant
  import opened Safety
  import opened History
  import opened Poison
  import opened Frames
  import opened Progress

  /** Nothing of the queue differs between the two states, apart from who is awake. */
  predicate Frozen(s: State, t: State) {
    && t.mutex == s.mutex
    && t.shared == s.shared
    && t.pcs == s.pcs
    && t.log == s.log
    && WordsEqual(s.cells, t.cells)
  }

  predicate WordsEqual(older: map<Id, Cell>, newer: map<Id, Cell>) {
    && newer.Keys == older.Keys
    && (forall j :: j in older ==> newer[j].word == older[j].word)
  }

  lemma StuckStep(c: Config, s: State, a: Action)
    requires Inv(c, s) && AnyStuck(s) && Enabled(s, a)
    ensures a.Spurious? || a.ClearMutexPoison?
  {
    PendingTurn(c, s);
  }

  /** Once a call is stuck the mutex is never free again and the front never moves again,
      whatever anybody does. */
  lemma {:induction false} StuckForever(c: Config, s: State, run: seq<Action>)
    requires Reachable(c, s) && AnyStuck(s) && Legal(c, s, run)
    ensures Frozen(s, Exec(c, s, run)) && AnyStuck(Exec(c, s, run))
    decreases |run|
  {
    if run != [] {
      var s' := Apply(c, s, run[0]);
      ReachableInv(c, s);
      StuckStep(c, s, run[0]);
      ReachableStep(c, s, run[0]);
      assert Frozen(s, s');
      StuckForever(c, s', run[1..]);
    }
  }

  /** The pending calls of a reachable state can all leave iff no call is stuck. */
  lemma CanFinishIffNotStuck(c: Config, s: State)
    requires Reachable(c, s)
    ensures CanFinish(c, s) <==> !AnyStuck(s)
  {
    if AnyStuck(s) {
      forall run | Legal(c, s, run) ensures !AllDone(Exec(c, s, run)) {
        StuckForever(c, s, run);
      }
    } else {
      ReachableInv(c, s);
      var run := Drain(c, s);
    }
  }

  predicate HasUnwind(run: seq<Action>) {
    exists a :: a in run && a.CallbackUnwind?
  }

  lemma {:induction false} StuckByUnwind(c: Config, s: State, run: seq<Action>)
    requires Inv(c, s) && Legal(c, s, run)
    ensures AnyStuck(Exec(c, s, run)) <==> AnyStuck(s) || (!c.unwindDropsGuard && HasUnwind(run))
    decreases |run|
  {
    if run != [] {
      StuckByUnwindStep(c, s, run[0]);
      InvStep(c, s, run[0]);
      StuckByUnwind(c, Apply(c, s, run[0]), run[1..]);
      assert run == [run[0]] + run[1..];
    }
  }

  lemma StuckByUnwindStep(c: Config, s: State, a: Action)
    requires Inv(c, s) && Enabled(s, a)
    ensures AnyStuck(Apply(c, s, a)) <==> AnyStuck(s) || (!c.unwindDropsGuard && a.CallbackUnwind?)
  {
    var s' := Apply(c, s, a);
    if AnyStuck(s) {
      StuckStep(c, s, a);
    } else if a.CallbackUnwind? {
      Actor(c, s, a.i);
      if !c.unwindDropsGuard {
        assert s'.pcs[a.i].Stuck?;
      }
    } else {
      forall i | 0 <= i < |s'.pcs| ensures !s'.pcs[i].Stuck? {
        NotStuckStep(c, s, a, i);
      }
    }
  }

  lemma NotStuckStep(c: Config, s: State, a: Action, i: Id)
    requires Enabled(s, a) && !a.CallbackUnwind? && i < |Apply(c, s, a).pcs|
    requires i < |s.pcs| ==> !s.pcs[i].Stuck?
    ensures !Apply(c, s, a).pcs[i].Stuck?
  {
  }

  /** src/queue.rs:47-48 says that `catch_unwind` keeps unwinds from causing indefinite hangs. Exactly:
      after a run everybody who is pending can still leave iff no callback of that run unwound, or
      unwinding callbacks let go of the mutex. As written they do not. */
  lemma NoHangIff(c: Config, run: seq<Action>)
    requires Legal(c, Init(), run)
    ensures CanFinish(c, Exec(c, Init(), run)) <==> c.unwindDropsGuard || !HasUnwind(run)
  {
    var t := Exec(c, Init(), run);
    assert Reachable(c, t);
    StuckByUnwind(c, Init(), run);
    CanFinishIffNotStuck(c, t);
  }

  /** A witness for the cascade: after an Err exit, with queue poison unwrapped, there is a run in
      which the calls then queued all leave, each stopped by the poison, and the queue ends up
      empty and unlocked. That every fair run ends so is Cascade.CascadeEnds. */
  lemma CascadeCanEnd(c: Config, s: State, i: Id) returns (run: seq<Action>)
    requires Reachable(c, s) && Enabled(s, ExitErr(i)) && c.options.unwrapQueuePoison
    ensures var s' := Apply(c, s, ExitErr(i));
      && Finishes(c, s', run)
      && var t := Exec(c, s', run);
         && t.shared.queue == [] && !t.shared.frontLocked && t.shared.queuePoisoned
         && (forall j :: 0 <= j < |s'.shared.queue| ==>
               && s'.shared.queue[j].owner < |t.log.exits|
               && t.log.exits[s'.shared.queue[j].owner].outcome == Unwound(QueuePoison)
               && s'.shared.queue[j].owner < |t.log.fates|
               && t.log.fates[s'.shared.queue[j].owner].fate != OwnCallback)
  {
    var s' := Apply(c, s, ExitErr(i));
    ReachableInv(c, s);
    ReachableStep(c, s, ExitErr(i));
    ReachableInv(c, s');
    NotStuckAfterExit(c, s, i);
    run := Drain(c, s');
    var t := Exec(c, s', run);
    ReachableExtends(c, s', run);
    DoneMeansIdle(c, t);
    QueueFlagRun(c, s', run);
    LogGrows(c, s', run);
    StrictFifo(c, s');
    forall j | 0 <= j < |s'.shared.queue|
      ensures var l := s'.shared.queue[j].owner;
        && l < |t.log.exits| && t.log.exits[l].outcome == Unwound(QueuePoison)
        && l < |t.log.fates| && t.log.fates[l].fate != OwnCallback
    {
      ExitedBehind(c, s, i, j);
      QueuedHadToWait(c, s', run, j);
      PoisonCascade(c, s, i, run, s'.shared.queue[j].owner);
    }
  }

  lemma NotStuckAfterExit(c: Config, s: State, i: Id)
    requires Inv(c, s) && Enabled(s, ExitErr(i))
    ensures !AnyStuck(Apply(c, s, ExitErr(i)))
  {
    Actor(c, s, i);
    InvStep(c, s, ExitErr(i));
    PendingTurn(c, Apply(c, s, ExitErr(i)));
  }

  lemma ExitedBehind(c: Config, s: State, i: Id, j: nat)
    requires Inv(c, s) && Enabled(s, ExitErr(i)) && j < |s.shared.queue|
    ensures Apply(c, s, ExitErr(i)).shared.queue == s.shared.queue
    ensures i < s.shared.queue[j].owner < |s.pcs|
  {
    Actor(c, s, i);
  }
}
