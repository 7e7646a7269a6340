// What other threads can do while a callback is inside `unlocked`.
module Interference {
  import opened Base
  import opened TaskStates
  import opened QueueState
  import opened Protocol
  import opened Invariant
  import opened Safety

  /** New tasks behind the old ones, and nothing else. */
  predicate Appended(older: seq<Slot>, newer: seq<Slot>) {
    && |older| <= |newer|
    && (forall k :: 0 <= k < |older| ==> newer[k] == older[k])
    && (forall k :: |older| <= k < |newer| ==> newer[k].value.Some?)
  }

  predicate WordsKept(older: map<Id, Cell>, newer: map<Id, Cell>) {
    forall j :: j in older ==> j in newer && newer[j].word == older[j].word
  }

  /** From `s` to `t` the window of call `i` stayed open and was only added to. */
  predicate WindowKept(s: State, t: State, i: Id) {
    && i < |s.pcs| && i < |t.pcs| && t.pcs[i] == s.pcs[i]
    && Appended(s.shared.queue, t.shared.queue)
    && WordsKept(s.cells, t.cells)
    && t.shared.frontLocked == s.shared.frontLocked
    && t.log.grants == s.log.grants
    && t.log.fates == s.log.fates
    && t.log.exits == s.log.exits
  }

  /** Any number of steps by any number of other threads: arrivals, spurious wakeups, clearing of
      poison, other users of the mutex. */
  lemma {:induction false} WindowIsAppendOnly(c: Config, s: State, run: seq<Action>, i: Id)
    requires Reachable(c, s) && i < |s.pcs| && s.pcs[i].Unlocked?
    requires Legal(c, s, run) && forall a :: a in run ==> !StepOf(a, i)
    ensures WindowKept(s, Exec(c, s, run), i)
    decreases |run|
  {
    if run != [] {
      var s' := Apply(c, s, run[0]);
      WindowStep(c, s, run[0], i);
      ReachableStep(c, s, run[0]);
      WindowIsAppendOnly(c, s', run[1..], i);
    }
  }

  lemma WindowStep(c: Config, s: State, a: Action, i: Id)
    requires Reachable(c, s) && i < |s.pcs| && s.pcs[i].Unlocked?
    requires Enabled(s, a) && !StepOf(a, i)
    ensures WindowKept(s, Apply(c, s, a), i)
  {
    ReachableInv(c, s);
    Actor(c, s, i);
    OnlyWaitersMove(c, s, a);
    if a.WakeCheck? {
      BitsOfOffer(true);
    }
  }

  /** The only steps that are possible while call `i` has the window open. */
  lemma OnlyWaitersMove(c: Config, s: State, a: Action)
    requires Inv(c, s) && Occupied(s.log) && s.pcs[Turn(s.log)].Unlocked?
    requires Enabled(s, a) && !StepOf(a, Turn(s.log))
    ensures ByEnvironment(a) || a.Start? || a.Spurious? || (a.WakeCheck? && s.cells[a.i].word == 0)
    ensures a.Start? ==> !CanAcquire(s.shared)
  {
  }

  /** A value seen by `peek` before the window is the value that `peek` shows and that `pop`
      takes after it. */
  lemma PeekedValueStays(c: Config, s: State, run: seq<Action>, i: Id, v: Value)
    requires Reachable(c, s) && i < |s.pcs| && s.pcs[i].Unlocked?
    requires PeekAt(s.shared, s.pcs[i].nextIdx) == Some(v)
    requires Legal(c, s, run) && forall a :: a in run ==> !StepOf(a, i)
    requires Enabled(Exec(c, s, run), Relock(i))
    ensures var t := Apply(c, Exec(c, s, run), Relock(i));
      && t.pcs[i] == Running(s.pcs[i].nextIdx)
      && PeekAt(t.shared, t.pcs[i].nextIdx) == Some(v)
      && Apply(c, t, HandlePop(i)).log.fates == s.log.fates + [Settled(|s.log.fates|, v, TakenBy(i))]
  {
    WindowIsAppendOnly(c, s, run, i);
    ReachableInv(c, s);
    HandleSlot(c, s, i);
  }
}
