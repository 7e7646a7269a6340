// The inductive invariant. Calls hold the front in the order of their ids, so everything is said
// about the current turn, the first call that has not left yet: calls before it are done, the
// call itself holds the front or has been offered it, and all later calls wait in the queue.
module Invariant {
  import opened Base
  import opened TaskStates
  import opened QueueState
  import opened Protocol

  // --- Vocabulary -------------------------------------------------------------------------

  /** The call holds the front permission. */
  predicate HoldsFront(pc: Pc) {
    !pc.Waiting? && !pc.Leaving? && !pc.Done?
  }

  predicate HoldsMutex(pc: Pc) {
    (HoldsFront(pc) && !pc.Unlocked? && !pc.Unwinding?) || pc.Leaving?
  }

  predicate InCallback(pc: Pc) {
    pc.Running? || pc.Unlocked?
  }

  /** The call holds its own value and has not yet decided what happens to it. */
  predicate HasValueInHand(pc: Pc) {
    pc.Ready? || (pc.Classified? && pc.waited.Process?)
  }

  function ValueInHand(pc: Pc): Value
    requires HasValueInHand(pc)
  {
    if pc.Ready? then pc.value else pc.waited.value
  }

  // A log fixes how far the history has come.

  /** The first call that has not left. */
  function Turn(log: Log): nat {
    |log.exits|
  }

  function Granted(log: Log): nat {
    |log.grants|
  }

  function Arrived(log: Log): nat {
    |log.arrivals|
  }

  predicate Occupied(log: Log) {
    Turn(log) < Granted(log)
  }

  /** How many values have left their slots: settled, or in the hand of the current turn. */
  function Emptied(log: Log, pcs: seq<Pc>): nat {
    |log.fates| +
    if Occupied(log) && Turn(log) < |pcs| && HasValueInHand(pcs[Turn(log)]) then 1 else 0
  }

  // --- The invariant ----------------------------------------------------------------------

  predicate LogOk(log: Log) {
    && Turn(log) <= Granted(log) <= Turn(log) + 1
    && Granted(log) <= Arrived(log)
    && |log.fates| <= Arrived(log)
    && (forall k :: 0 <= k < Granted(log) ==> log.grants[k].id == k)
    && (forall k :: 0 <= k < Turn(log) ==> log.exits[k].id == k)
    && (forall k :: 0 <= k < |log.fates| ==> log.fates[k].id == k)
    && (forall k :: 0 <= k < |log.fates| ==> log.fates[k].value == log.arrivals[k])
  }

  predicate MutexOk(mutex: Owner, pcs: seq<Pc>, log: Log) {
    && (mutex.Held? ==> mutex.holder == Turn(log))
    && (mutex.Held? <==> Turn(log) < |pcs| && HoldsMutex(pcs[Turn(log)]))
  }

  predicate QueueOk(queue: seq<Slot>, log: Log, emptied: nat) {
    && |queue| == Arrived(log) - Granted(log)
    && Granted(log) <= emptied <= Arrived(log)
    && (forall j :: 0 <= j < |queue| ==> queue[j].owner == Granted(log) + j)
    && (forall j :: 0 <= j < |queue| ==>
          queue[j].value ==
            if Granted(log) + j < emptied then None else Some(log.arrivals[Granted(log) + j]))
  }

  predicate PcsOk(pcs: seq<Pc>, log: Log)
    requires LogOk(log)
  {
    && |pcs| == Arrived(log)
    && (forall i :: 0 <= i < Turn(log) ==> pcs[i] == Done(log.exits[i].outcome))
    && (forall i :: Turn(log) < i < |pcs| ==> pcs[i] == Waiting)
    && (Occupied(log) ==> HoldsFront(pcs[Turn(log)]))
    && (Granted(log) == Turn(log) < |pcs| ==> pcs[Turn(log)].Waiting? || pcs[Turn(log)].Leaving?)
  }

  /** Call `i` waited and was handed the front by the call before it. */
  predicate Offered(cells: map<Id, Cell>, log: Log, i: Id) {
    && 0 < i <= Turn(log)
    && i in cells
    && cells[i].word == OfferedWord(log.exits[i - 1].outcome.Returned?)
    && log.exits[i - 1].handoff == Transferred(i)
  }

  predicate CellsOk(cells: map<Id, Cell>, log: Log) {
    && (forall i :: i in cells ==> i < Arrived(log))
    && (forall i :: Granted(log) <= i < Arrived(log) ==> i in cells)
    && (forall i :: Turn(log) < i && i in cells ==> cells[i].word == 0)
    && (forall i :: 0 <= i < Granted(log) ==> (i in cells <==> log.grants[i].via.Woken?))
    && (forall i :: 0 <= i < Granted(log) && i in cells ==> Offered(cells, log, i))
  }

  /** Nobody holds the front but somebody has been offered it: the head, which is awake. */
  predicate OfferOk(cells: map<Id, Cell>, pcs: seq<Pc>, log: Log) {
    var x := Turn(log);
    Granted(log) == x < |pcs| ==>
      && Offered(cells, log, x)
      && !cells[x].sleeping
      && (pcs[x].Leaving? ==> pcs[x].panicked == Panicking(cells[x].word))
  }

  predicate HandoffsOk(log: Log) {
    forall k :: 0 <= k < Turn(log) ==>
      log.exits[k].handoff ==
        if (if k + 1 < Granted(log) then log.grants[k + 1].via.Woken? else k + 1 < Arrived(log))
        then Transferred(k + 1) else Released
  }

  /** Value `k` was taken right after another value in the same hands. */
  predicate TakenInOrder(log: Log, k: nat)
    requires k < |log.fates| && log.fates[k].fate.TakenBy?
  {
    var j := log.fates[k].fate.taker;
    && j < k
    && (log.fates[k - 1].fate == TakenBy(j) || (j == k - 1 && log.fates[j].fate == OwnCallback))
  }

  predicate FatesOk(log: Log) {
    && (forall k :: 0 <= k < |log.fates| && log.fates[k].fate.TakenBy? ==> TakenInOrder(log, k))
    && (forall k :: Granted(log) <= k < |log.fates| ==> log.fates[k].fate.TakenBy?)
  }

  /** What may have happened to the value of call `k` if it ends with `outcome`. */
  predicate Fits(c: Config, log: Log, k: nat, outcome: Outcome) {
    && k < |log.grants|
    && k < |log.fates|
    && k <= |log.exits|
    && var fate := log.fates[k].fate;
       var woken := k > 0 && log.grants[k].via.Woken?;
       match outcome
       case Returned(Processed) => fate == OwnCallback
       case Returned(ProcessedElsewhere) =>
         fate.TakenBy? && woken && log.exits[k - 1].outcome.Returned?
       case Returned(ProcessingPanicked) =>
         fate.TakenBy? && woken && log.exits[k - 1].outcome.Unwound?
       case Unwound(QueuePoison) => fate != OwnCallback && woken && c.options.unwrapQueuePoison
       case Unwound(MutexPoison) => fate == Discarded && c.options.unwrapMutexPoison
       case Unwound(CallbackPanic) => fate == OwnCallback && c.unwindDropsGuard
  }

  predicate ResultsOk(c: Config, log: Log) {
    forall k :: 0 <= k < Turn(log) ==> Fits(c, log, k, log.exits[k].outcome)
  }

  /** The callback of the current turn has taken `n` values, those right behind its own. */
  predicate RunningOk(log: Log, n: nat) {
    var x, f := Turn(log), |log.fates|;
    && f == x + 1 + n
    && log.fates[x].fate == OwnCallback
    && (forall k :: x < k < f ==> log.fates[k].fate == TakenBy(x))
  }

  predicate InHandOk(log: Log, v: Value) {
    |log.fates| == Turn(log) < Arrived(log) && v == log.arrivals[Turn(log)]
  }

  /** What the program counter of the call that holds the front promises. */
  predicate TurnOk(c: Config, log: Log, pc: Pc) {
    var x := Turn(log);
    Occupied(log) ==>
      && (pc.Classified? ==> log.grants[x].via.Woken? && x > 0)
      && match pc
         case Classified(Process(v)) => InHandOk(log, v)
         case Classified(Elsewhere) => Fits(c, log, x, Returned(ProcessedElsewhere))
         case Classified(Panicked) => Fits(c, log, x, Returned(ProcessingPanicked))
         case Ready(v) => InHandOk(log, v)
         case Running(n) => RunningOk(log, n)
         case Unlocked(n) => RunningOk(log, n)
         case Finished(r) => Fits(c, log, x, Returned(r))
         case Unwinding(cause) => Fits(c, log, x, Unwound(cause))
         case Stuck => |log.fates| > x && log.fates[x].fate == OwnCallback && !c.unwindDropsGuard
         case _ => true
  }

  predicate Inv(c: Config, s: State) {
    && LogOk(s.log)
    && PcsOk(s.pcs, s.log)
    && MutexOk(s.mutex, s.pcs, s.log)
    && s.shared.frontLocked == (Turn(s.log) < Arrived(s.log))
    && QueueOk(s.shared.queue, s.log, Emptied(s.log, s.pcs))
    && CellsOk(s.cells, s.log)
    && OfferOk(s.cells, s.pcs, s.log)
    && HandoffsOk(s.log)
    && FatesOk(s.log)
    && ResultsOk(c, s.log)
    && (Occupied(s.log) ==> TurnOk(c, s.log, s.pcs[Turn(s.log)]))
    && !s.broken
  }

  // --- Preservation, part by part -----------------------------------------------------------

  lemma SetPc(pcs: seq<Pc>, log: Log, pc: Pc)
    requires LogOk(log) && PcsOk(pcs, log) && Occupied(log) && HoldsFront(pc)
    ensures PcsOk(pcs[Turn(log) := pc], log)
    ensures Emptied(log, pcs[Turn(log) := pc]) == |log.fates| + if HasValueInHand(pc) then 1 else 0
  {
  }

  lemma SetCell(cells: map<Id, Cell>, log: Log, i: Id, cell: Cell)
    requires CellsOk(cells, log) && i in cells && cell.word == cells[i].word
    ensures CellsOk(cells[i := cell], log)
  {
    var cells' := cells[i := cell];
    forall k | 0 <= k < Granted(log) && k in cells' ensures Offered(cells', log, k) {
      assert Offered(cells, log, k);
    }
  }

  /** A step of the call that holds the front which changes only its control state. */
  lemma InvSetPc(c: Config, s: State, pc: Pc, mutex: Owner, mutexPoisoned: bool, queuePoisoned: bool)
    requires Inv(c, s) && Occupied(s.log)
    requires HoldsFront(pc) && TurnOk(c, s.log, pc)
    requires HasValueInHand(pc) == HasValueInHand(s.pcs[Turn(s.log)])
    requires mutex.Held? <==> HoldsMutex(pc)
    requires mutex.Held? ==> mutex.holder == Turn(s.log)
    ensures Inv(c, s.(mutex := mutex, mutexPoisoned := mutexPoisoned, pcs := s.pcs[Turn(s.log) := pc],
                      shared := s.shared.(queuePoisoned := queuePoisoned)))
  {
    SetPc(s.pcs, s.log, pc);
  }

  /** The call that holds the front decides about its own value. */
  lemma InvSettle(c: Config, s: State, fate: Fate, pc: Pc, mutex: Owner, mutexPoisoned: bool)
    requires Inv(c, s) && Occupied(s.log) && HasValueInHand(s.pcs[Turn(s.log)])
    requires !fate.TakenBy?
    requires HoldsFront(pc) && !HasValueInHand(pc)
    requires TurnOk(c, Settle(s.log, Turn(s.log), ValueInHand(s.pcs[Turn(s.log)]), fate), pc)
    requires mutex.Held? <==> HoldsMutex(pc)
    requires mutex.Held? ==> mutex.holder == Turn(s.log)
    ensures Inv(c, s.(mutex := mutex, mutexPoisoned := mutexPoisoned, pcs := s.pcs[Turn(s.log) := pc],
                      log := Settle(s.log, Turn(s.log), ValueInHand(s.pcs[Turn(s.log)]), fate)))
  {
    var log' := Settle(s.log, Turn(s.log), ValueInHand(s.pcs[Turn(s.log)]), fate);
    SettleLog(c, s.log, ValueInHand(s.pcs[Turn(s.log)]), fate);
    SetPc(s.pcs, log', pc);
    assert CellsOk(s.cells, log') by { SameTurn(s.cells, s.log, log'); }
  }

  lemma SameTurn(cells: map<Id, Cell>, log: Log, log': Log)
    requires CellsOk(cells, log)
    requires log'.exits == log.exits && log'.grants == log.grants && log'.arrivals == log.arrivals
    ensures CellsOk(cells, log')
  {
    forall k | 0 <= k < Granted(log') && k in cells ensures Offered(cells, log', k) {
      assert Offered(cells, log, k);
    }
  }

  /** The later log continues the earlier one. */
  predicate Continues(older: Log, newer: Log) {
    older.grants <= newer.grants && older.fates <= newer.fates && older.exits <= newer.exits
  }

  lemma FitsKept(c: Config, older: Log, newer: Log, k: nat, outcome: Outcome)
    requires Fits(c, older, k, outcome) && Continues(older, newer)
    ensures Fits(c, newer, k, outcome)
  {
    assert newer.grants[k] == older.grants[k] && newer.fates[k] == older.fates[k];
    assert k > 0 ==> newer.exits[k - 1] == older.exits[k - 1];
  }

  lemma ResultsKept(c: Config, older: Log, newer: Log)
    requires ResultsOk(c, older) && Continues(older, newer) && newer.exits == older.exits
    ensures ResultsOk(c, newer)
  {
    forall k | 0 <= k < Turn(newer) ensures Fits(c, newer, k, newer.exits[k].outcome) {
      FitsKept(c, older, newer, k, older.exits[k].outcome);
    }
  }

  lemma SettleLog(c: Config, log: Log, v: Value, fate: Fate)
    requires LogOk(log) && Occupied(log) && InHandOk(log, v) && !fate.TakenBy?
    requires HandoffsOk(log) && FatesOk(log) && ResultsOk(c, log)
    ensures var log' := Settle(log, Turn(log), v, fate);
      LogOk(log') && HandoffsOk(log') && FatesOk(log') && ResultsOk(c, log')
  {
    var log' := Settle(log, Turn(log), v, fate);
    ResultsKept(c, log, log');
  }

  /** Who acts is never in doubt: only the current turn can be beyond `Waiting`. */
  lemma Actor(c: Config, s: State, i: Id)
    requires Inv(c, s) && i < |s.pcs| && !s.pcs[i].Waiting? && !s.pcs[i].Done?
    ensures i == Turn(s.log)
    ensures HoldsFront(s.pcs[i]) <==> Occupied(s.log)
  {
  }

  predicate ByEnvironment(a: Action) {
    a.CallerLock? || a.CallerUnlock? || a.ClearQueuePoison? || a.ClearMutexPoison?
  }

  /** Steps inside a callback, including its end. */
  predicate ByCallback(a: Action) {
    || a.HandlePeek? || a.HandlePop? || a.HandleClear? || a.Unlock? || a.Relock?
    || a.CallbackReturn? || a.CallbackUnwind?
  }

  lemma InvEnvironment(c: Config, s: State, a: Action)
    requires Inv(c, s) && Enabled(s, a) && ByEnvironment(a)
    ensures Inv(c, Apply(c, s, a))
  {
  }

  lemma InvSpurious(c: Config, s: State, i: Id)
    requires Inv(c, s) && Enabled(s, Spurious(i))
    ensures Inv(c, DoSpurious(s, i))
  {
    SetCell(s.cells, s.log, i, s.cells[i].(sleeping := false));
  }

  lemma BitsOfOffer(returned: bool)
    ensures AtFront(OfferedWord(returned)) && !AtFront(0)
    ensures Panicking(OfferedWord(returned)) <==> !returned
    ensures 0 | OfferedWord(returned) == OfferedWord(returned)
  {
  }

  lemma InvWakeCheck(c: Config, s: State, i: Id)
    requires Inv(c, s) && Enabled(s, WakeCheck(i))
    ensures Inv(c, DoWakeCheck(s, i))
  {
    var s' := DoWakeCheck(s, i);
    SetCell(s.cells, s.log, i, Rechecked(s.cells[i]));
    if i == Turn(s.log) {
      BitsOfOffer(s.log.exits[i - 1].outcome.Returned?);
      assert s'.pcs == s.pcs[i := Leaving(Panicking(s.cells[i].word))];
    } else {
      BitsOfOffer(true);
      assert s'.pcs == s.pcs && s'.mutex == s.mutex;
    }
  }

  lemma PopLog(c: Config, log: Log, grant: Grant)
    requires LogOk(log) && !Occupied(log) && Turn(log) < Arrived(log) && grant == Grant(Turn(log), Woken)
    requires HandoffsOk(log) && FatesOk(log) && ResultsOk(c, log)
    ensures var log' := log.(grants := log.grants + [grant]);
      LogOk(log') && HandoffsOk(log') && FatesOk(log') && ResultsOk(c, log')
  {
    var log' := log.(grants := log.grants + [grant]);
    ResultsKept(c, log, log');
  }

  lemma PopCells(cells: map<Id, Cell>, log: Log, grant: Grant)
    requires CellsOk(cells, log) && !Occupied(log) && Turn(log) == Granted(log)
    requires grant == Grant(Turn(log), Woken) && Offered(cells, log, Turn(log))
    ensures CellsOk(cells, log.(grants := log.grants + [grant]))
  {
    var log' := log.(grants := log.grants + [grant]);
    forall k | 0 <= k < Granted(log') && k in cells ensures Offered(cells, log', k) {
      assert Offered(cells, log, k);
    }
  }

  lemma PopQueue(queue: seq<Slot>, log: Log, emptied: nat, grant: Grant)
    requires QueueOk(queue, log, emptied) && Granted(log) < Arrived(log)
    ensures queue[0] == Slot(Granted(log), if emptied > Granted(log) then None else Some(log.arrivals[Granted(log)]))
    ensures QueueOk(queue[1..], log.(grants := log.grants + [grant]), if emptied > Granted(log) then emptied else emptied + 1)
  {
  }

  lemma PopPc(pcs: seq<Pc>, log: Log, grant: Grant, pc: Pc)
    requires LogOk(log) && PcsOk(pcs, log) && !Occupied(log) && Turn(log) < |pcs| && HoldsFront(pc)
    requires grant == Grant(Turn(log), Woken)
    ensures var log', pcs' := log.(grants := log.grants + [grant]), pcs[Turn(log) := pc];
      && LogOk(log')
      && PcsOk(pcs', log')
      && Emptied(log, pcs) == |log.fates|
      && Emptied(log', pcs') == |log.fates| + if HasValueInHand(pc) then 1 else 0
  {
  }

  /** The log after the current turn has popped its task. */
  function Popping(log: Log): Log {
    log.(grants := log.grants + [Grant(Turn(log), Woken)])
  }

  lemma PoppedTurnOk(c: Config, log: Log, cells: map<Id, Cell>, emptied: nat, pc: Pc)
    requires LogOk(log) && FatesOk(log) && !Occupied(log) && Turn(log) < Arrived(log)
    requires Offered(cells, log, Turn(log)) && emptied == |log.fates|
    requires pc == Classified(Classify(
               if emptied > Turn(log) then None else Some(log.arrivals[Turn(log)]),
               Panicking(cells[Turn(log)].word)))
    requires emptied >= Turn(log)
    ensures TurnOk(c, Popping(log), pc)
    ensures HasValueInHand(pc) <==> emptied == Turn(log)
  {
    BitsOfOffer(log.exits[Turn(log) - 1].outcome.Returned?);
  }

  predicate CanPop(s: State) {
    && !Occupied(s.log) && Turn(s.log) < Arrived(s.log) && Turn(s.log) < |s.pcs|
    && s.shared.queue != [] && Offered(s.cells, s.log, Turn(s.log))
  }

  /** How the current turn sees its own task once it has popped it. */
  function PoppedPc(s: State): Pc
    requires CanPop(s)
  {
    var x := Turn(s.log);
    Classified(Classify(if |s.log.fates| > x then None else Some(s.log.arrivals[x]), Panicking(s.cells[x].word)))
  }

  /** The state after the current turn has popped its own task. */
  function AfterPop(s: State): State
    requires CanPop(s)
  {
    s.(shared := Popped(s.shared), pcs := s.pcs[Turn(s.log) := PoppedPc(s)], log := Popping(s.log))
  }

  lemma PopFrontIs(c: Config, s: State, i: Id)
    requires Inv(c, s) && Enabled(s, PopFront(i))
    ensures CanPop(s) && DoPopFront(s, i) == AfterPop(s)
  {
    Actor(c, s, i);
    PopQueue(s.shared.queue, s.log, Emptied(s.log, s.pcs), Grant(i, Woken));
  }

  lemma AfterPopLogOk(c: Config, s: State)
    requires Inv(c, s) && CanPop(s)
    ensures var log' := AfterPop(s).log;
      LogOk(log') && HandoffsOk(log') && FatesOk(log') && ResultsOk(c, log') && TurnOk(c, log', PoppedPc(s))
  {
    PopLog(c, s.log, Grant(Turn(s.log), Woken));
    PoppedTurnOk(c, s.log, s.cells, |s.log.fates|, PoppedPc(s));
  }

  lemma AfterPopPcsOk(c: Config, s: State)
    requires Inv(c, s) && CanPop(s)
    ensures var s' := AfterPop(s);
      && LogOk(s'.log) && PcsOk(s'.pcs, s'.log)
      && (s.pcs[Turn(s.log)].Leaving? ==> MutexOk(s'.mutex, s'.pcs, s'.log))
      && |s.log.fates| >= Turn(s.log)
      && Emptied(s'.log, s'.pcs) == |s.log.fates| + if |s.log.fates| > Turn(s.log) then 0 else 1
  {
    PopPc(s.pcs, s.log, Grant(Turn(s.log), Woken), PoppedPc(s));
  }

  lemma AfterPopQueueOk(c: Config, s: State)
    requires Inv(c, s) && CanPop(s)
    requires var s' := AfterPop(s);
      Emptied(s'.log, s'.pcs) == |s.log.fates| + if |s.log.fates| > Turn(s.log) then 0 else 1
    ensures QueueOk(AfterPop(s).shared.queue, AfterPop(s).log, Emptied(AfterPop(s).log, AfterPop(s).pcs))
  {
    PopQueue(s.shared.queue, s.log, Emptied(s.log, s.pcs), Grant(Turn(s.log), Woken));
  }

  lemma AfterPopCellsOk(c: Config, s: State)
    requires Inv(c, s) && CanPop(s)
    ensures CellsOk(AfterPop(s).cells, AfterPop(s).log)
  {
    PopCells(s.cells, s.log, Grant(Turn(s.log), Woken));
  }

  lemma InvPopFront(c: Config, s: State, i: Id)
    requires Inv(c, s) && Enabled(s, PopFront(i))
    ensures Inv(c, DoPopFront(s, i))
  {
    Actor(c, s, i);
    PopFrontIs(c, s, i);
    AfterPopLogOk(c, s);
    AfterPopPcsOk(c, s);
    AfterPopQueueOk(c, s);
    AfterPopCellsOk(c, s);
  }

  lemma InvQueuePoisonFound(c: Config, s: State, i: Id)
    requires Inv(c, s) && Enabled(s, CheckQueuePoison(i))
    requires c.options.unwrapQueuePoison && s.shared.queuePoisoned
    ensures Inv(c, DoCheckQueuePoison(c, s, i))
  {
    Actor(c, s, i);
    if s.pcs[i].waited.Process? {
      InvSettle(c, s, Discarded, Unwinding(QueuePoison), Free, true);
    } else {
      InvSetPc(c, s, Unwinding(QueuePoison), Free, true, s.shared.queuePoisoned);
    }
  }

  lemma InvCheckQueuePoison(c: Config, s: State, i: Id)
    requires Inv(c, s) && Enabled(s, CheckQueuePoison(i))
    ensures Inv(c, DoCheckQueuePoison(c, s, i))
  {
    if c.options.unwrapQueuePoison && s.shared.queuePoisoned {
      InvQueuePoisonFound(c, s, i);
    } else {
      Actor(c, s, i);
      InvSetPc(c, s, DoCheckQueuePoison(c, s, i).pcs[i], s.mutex, s.mutexPoisoned, s.shared.queuePoisoned);
    }
  }

  lemma InvCheckMutexPoison(c: Config, s: State, i: Id)
    requires Inv(c, s) && Enabled(s, CheckMutexPoison(i))
    ensures Inv(c, DoCheckMutexPoison(c, s, i))
  {
    Actor(c, s, i);
    var s' := DoCheckMutexPoison(c, s, i);
    var fate := s'.log.fates[|s.log.fates|].fate;
    InvSettle(c, s, fate, s'.pcs[i], s'.mutex, s'.mutexPoisoned);
  }

  /** The slot that the handle would look at next is usable. */
  lemma HandleSlot(c: Config, s: State, i: Id)
    requires Inv(c, s) && i < |s.pcs| && InCallback(s.pcs[i])
    ensures i == Turn(s.log) && Occupied(s.log)
    ensures SlotUsable(s, s.pcs[i].nextIdx)
    ensures s.pcs[i].nextIdx == |s.log.fates| - Granted(s.log)
  {
    Actor(c, s, i);
  }

  lemma TakeLog(c: Config, log: Log, n: nat)
    requires LogOk(log) && Occupied(log) && RunningOk(log, n) && |log.fates| < Arrived(log)
    requires HandoffsOk(log) && FatesOk(log) && ResultsOk(c, log)
    ensures var log' := Settle(log, |log.fates|, log.arrivals[|log.fates|], TakenBy(Turn(log)));
      LogOk(log') && HandoffsOk(log') && FatesOk(log') && ResultsOk(c, log') && RunningOk(log', n + 1)
  {
    ResultsKept(c, log, Settle(log, |log.fates|, log.arrivals[|log.fates|], TakenBy(Turn(log))));
    TakeFates(log, n, Settled(|log.fates|, log.arrivals[|log.fates|], TakenBy(Turn(log))));
  }

  lemma TakeFates(log: Log, n: nat, taken: Settled)
    requires FatesOk(log) && RunningOk(log, n) && taken.fate == TakenBy(Turn(log))
    ensures FatesOk(log.(fates := log.fates + [taken]))
  {
    var log' := log.(fates := log.fates + [taken]);
    forall k | 0 <= k < |log'.fates| && log'.fates[k].fate.TakenBy? ensures TakenInOrder(log', k) {
      assert k < |log.fates| && log.fates[k].fate.TakenBy? ==> TakenInOrder(log, k);
    }
  }

  lemma TakeQueue(queue: seq<Slot>, log: Log, f: nat, n: nat, log': Log)
    requires QueueOk(queue, log, f) && f == Granted(log) + n && n < |queue|
    requires log'.arrivals == log.arrivals && log'.grants == log.grants
    ensures QueueOk(queue[n := queue[n].(value := None)], log', f + 1)
  {
  }

  /** The state after `pop` has taken the next value in arrival order. */
  function Taken(s: State, n: nat): State
    requires n < |s.shared.queue| && |s.log.fates| < Arrived(s.log) && Turn(s.log) < |s.pcs|
  {
    var x, f := Turn(s.log), |s.log.fates|;
    s.(shared := TakenAt(s.shared, n),
       pcs := s.pcs[x := Running(n + 1)],
       log := Settle(s.log, f, s.log.arrivals[f], TakenBy(x)))
  }

  lemma HandlePopTakes(c: Config, s: State, i: Id)
    requires Inv(c, s) && Enabled(s, HandlePop(i))
    ensures i == Turn(s.log) && Occupied(s.log) && RunningOk(s.log, s.pcs[i].nextIdx)
    ensures s.pcs[i].nextIdx < |s.shared.queue| <==> |s.log.fates| < Arrived(s.log)
    ensures DoHandlePop(s, i) == if |s.log.fates| < Arrived(s.log) then Taken(s, s.pcs[i].nextIdx) else s
  {
    HandleSlot(c, s, i);
  }

  predicate CanTake(s: State, n: nat) {
    && Occupied(s.log) && Turn(s.log) < |s.pcs| && s.pcs[Turn(s.log)] == Running(n) && RunningOk(s.log, n)
    && |s.log.fates| < Arrived(s.log) && n < |s.shared.queue|
  }

  lemma TakenLogOk(c: Config, s: State, n: nat)
    requires Inv(c, s) && CanTake(s, n)
    ensures var log' := Taken(s, n).log;
      LogOk(log') && HandoffsOk(log') && FatesOk(log') && ResultsOk(c, log') && RunningOk(log', n + 1)
  {
    TakeLog(c, s.log, n);
  }

  lemma TakenSharedOk(c: Config, s: State, n: nat)
    requires Inv(c, s) && CanTake(s, n)
    ensures var s' := Taken(s, n);
      QueueOk(s'.shared.queue, s'.log, |s'.log.fates|) && CellsOk(s'.cells, s'.log)
  {
    TakeQueue(s.shared.queue, s.log, |s.log.fates|, n, Taken(s, n).log);
    SameTurn(s.cells, s.log, Taken(s, n).log);
  }

  lemma TakenPcsOk(c: Config, s: State, n: nat)
    requires Inv(c, s) && CanTake(s, n) && LogOk(Taken(s, n).log)
    ensures var s' := Taken(s, n);
      && PcsOk(s'.pcs, s'.log) && MutexOk(s'.mutex, s'.pcs, s'.log)
      && Emptied(s'.log, s'.pcs) == |s'.log.fates|
  {
    TakePc(s.pcs, s.log, Taken(s, n).log, n + 1);
  }

  lemma InvTaken(c: Config, s: State, n: nat)
    requires Inv(c, s) && CanTake(s, n)
    ensures Inv(c, Taken(s, n))
  {
    TakenLogOk(c, s, n);
    TakenSharedOk(c, s, n);
    TakenPcsOk(c, s, n);
  }

  lemma InvHandlePop(c: Config, s: State, i: Id)
    requires Inv(c, s) && Enabled(s, HandlePop(i))
    ensures Inv(c, DoHandlePop(s, i))
  {
    HandlePopTakes(c, s, i);
    if |s.log.fates| < Arrived(s.log) {
      InvTaken(c, s, s.pcs[i].nextIdx);
    }
  }

  lemma TakePc(pcs: seq<Pc>, log: Log, log': Log, n: nat)
    requires LogOk(log) && LogOk(log') && PcsOk(pcs, log) && Occupied(log) && pcs[Turn(log)].Running?
    requires log'.exits == log.exits && log'.grants == log.grants && log'.arrivals == log.arrivals
    ensures var pcs' := pcs[Turn(log) := Running(n)];
      && PcsOk(pcs', log')
      && Emptied(log', pcs') == |log'.fates|
      && (forall mutex: Owner :: MutexOk(mutex, pcs, log) ==> MutexOk(mutex, pcs', log'))
  {
  }

  lemma InvUnlocking(c: Config, s: State, a: Action)
    requires Inv(c, s) && Enabled(s, a)
    requires a.Unlock? || a.Relock?
    ensures Inv(c, Apply(c, s, a))
  {
    Actor(c, s, a.i);
    var pc := if a.Unlock? then Unlocked(s.pcs[a.i].nextIdx) else Running(s.pcs[a.i].nextIdx);
    var mutex := if a.Unlock? then Free else Held(a.i);
    InvSetPc(c, s, pc, mutex, s.mutexPoisoned || (a.Unlock? && a.panicking), s.shared.queuePoisoned);
  }

  lemma InvCallback(c: Config, s: State, a: Action)
    requires Inv(c, s) && Enabled(s, a)
    requires a.HandleClear? || a.CallbackReturn?
    ensures Inv(c, Apply(c, s, a))
  {
    Actor(c, s, a.i);
    var s' := Apply(c, s, a);
    assert s'.pcs == s.pcs[a.i := s'.pcs[a.i]];
    InvSetPc(c, s, s'.pcs[a.i], s.mutex, s.mutexPoisoned, s'.shared.queuePoisoned);
  }

  lemma InvCallbackUnwind(c: Config, s: State, i: Id, poisons: bool)
    requires Inv(c, s) && Enabled(s, CallbackUnwind(i, poisons))
    ensures Inv(c, DoCallbackUnwind(c, s, i, poisons))
  {
    Actor(c, s, i);
    var s' := DoCallbackUnwind(c, s, i, poisons);
    InvSetPc(c, s, s'.pcs[i], s'.mutex, s'.mutexPoisoned, s.shared.queuePoisoned);
  }

  lemma StartLog(c: Config, log: Log, v: Value, fast: bool)
    requires LogOk(log) && fast == (Turn(log) == Arrived(log))
    requires HandoffsOk(log) && FatesOk(log) && ResultsOk(c, log)
    ensures var log' := Arrive(log, v, fast);
      LogOk(log') && HandoffsOk(log') && FatesOk(log') && ResultsOk(c, log')
  {
    var log' := Arrive(log, v, fast);
    ResultsKept(c, log, log');
  }

  function Arrive(log: Log, v: Value, fast: bool): Log {
    var log' := log.(arrivals := log.arrivals + [v]);
    if fast then log'.(grants := log.grants + [Grant(Arrived(log), Fast)]) else log'
  }

  lemma StartCells(cells: map<Id, Cell>, log: Log, v: Value, fast: bool)
    requires LogOk(log) && CellsOk(cells, log) && fast == (Turn(log) == Arrived(log))
    ensures CellsOk(if fast then cells else cells[Arrived(log) := PARKED], Arrive(log, v, fast))
  {
    var log', cells' := Arrive(log, v, fast), if fast then cells else cells[Arrived(log) := PARKED];
    forall k | 0 <= k < Granted(log') && k in cells' ensures Offered(cells', log', k) {
      assert Offered(cells, log, k);
    }
  }

  lemma StartQueue(queue: seq<Slot>, log: Log, emptied: nat, v: Value)
    requires LogOk(log) && QueueOk(queue, log, emptied)
    ensures QueueOk(queue + [Slot(Arrived(log), Some(v))], Arrive(log, v, false), emptied)
  {
  }

  lemma InvStart(c: Config, s: State, v: Value)
    requires Inv(c, s) && Enabled(s, Start(v))
    ensures Inv(c, DoStart(s, v))
  {
    StartLog(c, s.log, v, CanAcquire(s.shared));
    StartCells(s.cells, s.log, v, CanAcquire(s.shared));
    if CanAcquire(s.shared) {
      InvStartFast(c, s, v);
    } else {
      InvStartSlow(c, s, v);
    }
  }

  lemma InvStartFast(c: Config, s: State, v: Value)
    requires Inv(c, s) && Enabled(s, Start(v)) && CanAcquire(s.shared)
    requires var log' := Arrive(s.log, v, true);
      LogOk(log') && HandoffsOk(log') && FatesOk(log') && ResultsOk(c, log') && CellsOk(s.cells, log')
    ensures Inv(c, DoStart(s, v))
  {
    var s' := DoStart(s, v);
    assert s'.log == Arrive(s.log, v, true);
    FastTurn(s.pcs, s.log, v);
    assert QueueOk(s'.shared.queue, s'.log, Emptied(s'.log, s'.pcs));
  }

  lemma InvStartSlow(c: Config, s: State, v: Value)
    requires Inv(c, s) && Enabled(s, Start(v)) && !CanAcquire(s.shared)
    requires var log' := Arrive(s.log, v, false);
      && LogOk(log') && HandoffsOk(log') && FatesOk(log') && ResultsOk(c, log')
      && CellsOk(s.cells[Arrived(s.log) := PARKED], log')
    ensures Inv(c, DoStart(s, v))
  {
    var s' := DoStart(s, v);
    assert s'.log == Arrive(s.log, v, false);
    StartQueue(s.shared.queue, s.log, Emptied(s.log, s.pcs), v);
    StartTurn(c, s.log, v, s.pcs);
    StartOffer(s.cells, s.pcs, s.log, v);
  }

  lemma StartOffer(cells: map<Id, Cell>, pcs: seq<Pc>, log: Log, v: Value)
    requires LogOk(log) && PcsOk(pcs, log) && OfferOk(cells, pcs, log) && Turn(log) < Arrived(log)
    ensures OfferOk(cells[Arrived(log) := PARKED], pcs + [Waiting], Arrive(log, v, false))
  {
  }

  lemma FastTurn(pcs: seq<Pc>, log: Log, v: Value)
    requires LogOk(log) && PcsOk(pcs, log) && Turn(log) == |pcs|
    ensures PcsOk(pcs + [Ready(v)], Arrive(log, v, true))
    ensures Emptied(Arrive(log, v, true), pcs + [Ready(v)]) == |log.fates| + 1
  {
  }

  lemma StartTurn(c: Config, log: Log, v: Value, pcs: seq<Pc>)
    requires LogOk(log) && PcsOk(pcs, log) && Turn(log) < Arrived(log)
    ensures PcsOk(pcs + [Waiting], Arrive(log, v, false))
    ensures Emptied(Arrive(log, v, false), pcs + [Waiting]) == Emptied(log, pcs)
    ensures Occupied(log) && TurnOk(c, log, pcs[Turn(log)]) ==>
              TurnOk(c, Arrive(log, v, false), pcs[Turn(log)])
  {
  }

  function Leave(log: Log, outcome: Outcome): Log {
    var x := Turn(log);
    log.(exits := log.exits + [Exit(x, outcome, if x + 1 < Arrived(log) then Transferred(x + 1) else Released)])
  }

  lemma ExitLog(c: Config, log: Log, outcome: Outcome)
    requires LogOk(log) && Occupied(log) && Fits(c, log, Turn(log), outcome)
    requires HandoffsOk(log) && FatesOk(log) && ResultsOk(c, log)
    ensures var log' := Leave(log, outcome);
      LogOk(log') && HandoffsOk(log') && FatesOk(log') && ResultsOk(c, log')
  {
    ExitResults(c, log, outcome);
  }

  lemma ExitResults(c: Config, log: Log, outcome: Outcome)
    requires Fits(c, log, Turn(log), outcome) && ResultsOk(c, log)
    ensures ResultsOk(c, Leave(log, outcome))
  {
    var log' := Leave(log, outcome);
    forall k | 0 <= k < Turn(log') ensures Fits(c, log', k, log'.exits[k].outcome) {
      FitsKept(c, log, log', k, if k < Turn(log) then log.exits[k].outcome else outcome);
    }
  }

  lemma ExitCells(cells: map<Id, Cell>, log: Log, outcome: Outcome)
    requires LogOk(log) && Occupied(log) && CellsOk(cells, log)
    ensures var x := Turn(log) + 1;
      var returned := outcome.Returned?;
      x in cells ==>
        var cells' := cells[x := Notified(cells[x], OfferedWord(returned))];
        CellsOk(cells', Leave(log, outcome)) && Offered(cells', Leave(log, outcome), x) && !cells'[x].sleeping
    ensures Turn(log) + 1 !in cells ==> CellsOk(cells, Leave(log, outcome))
  {
    var x, log' := Turn(log) + 1, Leave(log, outcome);
    BitsOfOffer(outcome.Returned?);
    var cells' := if x in cells then cells[x := Notified(cells[x], OfferedWord(outcome.Returned?))] else cells;
    forall k | 0 <= k < Granted(log') && k in cells' ensures Offered(cells', log', k) {
      assert Offered(cells, log, k);
    }
  }

  /** The state after the current turn has left, where `x + 1` is the head if anybody is. */
  function Departed(s: State, outcome: Outcome, mutex: Owner): State
    requires Turn(s.log) < |s.pcs|
  {
    var x := Turn(s.log);
    s.(mutex := mutex,
       shared := s.shared.(frontLocked := x + 1 < Arrived(s.log)),
       cells := if x + 1 in s.cells
                then s.cells[x + 1 := Notified(s.cells[x + 1], OfferedWord(outcome.Returned?))] else s.cells,
       pcs := s.pcs[x := Done(outcome)],
       log := Leave(s.log, outcome))
  }

  lemma DepartIs(c: Config, s: State, i: Id, outcome: Outcome, mutex: Owner)
    requires Inv(c, s) && Occupied(s.log) && i == Turn(s.log)
    ensures Depart(s, i, outcome).(mutex := mutex) == Departed(s, outcome, mutex)
  {
  }

  lemma InvDeparted(c: Config, s: State, outcome: Outcome, mutex: Owner)
    requires Inv(c, s) && Occupied(s.log) && !mutex.Held?
    requires Fits(c, s.log, Turn(s.log), outcome) && !HasValueInHand(s.pcs[Turn(s.log)])
    ensures Inv(c, Departed(s, outcome, mutex))
  {
    var s' := Departed(s, outcome, mutex);
    ExitLog(c, s.log, outcome);
    ExitPcs(s.pcs, s.log, outcome);
    ExitCells(s.cells, s.log, outcome);
    ExitQueue(s.shared.queue, s.log, |s.log.fates|, outcome);
    assert Emptied(s'.log, s'.pcs) == |s.log.fates|;
  }

  lemma ExitQueue(queue: seq<Slot>, log: Log, emptied: nat, outcome: Outcome)
    requires QueueOk(queue, log, emptied)
    ensures QueueOk(queue, Leave(log, outcome), emptied)
  {
  }

  lemma InvDepart(c: Config, s: State, i: Id, outcome: Outcome, mutex: Owner)
    requires Inv(c, s) && Occupied(s.log) && i == Turn(s.log) && !mutex.Held?
    requires Fits(c, s.log, i, outcome) && !HasValueInHand(s.pcs[i])
    ensures Inv(c, Depart(s, i, outcome).(mutex := mutex))
  {
    DepartIs(c, s, i, outcome, mutex);
    InvDeparted(c, s, outcome, mutex);
  }

  lemma ExitPcs(pcs: seq<Pc>, log: Log, outcome: Outcome)
    requires LogOk(log) && Occupied(log) && PcsOk(pcs, log) && !HasValueInHand(pcs[Turn(log)])
    ensures var log', pcs' := Leave(log, outcome), pcs[Turn(log) := Done(outcome)];
      && LogOk(log')
      && PcsOk(pcs', log')
      && Emptied(log, pcs) == |log.fates| == Emptied(log', pcs')
      && MutexOk(Free, pcs', log') && MutexOk(Caller, pcs', log')
  {
  }

  lemma InvExitOk(c: Config, s: State, i: Id)
    requires Inv(c, s) && Enabled(s, ExitOk(i))
    ensures Inv(c, DoExitOk(s, i))
  {
    Actor(c, s, i);
    InvDepart(c, s, i, Returned(s.pcs[i].result), Caller);
  }

  lemma InvPoisoned(c: Config, s: State)
    requires Inv(c, s)
    ensures Inv(c, s.(shared := s.shared.(queuePoisoned := true)))
  {
  }

  /** An unwinding call is allowed to leave as it does. */
  lemma UnwindingFits(c: Config, s: State, i: Id)
    requires Inv(c, s) && i < |s.pcs| && s.pcs[i].Unwinding?
    ensures i == Turn(s.log) && Occupied(s.log) && Fits(c, s.log, i, Unwound(s.pcs[i].cause))
  {
    Actor(c, s, i);
  }

  lemma InvExitErr(c: Config, s: State, i: Id)
    requires Inv(c, s) && Enabled(s, ExitErr(i))
    ensures Inv(c, DoExitErr(s, i))
  {
    var poisoned := s.(shared := s.shared.(queuePoisoned := true));
    UnwindingFits(c, s, i);
    InvPoisoned(c, s);
    InvDepart(c, poisoned, i, Unwound(s.pcs[i].cause), Free);
    assert DoExitErr(s, i) == Depart(poisoned, i, Unwound(s.pcs[i].cause)).(mutex := Free);
  }

  // --- Every action, every run ----------------------------------------------------------------

  lemma InvCallbackStep(c: Config, s: State, a: Action)
    requires Inv(c, s) && Enabled(s, a) && ByCallback(a)
    ensures Inv(c, Apply(c, s, a))
  {
    if a.HandlePeek? {
      HandleSlot(c, s, a.i);
    } else if a.HandlePop? {
      InvHandlePop(c, s, a.i);
    } else if a.CallbackUnwind? {
      InvCallbackUnwind(c, s, a.i, a.poisons);
    } else if a.Unlock? || a.Relock? {
      InvUnlocking(c, s, a);
    } else {
      InvCallback(c, s, a);
    }
  }

  lemma InvHandOver(c: Config, s: State, a: Action)
    requires Inv(c, s) && Enabled(s, a) && !ByEnvironment(a) && !ByCallback(a)
    ensures Inv(c, Apply(c, s, a))
  {
    match a
    case Start(v) => InvStart(c, s, v);
    case Spurious(i) => InvSpurious(c, s, i);
    case WakeCheck(i) => InvWakeCheck(c, s, i);
    case PopFront(i) => InvPopFront(c, s, i);
    case CheckQueuePoison(i) => InvCheckQueuePoison(c, s, i);
    case CheckMutexPoison(i) => InvCheckMutexPoison(c, s, i);
    case ExitOk(i) => InvExitOk(c, s, i);
    case ExitErr(i) => InvExitErr(c, s, i);
  }

  lemma InvStep(c: Config, s: State, a: Action)
    requires Inv(c, s) && Enabled(s, a)
    ensures Inv(c, Apply(c, s, a))
  {
    if ByEnvironment(a) {
      InvEnvironment(c, s, a);
    } else if ByCallback(a) {
      InvCallbackStep(c, s, a);
    } else {
      InvHandOver(c, s, a);
    }
  }

  lemma {:induction false} InvRun(c: Config, s: State, run: seq<Action>)
    requires Inv(c, s) && Legal(c, s, run)
    ensures Inv(c, Exec(c, s, run))
    decreases |run|
  {
    if run != [] {
      InvStep(c, s, run[0]);
      InvRun(c, Apply(c, s, run[0]), run[1..]);
    }
  }

  lemma ReachableInv(c: Config, s: State)
    requires Reachable(c, s)
    ensures Inv(c, s)
  {
    var run :| Legal(c, Init(), run) && Exec(c, Init(), run) == s;
    InvRun(c, Init(), run);
  }
}
