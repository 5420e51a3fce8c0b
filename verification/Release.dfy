/**
 * The record a lease release waits on, and who answers for resource close
 * (crates/easycon-controller/src/session.rs, `ReleaseRecord`).
 */
module Release {
  import opened Wrappers

  type Error = nat

  datatype Outcome = NeutralAccepted | NotDeliveredStreamSettled(error: Error) | CleanupFailure(cleanup: Error)

  datatype Phase =
    | Undispatched(closeAcquired: bool)
    | Outstanding(closeAcquired: bool)
    | GateClaimed(closeAcquiredBeforeClaim: bool)
    | Committed(closeConsumed: bool, outcome: Outcome)

  function BeginNeutral(p: Phase): Phase
    requires p.Undispatched?
  {
    Outstanding(p.closeAcquired)
  }

  function ReserveFullAccepted(p: Phase): Phase {
    if p.Outstanding? then GateClaimed(p.closeAcquired) else p
  }

  function RequestClose(p: Phase): Phase {
    match p
    case Undispatched(_) => Undispatched(true)
    case Outstanding(_) => Outstanding(true)
    case _ => p
  }

  predicate CloseAnswer(p: Phase) {
    match p
    case Undispatched(_) => true
    case Outstanding(_) => true
    case GateClaimed(before) => before
    case Committed(consumed, _) => consumed
  }

  predicate Interrupts(p: Phase) {
    p.Outstanding? && !p.closeAcquired
  }

  predicate Acquired(p: Phase) {
    match p
    case Undispatched(c) => c
    case Outstanding(c) => c
    case GateClaimed(c) => c
    case Committed(c, _) => c
  }

  function Complete(p: Phase, outcome: Outcome): Phase {
    if p.Committed? then p else Committed(Acquired(p), outcome)
  }

  predicate CompleteAnswer(p: Phase) {
    !p.Committed? && Acquired(p)
  }

  class ReleaseRecord {
    var phase: Phase
    var cancelled: bool

    constructor ()
      ensures phase == Undispatched(false) && !cancelled
    {
      phase, cancelled := Undispatched(false), false;
    }

    // The neutral write uses the record's own token unless close already owns the record.
    method Begin() returns (closeOwned: bool)
      requires phase.Undispatched?
      modifies this`phase
      ensures phase == BeginNeutral(old(phase)) && closeOwned == Acquired(old(phase))
    {
      closeOwned := phase.closeAcquired;
      phase := Outstanding(closeOwned);
    }

    method Reserve() returns (reserved: bool)
      modifies this`phase
      ensures phase == ReserveFullAccepted(old(phase)) && reserved == old(phase).Outstanding?
    {
      if !phase.Outstanding? { return false; }
      phase := GateClaimed(phase.closeAcquired);
      return true;
    }

    method RequestCloseInterrupt() returns (closeConsumed: bool)
      modifies this
      ensures phase == RequestClose(old(phase)) && closeConsumed == CloseAnswer(old(phase))
      ensures cancelled == (old(cancelled) || Interrupts(old(phase)))
    {
      var interrupt := false;
      match phase {
        case Undispatched(_) =>
          phase := Undispatched(true);
          closeConsumed := true;
        case Outstanding(acquired) =>
          interrupt := !acquired;
          phase := Outstanding(true);
          closeConsumed := true;
        case GateClaimed(before) => closeConsumed := before;
        case Committed(consumed, _) => closeConsumed := consumed;
      }
      if interrupt {
        cancelled := true;
      }
    }

    method CompleteWith(outcome: Outcome) returns (closeConsumed: bool)
      modifies this`phase
      ensures phase == Complete(old(phase), outcome) && closeConsumed == CompleteAnswer(old(phase))
    {
      match phase {
        case Undispatched(acquired) => closeConsumed := acquired;
        case Outstanding(acquired) => closeConsumed := acquired;
        case GateClaimed(before) => closeConsumed := before;
        case Committed(_, _) => return false;
      }
      phase := Committed(closeConsumed, outcome);
    }
  }

  // ---- Every interleaving of the record's callers ------------------------------------------------

  datatype Call = DoBegin | DoReserve | DoRequestClose | DoComplete(outcome: Outcome)

  // What a call was told: dispatching learns whether close owns the record, a close request and a
  // completion learn whether close consumed it.
  datatype Event =
    | Began(closeOwned: bool)
    | Claimed
    | CloseTold(consumed: bool, interrupted: bool)
    | CompletedFirst(closeConsumed: bool)
    | Nothing

  function Step(p: Phase, c: Call): Phase {
    match c
    case DoBegin => if p.Undispatched? then BeginNeutral(p) else p
    case DoReserve => ReserveFullAccepted(p)
    case DoRequestClose => RequestClose(p)
    case DoComplete(o) => Complete(p, o)
  }

  function Seen(p: Phase, c: Call): Event {
    match c
    case DoBegin => if p.Undispatched? then Began(Acquired(p)) else Nothing
    case DoReserve => if p.Outstanding? then Claimed else Nothing
    case DoRequestClose => CloseTold(CloseAnswer(p), Interrupts(p))
    case DoComplete(_) => if p.Committed? then Nothing else CompletedFirst(CompleteAnswer(p))
  }

  function Run(p: Phase, calls: seq<Call>): Phase
    decreases calls
  {
    if calls == [] then p else Run(Step(p, calls[0]), calls[1..])
  }

  function Log(p: Phase, calls: seq<Call>): seq<Event>
    decreases calls
  {
    if calls == [] then [] else [Seen(p, calls[0])] + Log(Step(p, calls[0]), calls[1..])
  }

  /**
   * The ordering rule, said without the record. Close and the release race to a single freezing
   * point: the gate's claim of the final byte or, if that never happens, the first completion.
   * `closed` says whether some close request came before it; from then on everybody is told that.
   * The write is interrupted by the first close request that finds it dispatched and not frozen,
   * and only if no earlier request had already taken the record.
   */
  ghost predicate Ordered(closed: bool, dispatched: bool, frozen: bool, log: seq<Event>)
    decreases log
  {
    log == [] ||
    match log[0]
    case Began(owned) => !frozen && !dispatched && owned == closed && Ordered(closed, true, false, log[1..])
    case Claimed => !frozen && dispatched && Ordered(closed, dispatched, true, log[1..])
    case CloseTold(consumed, interrupted) =>
      if frozen then consumed == closed && !interrupted && Ordered(closed, dispatched, true, log[1..])
      else consumed && interrupted == (dispatched && !closed) && Ordered(true, dispatched, false, log[1..])
    case CompletedFirst(consumed) => consumed == closed && Ordered(closed, dispatched, true, log[1..])
    case Nothing => Ordered(closed, dispatched, frozen, log[1..])
  }

  lemma {:induction false} LogIsOrdered(p: Phase, dispatched: bool, calls: seq<Call>)
    requires p.Undispatched? ==> !dispatched
    requires p.Outstanding? ==> dispatched
    ensures Ordered(Acquired(p), dispatched, p.GateClaimed? || p.Committed?, Log(p, calls))
    decreases calls
  {
    if calls != [] {
      var log := Log(p, calls);
      var next := Step(p, calls[0]);
      LogIsOrdered(next, dispatched || (calls[0].DoBegin? && p.Undispatched?), calls[1..]);
      assert log[0] == Seen(p, calls[0]) && log[1..] == Log(next, calls[1..]);
    }
  }

  // Close ordering is frozen at the gate, over all interleavings.
  lemma {:induction false} CloseOrderingIsFrozen(calls: seq<Call>)
    ensures Ordered(false, false, false, Log(Undispatched(false), calls))
  {
    LogIsOrdered(Undispatched(false), false, calls);
  }

  function Interruptions(log: seq<Event>): nat {
    if log == [] then 0 else (if log[0].CloseTold? && log[0].interrupted then 1 else 0) + Interruptions(log[1..])
  }

  lemma {:induction false} OrderedInterruptsOnce(closed: bool, dispatched: bool, frozen: bool, log: seq<Event>)
    requires Ordered(closed, dispatched, frozen, log)
    ensures Interruptions(log) <= if closed then 0 else 1
    decreases log
  {
    if log != [] {
      match log[0]
      case Began(_) => OrderedInterruptsOnce(closed, true, false, log[1..]);
      case Claimed => OrderedInterruptsOnce(closed, dispatched, true, log[1..]);
      case CloseTold(_, _) =>
        OrderedInterruptsOnce(if frozen then closed else true, dispatched, frozen, log[1..]);
      case CompletedFirst(_) => OrderedInterruptsOnce(closed, dispatched, true, log[1..]);
      case Nothing => OrderedInterruptsOnce(closed, dispatched, frozen, log[1..]);
    }
  }

  // The neutral write is interrupted at most once in any run.
  lemma {:induction false} InterruptedAtMostOnce(calls: seq<Call>)
    ensures Interruptions(Log(Undispatched(false), calls)) <= 1
  {
    CloseOrderingIsFrozen(calls);
    OrderedInterruptsOnce(false, false, false, Log(Undispatched(false), calls));
  }

  // Once frozen, the first completion and every later close request are told the same thing.
  lemma {:induction false} FrozenAgrees(closed: bool, dispatched: bool, log: seq<Event>, i: nat)
    requires Ordered(closed, dispatched, true, log)
    requires i < |log|
    ensures log[i].CloseTold? ==> log[i].consumed == closed
    ensures log[i].CompletedFirst? ==> log[i].closeConsumed == closed
    decreases log
  {
    if i > 0 {
      FrozenAgrees(closed, dispatched, log[1..], i - 1);
    }
  }

  // Where the order was frozen: the gate's claim or, without one, the first completion.
  function FreezePoint(log: seq<Event>): (f: nat)
    ensures f <= |log|
    ensures f < |log| ==> log[f].Claimed? || log[f].CompletedFirst?
    ensures forall i :: 0 <= i < f ==> !log[i].Claimed? && !log[i].CompletedFirst?
  {
    if log == [] || log[0].Claimed? || log[0].CompletedFirst? then 0 else 1 + FreezePoint(log[1..])
  }

  ghost predicate ClosedBefore(log: seq<Event>, f: nat)
    requires f <= |log|
  {
    exists k :: 0 <= k < f && log[k].CloseTold?
  }

  lemma {:induction false} OrderedAnswers(closed: bool, dispatched: bool, log: seq<Event>, i: nat)
    requires Ordered(closed, dispatched, false, log)
    requires FreezePoint(log) <= i < |log|
    ensures log[i].CloseTold? ==> (log[i].consumed <==> closed || ClosedBefore(log, FreezePoint(log)))
    ensures log[i].CompletedFirst? ==> (log[i].closeConsumed <==> closed || ClosedBefore(log, FreezePoint(log)))
    decreases log
  {
    var f := FreezePoint(log);
    if f == 0 {
      if i > 0 { FrozenAgrees(closed, dispatched, log[1..], i - 1); }
    } else {
      var rest := log[1..];
      var closed' := closed || log[0].CloseTold?;
      OrderedAnswers(closed', dispatched || log[0].Began?, rest, i - 1);
      assert f == 1 + FreezePoint(rest);
      if ClosedBefore(rest, f - 1) {
        var k :| 0 <= k < f - 1 && rest[k].CloseTold?;
        assert log[k + 1].CloseTold?;
      }
      if ClosedBefore(log, f) && !log[0].CloseTold? {
        var k :| 0 <= k < f && log[k].CloseTold?;
        assert rest[k - 1].CloseTold?;
      }
    }
  }

  // The first completion and every close request from the freezing point on are told the same
  // thing: whether some close request came before that point.
  lemma {:induction false} AnswersSayWhoCameFirst(calls: seq<Call>, i: nat)
    requires var log := Log(Undispatched(false), calls); FreezePoint(log) <= i < |log|
    ensures var log := Log(Undispatched(false), calls);
            var closeFirst := ClosedBefore(log, FreezePoint(log));
            && (log[i].CompletedFirst? ==> (log[i].closeConsumed <==> closeFirst))
            && (log[i].CloseTold? ==> (log[i].consumed <==> closeFirst))
  {
    CloseOrderingIsFrozen(calls);
    OrderedAnswers(false, false, Log(Undispatched(false), calls), i);
  }

  // The outcome of a committed record never changes.
  lemma {:induction false} CommittedStays(p: Phase, calls: seq<Call>)
    requires p.Committed?
    ensures Run(p, calls) == p
    decreases calls
  {
    if calls != [] {
      CommittedStays(Step(p, calls[0]), calls[1..]);
    }
  }
}
