/**
 * The settlement gate of one logical write (crates/easycon-controller/src/transport.rs).
 *
 * A gate may hold two one-shot reservations. Each is answered by somebody else's record while the
 * gate lock is held, so a transition takes that answer as an argument.
 */
module WriteGate {
  import opened Wrappers

  datatype Phase =
    | NotDispatched
    | DispatchRejected
    | Outstanding
    | FullAcceptedReserved
    | FullAcceptanceRejected
    | SettlingNonFull
    | Settled

  datatype Outcome = FullAccepted | NotDeliveredStreamSettled(error: nat) | CleanupFailed(cleanup: nat)

  datatype Gate = Gate(
    phase: Phase,
    outcome: Option<Outcome>,
    acceptedAtNs: Option<nat>,
    dispatchReservation: bool,
    fullReservation: bool,
    hook: bool)

  function Tracked(dispatchReservation: bool, fullReservation: bool, hook: bool): Gate {
    Gate(NotDispatched, None, None, dispatchReservation, fullReservation, hook)
  }

  // Whether a call consults the reservation it would consume.
  predicate AsksDispatch(g: Gate) {
    g.phase == NotDispatched && g.dispatchReservation
  }

  predicate AsksFull(g: Gate) {
    g.phase == Outstanding && g.fullReservation
  }

  predicate Dispatches(g: Gate, answer: bool) {
    g.phase == NotDispatched && (g.dispatchReservation ==> answer)
  }

  function MarkDispatched(g: Gate, answer: bool): Gate {
    if g.phase != NotDispatched then g
    else if g.dispatchReservation && !answer
    then g.(dispatchReservation := false, phase := DispatchRejected)
    else g.(dispatchReservation := false, phase := Outstanding)
  }

  predicate Reserves(g: Gate, answer: bool) {
    g.phase == Outstanding && (g.fullReservation ==> answer)
  }

  function ReserveFullAcceptance(g: Gate, answer: bool): Gate {
    if g.phase != Outstanding then g
    else if g.fullReservation && !answer
    then g.(fullReservation := false, phase := FullAcceptanceRejected)
    else g.(fullReservation := false, phase := FullAcceptedReserved)
  }

  function Publish(g: Gate, acceptedAtNs: nat): Gate {
    if g.phase != FullAcceptedReserved then g
    else g.(acceptedAtNs := Some(acceptedAtNs), phase := Settled, outcome := Some(FullAccepted), hook := false)
  }

  function BeginNonFull(g: Gate): Gate {
    if g.phase != Outstanding && g.phase != FullAcceptanceRejected then g
    else g.(phase := SettlingNonFull)
  }

  // `not_delivered_stream_settled` and `cleanup_failed`.
  function SettleNonFull(g: Gate, outcome: Outcome): Gate {
    if g.phase != SettlingNonFull then g
    else g.(phase := Settled, outcome := Some(outcome), acceptedAtNs := None, hook := false)
  }

  predicate IsFullAccepted(g: Gate) {
    g.phase == FullAcceptedReserved || g.outcome == Some(FullAccepted)
  }

  // Whether a publish or settle call hands the outcome to an installed hook.
  predicate RunsHook(before: Gate, after: Gate) {
    before.hook && !after.hook
  }

  // ---- Every order of calls, with any answer from the reservations ---------------------------

  datatype Call =
    | DoDispatch(answer: bool)
    | DoReserve(answer: bool)
    | DoPublish(acceptedAtNs: nat)
    | DoBeginNonFull
    | DoSettle(outcome: Outcome)

  function Step(g: Gate, c: Call): Gate {
    match c
    case DoDispatch(answer) => MarkDispatched(g, answer)
    case DoReserve(answer) => ReserveFullAcceptance(g, answer)
    case DoPublish(at) => Publish(g, at)
    case DoBeginNonFull => BeginNonFull(g)
    case DoSettle(o) => if o.FullAccepted? then g else SettleNonFull(g, o)
  }

  function Run(g: Gate, calls: seq<Call>): Gate
    decreases calls
  {
    if calls == [] then g else Run(Step(g, calls[0]), calls[1..])
  }

  function HookRuns(g: Gate, calls: seq<Call>): nat
    decreases calls
  {
    if calls == [] then 0
    else (if RunsHook(g, Step(g, calls[0])) then 1 else 0) + HookRuns(Step(g, calls[0]), calls[1..])
  }

  predicate WellFormed(g: Gate) {
    && (g.outcome.Some? <==> g.phase == Settled)
    && (g.acceptedAtNs.Some? <==> g.outcome == Some(FullAccepted))
    && (g.dispatchReservation ==> g.phase == NotDispatched)
    && (g.fullReservation ==> g.phase in {NotDispatched, DispatchRejected, Outstanding, SettlingNonFull, Settled})
    && (g.phase == Settled ==> !g.hook)
  }

  // A settled gate is final, an accepted one can only settle as accepted, and a rejected
  // acceptance can never be upgraded by a duplicate completion.
  lemma {:induction false} GateIsFinal(g: Gate, calls: seq<Call>)
    requires WellFormed(g)
    ensures var r := Run(g, calls);
            && WellFormed(r)
            && (g.phase == Settled ==> r == g)
            && (IsFullAccepted(g) ==> IsFullAccepted(r))
            && (g.phase in {FullAcceptanceRejected, SettlingNonFull, DispatchRejected} ==> !IsFullAccepted(r))
    ensures HookRuns(g, calls) == if RunsHook(g, Run(g, calls)) then 1 else 0
    decreases calls
  {
    if calls != [] {
      GateIsFinal(Step(g, calls[0]), calls[1..]);
    }
  }

  // The gate object, each method one critical section of its mutex.
  class WriteSettlement {
    var phase: Phase
    var outcome: Option<Outcome>
    var acceptedAtNs: Option<nat>
    var dispatchReservation: bool
    var fullReservation: bool
    var hook: bool

    function View(): Gate
      reads this
    {
      Gate(phase, outcome, acceptedAtNs, dispatchReservation, fullReservation, hook)
    }

    constructor (dispatchReservation: bool, fullReservation: bool, hook: bool)
      ensures View() == Tracked(dispatchReservation, fullReservation, hook)
    {
      phase, outcome, acceptedAtNs := NotDispatched, None, None;
      this.dispatchReservation, this.fullReservation, this.hook := dispatchReservation, fullReservation, hook;
    }

    // `answer` is what the taken reservation would return; it is read only when there is one.
    method Dispatch(answer: bool) returns (dispatched: bool)
      modifies this
      ensures View() == MarkDispatched(old(View()), answer)
      ensures dispatched == Dispatches(old(View()), answer)
    {
      if phase != NotDispatched { return false; }
      var reservation := dispatchReservation;
      dispatchReservation := false;
      if reservation && !answer {
        phase := DispatchRejected;
        return false;
      }
      phase := Outstanding;
      return true;
    }

    method Reserve(answer: bool) returns (reserved: bool)
      modifies this
      ensures View() == ReserveFullAcceptance(old(View()), answer)
      ensures reserved == Reserves(old(View()), answer)
    {
      if phase != Outstanding { return false; }
      var reservation := fullReservation;
      fullReservation := false;
      if reservation && !answer {
        phase := FullAcceptanceRejected;
        return false;
      }
      phase := FullAcceptedReserved;
      return true;
    }

    method PublishReserved(atNs: nat) returns (published: bool, runHook: bool)
      modifies this
      ensures View() == Publish(old(View()), atNs)
      ensures published == (old(phase) == FullAcceptedReserved)
      ensures runHook == RunsHook(old(View()), View())
    {
      if phase != FullAcceptedReserved { return false, false; }
      acceptedAtNs, phase, outcome := Some(atNs), Settled, Some(FullAccepted);
      published, runHook := true, hook;
      hook := false;
    }

    method StartNonFull() returns (started: bool)
      modifies this
      ensures View() == BeginNonFull(old(View()))
      ensures started == (old(phase) in {Outstanding, FullAcceptanceRejected})
    {
      if phase != Outstanding && phase != FullAcceptanceRejected { return false; }
      phase := SettlingNonFull;
      return true;
    }

    method Complete(result: Outcome) returns (completed: bool, runHook: bool)
      requires !result.FullAccepted?
      modifies this
      ensures View() == SettleNonFull(old(View()), result)
      ensures completed == (old(phase) == SettlingNonFull)
      ensures runHook == RunsHook(old(View()), View())
    {
      if phase != SettlingNonFull { return false, false; }
      phase, outcome, acceptedAtNs := Settled, Some(result), None;
      completed, runHook := true, hook;
      hook := false;
    }

    method FullAcceptedOutcome() returns (accepted: bool)
      ensures accepted == IsFullAccepted(View())
    {
      accepted := phase == FullAcceptedReserved || outcome == Some(FullAccepted);
    }
  }
}
