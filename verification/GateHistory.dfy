/**
 * What a write gate comes to, told from the calls it was given (crates/easycon-controller/src/transport.rs): the
 * first call of each kind that finds its turn decides, and everything else has no effect.
 */
module GateHistory {
  import opened Wrappers
  import opened WriteGate

  // The place of the first call of a kind; |calls| if there is none.
  datatype Kind = Dispatching | Deciding | Failing | Publishing | Settling

  predicate Of(c: Call, k: Kind) {
    match k
    case Dispatching => c.DoDispatch?
    case Deciding => c.DoReserve? || c.DoBeginNonFull?
    case Failing => c.DoBeginNonFull?
    case Publishing => c.DoPublish?
    case Settling => c.DoSettle? && !c.outcome.FullAccepted?
  }

  function First(calls: seq<Call>, k: Kind): (i: nat)
    ensures i <= |calls|
    ensures i < |calls| ==> Of(calls[i], k)
    ensures forall j :: 0 <= j < i ==> !Of(calls[j], k)
  {
    if calls == [] || Of(calls[0], k) then 0 else 1 + First(calls[1..], k)
  }

  // Where the gate is after the calls, and with what outcome and time.
  datatype Status = Status(phase: Phase, outcome: Option<Outcome>, time: Option<nat>)

  function FromSettling(calls: seq<Call>): Status {
    var i := First(calls, Settling);
    if i == |calls| then Status(SettlingNonFull, None, None) else Status(Settled, Some(calls[i].outcome), None)
  }

  function FromReserved(calls: seq<Call>): Status {
    var i := First(calls, Publishing);
    if i == |calls| then Status(FullAcceptedReserved, None, None)
    else Status(Settled, Some(FullAccepted), Some(calls[i].acceptedAtNs))
  }

  function FromRejected(calls: seq<Call>): Status {
    var i := First(calls, Failing);
    if i == |calls| then Status(FullAcceptanceRejected, None, None) else FromSettling(calls[i + 1..])
  }

  // Acceptance and failure race for an outstanding gate; the first to come decides.
  function FromOutstanding(fullReservation: bool, calls: seq<Call>): Status {
    var i := First(calls, Deciding);
    if i == |calls| then Status(Outstanding, None, None)
    else if calls[i].DoBeginNonFull? then FromSettling(calls[i + 1..])
    else if fullReservation && !calls[i].answer then FromRejected(calls[i + 1..])
    else FromReserved(calls[i + 1..])
  }

  function Told(dispatchReservation: bool, fullReservation: bool, calls: seq<Call>): Status {
    var i := First(calls, Dispatching);
    if i == |calls| then Status(NotDispatched, None, None)
    else if dispatchReservation && !calls[i].answer then Status(DispatchRejected, None, None)
    else FromOutstanding(fullReservation, calls[i + 1..])
  }

  function StatusOf(g: Gate): Status {
    Status(g.phase, g.outcome, g.acceptedAtNs)
  }

  predicate Fresh(g: Gate) {
    g.outcome == None && g.acceptedAtNs == None
  }

  lemma {:induction false} SettlingGoes(g: Gate, calls: seq<Call>)
    requires g.phase == SettlingNonFull && Fresh(g) && WellFormed(g)
    ensures StatusOf(Run(g, calls)) == FromSettling(calls)
    decreases calls
  {
    if calls != [] {
      if Of(calls[0], Settling) { GateIsFinal(Step(g, calls[0]), calls[1..]); }
      else {
        SettlingGoes(Step(g, calls[0]), calls[1..]);
        FirstLater(calls, Settling);
      }
    }
  }

  lemma {:induction false} FirstLater(calls: seq<Call>, k: Kind)
    requires calls != [] && !Of(calls[0], k)
    ensures First(calls, k) == First(calls[1..], k) + 1
    ensures First(calls, k) < |calls| ==> calls[First(calls, k)] == calls[1..][First(calls[1..], k)]
    ensures First(calls, k) < |calls| ==> calls[First(calls, k) + 1..] == calls[1..][First(calls[1..], k) + 1..]
  {
  }

  lemma {:induction false} ReservedGoes(g: Gate, calls: seq<Call>)
    requires g.phase == FullAcceptedReserved && Fresh(g) && WellFormed(g)
    ensures StatusOf(Run(g, calls)) == FromReserved(calls)
    decreases calls
  {
    if calls != [] {
      if Of(calls[0], Publishing) { GateIsFinal(Step(g, calls[0]), calls[1..]); }
      else {
        ReservedGoes(Step(g, calls[0]), calls[1..]);
        FirstLater(calls, Publishing);
      }
    }
  }

  lemma {:induction false} RejectedGoes(g: Gate, calls: seq<Call>)
    requires g.phase == FullAcceptanceRejected && Fresh(g) && WellFormed(g)
    ensures StatusOf(Run(g, calls)) == FromRejected(calls)
    decreases calls
  {
    if calls != [] {
      if Of(calls[0], Failing) { SettlingGoes(Step(g, calls[0]), calls[1..]); }
      else {
        RejectedGoes(Step(g, calls[0]), calls[1..]);
        FirstLater(calls, Failing);
      }
    }
  }

  // What a call that is not the gate's turn leaves as it is.
  lemma OutstandingWaits(g: Gate, c: Call)
    requires g.phase == Outstanding && Fresh(g) && WellFormed(g) && !Of(c, Deciding)
    ensures var next := Step(g, c);
            next.phase == Outstanding && Fresh(next) && WellFormed(next) && next.fullReservation == g.fullReservation
  {
  }

  lemma UndispatchedWaits(g: Gate, c: Call)
    requires g.phase == NotDispatched && Fresh(g) && WellFormed(g) && !c.DoDispatch?
    ensures var next := Step(g, c);
            && next.phase == NotDispatched && Fresh(next) && WellFormed(next)
            && next.fullReservation == g.fullReservation && next.dispatchReservation == g.dispatchReservation
  {
  }

  lemma OutstandingLater(fullReservation: bool, calls: seq<Call>)
    requires calls != [] && !Of(calls[0], Deciding)
    ensures FromOutstanding(fullReservation, calls) == FromOutstanding(fullReservation, calls[1..])
  {
    FirstLater(calls, Deciding);
  }

  lemma ToldLater(dispatchReservation: bool, fullReservation: bool, calls: seq<Call>)
    requires calls != [] && !calls[0].DoDispatch?
    ensures Told(dispatchReservation, fullReservation, calls) == Told(dispatchReservation, fullReservation, calls[1..])
  {
    FirstLater(calls, Dispatching);
  }

  lemma {:induction false} OutstandingGoes(g: Gate, calls: seq<Call>)
    requires g.phase == Outstanding && Fresh(g) && WellFormed(g)
    ensures StatusOf(Run(g, calls)) == FromOutstanding(g.fullReservation, calls)
    decreases calls
  {
    if calls != [] {
      if Of(calls[0], Deciding) {
        DecidedGoes(g, calls);
      } else {
        OutstandingWaits(g, calls[0]);
        OutstandingGoes(Step(g, calls[0]), calls[1..]);
        OutstandingLater(g.fullReservation, calls);
      }
    }
  }

  lemma DecidedGoes(g: Gate, calls: seq<Call>)
    requires g.phase == Outstanding && Fresh(g) && WellFormed(g) && calls != [] && Of(calls[0], Deciding)
    ensures StatusOf(Run(g, calls)) == FromOutstanding(g.fullReservation, calls)
  {
    var next := Step(g, calls[0]);
    if calls[0].DoBeginNonFull? { SettlingGoes(next, calls[1..]); }
    else if g.fullReservation && !calls[0].answer { RejectedGoes(next, calls[1..]); }
    else { ReservedGoes(next, calls[1..]); }
  }

  lemma {:induction false} RejectedStays(g: Gate, calls: seq<Call>)
    requires g.phase == DispatchRejected
    ensures Run(g, calls) == g
    decreases calls
  {
    if calls != [] { RejectedStays(g, calls[1..]); }
  }

  lemma {:induction false} DispatchedGoes(g: Gate, calls: seq<Call>)
    requires g.phase == NotDispatched && Fresh(g) && WellFormed(g) && calls != [] && calls[0].DoDispatch?
    ensures StatusOf(Run(g, calls)) == Told(g.dispatchReservation, g.fullReservation, calls)
  {
    var next := Step(g, calls[0]);
    if g.dispatchReservation && !calls[0].answer { RejectedStays(next, calls[1..]); } else { OutstandingGoes(next, calls[1..]); }
  }

  lemma {:induction false} UndispatchedGoes(g: Gate, calls: seq<Call>)
    requires g.phase == NotDispatched && Fresh(g) && WellFormed(g)
    ensures StatusOf(Run(g, calls)) == Told(g.dispatchReservation, g.fullReservation, calls)
    decreases calls
  {
    if calls != [] {
      if calls[0].DoDispatch? {
        DispatchedGoes(g, calls);
      } else {
        UndispatchedWaits(g, calls[0]);
        UndispatchedGoes(Step(g, calls[0]), calls[1..]);
        ToldLater(g.dispatchReservation, g.fullReservation, calls);
      }
    }
  }

  // A gate's whole life is in its calls: the first dispatch, then whichever of acceptance and failure comes first,
  // then the first publication or settlement; each with the answer, the time and the outcome that very call brought.
  lemma {:induction false} GateIsTold(dispatchReservation: bool, fullReservation: bool, hook: bool, calls: seq<Call>)
    ensures StatusOf(Run(Tracked(dispatchReservation, fullReservation, hook), calls))
         == Told(dispatchReservation, fullReservation, calls)
  {
    UndispatchedGoes(Tracked(dispatchReservation, fullReservation, hook), calls);
  }

  // What the calls answer is what they did.
  lemma AnswersAreTrue(g: Gate, answer: bool)
    ensures Dispatches(g, answer) <==> g.phase == NotDispatched && MarkDispatched(g, answer).phase == Outstanding
    ensures Reserves(g, answer) <==> g.phase == Outstanding && ReserveFullAcceptance(g, answer).phase == FullAcceptedReserved
    ensures AsksDispatch(g) ==> !MarkDispatched(g, answer).dispatchReservation
    ensures AsksFull(g) ==> !ReserveFullAcceptance(g, answer).fullReservation
  {
  }

  // And its hook is called by the call that settles it.
  lemma {:induction false} HookRunsAtSettlement(dispatchReservation: bool, fullReservation: bool, calls: seq<Call>)
    ensures HookRuns(Tracked(dispatchReservation, fullReservation, true), calls)
         == if Told(dispatchReservation, fullReservation, calls).phase == Settled then 1 else 0
  {
    var g := Tracked(dispatchReservation, fullReservation, true);
    GateIsFinal(g, calls);
    GateIsTold(dispatchReservation, fullReservation, true, calls);
    HookStays(g, calls);
  }

  lemma {:induction false} HookStays(g: Gate, calls: seq<Call>)
    requires WellFormed(g) && (g.phase != Settled ==> g.hook)
    ensures Run(g, calls).phase != Settled ==> Run(g, calls).hook
    decreases calls
  {
    if calls != [] { HookStays(Step(g, calls[0]), calls[1..]); }
  }
}
