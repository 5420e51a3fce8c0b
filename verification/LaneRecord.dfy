/**
 * One operation's record as the lane's thread leaves it between its steps, whatever everybody else does to
 * it (crates/easycon-controller/src/session.rs): with no write in flight, with a write in the transport, and
 * with an acceptance on its way to success.
 */
module LaneRecord {
  import opened Wrappers
  import O = OwnedOperation
  import S = Settlement
  import G = WriteGate

  // The write in flight: its operation, the gate it goes through, and what the pass saw before it.
  datatype Flight = Flight(operation: nat, gate: nat, now: nat, cancelled: set<nat>)

  // Where the lane's thread is: between two passes, in the transport, bringing the reserved owner to a
  // claim, about to finish the claim, or gone after its close.
  datatype Phase = Idle | Gone | Writing(flight: Flight) | Claiming(flight: Flight) | Finishing(flight: Flight)

  predicate InFlight(p: Phase) {
    p.Writing? || p.Claiming? || p.Finishing?
  }

  predicate OnlyLane(s: S.Step) {
    s.NewGate? || s.GateDispatch? || s.ClaimReservedFull? || s.FinishSuccess?
  }

  // With no write in flight for it, nothing can reserve an acceptance any more.
  ghost predicate Quiet(o: S.World) {
    && (o.record.NotDispatched? || o.record.Outstanding? || S.Closed(o.record))
    && (forall i :: 0 <= i < |o.gates| ==> o.gates[i].phase != G.Outstanding)
  }

  // While the write is in flight only its own gate can.
  ghost predicate InTransport(o: S.World, gate: nat) {
    && gate < |o.gates| && o.gates[gate].phase != G.NotDispatched
    && !o.record.ClaimingFull? && !o.record.ClaimedFull?
    && (o.record.FullAcceptedReserved? ==> G.IsFullAccepted(o.gates[gate]))
    && (S.Closed(o.record) && G.IsFullAccepted(o.gates[gate]) ==> o.strict.Some?)
    && (o.reserved && o.strict.None? ==> G.IsFullAccepted(o.gates[gate]))
    && (forall i :: 0 <= i < |o.gates| && i != gate ==> o.gates[i].phase != G.Outstanding)
  }

  // The acceptance is the lane's to finish, unless a strict failure has taken it.
  ghost predicate Won(o: S.World, gate: nat) {
    && gate < |o.gates| && G.IsFullAccepted(o.gates[gate])
    && (o.record.ClaimingFull? || o.record.ClaimedFull? || (S.Closed(o.record) && o.strict.Some?))
    && (forall i :: 0 <= i < |o.gates| ==> o.gates[i].phase != G.Outstanding)
  }

  ghost predicate Stage(o: S.World, p: Phase) {
    match p
    case Writing(f) => InTransport(o, f.gate)
    case Claiming(f) => Won(o, f.gate)
    case Finishing(f) => Won(o, f.gate) && !o.record.ClaimingFull?
    case _ => Quiet(o)
  }

  // A record once let go of stays so, and so does an acceptance, a strict failure and a start.
  ghost predicate Carries(o: S.World, o': S.World) {
    && (S.Closed(o.record) ==> S.Closed(o'.record))
    && (o.reserved ==> o'.reserved)
    && (o.strict.Some? ==> o'.strict.Some?)
    && (!o.op.state.Pending? ==> !o'.op.state.Pending?)
  }

  lemma ClosedStays(o: S.World, s: S.Step)
    requires S.Inv(o) && S.Closed(o.record)
    ensures S.Closed(S.Apply(o, s).record)
  {
  }

  lemma StartedStays(o: S.World, s: S.Step)
    requires !o.op.state.Pending?
    ensures !S.Apply(o, s).op.state.Pending?
  {
  }

  lemma StepCarries(o: S.World, s: S.Step)
    requires S.Inv(o)
    ensures S.Inv(S.Apply(o, s)) && Carries(o, S.Apply(o, s))
  {
    S.StepKeepsInv(o, s);
    S.StepKeepsResult(o, s);
    if !o.op.state.Pending? { StartedStays(o, s); }
    if S.Closed(o.record) { ClosedStays(o, s); }
  }

  // ---- What the others can do to it ----------------------------------------------------------------------------

  lemma QuietStays(o: S.World, s: S.Step)
    requires S.Inv(o) && Quiet(o) && !OnlyLane(s)
    ensures Quiet(S.Apply(o, s)) && S.Apply(o, s).reserved == o.reserved
  {
  }

  lemma OwnGateInTransport(o: S.World, s: S.Step, gate: nat)
    requires S.Inv(o) && InTransport(o, gate) && !OnlyLane(s) && S.IsGateStep(s) && s.gate == gate
    ensures InTransport(S.Apply(o, s), gate)
  {
    assert S.GateInv(o.gates[gate], o.record.NotDispatched?, o.reserved);
  }

  lemma OtherGateInTransport(o: S.World, s: S.Step, gate: nat)
    requires S.Inv(o) && InTransport(o, gate) && !OnlyLane(s) && S.IsGateStep(s) && s.gate != gate
    ensures InTransport(S.Apply(o, s), gate)
  {
    assert S.Apply(o, s).record == o.record && S.Apply(o, s).strict == o.strict;
    assert S.Apply(o, s).gates[gate] == o.gates[gate];
  }

  lemma RecordStepInTransport(o: S.World, s: S.Step, gate: nat)
    requires S.Inv(o) && InTransport(o, gate) && !OnlyLane(s) && !S.IsGateStep(s)
    ensures InTransport(S.Apply(o, s), gate)
  {
    assert S.Apply(o, s).gates == o.gates;
    assert S.GateInv(o.gates[gate], o.record.NotDispatched?, o.reserved);
  }

  lemma GateStepWon(o: S.World, s: S.Step, gate: nat)
    requires S.Inv(o) && Won(o, gate) && !OnlyLane(s) && S.IsGateStep(s)
    ensures Won(S.Apply(o, s), gate)
  {
    assert S.GateInv(o.gates[gate], o.record.NotDispatched?, o.reserved);
  }

  lemma RecordStepWon(o: S.World, s: S.Step, gate: nat)
    requires S.Inv(o) && Won(o, gate) && !OnlyLane(s) && !S.IsGateStep(s)
    ensures Won(S.Apply(o, s), gate)
  {
    assert S.Apply(o, s).gates == o.gates;
    if o.record.ClaimingFull? { ClaimHasTask(o); }
  }

  lemma WonStays(o: S.World, s: S.Step, gate: nat)
    requires S.Inv(o) && Won(o, gate) && !OnlyLane(s)
    ensures Won(S.Apply(o, s), gate)
  {
    if S.IsGateStep(s) { GateStepWon(o, s, gate); } else { RecordStepWon(o, s, gate); }
  }

  lemma NoNewClaim(o: S.World, s: S.Step)
    requires S.Inv(o) && !OnlyLane(s) && !o.record.ClaimingFull?
    ensures !S.Apply(o, s).record.ClaimingFull?
  {
  }

  lemma StageStays(o: S.World, s: S.Step, p: Phase)
    requires S.Inv(o) && Stage(o, p) && !OnlyLane(s)
    ensures Stage(S.Apply(o, s), p)
  {
    match p
    case Writing(f) =>
      if !S.IsGateStep(s) { RecordStepInTransport(o, s, f.gate); }
      else if s.gate == f.gate { OwnGateInTransport(o, s, f.gate); }
      else { OtherGateInTransport(o, s, f.gate); }
    case Claiming(f) => WonStays(o, s, f.gate);
    case Finishing(f) =>
      WonStays(o, s, f.gate);
      NoNewClaim(o, s);
    case _ => QuietStays(o, s);
  }

  // ---- What the lane does to it --------------------------------------------------------------------------------

  lemma NewGateIsQuiet(o: S.World)
    requires S.Inv(o) && Quiet(o)
    ensures var o' := S.Apply(o, S.NewGate);
            && S.Inv(o') && Quiet(o') && Carries(o, o') && o'.record == o.record && o'.op == o.op
            && o'.reserved == o.reserved && o'.strict == o.strict
            && |o'.gates| == |o.gates| + 1 && o'.gates[|o.gates|].phase == G.NotDispatched
  {
    StepCarries(o, S.NewGate);
    var o' := S.Apply(o, S.NewGate);
    assert forall i :: 0 <= i < |o.gates| ==> o'.gates[i] == o.gates[i];
  }

  // The gate of a write is the only one that is out.
  lemma DispatchPutsInTransport(o: S.World, gate: nat)
    requires S.Inv(o) && Quiet(o) && (o.reserved ==> o.strict.Some?) && !o.op.state.Pending?
    requires gate < |o.gates| && o.gates[gate].phase == G.NotDispatched
    ensures var o' := S.Apply(o, S.GateDispatch(gate));
            && S.Inv(o') && InTransport(o', gate) && Carries(o, o') && o'.reserved == o.reserved
  {
    StepCarries(o, S.GateDispatch(gate));
    assert S.GateInv(o.gates[gate], o.record.NotDispatched?, o.reserved);
  }

  // The two steps that begin a write.
  function Begun(o: S.World): S.World {
    S.Apply(S.Apply(o, S.NewGate), S.GateDispatch(|o.gates|))
  }

  lemma BegunIsInTransport(o: S.World)
    requires S.Inv(o) && Quiet(o) && (o.reserved ==> o.strict.Some?) && !o.op.state.Pending?
    ensures S.Inv(Begun(o)) && InTransport(Begun(o), |o.gates|) && Carries(o, Begun(o))
  {
    NewGateIsQuiet(o);
    DispatchPutsInTransport(S.Apply(o, S.NewGate), |o.gates|);
  }

  // An accepted gate is the one entered gate, and its record has the acceptance.
  lemma AcceptedHasReserved(o: S.World, gate: nat)
    requires S.Inv(o) && InTransport(o, gate) && G.IsFullAccepted(o.gates[gate])
    ensures o.reserved && (o.record.FullAcceptedReserved? || (S.Closed(o.record) && o.strict.Some?))
    ensures o.gates[gate].phase != G.Outstanding
  {
    assert S.GateInv(o.gates[gate], o.record.NotDispatched?, o.reserved);
  }

  lemma ClaimWins(o: S.World, gate: nat)
    requires S.Inv(o) && InTransport(o, gate) && G.IsFullAccepted(o.gates[gate])
    ensures Won(S.Apply(o, S.ClaimReservedFull), gate)
  {
    AcceptedHasReserved(o, gate);
  }

  // A write that ends without acceptance leaves nothing that could still be accepted.
  lemma RefusedIsQuiet(o: S.World, gate: nat)
    requires S.Inv(o) && InTransport(o, gate) && !G.IsFullAccepted(o.gates[gate])
    requires o.gates[gate].phase in {G.DispatchRejected, G.Settled}
    ensures Quiet(o)
  {
  }

  lemma WonIsReserved(o: S.World, gate: nat)
    requires S.Inv(o) && Won(o, gate)
    ensures o.reserved
  {
    assert S.GateInv(o.gates[gate], o.record.NotDispatched?, o.reserved);
  }

  lemma FinishCloses(o: S.World, gate: nat)
    requires S.Inv(o) && Won(o, gate) && !o.record.ClaimingFull?
    ensures var o' := S.Apply(o, S.FinishSuccess); Quiet(o') && S.Closed(o'.record) && o'.reserved
  {
    WonIsReserved(o, gate);
  }

  predicate Settles(s: S.Step) {
    s.SettleCancellation? || s.SettleFailure? || s.SettleStrictFailure?
  }

  lemma CallCloses(o: S.World, s: S.Step)
    requires S.Inv(o) && Quiet(o) && Settles(s)
    ensures S.Closed(S.Apply(o, s).record)
  {
  }

  // ---- How far a write is from its end -------------------------------------------------------------------------

  function GatePhase(o: S.World, gate: nat): G.Phase {
    if gate < |o.gates| then o.gates[gate].phase else G.Settled
  }

  predicate Accepted(o: S.World, gate: nat) {
    gate < |o.gates| && G.IsFullAccepted(o.gates[gate])
  }

  predicate Refused(o: S.World, gate: nat) {
    gate < |o.gates| && !G.IsFullAccepted(o.gates[gate]) && o.gates[gate].phase in {G.DispatchRejected, G.Settled}
  }

  // The lane's own steps to the end of the write, if nobody else makes one of them unnecessary.
  function Left(o: S.World, p: Phase): nat {
    match p
    case Writing(f) =>
      (match GatePhase(o, f.gate)
       case Outstanding => 6
       case FullAcceptanceRejected => 3
       case SettlingNonFull => 2
       case _ => if Accepted(o, f.gate) then 5 else 1)
    case Claiming(_) => if !o.record.ClaimingFull? then 2 else if o.tasks != [] then S.Rank(o.tasks[0]) else 3
    case Finishing(_) => 1
    case _ => 0
  }

  // The lane's next step on the record of the write in flight, where that is a step of the record.
  function NextOf(o: S.World, p: Phase): Option<S.Step> {
    match p
    case Writing(f) =>
      if Accepted(o, f.gate) || Refused(o, f.gate) then None
      else if GatePhase(o, f.gate) == G.SettlingNonFull then Some(S.GateSettle(f.gate, G.CleanupFailed(0)))
      else Some(S.GateBeginNonFull(f.gate))
    case Claiming(_) => if o.record.ClaimingFull? then Some(S.TaskStep(0)) else None
    case _ => None
  }

  lemma ClaimHasTask(o: S.World)
    requires S.Inv(o) && o.record.ClaimingFull?
    ensures |o.tasks| == 1 && (o.tasks[0].OwnerClaimFull? || o.tasks[0] == S.FullClaimReturned(O.Claimed))
  {
  }

  lemma GateGoesForward(o: S.World, s: S.Step, f: Flight)
    requires S.Inv(o) && InTransport(o, f.gate) && !OnlyLane(s) && S.IsGateStep(s)
    ensures Left(S.Apply(o, s), Writing(f)) <= Left(o, Writing(f))
  {
    assert S.GateInv(o.gates[f.gate], o.record.NotDispatched?, o.reserved);
  }

  lemma ClaimGoesForward(o: S.World, s: S.Step, f: Flight)
    requires S.Inv(o) && Won(o, f.gate) && !OnlyLane(s)
    ensures Left(S.Apply(o, s), Claiming(f)) <= Left(o, Claiming(f))
  {
    if o.record.ClaimingFull? { ClaimHasTask(o); } else { NoNewClaim(o, s); }
  }

  lemma GatesStay(o: S.World, s: S.Step)
    requires !S.IsGateStep(s)
    ensures S.Apply(o, s).gates == o.gates
  {
  }

  // Nobody sets a write back.
  lemma NoSetback(o: S.World, s: S.Step, p: Phase)
    requires S.Inv(o) && Stage(o, p) && !OnlyLane(s)
    ensures Left(S.Apply(o, s), p) <= Left(o, p)
  {
    match p
    case Writing(f) => if S.IsGateStep(s) { GateGoesForward(o, s, f); } else { GatesStay(o, s); }
    case Claiming(f) => ClaimGoesForward(o, s, f);
    case _ =>
  }

  // The lane's next step gets it on.
  lemma NextGoesOn(o: S.World, p: Phase)
    requires S.Inv(o) && Stage(o, p) && NextOf(o, p).Some?
    ensures !OnlyLane(NextOf(o, p).value) && Left(S.Apply(o, NextOf(o, p).value), p) < Left(o, p)
  {
    if p.Writing? {
      assert S.GateInv(o.gates[p.flight.gate], o.record.NotDispatched?, o.reserved);
    } else {
      ClaimHasTask(o);
    }
  }

  // At most six steps are left, and one at least.
  lemma LeftIsBounded(o: S.World, p: Phase)
    requires S.Inv(o) && Stage(o, p)
    ensures Left(o, p) <= 6 && (Left(o, p) > 0 <==> InFlight(p))
  {
    if p.Claiming? && o.record.ClaimingFull? { ClaimHasTask(o); }
  }

  // An acceptance is claimed in four steps, and finished in one.
  lemma ClaimGoesOn(o: S.World, f: Flight)
    requires S.Inv(o) && InTransport(o, f.gate) && Accepted(o, f.gate)
    ensures Left(S.Apply(o, S.ClaimReservedFull), Claiming(f)) < Left(o, Writing(f))
  {
    AcceptedHasReserved(o, f.gate);
    assert S.GateInv(o.gates[f.gate], o.record.NotDispatched?, o.reserved);
    ClaimWins(o, f.gate);
    S.StepKeepsInv(o, S.ClaimReservedFull);
    LeftIsBounded(S.Apply(o, S.ClaimReservedFull), Claiming(f));
    var o' := S.Apply(o, S.ClaimReservedFull);
    if o'.record.ClaimingFull? { ClaimHasTask(o'); }
  }
}
