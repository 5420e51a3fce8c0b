/**
 * Writes of an Automation lease (crates/easycon-controller/src/session.rs): the lane always comes back from one,
 * and a report it has written, or was refused, is not written again.
 */
module LeasedProgress {
  import opened Wrappers
  import opened LaneRecord
  import opened LeasedLane
  import S = Settlement
  import L = LaneSettlement

  // How many steps of its own the lane has left until it is back at its queue.
  function Remaining(w: World): nat {
    if InFlight(w.phase) then Left(Written(w), w.phase) else 0
  }

  // The lane's own next step.
  predicate Own(w: World, s: Step)
    requires InFlight(w.phase)
  {
    var f, o := w.phase.flight, Written(w);
    if NextOf(o, w.phase).Some? then s == Other(f.operation, NextOf(o, w.phase).value)
    else
      match w.phase
      case Writing(_) => if Accepted(o, f.gate) then s.ClaimAccepted? else s.EndRefused?
      case Claiming(_) => if o.record.ClaimedFull? then s.SeeClaimed? else s.SeeUnclaimed?
      case Finishing(_) => s.FinishWrite?
      case _ => false
  }

  lemma OwnExists(w: World)
    requires InFlight(w.phase)
    ensures exists s :: Own(w, s)
  {
    var f, o := w.phase.flight, Written(w);
    if NextOf(o, w.phase).Some? {
      assert Own(w, Other(f.operation, NextOf(o, w.phase).value));
    } else {
      match w.phase
      case Writing(_) =>
        if Accepted(o, f.gate) { assert Own(w, ClaimAccepted); } else { assert Own(w, EndRefused(Refusal(false, false), _ => 0)); }
      case Claiming(_) =>
        if o.record.ClaimedFull? { assert Own(w, SeeClaimed); } else { assert Own(w, SeeUnclaimed(None, _ => 0)); }
      case Finishing(_) => assert Own(w, FinishWrite(_ => 0));
    }
  }

  lemma FlightHasInv(w: World)
    requires Inv(w) && InFlight(w.phase)
    ensures w.phase.flight.operation in w.ops && S.Inv(Written(w)) && Stage(Written(w), w.phase)
  {
  }

  lemma DecidedOrNext(o: S.World, f: Flight)
    ensures Accepted(o, f.gate) || Refused(o, f.gate) || NextOf(o, Writing(f)).Some?
  {
  }

  lemma OwnIsEnabled(w: World, s: Step)
    requires Inv(w) && InFlight(w.phase) && Own(w, s)
    ensures Enabled(w, s)
  {
    FlightHasInv(w);
    if NextOf(Written(w), w.phase).Some? { NextGoesOn(Written(w), w.phase); }
    if w.phase.Writing? { DecidedOrNext(Written(w), w.phase.flight); }
  }

  lemma OtherRemaining(w: World, op: nat, s: S.Step)
    requires InFlight(w.phase) && op in w.ops && !OnlyLane(s)
    ensures Remaining(Apply(w, Other(op, s)))
         == if op == w.phase.flight.operation then Left(S.Apply(Written(w), s), w.phase) else Remaining(w)
  {
  }

  predicate OfWrite(s: Step) {
    s.EndRefused? || s.ClaimAccepted? || s.SeeClaimed? || s.SeeUnclaimed? || s.FinishWrite?
  }

  lemma WriteRemaining(w: World, s: Step)
    requires InFlight(w.phase) && Enabled(w, s) && OfWrite(s)
    ensures !s.ClaimAccepted? && !s.SeeClaimed? ==> Apply(w, s).phase.Idle?
    ensures s.SeeClaimed? ==> Apply(w, s) == w.(phase := Finishing(w.phase.flight))
    ensures s.ClaimAccepted? ==> Remaining(Apply(w, s)) == Left(S.Apply(Written(w), S.ClaimReservedFull), Claiming(w.phase.flight))
  {
  }

  lemma OwnGoesOn(w: World, s: Step)
    requires Inv(w) && InFlight(w.phase) && Own(w, s)
    ensures Remaining(Apply(w, s)) < Remaining(w)
  {
    OwnIsEnabled(w, s);
    FlightHasInv(w);
    LeftIsBounded(Written(w), w.phase);
    if s.Other? {
      NextGoesOn(Written(w), w.phase);
      OtherRemaining(w, s.operation, s.step);
    } else {
      WriteRemaining(w, s);
      if s.ClaimAccepted? { ClaimGoesOn(Written(w), w.phase.flight); }
    }
  }

  // What anybody may do meanwhile that is not the lane's: it leaves the write where it is.
  lemma OthersSetNothingBack(w: World, s: Step)
    requires Inv(w) && InFlight(w.phase) && (s.Other? || s.Create? || s.Seal?)
    ensures Remaining(Apply(w, s)) <= Remaining(w)
  {
    FlightHasInv(w);
    if s.Other? && Enabled(w, s) {
      OtherRemaining(w, s.operation, s.step);
      if s.operation == w.phase.flight.operation { NoSetback(Written(w), s.step, w.phase); }
    }
  }

  // Whatever the state, a write of the lease has at most six steps left; its next step is there, can be taken and
  // brings it nearer to its end; and nothing anybody else does takes it further away.
  lemma LeasedWriteEnds(w: World, s: Step)
    requires Reachable(w) && InFlight(w.phase)
    ensures 0 < Remaining(w) <= 6
    ensures exists own :: Own(w, own)
    ensures Own(w, s) ==> Enabled(w, s) && Remaining(Apply(w, s)) < Remaining(w)
    ensures s.Other? || s.Create? || s.Seal? ==> Remaining(Apply(w, s)) <= Remaining(w)
  {
    ReachableHasInv(w);
    FlightHasInv(w);
    LeftIsBounded(Written(w), w.phase);
    OwnExists(w);
    if Own(w, s) {
      OwnIsEnabled(w, s);
      OwnGoesOn(w, s);
    }
    if s.Other? || s.Create? || s.Seal? { OthersSetNothingBack(w, s); }
  }

  // ---- A report is written once -------------------------------------------------------------------------------------------

  predicate Off(w: World, op: nat) {
    op in w.given && Report(op) !in w.queue
  }

  lemma StepStaysOff(w: World, s: Step, op: nat)
    requires Off(w, op)
    ensures Off(Apply(w, s), op)
  {
    if Enabled(w, s) {
      match s
      case Command(_, _, _) => HandleStaysOff(w, s.operation, s.admission, s.errors, op);
      case Observe(errors) => ObserveStaysOff(w, errors, op);
      case EndRefused(r, errors) => RefuseStaysOff(w, r, errors, op);
      case SeeUnclaimed(r, errors) => if r.Some? { RefuseStaysOff(w, r.value, errors, op); }
      case _ =>
    }
  }

  lemma HandleStaysOff(w: World, x: nat, a: Admission, errors: L.Errors, op: nat)
    requires Off(w, op) && x in w.ops && x !in w.given
    ensures Off(Handle(w, x, a, errors), op)
  {
  }

  lemma ObserveStaysOff(w: World, errors: L.Errors, op: nat)
    requires Off(w, op)
    ensures Off(Observed(w, errors), op)
  {
  }

  lemma RefuseStaysOff(w: World, r: Refusal, errors: L.Errors, op: nat)
    requires Off(w, op) && InFlight(w.phase)
    ensures Off(Refuse(w, r, errors), op)
  {
  }

  lemma {:induction false} RunStaysOff(w: World, steps: seq<Step>, op: nat)
    requires Off(w, op)
    ensures Off(Run(w, steps), op)
    decreases |steps|
  {
    if |steps| != 0 {
      StepStaysOff(w, steps[0], op);
      RunStaysOff(Apply(w, steps[0]), steps[1..], op);
    }
  }

  // The step that ends a write: it was refused, or accepted and told so.
  predicate EndsWrite(w: World, s: Step) {
    Enabled(w, s) && (s.EndRefused? || s.SeeUnclaimed? || s.FinishWrite?)
  }

  lemma {:induction false} WithoutAll(q: seq<Entry>, who: set<nat>)
    requires forall e :: e in q ==> e.operation in who
    ensures Without(q, who) == []
  {
    if q != [] {
      assert q[0] in q;
      WithoutAll(q[1..], who);
    }
  }

  lemma StrictlyEmpties(w: World, r: Refusal, errors: L.Errors)
    requires InFlight(w.phase) && r.strictly
    ensures Refuse(w, r, errors).queue == [] && Refuse(w, r, errors).given == w.given
  {
    WithoutAll(w.queue, All(w.queue));
  }

  lemma RefuseTakesOff(w: World, r: Refusal, errors: L.Errors)
    requires InFlight(w.phase) && w.phase.flight.operation in w.given
    ensures Off(Refuse(w, r, errors), w.phase.flight.operation)
  {
    if r.strictly { StrictlyEmpties(w, r, errors); }
  }

  lemma DeliverTakesOff(w: World, errors: L.Errors)
    requires InFlight(w.phase) && w.phase.flight.operation in w.given
    ensures Off(Deliver(w, errors), w.phase.flight.operation)
  {
  }

  lemma FlightIsGiven(w: World)
    requires Inv(w) && InFlight(w.phase)
    ensures w.phase.flight.operation in w.given && w.phase.flight.operation in w.ops
  {
    assert w.queue[0] in w.queue;
  }

  // The refusal a step ends a write with, if it does.
  function RefusalOf(s: Step): Option<Refusal> {
    match s
    case EndRefused(r, _) => Some(r)
    case SeeUnclaimed(r, _) => r
    case _ => None
  }

  lemma EndIs(w: World, s: Step)
    requires EndsWrite(w, s) && w.phase.flight.operation in w.ops
    ensures RefusalOf(s).Some? ==> exists errors :: Apply(w, s) == Refuse(w, RefusalOf(s).value, errors)
    ensures RefusalOf(s).None? ==>
              exists ops: map<nat, S.World>, errors :: Apply(w, s) == Deliver(w.(ops := ops), errors)
  {
    match s
    case EndRefused(r, errors) => assert Apply(w, s) == Refuse(w, r, errors);
    case SeeUnclaimed(r, errors) =>
      if r.Some? { assert Apply(w, s) == Refuse(w, r.value, errors); }
      else { assert Apply(w, s) == Deliver(w.(ops := w.ops), errors); }
    case FinishWrite(errors) =>
      assert Apply(w, s) == Deliver(w.(ops := L.Act(w.ops, w.phase.flight.operation, S.FinishSuccess)), errors);
  }

  lemma EndTakesOff(w: World, s: Step)
    requires EndsWrite(w, s) && w.phase.flight.operation in w.given && w.phase.flight.operation in w.ops
    ensures Off(Apply(w, s), w.phase.flight.operation)
  {
    EndIs(w, s);
    if RefusalOf(s).Some? {
      var errors :| Apply(w, s) == Refuse(w, RefusalOf(s).value, errors);
      RefuseTakesOff(w, RefusalOf(s).value, errors);
    } else {
      var ops: map<nat, S.World>, errors :| Apply(w, s) == Deliver(w.(ops := ops), errors);
      DeliverTakesOff(w.(ops := ops), errors);
    }
  }

  // However a write of an action ends, its report is off the queue for good.
  lemma {:induction false} WrittenOnce(w: World, s: Step, rest: seq<Step>)
    requires Reachable(w) && EndsWrite(w, s)
    ensures Report(w.phase.flight.operation) !in Run(Apply(w, s), rest).queue
  {
    ReachableHasInv(w);
    FlightIsGiven(w);
    EndTakesOff(w, s);
    RunStaysOff(Apply(w, s), rest, w.phase.flight.operation);
  }

  // A write that was refused while the lease goes on leaves the operation's cleanup to be written next, and
  // nobody else's entry is lost.
  lemma RefusedIsCleanedUp(w: World, s: Step)
    requires Reachable(w) && EndsWrite(w, s) && RefusalOf(s).Some? && !RefusalOf(s).value.strictly && !w.sealed
    ensures var w', op := Apply(w, s), w.phase.flight.operation;
            && w'.queue != [] && w'.queue[0] == Cleanup(op, RefusalOf(s).value.byCancel)
            && forall e :: e in w.queue && e.operation != op ==> e in w'.queue
  {
    ReachableHasInv(w);
    FlightIsGiven(w);
    EndIs(w, s);
    var op := w.phase.flight.operation;
    assert Apply(w, s).queue == [Cleanup(op, RefusalOf(s).value.byCancel)] + Without(w.queue, {op});
  }
}
