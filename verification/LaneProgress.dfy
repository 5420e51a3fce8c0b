/**
 * The lane always comes back from a write (crates/easycon-controller/src/session.rs): the steps it has left
 * are counted, it can always take the next one, and nobody can add to them.
 */
module LaneProgress {
  import opened Wrappers
  import opened LaneRecord
  import opened LaneSettlement
  import S = Settlement
  import Q = LaneQueue

  // How many steps of its own the lane has left until it is back at its queue.
  function Remaining(w: World): nat {
    if InFlight(w.phase) then Left(Written(w), w.phase) else 0
  }

  // The lane's own next step: a write that came back with no acceptance is settled, an accepted one is
  // claimed and finished. What it finds and tells at the end of it is anything.
  predicate Own(w: World, s: Step)
    requires InFlight(w.phase)
  {
    var f, o := w.phase.flight, Written(w);
    if NextOf(o, w.phase).Some? then s == Other(f.operation, NextOf(o, w.phase).value)
    else
      match w.phase
      case Writing(_) => if Accepted(o, f.gate) then s.ClaimAccepted? else s.EndRefused? && s.write.Refused?
      case Claiming(_) =>
        if o.record.ClaimedFull? then s.SeeClaimed?
        else s.SeeUnclaimed? && (s.write.Accepted? ==> s.write.at == TimeOf(w))
      case Finishing(_) => s.FinishWrite?
      case _ => false
  }

  // It is always there to be taken.
  lemma OwnExists(w: World)
    requires InFlight(w.phase)
    ensures exists s :: Own(w, s)
  {
    var f, o := w.phase.flight, Written(w);
    if NextOf(o, w.phase).Some? {
      assert Own(w, Other(f.operation, NextOf(o, w.phase).value));
    } else {
      match w.phase
      case Writing(_) =>
        if Accepted(o, f.gate) { assert Own(w, ClaimAccepted); }
        else { assert Own(w, EndRefused(f.now, Q.Refused(false, false, true, false, true, true), _ => 0)); }
      case Claiming(_) =>
        if o.record.ClaimedFull? { assert Own(w, SeeClaimed); }
        else { assert Own(w, SeeUnclaimed(f.now, Q.Accepted(TimeOf(w)), _ => 0)); }
      case Finishing(_) => assert Own(w, FinishWrite(_ => 0));
    }
  }

  lemma OwnIsEnabled(w: World, s: Step)
    requires Inv(w) && InFlight(w.phase) && Own(w, s)
    ensures Enabled(w, s)
  {
    OpHasInv(w, w.phase.flight.operation);
    if NextOf(Written(w), w.phase).Some? { NextGoesOn(Written(w), w.phase); }
    if w.phase.Writing? { DecidedOrNext(Written(w), w.phase.flight); }
  }

  lemma DecidedOrNext(o: S.World, f: Flight)
    ensures Accepted(o, f.gate) || Refused(o, f.gate) || NextOf(o, Writing(f)).Some?
  {
  }

  // A step on a record leaves the lane where it is.
  lemma OtherRemaining(w: World, op: nat, s: S.Step)
    requires InFlight(w.phase) && op in w.ops && !OnlyLane(s)
    ensures Remaining(Apply(w, Other(op, s)))
         == if op == w.phase.flight.operation then Left(S.Apply(Written(w), s), w.phase) else Remaining(w)
  {
  }

  lemma PassRemaining(w: World, s: Step)
    requires Inv(w) && InFlight(w.phase) && Enabled(w, s) && !s.Create? && !s.Other?
    ensures s.ClaimAccepted? ==> Apply(w, s) == Claimed(w)
    ensures s.SeeClaimed? ==> Apply(w, s) == w.(phase := Finishing(w.phase.flight))
    ensures !s.ClaimAccepted? && !s.SeeClaimed? ==> Remaining(Apply(w, s)) == 0
  {
  }

  // A step of the lane itself gets it on.
  lemma OwnGoesOn(w: World, s: Step)
    requires Inv(w) && InFlight(w.phase) && Enabled(w, s) && !s.Create?
    requires s.Other? ==> Own(w, s)
    ensures Remaining(Apply(w, s)) < Remaining(w)
  {
    RemainingIsBounded(w);
    OpHasInv(w, w.phase.flight.operation);
    if s.Other? {
      NextGoesOn(Written(w), w.phase);
      OtherRemaining(w, s.operation, s.step);
    } else {
      PassRemaining(w, s);
      if s.ClaimAccepted? { ClaimGoesOn(Written(w), w.phase.flight); }
    }
  }

  // Nobody sets it back.
  lemma StepSetsNothingBack(w: World, s: Step)
    requires Inv(w) && InFlight(w.phase)
    ensures Remaining(Apply(w, s)) <= Remaining(w)
  {
    OpHasInv(w, w.phase.flight.operation);
    if s.Other? && Enabled(w, s) {
      OtherRemaining(w, s.operation, s.step);
      if s.operation == w.phase.flight.operation { NoSetbackOther(w, s.operation, s.step); }
    } else if Enabled(w, s) {
      if s.Create? { assert s.operation != w.phase.flight.operation; } else { OwnGoesOn(w, s); }
    }
  }

  lemma NoSetbackOther(w: World, op: nat, s: S.Step)
    requires Inv(w) && InFlight(w.phase) && op == w.phase.flight.operation && !OnlyLane(s)
    ensures Left(S.Apply(Written(w), s), w.phase) <= Remaining(w)
  {
    OpHasInv(w, op);
    NoSetback(Written(w), s, w.phase);
  }

  lemma RemainingIsBounded(w: World)
    requires Inv(w)
    ensures Remaining(w) <= 6 && (Remaining(w) > 0 <==> InFlight(w.phase))
  {
    if InFlight(w.phase) {
      OpHasInv(w, w.phase.flight.operation);
      LeftIsBounded(Written(w), w.phase);
    }
  }

  // How many of the steps are the lane's own, until it is back, and whether it gets back among them.
  ghost function Turns(w: World, steps: seq<Step>): nat
    decreases |steps|
  {
    if |steps| == 0 || !InFlight(w.phase) then 0
    else (if Own(w, steps[0]) then 1 else 0) + Turns(Apply(w, steps[0]), steps[1..])
  }

  ghost predicate Returns(w: World, steps: seq<Step>)
    decreases |steps|
  {
    !InFlight(w.phase) || (|steps| > 0 && Returns(Apply(w, steps[0]), steps[1..]))
  }

  lemma {:induction false} TurnsReturn(w: World, during: seq<Step>)
    requires Inv(w)
    ensures Turns(w, during) <= Remaining(w)
    ensures Turns(w, during) == Remaining(w) ==> Returns(w, during)
    decreases |during|
  {
    RemainingIsBounded(w);
    if InFlight(w.phase) && |during| > 0 {
      StepKeepsInv(w, during[0]);
      TurnsReturn(Apply(w, during[0]), during[1..]);
      StepSetsNothingBack(w, during[0]);
      if Own(w, during[0]) {
        OwnIsEnabled(w, during[0]);
        OwnGoesOn(w, during[0]);
      }
    }
  }

  // From whatever point of whatever run, and whatever everybody else does in between, as often as they
  // like: the lane always has a next step and can always take it, it takes six at most, and having taken as
  // many as it had left it is back at its queue. No write, no competing settlement, no strict failure and no
  // cancellation can keep it waiting.
  lemma {:induction false} LaneIsNeverStuck(w: World, during: seq<Step>)
    requires Reachable(w)
    ensures Remaining(w) <= 6 && (Remaining(w) > 0 <==> InFlight(w.phase))
    ensures Turns(w, during) <= Remaining(w)
    ensures Turns(w, during) == Remaining(w) ==> Returns(w, during)
    ensures InFlight(w.phase) ==> exists s :: Own(w, s)
    ensures InFlight(w.phase) ==> forall s :: Own(w, s) ==> Enabled(w, s) && Remaining(Apply(w, s)) < Remaining(w)
    ensures InFlight(w.phase) ==> forall s :: Remaining(Apply(w, s)) <= Remaining(w)
  {
    ReachableHasInv(w);
    RemainingIsBounded(w);
    TurnsReturn(w, during);
    if InFlight(w.phase) {
      OwnExists(w);
      AllGoForward(w);
    }
  }

  lemma AllGoForward(w: World)
    requires Inv(w) && InFlight(w.phase)
    ensures forall s :: Own(w, s) ==> Enabled(w, s) && Remaining(Apply(w, s)) < Remaining(w)
    ensures forall s :: Remaining(Apply(w, s)) <= Remaining(w)
  {
    forall s | Own(w, s) ensures Enabled(w, s) && Remaining(Apply(w, s)) < Remaining(w) {
      OwnIsEnabled(w, s);
      OwnGoesOn(w, s);
    }
    forall s ensures Remaining(Apply(w, s)) <= Remaining(w) { StepSetsNothingBack(w, s); }
  }
}
