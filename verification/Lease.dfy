/**
 * One Automation lease generation: admission, sealing, and the release neutral
 * (crates/easycon-controller/src/session.rs, `LeaseGeneration` and the lane steps that read it).
 *
 * Each action is a whole settlement `World`, so its cancellers, its backend and every settling
 * call interleave freely with admission, with sealing and with the lane.
 */
module Lease {
  import opened Wrappers
  import S = Settlement

  datatype Gate =
    | Open(actions: seq<nat>, reservations: nat)
    | Sealed(record: nat, actions: seq<nat>, reservations: nat)

  // Where one `admit` call stands. `submit` creates the operation outside the gate lock.
  datatype Admit = Reserved | Submitted(action: nat) | SubmitFailed | Resolved

  datatype LanePc = Idle | Writing(action: nat) | NeutralReady | NeutralWriting | Closing | Closed

  datatype Event =
    | ReportDispatched(action: nat)
    | NeutralDispatched
    | CloseDrained
    | CleanupAnswered(record: nat, created: bool)

  datatype World = World(
    gate: Gate,
    actions: seq<S.World>,
    admits: seq<Admit>,
    nextRecord: nat,
    lane: LanePc,
    neutralUsed: bool,
    trace: seq<Event>)

  datatype Step =
    | AdmitReserve
    | AdmitSubmit(admit: nat, accepted: bool, owner: nat, transfer: Option<nat>)
    | AdmitResolve(admit: nat, cleanup: Option<nat>)
    | RequestCleanup
    | OnAction(action: nat, step: S.Step)
    | LaneDispatch(action: nat, gate: nat)
    | LaneWriteDone
    | LaneCheckSettled
    | LaneNeutral
    | LaneNeutralDone
    | LaneClose
    | LaneCloseNeutral
    | LaneExit

  function Init(): World {
    World(Open([], 0), [], [], 0, Idle, false, [])
  }

  function WithReservations(g: Gate, n: nat): Gate {
    if g.Open? then Open(g.actions, n) else Sealed(g.record, g.actions, n)
  }

  function WithAction(g: Gate, action: nat): Gate {
    if g.Open? then Open(g.actions + [action], g.reservations) else Sealed(g.record, g.actions + [action], g.reservations)
  }

  function Reserve(g: Gate): Gate {
    if g.Open? then Open(g.actions, g.reservations + 1) else g
  }

  // The resolving section of `admit`: the reservation goes, a submitted action stays listed.
  function Resolve(g: Gate, submitted: Option<nat>): Gate
    requires g.reservations > 0
  {
    var g' := WithReservations(g, g.reservations - 1);
    if submitted.Some? then WithAction(g', submitted.value) else g'
  }

  function Seal(g: Gate, record: nat): Gate {
    if g.Open? then Sealed(record, g.actions, g.reservations) else g
  }

  predicate Terminal(w: World, action: nat) {
    action < |w.actions| && w.actions[action].op.state.Ended?
  }

  // `actions_settled`.
  predicate ActionsSettled(w: World) {
    w.gate.reservations == 0 && forall i :: 0 <= i < |w.gate.actions| ==> Terminal(w, w.gate.actions[i])
  }

  function OnSettlement(w: World, action: nat, s: S.Step): World
    requires action < |w.actions|
  {
    w.(actions := w.actions[action := S.Apply(w.actions[action], s)])
  }

  function Apply(w: World, s: Step): World {
    match s
    case AdmitReserve =>
      w.(gate := Reserve(w.gate), admits := if w.gate.Open? then w.admits + [Reserved] else w.admits)
    case AdmitSubmit(i, accepted, owner, transfer) =>
      if i >= |w.admits| || w.admits[i] != Reserved then w
      else if !accepted then w.(admits := w.admits[i := SubmitFailed])
      else w.(actions := w.actions + [S.Init(owner, transfer)], admits := w.admits[i := Submitted(|w.actions|)])
    case AdmitResolve(i, cleanup) =>
      if i >= |w.admits| || !(w.admits[i].Submitted? || w.admits[i].SubmitFailed?) || w.gate.reservations == 0 then w
      else ResolveAdmission(w, i, cleanup)
    case RequestCleanup =>
      var gate := Seal(w.gate, w.nextRecord);
      w.(gate := gate, nextRecord := if w.gate.Open? then w.nextRecord + 1 else w.nextRecord,
         trace := if gate.Sealed? then w.trace + [CleanupAnswered(gate.record, w.gate.Open?)] else w.trace)
    // Anybody may act on any action's record, operation or gate; only the lane dispatches.
    case OnAction(i, step) =>
      if i < |w.actions| && !step.GateDispatch? then OnSettlement(w, i, step) else w
    // The lane tries any action it was ever sent, whether it is still queued or not.
    case LaneDispatch(i, gate) => if i < |w.actions| && w.lane.Idle? then Dispatch(w, i, gate) else w
    case LaneWriteDone => if w.lane.Writing? then w.(lane := Idle) else w
    case LaneCheckSettled =>
      if w.lane.Idle? && w.gate.Sealed? && !w.neutralUsed && ActionsSettled(w) then w.(lane := NeutralReady) else w
    case LaneNeutral =>
      if w.lane.NeutralReady?
      then w.(lane := NeutralWriting, neutralUsed := true, trace := w.trace + [NeutralDispatched]) else w
    case LaneNeutralDone => if w.lane.NeutralWriting? then w.(lane := Idle) else w
    case LaneClose => if w.lane.Idle? then w.(lane := Closing, trace := w.trace + [CloseDrained]) else w
    case LaneCloseNeutral =>
      if w.lane.Closing? && w.gate.Sealed? && !w.neutralUsed
      then w.(neutralUsed := true, trace := w.trace + [NeutralDispatched]) else w
    case LaneExit => if w.lane.Closing? then w.(lane := Closed) else w
  }

  // Under a sealed gate the action's record is asked to give its owner up in the same section.
  function ResolveAdmission(w: World, i: nat, cleanup: Option<nat>): World
    requires i < |w.admits| && (w.admits[i].Submitted? || w.admits[i].SubmitFailed?) && w.gate.reservations > 0
  {
    var submitted := if w.admits[i].Submitted? then Some(w.admits[i].action) else None;
    var w' := w.(gate := Resolve(w.gate, submitted), admits := w.admits[i := Resolved]);
    if w.gate.Sealed? && submitted.Some? && submitted.value < |w.actions|
    then OnSettlement(w', submitted.value, S.RejectGeneration(cleanup))
    else w'
  }

  // The report reaches the backend exactly when its gate takes the record from NotDispatched.
  function Dispatch(w: World, i: nat, gate: nat): World
    requires i < |w.actions|
  {
    var next := S.Apply(w.actions[i], S.GateDispatch(gate));
    if w.actions[i].record.NotDispatched? && next.record.Outstanding?
    then w.(actions := w.actions[i := next], lane := Writing(i), trace := w.trace + [ReportDispatched(i)])
    else w.(actions := w.actions[i := next])
  }

  function Run(w: World, steps: seq<Step>): World
    decreases steps
  {
    if steps == [] then w else Run(Apply(w, steps[0]), steps[1..])
  }

  // ---- What every step keeps -------------------------------------------------------------------------

  predicate InFlight(a: Admit) {
    !a.Resolved?
  }

  function CountInFlight(admits: seq<Admit>): nat {
    if admits == [] then 0 else (if InFlight(admits[0]) then 1 else 0) + CountInFlight(admits[1..])
  }

  lemma {:induction false} CountAppend(admits: seq<Admit>, a: Admit)
    ensures CountInFlight(admits + [a]) == CountInFlight(admits) + (if InFlight(a) then 1 else 0)
  {
    if admits == [] {
      assert admits + [a] == [a];
    } else {
      assert (admits + [a])[1..] == admits[1..] + [a];
      CountAppend(admits[1..], a);
    }
  }

  lemma {:induction false} CountUpdate(admits: seq<Admit>, i: nat, a: Admit)
    requires i < |admits|
    ensures CountInFlight(admits[i := a])
         == CountInFlight(admits) - (if InFlight(admits[i]) then 1 else 0) + (if InFlight(a) then 1 else 0)
  {
    if i == 0 {
      assert admits[i := a][1..] == admits[1..];
    } else {
      assert admits[i := a][1..] == admits[1..][i - 1 := a];
      CountUpdate(admits[1..], i - 1, a);
    }
  }

  lemma {:induction false} CountPositive(admits: seq<Admit>, i: nat)
    requires i < |admits| && InFlight(admits[i])
    ensures CountInFlight(admits) > 0
  {
    if i > 0 { CountPositive(admits[1..], i - 1); }
  }

  // Every action is either listed in the gate or still carried by the `admit` that submitted it.
  ghost predicate Accounted(w: World, action: nat) {
    action in w.gate.actions || exists i :: 0 <= i < |w.admits| && w.admits[i] == Submitted(action)
  }

  ghost predicate Quiet(w: World) {
    w.gate.Sealed? && w.gate.reservations == 0 && forall i :: 0 <= i < |w.actions| ==> w.actions[i].op.state.Ended?
  }

  // The last point from which the trace may hold no report.
  ghost predicate NoReportAfter(trace: seq<Event>, last: Event) {
    forall i, j :: 0 <= i < j < |trace| && trace[i] == last ==> !trace[j].ReportDispatched?
  }

  ghost predicate Inv(w: World) {
    && w.gate.reservations == CountInFlight(w.admits)
    && (forall i :: 0 <= i < |w.actions| ==> S.Inv(w.actions[i]) && Accounted(w, i))
    && (forall i :: 0 <= i < |w.gate.actions| ==> w.gate.actions[i] < |w.actions|)
    && (forall i :: 0 <= i < |w.admits| && w.admits[i].Submitted? ==> w.admits[i].action < |w.actions|)
    && (w.lane in {NeutralReady, NeutralWriting} || (w.neutralUsed && w.lane !in {Closing, Closed}) ==> Quiet(w))
    && (NeutralDispatched in w.trace <==> w.neutralUsed)
    && (CloseDrained in w.trace ==> w.lane in {Closing, Closed})
    && NoReportAfter(w.trace, NeutralDispatched)
    && NoReportAfter(w.trace, CloseDrained)
    && (w.gate.Open? ==> forall i :: 0 <= i < |w.trace| ==> !w.trace[i].CleanupAnswered?)
    && (w.gate.Sealed? ==> forall i :: 0 <= i < |w.trace| && w.trace[i].CleanupAnswered? ==> w.trace[i].record == w.gate.record)
  }

  lemma SettledIsQuiet(w: World)
    requires Inv(w) && w.gate.Sealed? && ActionsSettled(w)
    ensures Quiet(w)
  {
    forall i | 0 <= i < |w.actions| ensures w.actions[i].op.state.Ended? {
      assert Accounted(w, i);
      if i !in w.gate.actions {
        var k :| 0 <= k < |w.admits| && w.admits[k] == Submitted(i);
        CountPositive(w.admits, k);
        assert false;
      } else {
        var k :| 0 <= k < |w.gate.actions| && w.gate.actions[k] == i;
        assert Terminal(w, w.gate.actions[k]);
      }
    }
  }

  lemma ActionStepKeepsInv(w: World, i: nat, s: S.Step)
    requires Inv(w) && i < |w.actions|
    ensures Inv(OnSettlement(w, i, s))
  {
    S.StepKeepsInv(w.actions[i], s);
    S.StepKeepsResult(w.actions[i], s);
    var w' := OnSettlement(w, i, s);
    forall k | 0 <= k < |w'.actions| ensures S.Inv(w'.actions[k]) && Accounted(w', k) {
      assert Accounted(w, k);
    }
  }

  lemma ResolveKeepsInv(w: World, i: nat, cleanup: Option<nat>)
    requires Inv(w) && i < |w.admits| && (w.admits[i].Submitted? || w.admits[i].SubmitFailed?)
    ensures w.gate.reservations > 0
    ensures Inv(ResolveAdmission(w, i, cleanup))
  {
    CountPositive(w.admits, i);
    CountUpdate(w.admits, i, Resolved);
    var submitted := if w.admits[i].Submitted? then Some(w.admits[i].action) else None;
    var w' := w.(gate := Resolve(w.gate, submitted), admits := w.admits[i := Resolved]);
    forall k | 0 <= k < |w'.actions| ensures Accounted(w', k) {
      assert Accounted(w, k);
      if k in w.gate.actions {
        assert k in w'.gate.actions;
      } else {
        var m :| 0 <= m < |w.admits| && w.admits[m] == Submitted(k);
        if m == i {
          assert w'.gate.actions[|w.gate.actions|] == k;
        } else {
          assert w'.admits[m] == Submitted(k);
        }
      }
    }
    assert Inv(w');
    if w.gate.Sealed? && submitted.Some? {
      ActionStepKeepsInv(w', submitted.value, S.RejectGeneration(cleanup));
    }
  }

  // An admission that moves on without its action leaves the others' actions with whoever has them.
  lemma AdmitsStay(w: World, w': World)
    requires forall i :: 0 <= i < |w.actions| ==> Accounted(w, i)
    requires forall k :: k in w.gate.actions ==> k in w'.gate.actions
    requires forall m :: 0 <= m < |w.admits| && w.admits[m].Submitted? ==> m < |w'.admits| && w'.admits[m] == w.admits[m]
    ensures forall i :: 0 <= i < |w.actions| ==> Accounted(w', i)
  {
    forall i | 0 <= i < |w.actions| ensures Accounted(w', i) {
      assert Accounted(w, i);
      if i !in w.gate.actions {
        var m :| 0 <= m < |w.admits| && w.admits[m] == Submitted(i);
        assert w'.admits[m] == Submitted(i);
      }
    }
  }

  lemma ReserveKeepsInv(w: World)
    requires Inv(w)
    ensures Inv(Apply(w, AdmitReserve))
  {
    if w.gate.Open? {
      CountAppend(w.admits, Reserved);
      AdmitsStay(w, Apply(w, AdmitReserve));
    }
  }

  lemma FailKeepsInv(w: World, i: nat)
    requires Inv(w) && i < |w.admits| && w.admits[i] == Reserved
    ensures Inv(w.(admits := w.admits[i := SubmitFailed]))
  {
    CountUpdate(w.admits, i, SubmitFailed);
    AdmitsStay(w, w.(admits := w.admits[i := SubmitFailed]));
  }

  // The new action is with the call that submitted it, which is still counted.
  lemma SubmitKeepsInv(w: World, i: nat, action: S.World)
    requires Inv(w) && i < |w.admits| && w.admits[i] == Reserved && S.Inv(action)
    ensures Inv(w.(actions := w.actions + [action], admits := w.admits[i := Submitted(|w.actions|)]))
  {
    var w' := w.(actions := w.actions + [action], admits := w.admits[i := Submitted(|w.actions|)]);
    CountUpdate(w.admits, i, Submitted(|w.actions|));
    CountPositive(w.admits, i);
    AdmitsStay(w, w');
    assert w'.admits[i] == Submitted(|w.actions|);
    assert forall k :: 0 <= k < |w.actions| ==> w'.actions[k] == w.actions[k];
  }

  lemma AdmitStepKeepsInv(w: World, s: Step)
    requires Inv(w) && (s.AdmitReserve? || s.AdmitSubmit?)
    ensures Inv(Apply(w, s))
  {
    if s.AdmitReserve? {
      ReserveKeepsInv(w);
    } else if s.admit < |w.admits| && w.admits[s.admit] == Reserved {
      S.InitHasInv(s.owner, s.transfer);
      if s.accepted { SubmitKeepsInv(w, s.admit, S.Init(s.owner, s.transfer)); } else { FailKeepsInv(w, s.admit); }
    }
  }

  // A lane step that writes nothing down.
  lemma LaneMoveKeepsInv(w: World, s: Step)
    requires Inv(w) && (s.LaneWriteDone? || s.LaneCheckSettled? || s.LaneNeutralDone? || s.LaneExit?)
    ensures Inv(Apply(w, s))
  {
    if s.LaneCheckSettled? && Apply(w, s) != w { SettledIsQuiet(w); }
    SameActions(w, Apply(w, s));
  }

  lemma TraceGrows(trace: seq<Event>, e: Event)
    ensures forall x :: x in trace + [e] <==> x in trace || x == e
    ensures forall last :: NoReportAfter(trace, last) && !e.ReportDispatched? ==> NoReportAfter(trace + [e], last)
  {
    assert (trace + [e])[|trace|] == e;
  }

  // And one that does, for its neutral or its close.
  lemma LaneEventKeepsInv(w: World, s: Step)
    requires Inv(w) && (s.LaneNeutral? || s.LaneClose? || s.LaneCloseNeutral?)
    ensures Inv(Apply(w, s))
  {
    SameActions(w, Apply(w, s));
    TraceGrows(w.trace, if s.LaneClose? then CloseDrained else NeutralDispatched);
  }

  lemma SameActions(w: World, w': World)
    requires Inv(w) && w'.actions == w.actions && w'.admits == w.admits
    requires forall k :: k in w.gate.actions ==> k in w'.gate.actions
    ensures forall k :: 0 <= k < |w'.actions| ==> S.Inv(w'.actions[k]) && Accounted(w', k)
  {
    forall k | 0 <= k < |w'.actions| ensures S.Inv(w'.actions[k]) && Accounted(w', k) {
      assert Accounted(w, k);
    }
  }

  lemma CleanupKeepsInv(w: World)
    requires Inv(w)
    ensures Inv(Apply(w, RequestCleanup))
  {
    var w' := Apply(w, RequestCleanup);
    SameActions(w, w');
    assert w'.trace[|w.trace|] in w'.trace;
    assert forall e :: e in w'.trace <==> e in w.trace || e == w'.trace[|w.trace|];
  }

  // A dispatch that succeeds finds an action that has not ended, so the generation is not quiet.
  lemma DispatchKeepsInv(w: World, i: nat, gate: nat)
    requires Inv(w) && i < |w.actions| && w.lane.Idle?
    ensures Inv(Dispatch(w, i, gate))
    ensures w.neutralUsed ==> Dispatch(w, i, gate).trace == w.trace
  {
    ActionStepKeepsInv(w, i, S.GateDispatch(gate));
    var w' := Dispatch(w, i, gate);
    assert S.Inv(w.actions[i]);
    forall k | 0 <= k < |w'.actions| ensures S.Inv(w'.actions[k]) && Accounted(w', k) {
      assert Accounted(w, k);
    }
    if w'.trace != w.trace {
      assert !w.neutralUsed;
      assert forall e :: e in w'.trace <==> e in w.trace || e == w'.trace[|w.trace|];
      assert NeutralDispatched !in w.trace && CloseDrained !in w.trace;
    }
  }

  lemma StepKeepsInv(w: World, s: Step)
    requires Inv(w)
    ensures Inv(Apply(w, s))
  {
    match s
    case AdmitReserve => AdmitStepKeepsInv(w, s);
    case AdmitSubmit(_, _, _, _) => AdmitStepKeepsInv(w, s);
    case AdmitResolve(i, cleanup) =>
      if i < |w.admits| && (w.admits[i].Submitted? || w.admits[i].SubmitFailed?) { ResolveKeepsInv(w, i, cleanup); }
    case OnAction(i, step) => if i < |w.actions| { ActionStepKeepsInv(w, i, step); }
    case LaneDispatch(i, gate) => if i < |w.actions| && w.lane.Idle? { DispatchKeepsInv(w, i, gate); }
    case RequestCleanup => CleanupKeepsInv(w);
    case LaneNeutral => LaneEventKeepsInv(w, s);
    case LaneClose => LaneEventKeepsInv(w, s);
    case LaneCloseNeutral => LaneEventKeepsInv(w, s);
    case _ => LaneMoveKeepsInv(w, s);
  }

  lemma {:induction false} RunKeepsInv(w: World, steps: seq<Step>)
    requires Inv(w)
    ensures Inv(Run(w, steps))
    decreases steps
  {
    if steps != [] {
      StepKeepsInv(w, steps[0]);
      RunKeepsInv(Apply(w, steps[0]), steps[1..]);
    }
  }

  lemma {:induction false} ReachableHasInv(steps: seq<Step>)
    ensures Inv(Run(Init(), steps))
  {
    RunKeepsInv(Init(), steps);
  }

  // ---- Main results ------------------------------------------------------------------------------------

  // After the generation's release neutral, or after close has drained the lane, no report of the
  // generation is ever dispatched, whatever everybody else does.
  lemma {:induction false} NoReportAfterNeutral(steps: seq<Step>)
    ensures var trace := Run(Init(), steps).trace;
            forall i, j :: 0 <= i < j < |trace| && trace[i] in {NeutralDispatched, CloseDrained} ==>
              !trace[j].ReportDispatched?
  {
    ReachableHasInv(steps);
  }

  // The reservation counter is the number of admissions in flight, so it never underflows, and a
  // settled generation has spent the owner of every action ever admitted.
  lemma {:induction false} ReservationsCountAdmissions(steps: seq<Step>)
    ensures var w := Run(Init(), steps);
            && w.gate.reservations == CountInFlight(w.admits)
            && (ActionsSettled(w) && w.gate.Sealed? ==>
                  forall i :: 0 <= i < |w.actions| ==> w.actions[i].op.state.Ended? && S.Closed(w.actions[i].record))
  {
    ReachableHasInv(steps);
    var w := Run(Init(), steps);
    if ActionsSettled(w) && w.gate.Sealed? { SettledIsQuiet(w); }
  }

  // Sealing is permanent and every cleanup request, first or late, is answered with one record,
  // created once.
  lemma {:induction false} SealStays(w: World, steps: seq<Step>)
    requires w.gate.Sealed?
    ensures Run(w, steps).gate.Sealed? && Run(w, steps).gate.record == w.gate.record
    decreases steps
  {
    if steps != [] { SealStays(Apply(w, steps[0]), steps[1..]); }
  }

  ghost predicate OneRecord(trace: seq<Event>) {
    forall i, j | 0 <= i < |trace| && 0 <= j < |trace| && trace[i].CleanupAnswered? && trace[j].CleanupAnswered? ::
      trace[i].record == trace[j].record
  }

  lemma {:induction false} OneReleaseRecord(before: seq<Step>, after: seq<Step>)
    ensures var w := Run(Init(), before);
            var w' := Run(w, after);
            && (w.gate.Sealed? ==> w'.gate.Sealed? && w'.gate.record == w.gate.record)
            && OneRecord(w'.trace)
  {
    var w := Run(Init(), before);
    ReachableHasInv(before);
    RunKeepsInv(w, after);
    if w.gate.Sealed? { SealStays(w, after); }
  }
}
