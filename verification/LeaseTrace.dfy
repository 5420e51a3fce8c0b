/**
 * What the trace of an Automation generation records: each report of one of its actions that was
 * ever dispatched, once, and its release neutral, at most once.
 */
module LeaseTrace {
  import opened Wrappers
  import S = Settlement
  import L = Lease

  // The record has left `NotDispatched` through a gate and still has its owner or claim to give.
  predicate Underway(r: S.Record) {
    r.Outstanding? || r.FullAcceptedReserved? || r.ClaimingFull? || r.ClaimedFull?
  }

  // Only a dispatch moves a record under way, and no step brings it back.
  lemma OnlyDispatchStarts(w: S.World, s: S.Step)
    requires !s.GateDispatch?
    ensures var w' := S.Apply(w, s);
            && (Underway(w'.record) ==> Underway(w.record))
            && (w'.record.NotDispatched? ==> w.record.NotDispatched?)
            && (w'.reserved ==> w.reserved || Underway(w.record))
  {
  }

  lemma DispatchStarts(w: S.World, gate: nat)
    ensures var w' := S.Apply(w, S.GateDispatch(gate));
            && w'.reserved == w.reserved
            && (w'.record == w.record || (w.record.NotDispatched? && w'.record.Outstanding?))
  {
  }

  predicate Shown(trace: seq<L.Event>, i: nat, a: S.World) {
    && (Underway(a.record) || a.reserved ==> L.ReportDispatched(i) in trace)
    && (L.ReportDispatched(i) in trace ==> !a.record.NotDispatched?)
  }

  predicate Once(trace: seq<L.Event>, e: L.Event) {
    forall i, j :: 0 <= i < |trace| && 0 <= j < |trace| && trace[i] == e && trace[j] == e ==> i == j
  }

  ghost predicate TraceInv(w: L.World) {
    && (forall i :: 0 <= i < |w.actions| ==> Shown(w.trace, i, w.actions[i]) && Once(w.trace, L.ReportDispatched(i)))
    && (forall i: nat :: L.ReportDispatched(i) in w.trace ==> i < |w.actions|)
    && (L.NeutralDispatched in w.trace ==> w.neutralUsed)
    && Once(w.trace, L.NeutralDispatched)
    && (w.lane.NeutralReady? ==> !w.neutralUsed)
    && (w.neutralUsed ==> L.NeutralDispatched in w.trace)
    && (w.lane.Closing? || w.lane.Closed? <==> L.CloseDrained in w.trace)
  }

  lemma OnceMore(trace: seq<L.Event>, e: L.Event, x: L.Event)
    requires Once(trace, x) && (x == e ==> x !in trace)
    ensures Once(trace + [e], x)
    ensures forall y :: y in trace + [e] <==> y in trace || y == e
  {
    assert (trace + [e])[|trace|] == e;
  }

  // A step that leaves the actions alone and adds at most one event that is not a report's.
  lemma OtherEvent(w: L.World, w': L.World, e: L.Event)
    requires TraceInv(w) && w'.actions == w.actions && !e.ReportDispatched?
    requires w'.trace == w.trace || w'.trace == w.trace + [e]
    ensures forall i :: 0 <= i < |w'.actions| ==> Shown(w'.trace, i, w'.actions[i]) && Once(w'.trace, L.ReportDispatched(i))
    ensures forall i: nat :: L.ReportDispatched(i) in w'.trace ==> i < |w'.actions|
  {
    forall i | 0 <= i < |w'.actions| ensures Shown(w'.trace, i, w'.actions[i]) && Once(w'.trace, L.ReportDispatched(i)) {
      OnceMore(w.trace, e, L.ReportDispatched(i));
    }
  }

  lemma ActionKeeps(w: L.World, i: nat, s: S.Step)
    requires TraceInv(w) && i < |w.actions| && !s.GateDispatch?
    ensures TraceInv(L.OnSettlement(w, i, s))
  {
    OnlyDispatchStarts(w.actions[i], s);
    assert Shown(w.trace, i, w.actions[i]);
  }

  lemma DispatchKeeps(w: L.World, i: nat, gate: nat)
    requires TraceInv(w) && i < |w.actions| && w.lane.Idle?
    ensures TraceInv(L.Dispatch(w, i, gate))
  {
    DispatchStarts(w.actions[i], gate);
    assert Shown(w.trace, i, w.actions[i]);
    var w' := L.Dispatch(w, i, gate);
    if w'.trace != w.trace {
      OnceMore(w.trace, L.ReportDispatched(i), L.NeutralDispatched);
      forall k | 0 <= k < |w'.actions| ensures Shown(w'.trace, k, w'.actions[k]) && Once(w'.trace, L.ReportDispatched(k)) {
        OnceMore(w.trace, L.ReportDispatched(i), L.ReportDispatched(k));
        assert Shown(w.trace, k, w.actions[k]);
      }
    }
  }

  lemma LaneKeeps(w: L.World, s: L.Step)
    requires TraceInv(w)
    requires s.LaneNeutral? || s.LaneClose? || s.LaneCloseNeutral? || s.RequestCleanup?
    ensures TraceInv(L.Apply(w, s))
  {
    var w' := L.Apply(w, s);
    if w'.trace != w.trace {
      var e := w'.trace[|w.trace|];
      assert w'.trace == w.trace + [e];
      OtherEvent(w, w', e);
      OnceMore(w.trace, e, L.NeutralDispatched);
    }
  }

  lemma SubmitKeeps(w: L.World, s: L.Step)
    requires TraceInv(w) && s.AdmitSubmit?
    ensures TraceInv(L.Apply(w, s))
  {
    var w' := L.Apply(w, s);
    forall i | 0 <= i < |w'.actions| ensures Shown(w'.trace, i, w'.actions[i]) && Once(w'.trace, L.ReportDispatched(i)) {
      if i < |w.actions| { assert Shown(w.trace, i, w.actions[i]); }
    }
  }

  lemma StepKeeps(w: L.World, s: L.Step)
    requires TraceInv(w)
    ensures TraceInv(L.Apply(w, s))
  {
    match s
    case AdmitSubmit(_, _, _, _) => SubmitKeeps(w, s);
    case AdmitResolve(i, cleanup) => ResolveKeeps(w, i, cleanup);
    case OnAction(i, step) => if i < |w.actions| && !step.GateDispatch? { ActionKeeps(w, i, step); }
    case LaneDispatch(i, gate) => if i < |w.actions| && w.lane.Idle? { DispatchKeeps(w, i, gate); }
    case RequestCleanup => LaneKeeps(w, s);
    case LaneNeutral => LaneKeeps(w, s);
    case LaneClose => LaneKeeps(w, s);
    case LaneCloseNeutral => LaneKeeps(w, s);
    case _ =>
  }

  lemma ResolveKeeps(w: L.World, i: nat, cleanup: Option<nat>)
    requires TraceInv(w)
    ensures TraceInv(L.Apply(w, L.AdmitResolve(i, cleanup)))
  {
    if i < |w.admits| && w.admits[i].Submitted? && w.gate.Sealed? && w.admits[i].action < |w.actions| && w.gate.reservations > 0 {
      var w' := w.(gate := L.Resolve(w.gate, Some(w.admits[i].action)), admits := w.admits[i := L.Resolved]);
      assert TraceInv(w');
      ActionKeeps(w', w.admits[i].action, S.RejectGeneration(cleanup));
    }
  }

  lemma {:induction false} RunKeeps(w: L.World, steps: seq<L.Step>)
    requires TraceInv(w)
    ensures TraceInv(L.Run(w, steps))
    decreases steps
  {
    if steps != [] {
      StepKeeps(w, steps[0]);
      RunKeeps(L.Apply(w, steps[0]), steps[1..]);
    }
  }

  lemma EventIsOnce(w: L.World, i: nat)
    requires TraceInv(w) && i < |w.trace| && !w.trace[i].CleanupAnswered? && !w.trace[i].CloseDrained?
    ensures Once(w.trace, w.trace[i])
  {
    assert w.trace[i] in w.trace;
    if w.trace[i].ReportDispatched? { assert Once(w.trace, L.ReportDispatched(w.trace[i].action)); }
  }

  // Whatever anybody does: an action's report is traced at most once, it is traced if a write of it
  // was fully accepted or may still be, and if it is traced the action was dispatched; the generation
  // dispatches at most one release neutral, traced if it has; and a lane that closes has that traced.
  lemma {:induction false} TraceIsComplete(steps: seq<L.Step>)
    ensures var w := L.Run(L.Init(), steps);
            && (forall i, j :: 0 <= i < j < |w.trace| && w.trace[i] == w.trace[j] && !w.trace[i].CleanupAnswered? ==>
                  w.trace[i].CloseDrained?)
            && (w.neutralUsed <==> L.NeutralDispatched in w.trace)
            && (w.lane.Closing? || w.lane.Closed? <==> L.CloseDrained in w.trace)
            && forall i :: 0 <= i < |w.actions| ==>
                 && (w.actions[i].reserved || w.actions[i].record.Outstanding? ==> L.ReportDispatched(i) in w.trace)
                 && (L.ReportDispatched(i) in w.trace ==> !w.actions[i].record.NotDispatched?)
  {
    RunKeeps(L.Init(), steps);
    var w := L.Run(L.Init(), steps);
    forall i, j | 0 <= i < j < |w.trace| && !w.trace[i].CleanupAnswered? && !w.trace[i].CloseDrained?
      ensures w.trace[i] != w.trace[j] {
      EventIsOnce(w, i);
    }
    forall i | 0 <= i < |w.actions|
      ensures w.actions[i].reserved || w.actions[i].record.Outstanding? ==> L.ReportDispatched(i) in w.trace
      ensures L.ReportDispatched(i) in w.trace ==> !w.actions[i].record.NotDispatched? {
      assert Shown(w.trace, i, w.actions[i]);
    }
  }
}
