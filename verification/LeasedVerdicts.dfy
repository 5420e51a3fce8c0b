/**
 * What the lane tells the actions of an Automation lease, and why (crates/easycon-controller/src/session.rs):
 * over every run a cancellation or failure it tells has its cause among the steps, and what it sees cancelled
 * leaves the queue.
 */
module LeasedVerdicts {
  import opened Wrappers
  import opened LaneRecord
  import opened LeasedLane
  import S = Settlement
  import Q = LaneQueue
  import L = LaneSettlement

  // The operations this step gives a cause to be told that they are cancelled, or that they failed.
  datatype Causes = Causes(cancelled: set<nat>, failed: set<nat>)

  function Refusing(w: World, r: Refusal): Causes {
    if !InFlight(w.phase) || r.strictly then Causes({}, {})
    else if r.byCancel then Causes({w.phase.flight.operation}, {})
    else Causes({}, {w.phase.flight.operation})
  }

  function Telling(q: seq<Entry>, v: Q.Verdict): Causes {
    Causes(if v.Cancelled? then All(q) else {}, if v.Failed? then All(q) else {})
  }

  function CausesOf(w: World, s: Step): Causes {
    match s
    case Command(op, a, _) =>
      if op !in w.ops then Causes({}, {})
      else if w.ops[op].op.reason.Some? || w.sealed then Causes({op}, {})
      else if !L.Look(w.ops[op]).started || !a.connected || !a.allowed then Causes({}, {op})
      else Causes({}, {})
    case Observe(_) => Causes(CancelledReports(w), {})
    case DropSealed(_) => Causes(OpenReports(w), {})
    case EndRefused(r, _) => Refusing(w, r)
    case SeeUnclaimed(r, _) => if r.Some? then Refusing(w, r.value) else Causes({}, {})
    case CleanupLost(v, _) => Telling(w.queue, v)
    case Drain(v, _) => Telling(w.queue, v)
    case _ => Causes({}, {})
  }

  function Plus(a: Causes, b: Causes): Causes {
    Causes(a.cancelled + b.cancelled, a.failed + b.failed)
  }

  function CausesOver(w: World, steps: seq<Step>): Causes
    decreases steps
  {
    if steps == [] then Causes({}, {})
    else Plus(if Enabled(w, steps[0]) then CausesOf(w, steps[0]) else Causes({}, {}), CausesOver(Apply(w, steps[0]), steps[1..]))
  }

  predicate EntryCaused(e: Entry, c: Causes) {
    e.Cleanup? ==> e.operation in if e.cancels then c.cancelled else c.failed
  }

  predicate QueueCaused(q: seq<Entry>, c: Causes) {
    forall e :: e in q ==> EntryCaused(e, c)
  }

  predicate CallCaused(s: Q.Settled, c: Causes) {
    && (s.verdict.Cancelled? ==> s.operation in c.cancelled)
    && (s.verdict.Failed? ==> s.operation in c.failed)
  }

  predicate CallsCaused(calls: seq<Q.Settled>, c: Causes) {
    forall s :: s in calls ==> CallCaused(s, c)
  }

  predicate CauseInv(w: World, c: Causes) {
    QueueCaused(w.queue, c) && CallsCaused(w.told, c)
  }

  lemma CausesGrow(w: World, c: Causes, d: Causes)
    requires CauseInv(w, c)
    ensures CauseInv(w, Plus(c, d))
  {
    forall e | e in w.queue ensures EntryCaused(e, Plus(c, d)) { assert EntryCaused(e, c); }
    forall s | s in w.told ensures CallCaused(s, Plus(c, d)) { assert CallCaused(s, c); }
  }

  lemma LeaveCaused(w: World, queue: seq<Entry>, calls: seq<Q.Settled>, errors: L.Errors, c: Causes)
    requires CauseInv(w, c) && QueueCaused(queue, c) && CallsCaused(calls, c)
    ensures CauseInv(Leave(w, queue, calls, errors), c)
  {
  }

  lemma OutCaused(w: World, who: set<nat>, v: Q.Verdict, errors: L.Errors, c: Causes)
    requires CauseInv(w, c)
    requires forall op :: op in who && Holds(w.queue, op) ==> CallCaused(Q.Settled(op, v), c)
    ensures CauseInv(Out(w, who, v, errors), c)
  {
    var calls := Calls(w.queue, who, v);
    forall s | s in calls ensures CallCaused(s, c) {
      assert s == Q.Settled(s.operation, v);
    }
    LeaveCaused(w, Without(w.queue, who), calls, errors, c);
  }

  lemma ReplacedCaused(q: seq<Entry>, op: nat, cancels: bool, c: Causes)
    requires QueueCaused(q, c) && op in if cancels then c.cancelled else c.failed
    ensures QueueCaused(Replaced(q, op, cancels), c)
  {
    forall e | e in Replaced(q, op, cancels) ensures EntryCaused(e, c) {
      if e != Cleanup(op, cancels) { assert e in q; }
    }
  }

  lemma RefuseCaused(w: World, r: Refusal, errors: L.Errors, c: Causes)
    requires CauseInv(w, c) && InFlight(w.phase)
    requires !r.strictly ==> w.phase.flight.operation in if r.byCancel then c.cancelled else c.failed
    ensures CauseInv(Refuse(w, r, errors), c)
  {
    var op := w.phase.flight.operation;
    if r.strictly { OutCaused(w, All(w.queue), Q.StrictlyFailed, errors, c); }
    else if w.sealed { OutCaused(w, {op}, if r.byCancel then Q.Cancelled else Q.Failed, errors, c); }
    else { ReplacedCaused(w.queue, op, r.byCancel, c); }
  }

  lemma HandleCaused(w: World, op: nat, a: Admission, errors: L.Errors, c: Causes)
    requires CauseInv(w, c) && op in w.ops
    requires w.ops[op].op.reason.Some? || w.sealed ==> op in c.cancelled
    requires !(w.ops[op].op.reason.Some? || w.sealed) && (!L.Look(w.ops[op]).started || !a.connected || !a.allowed) ==> op in c.failed
    ensures CauseInv(Handle(w, op, a, errors), c)
  {
  }

  lemma CleanupCaused(w: World, c: Causes)
    requires CauseInv(w, c) && w.queue != [] && w.queue[0].Cleanup?
    ensures CallCaused(Q.Settled(w.queue[0].operation, VerdictOf(w.queue[0])), c)
  {
    assert EntryCaused(w.queue[0], c);
  }

  lemma LostCaused(w: World, v: Q.Verdict, c: Causes)
    requires CauseInv(w, c) && w.queue != [] && w.queue[0].Cleanup?
    requires (v.Cancelled? ==> All(w.queue) <= c.cancelled) && (v.Failed? ==> All(w.queue) <= c.failed)
    ensures CallsCaused(LostCalls(w.queue, v), c)
  {
    CleanupCaused(w, c);
    var rest := Calls(w.queue, All(w.queue) - {w.queue[0].operation}, v);
    forall s | s in LostCalls(w.queue, v) ensures CallCaused(s, c) {
      if s != LostCalls(w.queue, v)[0] { assert s in rest; }
    }
  }

  lemma ObserveCaused(w: World, errors: L.Errors, c: Causes)
    requires CauseInv(w, c) && CancelledReports(w) <= c.cancelled
    ensures CauseInv(Observed(w, errors), c)
  {
    if w.sealed {
      OutCaused(w, CancelledReports(w), Q.Cancelled, errors, c);
    } else {
      var i := FirstOf(w.queue, CancelledReports(w));
      if i < |w.queue| { ReplacedCaused(w.queue, w.queue[i].operation, true, c); }
    }
  }

  lemma WriteStepCaused(w: World, s: Step, c: Causes)
    requires CauseInv(w, c) && Enabled(w, s)
    requires s.EndRefused? || s.SeeUnclaimed? || s.FinishWrite?
    ensures CauseInv(Apply(w, s), Plus(c, CausesOf(w, s)))
  {
    var d := Plus(c, CausesOf(w, s));
    CausesGrow(w, c, CausesOf(w, s));
    match s
    case EndRefused(r, errors) => RefuseCaused(w, r, errors, d);
    case SeeUnclaimed(r, errors) =>
      if r.Some? { RefuseCaused(w, r.value, errors, d); }
      else { OutCaused(w, {w.phase.flight.operation}, Q.Succeeded, errors, d); }
    case FinishWrite(errors) =>
      var w1 := w.(ops := L.Act(w.ops, w.phase.flight.operation, S.FinishSuccess));
      OutCaused(w1, {w.phase.flight.operation}, Q.Succeeded, errors, d);
  }

  lemma LaneStepCaused(w: World, s: Step, c: Causes)
    requires CauseInv(w, c) && Enabled(w, s)
    requires s.Observe? || s.DropSealed? || s.CleanupWritten? || s.CleanupLost? || s.Drain?
    ensures CauseInv(Apply(w, s), Plus(c, CausesOf(w, s)))
  {
    var d := Plus(c, CausesOf(w, s));
    CausesGrow(w, c, CausesOf(w, s));
    match s
    case Observe(errors) => ObserveCaused(w, errors, d);
    case DropSealed(errors) => OutCaused(w, OpenReports(w), Q.Cancelled, errors, d);
    case CleanupWritten(errors) =>
      CleanupCaused(w, d);
      OutCaused(w, {w.queue[0].operation}, VerdictOf(w.queue[0]), errors, d);
    case CleanupLost(v, errors) =>
      LostCaused(w, v, d);
      LeaveCaused(w, [], LostCalls(w.queue, v), errors, d);
    case Drain(v, errors) => OutCaused(w, All(w.queue), v, errors, d);
  }

  lemma CommandCaused(w: World, s: Step, c: Causes)
    requires CauseInv(w, c) && Enabled(w, s) && s.Command?
    ensures CauseInv(Apply(w, s), Plus(c, CausesOf(w, s)))
  {
    CausesGrow(w, c, CausesOf(w, s));
    HandleCaused(w, s.operation, s.admission, s.errors, Plus(c, CausesOf(w, s)));
  }

  lemma StepCaused(w: World, s: Step, c: Causes)
    requires CauseInv(w, c) && Enabled(w, s)
    ensures CauseInv(Apply(w, s), Plus(c, CausesOf(w, s)))
  {
    if s.Command? { CommandCaused(w, s, c); }
    else if s.EndRefused? || s.SeeUnclaimed? || s.FinishWrite? { WriteStepCaused(w, s, c); }
    else if s.Observe? || s.DropSealed? || s.CleanupWritten? || s.CleanupLost? || s.Drain? { LaneStepCaused(w, s, c); }
    else { CausesGrow(w, c, CausesOf(w, s)); }
  }

  lemma {:induction false} RunCaused(w: World, steps: seq<Step>, c: Causes)
    requires CauseInv(w, c)
    ensures CauseInv(Run(w, steps), Plus(c, CausesOver(w, steps)))
    decreases steps
  {
    if steps == [] {
      assert Plus(c, Causes({}, {})) == c;
    } else {
      var d := if Enabled(w, steps[0]) then CausesOf(w, steps[0]) else Causes({}, {});
      if Enabled(w, steps[0]) { StepCaused(w, steps[0], c); } else { CausesGrow(w, c, d); }
      RunCaused(Apply(w, steps[0]), steps[1..], Plus(c, d));
      PlusIsAssociative(c, d, CausesOver(Apply(w, steps[0]), steps[1..]));
    }
  }

  lemma PlusIsAssociative(a: Causes, b: Causes, c: Causes)
    ensures Plus(Plus(a, b), c) == Plus(a, Plus(b, c))
  {
  }

  // ---- Main results ------------------------------------------------------------------------------------------------------

  // No action of a lease is told that it was cancelled, or that it failed, without a cause in the run: a cancel
  // of it or the seal of its generation, a write refused by its cancel or not, a command the lane had to refuse,
  // or the loss or close of the lane while it was on it.
  lemma {:induction false} LeaseVerdictsAreTrue(steps: seq<Step>, op: nat)
    ensures var told, c := Run(Init(), steps).told, CausesOver(Init(), steps);
            && (Q.Settled(op, Q.Cancelled) in told ==> op in c.cancelled)
            && (Q.Settled(op, Q.Failed) in told ==> op in c.failed)
  {
    RunCaused(Init(), steps, Causes({}, {}));
    var told, c := Run(Init(), steps).told, Plus(Causes({}, {}), CausesOver(Init(), steps));
    if Q.Settled(op, Q.Cancelled) in told { assert CallCaused(Q.Settled(op, Q.Cancelled), c); }
    if Q.Settled(op, Q.Failed) in told { assert CallCaused(Q.Settled(op, Q.Failed), c); }
  }

  // The generation is sealed exactly from the first request on.
  lemma {:induction false} SealedIsAsked(steps: seq<Step>)
    ensures Run(Init(), steps).sealed <==> Seal in steps
  {
    RunSeals(Init(), steps);
  }

  lemma {:induction false} RunSeals(w: World, steps: seq<Step>)
    ensures Run(w, steps).sealed <==> w.sealed || Seal in steps
    decreases steps
  {
    if steps != [] {
      StepSeals(w, steps[0]);
      RunSeals(Apply(w, steps[0]), steps[1..]);
    }
  }

  lemma StepSeals(w: World, s: Step)
    ensures Apply(w, s).sealed <==> w.sealed || s == Seal
  {
  }

  // What a command of the lease is told at once, check by check; if nothing, its report is queued last.
  lemma LeaseCommandIsAnswered(w: World, op: nat, a: Admission, errors: L.Errors)
    requires Enabled(w, Command(op, a, errors))
    ensures var w' := Apply(w, Command(op, a, errors));
            var cancelled := w.ops[op].op.reason.Some? || w.sealed;
            var refused := !L.Look(w.ops[op]).started || !a.connected || !a.allowed;
            && (a.broken ==> w'.told == w.told + [Q.Settled(op, Q.StrictlyFailed)])
            && (!a.broken && cancelled ==> w'.told == w.told + [Q.Settled(op, Q.Cancelled)])
            && (!a.broken && !cancelled && refused ==> w'.told == w.told + [Q.Settled(op, Q.Failed)])
            && (a.broken || cancelled || refused ==> w'.queue == w.queue)
            && (!a.broken && !cancelled && !refused ==>
                  w'.told == w.told && w'.queue == w.queue + [Report(op)] && w'.ops[op].op.state.Running?)
  {
  }

  // What the lane sees cancelled is off the queue, all of it once the generation is sealed, and told so; before
  // that the first one, with a cleanup of it in front; and everybody else stays.
  lemma SeenCancelledLeaves(w: World, errors: L.Errors, e: Entry)
    requires Inv(w) && w.phase.Idle? && e in w.queue && e.Report? && e.operation in w.ops
    ensures var w' := Apply(w, Observe(errors));
            var cancelled := w.ops[e.operation].op.reason.Some?;
            && (!cancelled ==> e in w'.queue)
            && (cancelled && w.sealed ==> !Holds(w'.queue, e.operation) && Q.Settled(e.operation, Q.Cancelled) in w'.told)
            && (cancelled && !w.sealed ==> w'.queue != [] && w'.queue[0].Cleanup? && w'.queue[0].cancels)
            && (e !in w'.queue && !w.sealed ==> w'.queue[0] == Cleanup(e.operation, true))
  {
    if w.sealed { SealedLeaves(w, errors, e); } else { OpenLeaves(w, errors, e); }
  }

  lemma SealedLeaves(w: World, errors: L.Errors, e: Entry)
    requires w.sealed && e in w.queue && e.Report? && e.operation in w.ops
    requires Distinct(w.queue)
    ensures var w' := Observed(w, errors);
            if w.ops[e.operation].op.reason.Some?
            then !Holds(w'.queue, e.operation) && Q.Settled(e.operation, Q.Cancelled) in w'.told
            else e in w'.queue
  {
    if w.ops[e.operation].op.reason.Some? {
      assert e.operation in CancelledReports(w) && Holds(w.queue, e.operation);
      assert Q.Settled(e.operation, Q.Cancelled) in Calls(w.queue, CancelledReports(w), Q.Cancelled);
    }
  }

  lemma OpenLeaves(w: World, errors: L.Errors, e: Entry)
    requires !w.sealed && e in w.queue && e.Report? && e.operation in w.ops
    requires Distinct(w.queue)
    ensures var w' := Observed(w, errors);
            var cancelled := w.ops[e.operation].op.reason.Some?;
            && (!cancelled ==> e in w'.queue)
            && (cancelled ==> w'.queue != [] && w'.queue[0].Cleanup? && w'.queue[0].cancels)
            && (e !in w'.queue ==> w'.queue[0] == Cleanup(e.operation, true))
  {
    var who := CancelledReports(w);
    var i := FirstOf(w.queue, who);
    if i == |w.queue| {
      NoneFirst(w.queue, who, e);
    } else {
      assert w.queue[i] in w.queue;
      if w.queue[i].operation == e.operation { SameEntry(w.queue, w.queue[i], e); }
    }
  }

  lemma {:induction false} NoneFirst(q: seq<Entry>, who: set<nat>, e: Entry)
    requires FirstOf(q, who) == |q| && e in q && e.Report?
    ensures e.operation !in who
  {
    if e != q[0] { NoneFirst(q[1..], who, e); }
  }

  lemma SameEntry(q: seq<Entry>, d: Entry, e: Entry)
    requires Distinct(q) && d in q && e in q && d.operation == e.operation
    ensures d == e
  {
  }
}
