/**
 * Why the lane fails an operation (crates/easycon-controller/src/session.rs): over every run of the lane, a
 * failure it tells has its cause among the things that happened to that operation or to its stream.
 */
module LaneFailures {
  import opened Wrappers
  import opened Report
  import opened SequencePlan
  import Timing
  import opened LaneQueue
  import V = LaneVerdicts
  import T = LaneStream

  // Everything on the lane.
  function OnLane(l: Lane): set<nat> {
    (set e | e in l.pending :: e.operation) + (if l.waiting.Some? then {l.waiting.value.operation} else {})
  }

  predicate Overflows(steps: seq<SequenceStep>, origin: nat, l: Lane) {
    PlanOf(steps, origin, l.desired, l.last, l.interval) == None
  }

  // The operations this step gives a cause to fail: a command the lane must refuse, a sequence that has no
  // plan, a report refused by the device and not by a cancel, and all there is when the stream is lost.
  function Fails(w: World, s: Step): set<nat> {
    var l := w.lane;
    match s
    case DirectCommand(op, _, _, found) => if !found.started || !l.connected || l.owner.Some? then {op} else {}
    case SequenceCommand(op, steps, now, found) =>
      if !found.started || !l.connected || l.owner.Some? || (l.pending == [] && Overflows(steps, now, l)) then {op} else {}
    case ActivateWaiting(cancelled, _) =>
      if l.pending == [] && l.waiting.Some? && l.waiting.value.operation !in cancelled
         && Overflows(l.waiting.value.steps, l.waiting.value.origin, l)
      then {l.waiting.value.operation} else {}
    case ObserveCancelled(_, _) => {}
    case DispatchPass(t) =>
      if !T.Writes(l, t) || !t.write.Refused? then {}
      else if !IsCleanup(l.pending[0]) then (if t.write.byCancel then {} else {l.pending[0].operation})
      else if t.write.lost || t.write.closed || !l.connected then OnLane(l) else {}
    case StreamLost(_) => OnLane(l)
    case Connected => {}
  }

  function FailedOver(w: World, steps: seq<Step>): set<nat>
    decreases steps
  {
    if steps == [] then {} else Fails(w, steps[0]) + FailedOver(Apply(w, steps[0]), steps[1..])
  }

  predicate EntriesCaused(q: seq<Scheduled>, caused: set<nat>) {
    forall e :: e in q && e.completion.FailureCleanup? ==> e.operation in caused
  }

  predicate ToldCaused(settled: seq<Settled>, caused: set<nat>) {
    forall s :: s in settled && s.verdict == Failed ==> s.operation in caused
  }

  predicate CauseInv(w: World, caused: set<nat>) {
    EntriesCaused(w.lane.pending, caused) && ToldCaused(w.settled, caused)
  }

  lemma RebuildCaused(l: Lane, caused: set<nat>)
    requires EntriesCaused(l.pending, caused)
    ensures EntriesCaused(Rebuild(l).pending, caused)
  {
    V.RefoldedKeepsEntries(l.pending, NEUTRAL);
    forall e | e in Rebuild(l).pending && e.completion.FailureCleanup? ensures e.operation in caused {
      var k :| 0 <= k < |Rebuild(l).pending| && Rebuild(l).pending[k] == e;
      assert l.pending[k] in l.pending;
    }
  }

  lemma CleanupCaused(l: Lane, op: nat, completion: Completion, now: nat, caused: set<nat>)
    requires EntriesCaused(l.pending, caused) && (completion.FailureCleanup? ==> op in caused)
    ensures EntriesCaused(Cleanup(l, op, completion, now).pending, caused)
  {
    RebuildCaused(l, caused);
  }

  lemma {:induction false} EntriesNoCleanup(plan: seq<Planned>, op: nat)
    ensures forall e :: e in Entries(plan, op) ==> e.completion.SequenceReport?
  {
    if plan != [] { EntriesNoCleanup(plan[1..], op); }
  }

  lemma ScheduleCaused(l: Lane, s: Waiting, now: nat, caused: set<nat>)
    requires EntriesCaused(l.pending, caused) && (Overflows(s.steps, s.origin, l) ==> s.operation in caused)
    ensures EntriesCaused(Schedule(l, s, now).pending, caused)
  {
    var plan := PlanOf(s.steps, s.origin, l.desired, l.last, l.interval);
    if plan == None {
      CleanupCaused(l.(pending := Without(l.pending, s.operation)), s.operation, FailureCleanup(true), now, caused);
    } else {
      EntriesNoCleanup(plan.value, s.operation);
    }
  }

  lemma ObserveCaused(l: Lane, cancelled: set<nat>, now: nat, caused: set<nat>)
    requires EntriesCaused(l.pending, caused)
    ensures EntriesCaused(Observe(l, cancelled, now).pending, caused)
  {
    if l.pending == [] && l.waiting.Some? && l.waiting.value.operation in cancelled {
      CleanupCaused(l.(waiting := None), l.waiting.value.operation, CancelCleanup(true), now, caused);
    } else {
      var i := FirstCancelled(l.pending, cancelled);
      if i < |l.pending| {
        var op := l.pending[i].operation;
        CleanupCaused(l.(pending := Without(l.pending, op)), op, CancelCleanup(l.owner == Some(op)), now, caused);
      }
    }
  }

  lemma CommandCaused(w: World, s: Step, caused: set<nat>)
    requires CauseInv(w, caused) && Enabled(w, s) && (s.DirectCommand? || s.SequenceCommand?)
    ensures CauseInv(Apply(w, s), caused + Fails(w, s))
  {
    if s.SequenceCommand? && w.lane.pending == [] {
      ScheduleCaused(w.lane.(owner := Some(s.operation)), Waiting(s.operation, s.steps, s.now), s.now, caused + Fails(w, s));
    }
  }

  lemma ActivateCaused(w: World, cancelled: set<nat>, now: nat, caused: set<nat>)
    requires CauseInv(w, caused)
    ensures CauseInv(Apply(w, ActivateWaiting(cancelled, now)), caused + Fails(w, ActivateWaiting(cancelled, now)))
  {
    var l := w.lane;
    if l.pending == [] && l.waiting.Some? {
      var taken := l.(waiting := None);
      var more := caused + Fails(w, ActivateWaiting(cancelled, now));
      if l.waiting.value.operation in cancelled {
        CleanupCaused(taken, l.waiting.value.operation, CancelCleanup(true), now, more);
      } else {
        ScheduleCaused(taken, l.waiting.value, now, more);
      }
    }
  }

  lemma {:induction false} AllSettledOps(q: seq<Scheduled>, v: Verdict)
    ensures forall s :: s in AllSettled(q, v) ==> exists e :: e in q && e.operation == s.operation
  {
    forall s | s in AllSettled(q, v) ensures exists e :: e in q && e.operation == s.operation {
      var k :| 0 <= k < |AllSettled(q, v)| && AllSettled(q, v)[k] == s;
      assert q[k] in q;
    }
  }

  lemma DrainTold(l: Lane, closeOk: bool)
    ensures ToldCaused(FailPending(l, closeOk).settled, OnLane(l)) && FailPending(l, closeOk).lane.pending == []
  {
    AllSettledOps(l.pending, if closeOk then Failed else StrictlyFailed);
  }

  lemma SealTold(l: Lane, op: nat)
    ensures ToldCaused(SealAll(l, op).settled, {}) && SealAll(l, op).lane.pending == []
  {
    T.AllSettledAs(l.pending, StrictlyFailed);
  }

  lemma {:induction false} LessOnLane(l: Lane, op: nat)
    requires l.pending != []
    ensures OnLane(l.(pending := Without(l.pending[1..], op))) <= OnLane(l)
  {
    assert forall e :: e in l.pending[1..] ==> e in l.pending;
  }

  lemma CleanupRefusedCaused(l: Lane, head: Scheduled, write: Write, caused: set<nat>)
    requires write.Refused? && EntriesCaused(l.pending, caused)
    requires head.completion.FailureCleanup? ==> head.operation in caused
    requires IsCleanup(head) && (write.lost || !l.connected ==> OnLane(l) <= caused)
    ensures var r := CleanupRefused(l, head, write); EntriesCaused(r.lane.pending, caused) && ToldCaused(r.settled, caused)
  {
    if write.lost && !write.reclosed { SealTold(l, head.operation); }
    else if write.lost || !l.connected { DrainTold(l, write.drained); }
    else { RebuildCaused(l, caused); }
  }

  lemma RefusedCaused(l: Lane, t: Turn, caused: set<nat>)
    requires l.pending != [] && t.write.Refused? && EntriesCaused(l.pending, caused)
    requires !IsCleanup(l.pending[0]) && !t.write.byCancel ==> l.pending[0].operation in caused
    requires IsCleanup(l.pending[0]) && (t.write.lost || t.write.closed || !l.connected) ==> OnLane(l) <= caused
    ensures var r := WriteRefused(l.(pending := l.pending[1..]), l.pending[0], t);
            EntriesCaused(r.lane.pending, caused) && ToldCaused(r.settled, caused)
  {
    var op, w := l.pending[0].operation, t.write;
    assert l.pending[0] in l.pending;
    if w.unclosed {
      SealTold(l.(pending := l.pending[1..]), op);
    } else {
      var rest := l.(pending := Without(l.pending[1..], op), desired := NEUTRAL, connected := l.connected && !w.closed);
      assert EntriesCaused(rest.pending, caused);
      if IsCleanup(l.pending[0]) {
        LessOnLane(l, op);
        CleanupRefusedCaused(LaneQueue.Release(rest, op), l.pending[0], w, caused);
      } else {
        var release := l.owner == Some(op);
        CleanupCaused(rest, op, if w.byCancel then CancelCleanup(release) else FailureCleanup(release), t.later, caused);
      }
    }
  }

  lemma AcceptedCaused(l: Lane, at: nat, caused: set<nat>)
    requires l.pending != [] && EntriesCaused(l.pending, caused)
    ensures var r := WriteAccepted(l.(pending := l.pending[1..]), l.pending[0], at);
            EntriesCaused(r.lane.pending, caused) && ToldCaused(r.settled, caused)
  {
    assert l.pending[0] in l.pending;
    assert forall e :: e in l.pending[1..] ==> e in l.pending;
  }

  lemma PostponedCaused(l: Lane, due: nat, caused: set<nat>)
    requires EntriesCaused(l.pending, caused) && l.pending != []
    ensures EntriesCaused([l.pending[0].(due := due)] + l.pending[1..], caused)
  {
    assert l.pending[0] in l.pending;
    assert forall e :: e in l.pending[1..] ==> e in l.pending;
  }

  lemma PassCaused(w: World, t: Turn, caused: set<nat>)
    requires CauseInv(w, caused)
    ensures CauseInv(Apply(w, DispatchPass(t)), caused + Fails(w, DispatchPass(t)))
  {
    var l := w.lane;
    var more := caused + Fails(w, DispatchPass(t));
    T.WritesExactly(l, t);
    if l.pending != [] && l.pending[0].due <= t.now {
      if !IsCleanup(l.pending[0]) && l.pending[0].operation in t.cancelled {
        ObserveCaused(l, t.cancelled, t.later, more);
      } else if Timing.Earliest(l.last, l.interval) > t.now {
        PostponedCaused(l, Timing.Earliest(l.last, l.interval), more);
      } else if t.write.Accepted? {
        AcceptedCaused(l, t.write.at, more);
      } else {
        RefusedCaused(l, t, more);
      }
    }
  }

  lemma LostCaused(w: World, closeOk: bool, caused: set<nat>)
    requires CauseInv(w, caused)
    ensures CauseInv(Apply(w, StreamLost(closeOk)), caused + OnLane(w.lane))
  {
    DrainTold(w.lane.(desired := NEUTRAL), closeOk);
  }

  lemma StepCaused(w: World, s: Step, caused: set<nat>)
    requires CauseInv(w, caused)
    ensures CauseInv(Apply(w, s), caused + Fails(w, s))
  {
    if Enabled(w, s) {
      match s
      case DirectCommand(_, _, _, _) => CommandCaused(w, s, caused);
      case SequenceCommand(_, _, _, _) => CommandCaused(w, s, caused);
      case ActivateWaiting(cancelled, now) => ActivateCaused(w, cancelled, now, caused);
      case ObserveCancelled(cancelled, now) => ObserveCaused(w.lane, cancelled, now, caused);
      case DispatchPass(t) => PassCaused(w, t, caused);
      case StreamLost(closeOk) => LostCaused(w, closeOk, caused);
      case Connected =>
    }
  }

  lemma {:induction false} RunCaused(w: World, steps: seq<Step>, caused: set<nat>)
    requires CauseInv(w, caused)
    ensures CauseInv(Run(w, steps), caused + FailedOver(w, steps))
    decreases steps
  {
    if steps == [] {
      assert caused + {} == caused;
    } else {
      StepCaused(w, steps[0], caused);
      RunCaused(Apply(w, steps[0]), steps[1..], caused + Fails(w, steps[0]));
      assert caused + Fails(w, steps[0]) + FailedOver(Apply(w, steps[0]), steps[1..]) == caused + FailedOver(w, steps);
    }
  }

  // Nobody is failed without a cause: it was refused at once, it had no plan, its report was refused and not
  // by its cancel, or the stream was lost while it was on the lane.
  lemma {:induction false} FailuresAreTrue(interval: nat, steps: seq<Step>, op: nat)
    requires Settled(op, Failed) in Run(Init(interval), steps).settled
    ensures op in FailedOver(Init(interval), steps)
  {
    RunCaused(Init(interval), steps, {});
  }
}
