/**
 * What becomes of an operation the lane sees cancelled (crates/easycon-controller/src/session.rs): from then
 * on nothing but neutral cleanups is on the lane for it, so none of its reports is written any more.
 */
module LaneCancel {
  import opened Wrappers
  import opened Report
  import opened SequencePlan
  import Timing
  import opened LaneQueue
  import V = LaneVerdicts

  predicate OnlyCleanups(l: Lane, op: nat) {
    && !(l.waiting.Some? && l.waiting.value.operation == op)
    && forall e :: e in l.pending && e.operation == op ==> IsCleanup(e)
  }

  // The lane sees it: in this step it looks at the first report of a cancelled operation in its queue, at the
  // sequence that waits for an empty queue, or at a due report it is about to write, and this is the one.
  ghost predicate Sees(l: Lane, s: Step, op: nat) {
    match s
    case ObserveCancelled(cancelled, _) => op in cancelled && (IsNext(l, op) || IsFirst(l, cancelled, op))
    case ActivateWaiting(cancelled, _) => op in cancelled && IsNext(l, op)
    case DispatchPass(t) =>
      op in t.cancelled && IsFirst(l, t.cancelled, op) && l.pending[0].due <= t.now
      && !IsCleanup(l.pending[0]) && l.pending[0].operation == op
    case _ => false
  }

  predicate IsNext(l: Lane, op: nat) {
    l.pending == [] && l.waiting.Some? && l.waiting.value.operation == op
  }

  ghost predicate IsFirst(l: Lane, cancelled: set<nat>, op: nat) {
    exists k :: 0 <= k < |l.pending| && l.pending[k].operation == op && !IsCleanup(l.pending[k])
                && forall j :: 0 <= j < k ==> IsCleanup(l.pending[j]) || l.pending[j].operation !in cancelled
  }

  lemma RebuildOnly(l: Lane, op: nat)
    requires OnlyCleanups(l, op)
    ensures OnlyCleanups(Rebuild(l), op)
  {
    V.RefoldedKeepsEntries(l.pending, NEUTRAL);
    forall e | e in Rebuild(l).pending && e.operation == op ensures IsCleanup(e) {
      var k :| 0 <= k < |Rebuild(l).pending| && Rebuild(l).pending[k] == e;
      assert l.pending[k] in l.pending;
    }
  }

  lemma CleanupOnly(l: Lane, x: nat, completion: Completion, now: nat, op: nat)
    requires OnlyCleanups(l, op) && (completion.CancelCleanup? || completion.FailureCleanup?)
    ensures OnlyCleanups(Cleanup(l, x, completion, now), op)
  {
    RebuildOnly(l, op);
  }

  lemma {:induction false} WithoutOnly(l: Lane, op: nat)
    requires !(l.waiting.Some? && l.waiting.value.operation == op)
    ensures OnlyCleanups(l.(pending := Without(l.pending, op)), op)
  {
  }

  lemma {:induction false} WithoutOther(l: Lane, x: nat, op: nat)
    requires OnlyCleanups(l, op)
    ensures OnlyCleanups(l.(pending := Without(l.pending, x)), op)
  {
  }

  lemma {:induction false} EntriesOnly(plan: seq<Planned>, x: nat)
    ensures forall e :: e in Entries(plan, x) ==> e.operation == x
  {
    if plan != [] { EntriesOnly(plan[1..], x); }
  }

  lemma ScheduleOnly(l: Lane, w: Waiting, now: nat, op: nat)
    requires OnlyCleanups(l, op) && w.operation != op
    ensures OnlyCleanups(Schedule(l, w, now), op)
  {
    var plan := PlanOf(w.steps, w.origin, l.desired, l.last, l.interval);
    if plan == None {
      WithoutOther(l, w.operation, op);
      CleanupOnly(l.(pending := Without(l.pending, w.operation)), w.operation, FailureCleanup(true), now, op);
    } else {
      EntriesOnly(plan.value, w.operation);
    }
  }

  lemma ObserveOnly(l: Lane, cancelled: set<nat>, now: nat, op: nat)
    requires OnlyCleanups(l, op)
    ensures OnlyCleanups(Observe(l, cancelled, now), op)
  {
    if l.pending == [] && l.waiting.Some? && l.waiting.value.operation in cancelled {
      CleanupOnly(l.(waiting := None), l.waiting.value.operation, CancelCleanup(true), now, op);
    } else {
      var i := FirstCancelled(l.pending, cancelled);
      if i < |l.pending| {
        var x := l.pending[i].operation;
        WithoutOther(l, x, op);
        CleanupOnly(l.(pending := Without(l.pending, x)), x, CancelCleanup(l.owner == Some(x)), now, op);
      }
    }
  }

  lemma ObserveSees(w: World, cancelled: set<nat>, now: nat, op: nat)
    requires QueueInv(w) && op in cancelled && (IsNext(w.lane, op) || IsFirst(w.lane, cancelled, op))
    ensures OnlyCleanups(Observe(w.lane, cancelled, now), op)
  {
    var l := w.lane;
    if IsNext(l, op) {
      CleanupOnly(l.(waiting := None), op, CancelCleanup(true), now, op);
    } else {
      var k :| 0 <= k < |l.pending| && l.pending[k].operation == op && !IsCleanup(l.pending[k])
               && forall j :: 0 <= j < k ==> IsCleanup(l.pending[j]) || l.pending[j].operation !in cancelled;
      var i := FirstCancelled(l.pending, cancelled);
      assert i == k && l.pending[k] in l.pending;
      WithoutOnly(l, op);
      CleanupOnly(l.(pending := Without(l.pending, op)), op, CancelCleanup(l.owner == Some(op)), now, op);
    }
  }

  lemma SeesOnly(w: World, s: Step, op: nat)
    requires QueueInv(w) && Sees(w.lane, s, op)
    ensures OnlyCleanups(Apply(w, s).lane, op) && Apply(w, s).settled == w.settled
  {
    match s
    case ObserveCancelled(cancelled, now) => ObserveSees(w, cancelled, now, op);
    case ActivateWaiting(cancelled, now) =>
      CleanupOnly(w.lane.(waiting := None), op, CancelCleanup(true), now, op);
    case DispatchPass(t) => ObserveSees(w, t.cancelled, t.later, op);
  }

  // ---- And so it stays --------------------------------------------------------------------------------------------

  predicate CancelInv(w: World, op: nat) {
    op in w.admitted && OnlyCleanups(w.lane, op) && Settled(op, Succeeded) !in w.settled
  }

  lemma CommandOnly(w: World, s: Step, op: nat)
    requires QueueInv(w) && CancelInv(w, op) && Enabled(w, s) && (s.DirectCommand? || s.SequenceCommand?)
    ensures CancelInv(Apply(w, s), op)
  {
    if s.SequenceCommand? && w.lane.pending == [] {
      ScheduleOnly(w.lane.(owner := Some(s.operation)), Waiting(s.operation, s.steps, s.now), s.now, op);
    }
  }

  lemma ActivateOnly(w: World, cancelled: set<nat>, now: nat, op: nat)
    requires CancelInv(w, op)
    ensures CancelInv(Apply(w, ActivateWaiting(cancelled, now)), op)
  {
    var l := w.lane;
    if l.pending == [] && l.waiting.Some? {
      var taken := l.(waiting := None);
      if l.waiting.value.operation in cancelled {
        CleanupOnly(taken, l.waiting.value.operation, CancelCleanup(true), now, op);
      } else {
        ScheduleOnly(taken, l.waiting.value, now, op);
      }
    }
  }

  lemma {:induction false} AllSettledNever(q: seq<Scheduled>, v: Verdict, op: nat)
    requires v != Succeeded
    ensures Settled(op, Succeeded) !in AllSettled(q, v)
  {
    if q != [] { AllSettledNever(q[1..], v, op); }
  }

  lemma DrainOnly(l: Lane, closeOk: bool, op: nat)
    ensures OnlyCleanups(FailPending(l, closeOk).lane, op) && Settled(op, Succeeded) !in FailPending(l, closeOk).settled
  {
    AllSettledNever(l.pending, if closeOk then Failed else StrictlyFailed, op);
  }

  lemma AcceptedOnly(l: Lane, at: nat, op: nat)
    requires OnlyCleanups(l, op) && l.pending != []
    ensures var r := WriteAccepted(l.(pending := l.pending[1..]), l.pending[0], at);
            OnlyCleanups(r.lane, op) && Settled(op, Succeeded) !in r.settled
  {
    assert l.pending[0] in l.pending;
    assert forall e :: e in l.pending[1..] ==> e in l.pending;
  }

  lemma CleanupRefusedOnly(l: Lane, head: Scheduled, write: Write, op: nat)
    requires write.Refused? && OnlyCleanups(l, op)
    ensures var r := CleanupRefused(l, head, write); OnlyCleanups(r.lane, op) && Settled(op, Succeeded) !in r.settled
  {
    if write.lost && !write.reclosed { SealOnly(l, head.operation, op); }
    else if write.lost || !l.connected { DrainOnly(l, write.drained, op); }
    else { RebuildOnly(l, op); }
  }

  lemma SealOnly(l: Lane, x: nat, op: nat)
    ensures OnlyCleanups(SealAll(l, x).lane, op) && Settled(op, Succeeded) !in SealAll(l, x).settled
  {
    AllSettledNever(l.pending, StrictlyFailed, op);
  }

  lemma RefusedOnly(l: Lane, t: Turn, op: nat)
    requires OnlyCleanups(l, op) && l.pending != [] && t.write.Refused?
    ensures var r := WriteRefused(l.(pending := l.pending[1..]), l.pending[0], t);
            OnlyCleanups(r.lane, op) && Settled(op, Succeeded) !in r.settled
  {
    var x, w := l.pending[0].operation, t.write;
    if w.unclosed {
      SealOnly(l.(pending := l.pending[1..]), x, op);
    } else {
      var left := l.(pending := l.pending[1..], desired := NEUTRAL, connected := l.connected && !w.closed);
      assert forall e :: e in l.pending[1..] ==> e in l.pending;
      WithoutOther(left, x, op);
      var rest := left.(pending := Without(left.pending, x));
      if IsCleanup(l.pending[0]) {
        CleanupRefusedOnly(LaneQueue.Release(rest, x), l.pending[0], w, op);
      } else {
        var release := l.owner == Some(x);
        CleanupOnly(rest, x, if w.byCancel then CancelCleanup(release) else FailureCleanup(release), t.later, op);
      }
    }
  }

  lemma PassOnly(w: World, t: Turn, op: nat)
    requires CancelInv(w, op)
    ensures CancelInv(Apply(w, DispatchPass(t)), op)
  {
    var l := w.lane;
    if l.pending != [] && l.pending[0].due <= t.now {
      if !IsCleanup(l.pending[0]) && l.pending[0].operation in t.cancelled {
        ObserveOnly(l, t.cancelled, t.later, op);
      } else if Timing.Earliest(l.last, l.interval) > t.now {
        PostponedOnly(l, Timing.Earliest(l.last, l.interval), op);
      } else if t.write.Accepted? {
        AcceptedOnly(l, t.write.at, op);
      } else {
        RefusedOnly(l, t, op);
      }
    }
  }

  lemma PostponedOnly(l: Lane, due: nat, op: nat)
    requires OnlyCleanups(l, op) && l.pending != []
    ensures OnlyCleanups(l.(pending := [l.pending[0].(due := due)] + l.pending[1..]), op)
  {
    assert l.pending[0] in l.pending;
    assert forall e :: e in l.pending[1..] ==> e in l.pending;
  }

  lemma StepOnly(w: World, s: Step, op: nat)
    requires QueueInv(w) && CancelInv(w, op)
    ensures CancelInv(Apply(w, s), op)
  {
    if Enabled(w, s) {
      match s
      case DirectCommand(_, _, _, _) => CommandOnly(w, s, op);
      case SequenceCommand(_, _, _, _) => CommandOnly(w, s, op);
      case ActivateWaiting(cancelled, now) => ActivateOnly(w, cancelled, now, op);
      case ObserveCancelled(cancelled, now) => ObserveOnly(w.lane, cancelled, now, op);
      case DispatchPass(t) => PassOnly(w, t, op);
      case StreamLost(closeOk) => DrainOnly(w.lane.(desired := NEUTRAL), closeOk, op);
      case Connected =>
    }
  }

  lemma {:induction false} RunOnly(w: World, steps: seq<Step>, op: nat)
    requires QueueInv(w) && CancelInv(w, op)
    ensures CancelInv(Run(w, steps), op)
    decreases steps
  {
    if steps != [] {
      StepKeepsQueue(w, steps[0]);
      StepOnly(w, steps[0], op);
      RunOnly(Apply(w, steps[0]), steps[1..], op);
    }
  }

  // Once the lane has seen an operation cancelled, whatever follows: it has nothing of it left but cleanups, so
  // none of its reports is ever written again, and it is never told that it succeeded.
  lemma {:induction false} SeenCancelledIsNeverWritten(interval: nat, before: seq<Step>, s: Step, after: seq<Step>, op: nat)
    requires Sees(Run(Init(interval), before).lane, s, op)
    ensures var w := Run(Apply(Run(Init(interval), before), s), after);
            && Settled(op, Succeeded) !in w.settled
            && !(w.lane.waiting.Some? && w.lane.waiting.value.operation == op)
            && forall e :: e in w.lane.pending && e.operation == op ==> IsCleanup(e) && e.report == NEUTRAL
  {
    var w := Run(Init(interval), before);
    ReachableLane(interval, before);
    SeesOnly(w, s, op);
    SeesQueued(w, s, op);
    StepKeepsQueue(w, s);
    RunOnly(Apply(w, s), after, op);
    RunKeepsQueue(Apply(w, s), after);
    CleanupsAreNeutral(Run(Apply(w, s), after));
  }

  lemma RefusedTurn(w: World, t: Turn)
    requires w.lane.pending != [] && t.write.Refused? && DispatchTurn(w.lane, t).wrote
    ensures var r := WriteRefused(w.lane.(pending := w.lane.pending[1..]), w.lane.pending[0], t);
            Apply(w, DispatchPass(t)).lane == r.lane && Apply(w, DispatchPass(t)).settled == w.settled + r.settled
  {
  }

  lemma RefusedLeaves(l: Lane, t: Turn)
    requires l.pending != [] && t.write.Refused? && !IsCleanup(l.pending[0])
    requires !(l.waiting.Some? && l.waiting.value.operation == l.pending[0].operation)
    ensures var r, op := WriteRefused(l.(pending := l.pending[1..]), l.pending[0], t), l.pending[0].operation;
            OnlyCleanups(r.lane, op) && Settled(op, Succeeded) !in r.settled
  {
    var op := l.pending[0].operation;
    if t.write.unclosed {
      SealOnly(l.(pending := l.pending[1..]), op, op);
    } else {
      var left := l.(pending := l.pending[1..], desired := NEUTRAL, connected := l.connected && !t.write.closed);
      WithoutOnly(left, op);
      var release := l.owner == Some(op);
      CleanupOnly(left.(pending := Without(left.pending, op)), op,
                  if t.write.byCancel then CancelCleanup(release) else FailureCleanup(release), t.later, op);
    }
  }

  // The same holds once the device refused a report of it.
  lemma {:induction false} RefusedIsNeverWritten(interval: nat, before: seq<Step>, t: Turn, after: seq<Step>)
    requires var l := Run(Init(interval), before).lane;
             l.pending != [] && !IsCleanup(l.pending[0]) && DispatchTurn(l, t).wrote && t.write.Refused?
    ensures var op := Run(Init(interval), before).lane.pending[0].operation;
            var w := Run(Apply(Run(Init(interval), before), DispatchPass(t)), after);
            && Settled(op, Succeeded) !in w.settled
            && !(w.lane.waiting.Some? && w.lane.waiting.value.operation == op)
            && forall e :: e in w.lane.pending && e.operation == op ==> IsCleanup(e) && e.report == NEUTRAL
  {
    var w := Run(Init(interval), before);
    ReachableLane(interval, before);
    HeadIsUntold(w);
    RefusedTurn(w, t);
    RefusedLeaves(w.lane, t);
    StepKeepsQueue(w, DispatchPass(t));
    var op := w.lane.pending[0].operation;
    RunOnly(Apply(w, DispatchPass(t)), after, op);
    RunKeepsQueue(Apply(w, DispatchPass(t)), after);
    CleanupsAreNeutral(Run(Apply(w, DispatchPass(t)), after));
  }

  lemma {:induction false} ReachableLane(interval: nat, steps: seq<Step>)
    ensures var w := Run(Init(interval), steps); QueueInv(w) && V.Untold(w.lane, w.settled)
  {
    var t := V.Tracked(Init(interval), {}, {});
    V.TracksTheRun(t, steps);
    V.RunKeepsInv(t, steps);
  }

  lemma HeadIsUntold(w: World)
    requires QueueInv(w) && V.Untold(w.lane, w.settled) && w.lane.pending != []
    ensures w.lane.pending[0].operation in w.admitted && Settled(w.lane.pending[0].operation, Succeeded) !in w.settled
    ensures !(w.lane.waiting.Some? && w.lane.waiting.value.operation == w.lane.pending[0].operation)
  {
    assert w.lane.pending[0] in w.lane.pending;
    assert Queued(w.lane, w.lane.pending[0].operation);
  }

  lemma SeesQueued(w: World, s: Step, op: nat)
    requires QueueInv(w) && V.Untold(w.lane, w.settled) && Sees(w.lane, s, op)
    ensures op in Apply(w, s).admitted && Settled(op, Succeeded) !in w.settled
  {
    assert Queued(w.lane, op);
  }

  lemma {:induction false} ShapeNeutral(q: seq<Scheduled>)
    requires Shape(q)
    ensures forall e :: e in q && IsCleanup(e) ==> e.report == NEUTRAL
  {
    if q != [] && IsCleanup(q[0]) { ShapeNeutral(q[1..]); }
  }

  lemma CleanupsAreNeutral(w: World)
    requires QueueInv(w)
    ensures forall e :: e in w.lane.pending && IsCleanup(e) ==> e.report == NEUTRAL
  {
    if FoldInv(w) {
      FoldedShape(w.lane.pending, if Folded(w.lane.pending, w.accepted, w.lane.desired) then w.accepted else NEUTRAL, w.lane.desired);
      ShapeNeutral(w.lane.pending);
    }
  }
}
