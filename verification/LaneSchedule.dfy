/**
 * When the reports of a sequence are due on the lane, and what they show
 * (crates/easycon-controller/src/session.rs): over every run they are planned from the instant its command was
 * handled, however long it waited for the queue, and from what the lane showed when they were scheduled.
 */
module LaneSchedule {
  import opened Wrappers
  import opened Timing
  import opened Report
  import opened SequencePlan
  import opened LaneQueue
  import LP = LanePacing

  // ---- The history behind a scheduled sequence -------------------------------------------------------------

  function At(interval: nat, done: seq<Step>, n: nat): World {
    if n <= |done| then Run(Init(interval), done[..n]) else Init(interval)
  }

  // The command that brought the sequence: the one the lane took, at its place in the run.
  predicate CommandAt(interval: nat, done: seq<Step>, j: nat, op: nat, steps: seq<SequenceStep>, now: nat) {
    && j < |done| && done[j].SequenceCommand? && done[j].operation == op && done[j].steps == steps && done[j].now == now
    && op !in At(interval, done, j).admitted && NewSequence(steps) == Checked.Accepted(steps)
  }

  // Where its reports were scheduled: the queue was empty, and `base` is what the lane showed.
  predicate ScheduledAt(interval: nat, done: seq<Step>, m: nat, base: Report, last: Option<nat>) {
    && m < |done|
    && var w := At(interval, done, m);
       w.lane.pending == [] && base == w.lane.desired && base in {w.accepted, NEUTRAL} && last == w.lane.last
  }

  datatype Origin = Origin(command: nat, steps: seq<SequenceStep>, now: nat, scheduled: nat, base: Report, last: Option<nat>)

  // An entry is the planned report; only the due time of the head may have been put off.
  predicate Plays(q: seq<Scheduled>, plan: Option<seq<Planned>>) {
    && plan.Some? && |q| <= |plan.value|
    && forall k :: 0 <= k < |q| ==> PlaysOne(q[k], plan.value[|plan.value| - |q| + k], k == 0)
  }

  predicate PlaysOne(e: Scheduled, p: Planned, next: bool) {
    && e.target == p.target && e.report == p.report && e.completion == SequenceReport(p.final)
    && (if next then e.due >= p.due else e.due == p.due)
  }

  predicate PlannedBy(interval: nat, done: seq<Step>, w: World, op: nat, o: Origin) {
    && CommandAt(interval, done, o.command, op, o.steps, o.now)
    && o.command <= o.scheduled && ScheduledAt(interval, done, o.scheduled, o.base, o.last)
    && Plays(w.lane.pending, PlanOf(o.steps, o.now, o.base, o.last, interval))
  }

  ghost predicate ScheduleInv(interval: nat, done: seq<Step>, w: World) {
    && w == Run(Init(interval), done) && QueueInv(w) && w.lane.interval == interval
    && (w.lane.waiting.Some? ==>
          var s := w.lane.waiting.value;
          exists j: nat :: CommandAt(interval, done, j, s.operation, s.steps, s.origin))
    && (SequenceInv(w) ==> exists o: Origin :: PlannedBy(interval, done, w, w.lane.owner.value, o))
  }

  // ---- History stays -----------------------------------------------------------------------------------------

  lemma {:induction false} RunConcat(w: World, a: seq<Step>, b: seq<Step>)
    ensures Run(w, a + b) == Run(Run(w, a), b)
    decreases a
  {
    if a == [] {
      assert [] + b == b;
    } else {
      assert (a + b)[1..] == a[1..] + b;
      RunConcat(Apply(w, a[0]), a[1..], b);
    }
  }

  lemma {:induction false} RunOne(interval: nat, done: seq<Step>, s: Step)
    ensures Run(Init(interval), done + [s]) == Apply(Run(Init(interval), done), s)
  {
    RunConcat(Init(interval), done, [s]);
    assert [s][1..] == [];
  }

  lemma AtStays(interval: nat, done: seq<Step>, s: Step, n: nat)
    requires n <= |done|
    ensures At(interval, done + [s], n) == At(interval, done, n)
  {
    assert (done + [s])[..n] == done[..n];
  }

  lemma CommandStays(interval: nat, done: seq<Step>, s: Step, j: nat, op: nat, steps: seq<SequenceStep>, now: nat)
    requires CommandAt(interval, done, j, op, steps, now)
    ensures CommandAt(interval, done + [s], j, op, steps, now)
  {
    AtStays(interval, done, s, j);
  }

  lemma PlannedStays(interval: nat, done: seq<Step>, s: Step, w: World, w': World, op: nat, o: Origin)
    requires PlannedBy(interval, done, w, op, o)
    requires Plays(w'.lane.pending, PlanOf(o.steps, o.now, o.base, o.last, interval))
    ensures PlannedBy(interval, done + [s], w', op, o)
  {
    CommandStays(interval, done, s, o.command, op, o.steps, o.now);
    AtStays(interval, done, s, o.scheduled);
  }

  // ---- What a step does to a sequence's reports ----------------------------------------------------------------

  ghost predicate SamePutOffOrTaken(q: seq<Scheduled>, q': seq<Scheduled>) {
    || q' == q
    || (q != [] && exists due: nat :: due >= q[0].due && q' == [q[0].(due := due)] + q[1..])
    || (q != [] && q' == q[1..])
  }

  lemma PlaysOn(q: seq<Scheduled>, q': seq<Scheduled>, plan: Option<seq<Planned>>)
    requires Plays(q, plan) && SamePutOffOrTaken(q, q')
    ensures Plays(q', plan)
  {
    if q != [] && q' == q[1..] {
      forall k | 0 <= k < |q'|
        ensures PlaysOne(q'[k], plan.value[|plan.value| - |q'| + k], k == 0) {
        assert q'[k] == q[k + 1];
        assert PlaysOne(q[k + 1], plan.value[|plan.value| - |q| + k + 1], false);
      }
    }
  }

  // What a pass over a scheduled sequence leaves, if not a cleanup or nothing.
  lemma PassMovesSequence(w: World, t: Turn)
    requires QueueInv(w) && SequenceInv(w) && SequenceInv(Pass(w, t))
    ensures SamePutOffOrTaken(w.lane.pending, Pass(w, t).lane.pending) && Pass(w, t).lane.owner == w.lane.owner
  {
    var l, q := w.lane, w.lane.pending;
    if q[0].due <= t.now {
      if q[0].operation in t.cancelled {
        ObserveEndsSequence(w, t.cancelled, t.later);
      } else if Earliest(l.last, l.interval) > t.now {
        assert Pass(w, t).lane.pending == [q[0].(due := Earliest(l.last, l.interval))] + q[1..];
      } else if t.write.Refused? {
        RefusedEndsSequence(w, t);
      } else {
        assert q[0].completion == SequenceReport(0 == |q| - 1);
        assert Pass(w, t).lane.pending == q[1..];
      }
    }
  }

  lemma ObserveEndsSequence(w: World, cancelled: set<nat>, now: nat)
    requires QueueInv(w) && SequenceInv(w)
    ensures var l := Observe(w.lane, cancelled, now);
            l == w.lane || (l.pending != [] && IsCleanup(l.pending[0]))
  {
  }

  lemma RefusedEndsSequence(w: World, t: Turn)
    requires QueueInv(w) && SequenceInv(w) && t.write.Refused?
    ensures var l := WriteRefused(w.lane.(pending := w.lane.pending[1..]), w.lane.pending[0], t).lane;
            l.pending == [] || IsCleanup(l.pending[0])
  {
    assert w.lane.pending[0].completion == SequenceReport(0 == |w.lane.pending| - 1);
  }

  lemma SequenceGoesOn(w: World, s: Step)
    requires QueueInv(w) && SequenceInv(w) && SequenceInv(Apply(w, s))
    ensures SamePutOffOrTaken(w.lane.pending, Apply(w, s).lane.pending) && Apply(w, s).lane.owner == w.lane.owner
  {
    if Enabled(w, s) {
      match s
      case DispatchPass(t) => PassMovesSequence(w, t);
      case ObserveCancelled(cancelled, now) => ObserveEndsSequence(w, cancelled, now);
      case _ =>
    }
  }

  // ---- Where a sequence's reports come from -----------------------------------------------------------------------

  predicate NoSequence(q: seq<Scheduled>) {
    forall e :: e in q ==> !e.completion.SequenceReport?
  }

  lemma {:induction false} FoldedHasNone(q: seq<Scheduled>, base: Report, desired: Report)
    requires Folded(q, base, desired)
    ensures NoSequence(q)
  {
    if q != [] && IsCleanup(q[0]) { FoldedHasNone(q[1..], NEUTRAL, desired); } else { ChainDirects(q, base, desired); }
  }

  lemma NotScheduledHasNone(w: World)
    requires QueueInv(w) && !SequenceInv(w)
    ensures NoSequence(w.lane.pending)
  {
    FoldedHasNone(w.lane.pending, if Folded(w.lane.pending, w.accepted, w.lane.desired) then w.accepted else NEUTRAL,
                  w.lane.desired);
  }

  lemma {:induction false} RefoldedHasNone(q: seq<Scheduled>, base: Report)
    requires NoSequence(q)
    ensures NoSequence(Refolded(q, base))
  {
    if q != [] {
      assert q[0] in q;
      RefoldedHasNone(q[1..], if q[0].mutation.Some? then Act(q[0].mutation.value, base) else base);
    }
  }

  lemma ObserveBringsNone(l: Lane, cancelled: set<nat>, now: nat)
    requires NoSequence(l.pending)
    ensures NoSequence(Observe(l, cancelled, now).pending)
  {
    RefoldedHasNone(l.pending, NEUTRAL);
    var i := FirstCancelled(l.pending, cancelled);
    if i < |l.pending| { RefoldedHasNone(Without(l.pending, l.pending[i].operation), NEUTRAL); }
  }

  lemma RefusedBringsNone(l: Lane, head: Scheduled, t: Turn)
    requires NoSequence(l.pending) && t.write.Refused?
    ensures NoSequence(WriteRefused(l, head, t).lane.pending)
  {
    RefoldedHasNone(Without(l.pending, head.operation), NEUTRAL);
  }

  lemma TakenBringsNone(l: Lane, t: Turn)
    requires NoSequence(l.pending) && l.pending != []
    ensures var rest := l.(pending := l.pending[1..]);
            NoSequence((if t.write.Accepted? then WriteAccepted(rest, l.pending[0], t.write.at)
                        else WriteRefused(rest, l.pending[0], t)).lane.pending)
  {
    var rest := l.(pending := l.pending[1..]);
    assert forall e :: e in rest.pending ==> e in l.pending;
    if t.write.Refused? { RefusedBringsNone(rest, l.pending[0], t); }
  }

  lemma PutOffBringsNone(q: seq<Scheduled>, due: nat)
    requires NoSequence(q) && q != []
    ensures NoSequence([q[0].(due := due)] + q[1..])
  {
    assert q[0] in q && forall e :: e in q[1..] ==> e in q;
  }

  lemma PassBringsNone(w: World, t: Turn)
    requires NoSequence(w.lane.pending)
    ensures NoSequence(Pass(w, t).lane.pending)
  {
    var l := w.lane;
    if l.pending != [] && l.pending[0].due <= t.now {
      if !IsCleanup(l.pending[0]) && l.pending[0].operation in t.cancelled {
        ObserveBringsNone(l, t.cancelled, t.later);
      } else if Earliest(l.last, l.interval) > t.now {
        PutOffBringsNone(l.pending, Earliest(l.last, l.interval));
      } else {
        TakenBringsNone(l, t);
      }
    }
  }

  // Only a command on an empty queue, or the wait's end, brings a sequence's reports.
  lemma OnlySchedulingBrings(w: World, s: Step)
    requires NoSequence(w.lane.pending) && !NoSequence(Apply(w, s).lane.pending)
    ensures w.lane.pending == [] && (s.SequenceCommand? || s.ActivateWaiting?)
  {
    match s
    case DispatchPass(t) => PassBringsNone(w, t);
    case ObserveCancelled(cancelled, now) => ObserveBringsNone(w.lane, cancelled, now);
    case SequenceCommand(_, _, _, _) =>
    case ActivateWaiting(_, _) =>
    case _ =>
  }

  // The entries of a plan play it from its beginning.
  lemma {:induction false} EntriesPlay(plan: seq<Planned>, op: nat)
    ensures Plays(Entries(plan, op), Some(plan))
  {
    forall k: nat | k < |plan| ensures PlaysOne(Entries(plan, op)[k], plan[k], k == 0) { EntryIs(plan, op, k); }
  }

  lemma {:induction false} EntryIs(plan: seq<Planned>, op: nat, k: nat)
    requires k < |plan|
    ensures Entries(plan, op)[k]
         == Scheduled(plan[k].target, plan[k].due, op, plan[k].report, None, SequenceReport(plan[k].final))
  {
    if k > 0 { EntryIs(plan[1..], op, k - 1); }
  }

  lemma ScheduledPlays(l: Lane, s: Waiting, now: nat)
    requires l.pending == []
    ensures var l' := Schedule(l, s, now);
            !NoSequence(l'.pending) ==> Plays(l'.pending, PlanOf(s.steps, s.origin, l.desired, l.last, l.interval))
  {
    var plan := PlanOf(s.steps, s.origin, l.desired, l.last, l.interval);
    if plan.Some? {
      EntriesPlay(plan.value, s.operation);
      assert [] + Entries(plan.value, s.operation) == Entries(plan.value, s.operation);
    }
  }

  // ---- Every step ------------------------------------------------------------------------------------------------------

  lemma StepKeepsWaiting(interval: nat, done: seq<Step>, w: World, s: Step)
    requires ScheduleInv(interval, done, w)
    ensures var w' := Apply(w, s);
            w'.lane.waiting.Some? ==>
              exists j: nat :: CommandAt(interval, done + [s], j, w'.lane.waiting.value.operation, w'.lane.waiting.value.steps,
                                         w'.lane.waiting.value.origin)
  {
    var w' := Apply(w, s);
    WaitingComes(w, s);
    if w'.lane.waiting.Some? {
      var v := w'.lane.waiting.value;
      if w'.lane.waiting == w.lane.waiting {
        var j: nat :| CommandAt(interval, done, j, v.operation, v.steps, v.origin);
        CommandStays(interval, done, s, j, v.operation, v.steps, v.origin);
      } else {
        AtStays(interval, done, s, |done|);
        assert done[..|done|] == done;
        assert CommandAt(interval, done + [s], |done|, v.operation, v.steps, v.origin);
      }
    }
  }

  lemma WaitingComes(w: World, s: Step)
    ensures var l := Apply(w, s).lane;
            l.waiting.Some? && l.waiting != w.lane.waiting ==>
              s.SequenceCommand? && Enabled(w, s) && l.waiting.value == Waiting(s.operation, s.steps, s.now)
  {
    if s.DispatchPass? && s.turn.write.Refused? && w.lane.pending != [] {
      RefusedKeepsWaiting(w.lane.(pending := w.lane.pending[1..]), w.lane.pending[0], s.turn);
    }
  }

  lemma RefusedKeepsWaiting(l: Lane, head: Scheduled, t: Turn)
    requires t.write.Refused?
    ensures var l' := WriteRefused(l, head, t).lane; l'.waiting == l.waiting || l'.waiting == None
  {
  }

  // A step that schedules a sequence: from the origin of its command, and from what the lane shows now.
  lemma StepSchedules(interval: nat, done: seq<Step>, w: World, s: Step)
    requires ScheduleInv(interval, done, w) && !SequenceInv(w) && SequenceInv(Apply(w, s))
    ensures exists o: Origin :: PlannedBy(interval, done + [s], Apply(w, s), Apply(w, s).lane.owner.value, o)
  {
    var w' := Apply(w, s);
    NotScheduledHasNone(w);
    assert w'.lane.pending[0] in w'.lane.pending && w'.lane.pending[0].completion.SequenceReport?;
    OnlySchedulingBrings(w, s);
    EmptyIsSettledDown(w);
    assert done[..|done|] == done;
    AtStays(interval, done, s, |done|);
    assert ScheduledAt(interval, done + [s], |done|, w.lane.desired, w.lane.last);
    if s.SequenceCommand? {
      ScheduledPlays(w.lane.(owner := Some(s.operation)), Waiting(s.operation, s.steps, s.now), s.now);
      assert CommandAt(interval, done + [s], |done|, s.operation, s.steps, s.now);
      assert PlannedBy(interval, done + [s], w', s.operation, Origin(|done|, s.steps, s.now, |done|, w.lane.desired, w.lane.last));
      CommandedOwner(w, s);
    } else {
      var v := w.lane.waiting.value;
      var j: nat :| CommandAt(interval, done, j, v.operation, v.steps, v.origin);
      CommandStays(interval, done, s, j, v.operation, v.steps, v.origin);
      ActivatedPlays(w, s);
      assert PlannedBy(interval, done + [s], w', v.operation, Origin(j, v.steps, v.origin, |done|, w.lane.desired, w.lane.last));
    }
  }

  lemma CommandedOwner(w: World, s: Step)
    requires s.SequenceCommand? && w.lane.pending == [] && !NoSequence(Apply(w, s).lane.pending)
    ensures Apply(w, s).lane.owner == Some(s.operation)
  {
  }

  lemma ActivatedPlays(w: World, s: Step)
    requires QueueInv(w) && s.ActivateWaiting? && w.lane.pending == [] && !NoSequence(Apply(w, s).lane.pending)
    ensures w.lane.waiting.Some? && Apply(w, s).lane.owner == Some(w.lane.waiting.value.operation)
    ensures var v := w.lane.waiting.value;
            Plays(Apply(w, s).lane.pending, PlanOf(v.steps, v.origin, w.lane.desired, w.lane.last, w.lane.interval))
  {
    ScheduledPlays(w.lane.(waiting := None), w.lane.waiting.value, s.now);
  }

  lemma StepKeepsSchedule(interval: nat, done: seq<Step>, w: World, s: Step)
    requires ScheduleInv(interval, done, w)
    ensures ScheduleInv(interval, done + [s], Apply(w, s))
  {
    var w' := Apply(w, s);
    RunOne(interval, done, s);
    StepKeepsQueue(w, s);
    LP.StepMovesLast(w, s);
    StepKeepsWaiting(interval, done, w, s);
    if SequenceInv(w') {
      if SequenceInv(w) {
        var o: Origin :| PlannedBy(interval, done, w, w.lane.owner.value, o);
        SequenceGoesOn(w, s);
        PlaysOn(w.lane.pending, w'.lane.pending, PlanOf(o.steps, o.now, o.base, o.last, interval));
        PlannedStays(interval, done, s, w, w', w.lane.owner.value, o);
      } else {
        StepSchedules(interval, done, w, s);
      }
    }
  }

  lemma {:induction false} RunKeepsSchedule(interval: nat, done: seq<Step>, w: World, steps: seq<Step>)
    requires ScheduleInv(interval, done, w)
    ensures ScheduleInv(interval, done + steps, Run(w, steps))
    decreases steps
  {
    if steps == [] {
      assert done + steps == done;
    } else {
      StepKeepsSchedule(interval, done, w, steps[0]);
      RunKeepsSchedule(interval, done + [steps[0]], Apply(w, steps[0]), steps[1..]);
      assert done + [steps[0]] + steps[1..] == done + steps;
    }
  }

  // ---- Main results --------------------------------------------------------------------------------------------------------

  // A group's offset is that of one of the steps.
  lemma {:induction false} GroupHasStep(steps: seq<SequenceStep>, k: nat)
    requires k < |Groups(steps)|
    ensures exists s :: s in steps && s.offset == Groups(steps)[k].offset
    decreases |steps|
  {
    if k == 0 {
      assert steps[0] in steps;
    } else {
      var n := GroupSize(steps);
      GroupHasStep(steps[n..], k - 1);
      var s :| s in steps[n..] && s.offset == Groups(steps[n..])[k - 1].offset;
      assert s in steps;
    }
  }

  // Of one sequence, as commanded: what a queued report of it must be.
  ghost predicate OnSchedule(e: Scheduled, steps: seq<SequenceStep>, now: nat, base: Report) {
    exists s :: s in steps && e.target == now + s.offset && e.due >= e.target
                && e.report == Fold(base, Actions(StepsUpTo(steps, s.offset)))
  }

  ghost predicate OnPlan(p: Planned, o: Origin) {
    exists s :: s in o.steps && p.target == o.now + s.offset && p.due >= p.target
                && p.report == Fold(o.base, Actions(StepsUpTo(o.steps, s.offset)))
  }

  lemma PlannedIsOnPlan(o: Origin, interval: nat, k: nat)
    requires NewSequence(o.steps) == Checked.Accepted(o.steps)
    requires PlanOf(o.steps, o.now, o.base, o.last, interval).Some?
    requires k < |PlanOf(o.steps, o.now, o.base, o.last, interval).value|
    ensures OnPlan(PlanOf(o.steps, o.now, o.base, o.last, interval).value[k], o)
  {
    LeastFeasibleSchedule(o.steps, o.now, o.base, o.last, interval, []);
    CoalescedReports(o.steps, o.now, o.base, o.last, interval, k);
    PlanTargets(Groups(o.steps), o.now, o.base, First(o.last, interval), interval);
    GroupHasStep(o.steps, k);
  }

  ghost predicate OfCommand(interval: nat, done: seq<Step>, w: World, op: nat, o: Origin) {
    && CommandAt(interval, done, o.command, op, o.steps, o.now)
    && o.command <= o.scheduled && ScheduledAt(interval, done, o.scheduled, o.base, o.last)
    && (forall e :: e in w.lane.pending ==> e.operation == op && OnSchedule(e, o.steps, o.now, o.base))
  }

  // A sequence keeps the time of its command. Whatever the run, with a report of a sequence at the head of the
  // queue there is one command the lane took for its operation, handled at `now`, and a point of the run at or
  // after it, with the queue empty and the lane showing `base`, such that every queued report is one of that
  // operation, has the target `now` plus the offset of one of the commanded steps, and shows `base` with all the
  // steps up to that offset applied. How long the sequence waited does not matter.
  lemma {:induction false} SequenceKeepsItsTime(interval: nat, steps: seq<Step>)
    requires var l := Run(Init(interval), steps).lane; l.pending != [] && l.pending[0].completion.SequenceReport?
    ensures var w := Run(Init(interval), steps);
            exists o: Origin :: OfCommand(interval, steps, w, w.lane.pending[0].operation, o)
  {
    RunKeepsSchedule(interval, [], Init(interval), steps);
    assert [] + steps == steps;
    var w := Run(Init(interval), steps);
    if !SequenceInv(w) {
      NotScheduledHasNone(w);
    }
    assert w.lane.pending[0].operation == w.lane.owner.value;
    var o: Origin :| PlannedBy(interval, steps, w, w.lane.owner.value, o);
    PlannedIsOfCommand(interval, steps, w, w.lane.owner.value, o);
  }

  lemma PlannedIsOfCommand(interval: nat, done: seq<Step>, w: World, op: nat, o: Origin)
    requires PlannedBy(interval, done, w, op, o) && SequenceInv(w) && w.lane.owner == Some(op)
    ensures OfCommand(interval, done, w, op, o)
  {
    forall e | e in w.lane.pending ensures e.operation == op && OnSchedule(e, o.steps, o.now, o.base) {
      var k :| 0 <= k < |w.lane.pending| && w.lane.pending[k] == e;
      PlayedIsOnSchedule(w.lane.pending, o, interval, k);
    }
  }

  lemma PlayedIs(q: seq<Scheduled>, plan: seq<Planned>, k: nat)
    requires Plays(q, Some(plan)) && k < |q|
    ensures |q| <= |plan|
    ensures var p := plan[|plan| - |q| + k]; q[k].target == p.target && q[k].report == p.report && q[k].due >= p.due
  {
  }

  lemma PlayedIsOnSchedule(q: seq<Scheduled>, o: Origin, interval: nat, k: nat)
    requires NewSequence(o.steps) == Checked.Accepted(o.steps) && k < |q|
    requires Plays(q, PlanOf(o.steps, o.now, o.base, o.last, interval))
    ensures OnSchedule(q[k], o.steps, o.now, o.base)
  {
    var plan := PlanOf(o.steps, o.now, o.base, o.last, interval).value;
    PlayedIs(q, plan, k);
    PlannedIsOnPlan(o, interval, |plan| - |q| + k);
    EntryOnSchedule(q[k], plan[|plan| - |q| + k], o);
  }

  lemma EntryOnSchedule(e: Scheduled, p: Planned, o: Origin)
    requires e.target == p.target && e.report == p.report && e.due >= p.due && OnPlan(p, o)
    ensures OnSchedule(e, o.steps, o.now, o.base)
  {
    var s :| s in o.steps && p.target == o.now + s.offset && p.due >= p.target
             && p.report == Fold(o.base, Actions(StepsUpTo(o.steps, s.offset)));
  }

  // And it plays all of its plan: the queued reports are the last ones of it, each to be started when the plan
  // says, but for the next, which may have been put off.
  lemma {:induction false} SequencePlaysItsPlan(interval: nat, steps: seq<Step>)
    requires var l := Run(Init(interval), steps).lane; l.pending != [] && l.pending[0].completion.SequenceReport?
    ensures var w := Run(Init(interval), steps);
            exists o: Origin :: PlannedBy(interval, steps, w, w.lane.pending[0].operation, o)
  {
    RunKeepsSchedule(interval, [], Init(interval), steps);
    assert [] + steps == steps;
    var w := Run(Init(interval), steps);
    if !SequenceInv(w) {
      NotScheduledHasNone(w);
    }
  }
}
