/**
 * The lane as the object whose fields its methods update in place
 * (crates/easycon-controller/src/session.rs): each method leaves the lane in the state `LaneQueue`
 * computes, and adds exactly its settling calls to the log.
 */
module LaneObject {
  import opened Wrappers
  import opened Timing
  import opened Report
  import opened SequencePlan
  import opened LaneQueue

  // The report of the entry the refolding loop is at, and the state it goes on with.
  function NextDesired(e: Scheduled, desired: Report): Report {
    if e.mutation.Some? then Act(e.mutation.value, desired) else desired
  }

  function NextEntry(e: Scheduled, desired: Report): Scheduled {
    if e.mutation.Some? then e.(report := Act(e.mutation.value, desired)) else e
  }

  lemma {:induction false} RefoldNext(done: seq<Scheduled>, left: seq<Scheduled>, desired: Report)
    requires left != []
    ensures done + Refolded(left, desired)
         == (done + [NextEntry(left[0], desired)]) + Refolded(left[1..], NextDesired(left[0], desired))
    ensures RefoldedDesired(left, desired) == RefoldedDesired(left[1..], NextDesired(left[0], desired))
  {
    assert Refolded(left, desired) == [NextEntry(left[0], desired)] + Refolded(left[1..], NextDesired(left[0], desired));
  }

  lemma ReplaceNext(done: seq<Scheduled>, left: seq<Scheduled>, e: Scheduled)
    requires left != []
    ensures (done + left)[|done|] == left[0]
    ensures (done + left)[|done| := e] == (done + [e]) + left[1..]
    ensures e == left[0] ==> done + left == (done + [e]) + left[1..]
  {
  }

  lemma {:induction false} WithoutEntries(q: seq<Scheduled>, plan: seq<Planned>, op: nat)
    ensures Without(q + Entries(plan, op), op) == Without(q, op)
  {
    if q != [] {
      assert (q + Entries(plan, op))[1..] == q[1..] + Entries(plan, op);
      WithoutEntries(q[1..], plan, op);
    } else {
      assert q + Entries(plan, op) == Entries(plan, op);
      if plan != [] {
        WithoutEntries([], plan[1..], op);
        assert [] + Entries(plan[1..], op) == Entries(plan[1..], op);
      }
    }
  }

  function Prepend(done: seq<Planned>, rest: Option<seq<Planned>>): Option<seq<Planned>> {
    if rest == None then None else Some(done + rest.value)
  }

  lemma OneMore(done: seq<Planned>, p: Planned, rest: seq<Planned>)
    ensures done + ([p] + rest) == (done + [p]) + rest
  {
  }

  function Due(previous: Option<nat>, target: nat): nat {
    if previous.Some? && previous.value > target then previous.value else target
  }

  // What the planning loop does with the next of the groups left.
  lemma {:induction false} PlanNext(left: seq<Group>, done: seq<Planned>, origin: nat, report: Report, previous: Option<nat>, interval: nat,
                 p: Planned)
    requires left != [] && p.target == origin + left[0].offset <= U64_MAX && p.due == Due(previous, p.target)
    requires p.report == Fold(report, Actions(left[0].steps)) && p.final == (|left| == 1)
    ensures Prepend(done, Plan(left, origin, report, previous, interval))
         == Prepend(done + [p], Plan(left[1..], origin, p.report, Some(SaturatingAdd(p.due, interval)), interval))
  {
    var rest := Plan(left[1..], origin, p.report, Some(SaturatingAdd(p.due, interval)), interval);
    assert Plan(left, origin, report, previous, interval) == if rest == None then None else Some([p] + rest.value);
    if rest.Some? { OneMore(done, p, rest.value); }
  }

  lemma {:induction false} PlanStops(left: seq<Group>, done: seq<Planned>, origin: nat, report: Report, previous: Option<nat>, interval: nat)
    requires left != [] && origin + left[0].offset > U64_MAX
    ensures Prepend(done, Plan(left, origin, report, previous, interval)) == None
  {
  }

  // The steps of a group, applied one after the other.
  method ApplyGroup(group: seq<SequenceStep>, report: Report) returns (planned: Report)
    ensures planned == Fold(report, Actions(group))
  {
    planned := report;
    var j := 0;
    while j < |group|
      invariant j <= |group|
      invariant planned == Fold(report, Actions(group[..j]))
    {
      FoldStep(report, group, j);
      planned := Act(group[j].action, planned);
      j := j + 1;
    }
    assert group[..j] == group;
  }

  // The planning loop: a report for each group, up to the first target that overflows.
  method PlanSequence(steps: seq<SequenceStep>, origin: nat, desired: Report, last: Option<nat>, interval: nat)
    returns (overflow: bool, done: seq<Planned>)
    ensures PlanOf(steps, origin, desired, last, interval) == if overflow then None else Some(done)
  {
    var planned := desired;
    var groups := Groups(steps);
    var previousDue: Option<nat> := First(last, interval);
    ghost var left := groups;
    ghost var plan := Plan(left, origin, planned, previousDue, interval);
    overflow, done := false, [];
    var i := 0;
    assert plan.Some? ==> [] + plan.value == plan.value;
    while i < |groups|
      invariant i <= |groups| && left == groups[i..]
      invariant plan == Prepend(done, Plan(left, origin, planned, previousDue, interval))
    {
      assert left[0] == groups[i] && left[1..] == groups[i + 1..];
      var report := ApplyGroup(groups[i].steps, planned);
      var target := origin + groups[i].offset;
      if target > U64_MAX {
        PlanStops(left, done, origin, planned, previousDue, interval);
        overflow := true;
        return;
      }
      var due := Due(previousDue, target);
      var next := Planned(target, due, report, i + 1 == |groups|);
      PlanNext(left, done, origin, planned, previousDue, interval, next);
      planned, previousDue := report, Some(SaturatingAdd(due, interval));
      done := done + [next];
      left := left[1..];
      i := i + 1;
    }
    assert left == [] && done + [] == done;
  }

  lemma {:induction false} AllSettledNext(q: seq<Scheduled>, i: nat, v: Verdict, done: seq<Settled>)
    requires i < |q|
    ensures done + AllSettled(q[i..], v) == (done + [Settled(q[i].operation, v)]) + AllSettled(q[i + 1..], v)
  {
    assert q[i..][0] == q[i] && q[i..][1..] == q[i + 1..];
  }

  lemma {:induction false} AllSettledDone(q: seq<Scheduled>, v: Verdict, done: seq<Settled>)
    ensures done + AllSettled(q[|q|..], v) == done
  {
  }

  lemma {:induction false} FoldStep(report: Report, steps: seq<SequenceStep>, j: nat)
    requires j < |steps|
    ensures Fold(report, Actions(steps[..j + 1])) == Act(steps[j].action, Fold(report, Actions(steps[..j])))
  {
    var a := Actions(steps[..j + 1]);
    assert a[..|a| - 1] == Actions(steps[..j]);
  }

  // The lane and the log of settling calls after the dispatch loop: passes over the turns it is given,
  // until one says stop.
  function DispatchAll(l: Lane, log: seq<Settled>, turns: seq<Turn>): Result
    decreases turns
  {
    if turns == [] then Result(l, log)
    else
      var p := DispatchTurn(l, turns[0]);
      if p.goOn then DispatchAll(p.lane, log + p.settled, turns[1..]) else Result(p.lane, log + p.settled)
  }

  lemma {:induction false} DispatchAllNext(l: Lane, log: seq<Settled>, turns: seq<Turn>, i: nat)
    requires i < |turns|
    ensures var p := DispatchTurn(l, turns[i]);
            DispatchAll(l, log, turns[i..]) ==
              if p.goOn then DispatchAll(p.lane, log + p.settled, turns[i + 1..]) else Result(p.lane, log + p.settled)
  {
    assert turns[i..][0] == turns[i] && turns[i..][1..] == turns[i + 1..];
  }

  class ControllerLane {
    var pendingReports: seq<Scheduled>
    var desiredReport: Report
    var lastReportAcceptance: Option<nat>
    const minimumReportInterval: nat
    var leaseOwner: Option<nat>
    var waitingSequence: Option<Waiting>
    var connected: bool
    var permanentFailure: bool
    var settled: seq<Settled>

    function View(): Lane
      reads this
    {
      Lane(pendingReports, desiredReport, lastReportAcceptance, minimumReportInterval, leaseOwner, waitingSequence,
           connected, permanentFailure)
    }

    constructor (interval: nat)
      ensures View() == LaneQueue.Init(interval).lane && settled == []
    {
      pendingReports, desiredReport, lastReportAcceptance := [], NEUTRAL, None;
      minimumReportInterval, leaseOwner, waitingSequence := interval, None, None;
      connected, permanentFailure, settled := false, false, [];
    }

    method RebuildPendingAfterNeutral()
      modifies `pendingReports, `desiredReport
      ensures View() == Rebuild(old(View()))
    {
      ghost var was := pendingReports;
      ghost var done, left := [], was;
      var desired := NEUTRAL;
      var i := 0;
      assert [] + was == was && [] + Refolded(was, NEUTRAL) == Refolded(was, NEUTRAL);
      while i < |pendingReports|
        invariant |done| == i && pendingReports == done + left && desiredReport == old(desiredReport)
        invariant done + Refolded(left, desired) == Refolded(was, NEUTRAL)
        invariant RefoldedDesired(left, desired) == RefoldedDesired(was, NEUTRAL)
        decreases |left|
      {
        RefoldNext(done, left, desired);
        ReplaceNext(done, left, NextEntry(left[0], desired));
        var e := pendingReports[i];
        done := done + [NextEntry(e, desired)];
        if e.mutation.Some? {
          desired := Act(e.mutation.value, desired);
          pendingReports := pendingReports[i := e.(report := desired)];
        }
        left := left[1..];
        i := i + 1;
      }
      assert left == [] && done + [] == done;
      desiredReport := desired;
    }

    // `schedule_cancel_cleanup` and `schedule_failure_cleanup`, which differ in the completion.
    method ScheduleCleanup(op: nat, completion: Completion, now: nat)
      modifies `pendingReports, `desiredReport
      ensures View() == Cleanup(old(View()), op, completion, now)
    {
      RebuildPendingAfterNeutral();
      var due := PacedTarget(lastReportAcceptance, minimumReportInterval, now);
      pendingReports := [Scheduled(now, due, op, NEUTRAL, None, completion)] + pendingReports;
    }

    method Settle(op: nat, verdict: Verdict)
      modifies `settled
      ensures settled == old(settled) + [Settled(op, verdict)]
    {
      settled := settled + [Settled(op, verdict)];
    }

    method HandleDirect(op: nat, action: Action, now: nat, found: Found)
      modifies this
      ensures var r := LaneQueue.HandleDirect(old(View()), op, action, now, found);
              View() == r.lane && settled == old(settled) + r.settled
    {
      if permanentFailure {
        Settle(op, StrictlyFailed);
        return;
      }
      if found.cancelled {
        Settle(op, Cancelled);
        return;
      }
      if !found.started || !connected || leaseOwner.Some? {
        Settle(op, Failed);
        return;
      }
      desiredReport := Act(action, desiredReport);
      var target := PacedTarget(lastReportAcceptance, minimumReportInterval, now);
      pendingReports := pendingReports + [Scheduled(target, target, op, desiredReport, Some(action), Direct)];
    }

    // The reports planned so far are queued; after an overflow the operation's reports go out again, and
    // a failure cleanup comes in front.
    method ScheduleSequence(w: Waiting, now: nat)
      modifies `pendingReports, `desiredReport
      ensures View() == Schedule(old(View()), w, now)
    {
      var overflow, planned := PlanSequence(w.steps, w.origin, desiredReport, lastReportAcceptance, minimumReportInterval);
      ghost var was := pendingReports;
      pendingReports := pendingReports + Entries(planned, w.operation);
      if overflow {
        WithoutEntries(was, planned, w.operation);
        pendingReports := Without(pendingReports, w.operation);
        ScheduleCleanup(w.operation, FailureCleanup(true), now);
      }
    }

    method HandleSequence(op: nat, steps: seq<SequenceStep>, now: nat, found: Found)
      modifies this
      ensures var r := LaneQueue.HandleSequence(old(View()), op, steps, now, found);
              View() == r.lane && settled == old(settled) + r.settled
    {
      if permanentFailure {
        Settle(op, StrictlyFailed);
        return;
      }
      if found.cancelled {
        Settle(op, Cancelled);
        return;
      }
      if !found.started || !connected || leaseOwner.Some? {
        Settle(op, Failed);
        return;
      }
      leaseOwner := Some(op);
      var waiting := Waiting(op, steps, now);
      if pendingReports == [] {
        ScheduleSequence(waiting, now);
      } else {
        waitingSequence := Some(waiting);
      }
    }

    method ActivateWaitingSequence(cancelled: set<nat>, now: nat)
      modifies `pendingReports, `desiredReport, `waitingSequence
      ensures View() == Activate(old(View()), cancelled, now)
    {
      if pendingReports != [] || waitingSequence == None {
        return;
      }
      var waiting := waitingSequence.value;
      waitingSequence := None;
      if waiting.operation in cancelled {
        ScheduleCleanup(waiting.operation, CancelCleanup(true), now);
      } else {
        ScheduleSequence(waiting, now);
      }
    }

    method ObserveCancellation(cancelled: set<nat>, now: nat)
      modifies `pendingReports, `desiredReport, `waitingSequence
      ensures View() == Observe(old(View()), cancelled, now)
    {
      if pendingReports == [] && waitingSequence.Some? && waitingSequence.value.operation in cancelled {
        var waiting := waitingSequence.value;
        waitingSequence := None;
        ScheduleCleanup(waiting.operation, CancelCleanup(true), now);
        return;
      }
      var i := FirstCancelled(pendingReports, cancelled);
      if i == |pendingReports| {
        return;
      }
      var op := pendingReports[i].operation;
      var releaseSequence := leaseOwner == Some(op);
      pendingReports := Without(pendingReports, op);
      ScheduleCleanup(op, CancelCleanup(releaseSequence), now);
    }

    // The loop over a drained queue.
    method SettleDrained(drained: seq<Scheduled>, verdict: Verdict)
      modifies `settled
      ensures settled == old(settled) + AllSettled(drained, verdict)
    {
      assert drained[0..] == drained;
      var i := 0;
      while i < |drained|
        invariant i <= |drained|
        invariant settled + AllSettled(drained[i..], verdict) == old(settled) + AllSettled(drained, verdict)
      {
        AllSettledNext(drained, i, verdict, settled);
        Settle(drained[i].operation, verdict);
        i := i + 1;
      }
      AllSettledDone(drained, verdict, settled);
    }

    // Takes the whole queue and the waiting sequence, and settles each of them.
    method DrainPending(verdict: Verdict)
      modifies `pendingReports, `waitingSequence, `settled
      ensures var r := Drain(old(View()), verdict);
              View() == r.lane && settled == old(settled) + r.settled
    {
      var drained, waiting := pendingReports, waitingSequence;
      pendingReports, waitingSequence := [], None;
      SettleDrained(drained, verdict);
      if waiting.Some? {
        Settle(waiting.value.operation, verdict);
      }
    }

    method FailPendingDisconnected(closeOk: bool)
      modifies this
      ensures var r := FailPending(old(View()), closeOk);
              View() == r.lane && settled == old(settled) + r.settled
    {
      var held := Holds(View(), leaseOwner);
      connected := false;
      if !closeOk {
        permanentFailure := true;
      }
      DrainPending(if closeOk then Failed else StrictlyFailed);
      if !closeOk || held {
        leaseOwner := None;
      }
    }

    method SealAfterCleanupFailure(op: nat)
      modifies this
      ensures var r := SealAll(old(View()), op);
              View() == r.lane && settled == old(settled) + r.settled
    {
      permanentFailure, connected := true, false;
      desiredReport := NEUTRAL;
      DrainPending(StrictlyFailed);
      leaseOwner := None;
      Settle(op, StrictlyFailed);
    }

    method ReleaseSequence(op: nat)
      modifies `leaseOwner
      ensures View() == LaneQueue.Release(old(View()), op)
    {
      if leaseOwner == Some(op) {
        leaseOwner := None;
      }
    }

    method HandleReportWriteFailure(head: Scheduled, t: Turn)
      requires t.write.Refused?
      modifies this
      ensures var r := WriteRefused(old(View()), head, t);
              View() == r.lane && settled == old(settled) + r.settled
    {
      var op, w := head.operation, t.write;
      if w.unclosed {
        SealAfterCleanupFailure(op);
        return;
      }
      var releaseSequence := leaseOwner == Some(op);
      pendingReports := Without(pendingReports, op);
      desiredReport := NEUTRAL;
      if w.closed {
        connected := false;
      }
      if !IsCleanup(head) {
        ScheduleCleanup(op, if w.byCancel then CancelCleanup(releaseSequence) else FailureCleanup(releaseSequence), t.later);
        return;
      }
      ReleaseSequence(op);
      HandleCleanupFailure(head, w);
    }

    method HandleCleanupFailure(head: Scheduled, w: Write)
      requires w.Refused?
      modifies this
      ensures var r := CleanupRefused(old(View()), head, w);
              View() == r.lane && settled == old(settled) + r.settled
    {
      var op := head.operation;
      if w.lost && !w.reclosed {
        SealAfterCleanupFailure(op);
        return;
      }
      Settle(op, if head.completion.CancelCleanup? then Cancelled else Failed);
      if w.lost || !connected {
        ghost var failed := FailPending(View(), w.drained).settled;
        assert settled + failed == old(settled) + ([settled[|settled| - 1]] + failed);
        FailPendingDisconnected(w.drained);
      } else {
        RebuildPendingAfterNeutral();
      }
    }

    method RecordAcceptance(head: Scheduled, at: nat)
      modifies this
      ensures var r := WriteAccepted(old(View()), head, at);
              View() == r.lane && settled == old(settled) + r.settled
    {
      lastReportAcceptance := Some(at);
      match head.completion
      case Direct => Settle(head.operation, Succeeded);
      case SequenceReport(final) =>
        desiredReport := head.report;
        if final {
          ReleaseSequence(head.operation);
          Settle(head.operation, Succeeded);
        }
      case CancelCleanup(release) =>
        if release {
          ReleaseSequence(head.operation);
        }
        Settle(head.operation, Cancelled);
      case FailureCleanup(release) =>
        if release {
          ReleaseSequence(head.operation);
        }
        Settle(head.operation, Failed);
    }

    // One pass of the loop in `dispatch_due_reports`. A write starts only when the head is due and the
    // interval after the last acceptance is over.
    method DispatchOnce(t: Turn) returns (wrote: bool, goOn: bool)
      modifies this
      ensures var p := DispatchTurn(old(View()), t);
              View() == p.lane && settled == old(settled) + p.settled && wrote == p.wrote && goOn == p.goOn
      ensures wrote ==> old(pendingReports) != [] && old(pendingReports)[0].due <= t.now
      ensures wrote ==> Earliest(old(lastReportAcceptance), minimumReportInterval) <= t.now
    {
      wrote, goOn := false, false;
      if pendingReports == [] || pendingReports[0].due > t.now {
        return;
      }
      var head := pendingReports[0];
      if !IsCleanup(head) && head.operation in t.cancelled {
        ObserveCancellation(t.cancelled, t.later);
        goOn := true;
        return;
      }
      var earliest := Earliest(lastReportAcceptance, minimumReportInterval);
      if earliest > t.now {
        pendingReports := [head.(due := earliest)] + pendingReports[1..];
        return;
      }
      pendingReports := pendingReports[1..];
      if t.write.Accepted? {
        RecordAcceptance(head, t.write.at);
      } else {
        HandleReportWriteFailure(head, t);
      }
      wrote, goOn := true, true;
    }

    method DispatchDueReports(turns: seq<Turn>)
      modifies this
      ensures Result(View(), settled) == DispatchAll(old(View()), old(settled), turns)
    {
      var i, goOn := 0, true;
      assert turns[0..] == turns;
      while goOn && i < |turns|
        invariant i <= |turns|
        invariant DispatchAll(old(View()), old(settled), turns)
               == if goOn then DispatchAll(View(), settled, turns[i..]) else Result(View(), settled)
        decreases |turns| - i
      {
        DispatchAllNext(View(), settled, turns, i);
        var wrote;
        wrote, goOn := DispatchOnce(turns[i]);
        i := i + 1;
      }
    }
  }

  // What a pass of the dispatch loop writes is due and paced: its start is the reading of the clock the
  // two checks were made with.
  lemma DispatchIsPaced(l: Lane, t: Turn)
    requires DispatchTurn(l, t).wrote
    ensures l.pending != [] && l.pending[0].due <= t.now && Earliest(l.last, l.interval) <= t.now
    ensures t.write.Accepted? ==> DispatchTurn(l, t).lane.last == Some(t.write.at)
  {
  }

  ghost function PassesOf(turns: seq<Turn>): (steps: seq<Step>)
    ensures |steps| == |turns|
  {
    if turns == [] then [] else [DispatchPass(turns[0])] + PassesOf(turns[1..])
  }

  // The loop made `n` passes, and then there was nothing left to write, or it was not due.
  ghost predicate StopsAfter(w: World, turns: seq<Turn>, n: nat) {
    n <= |turns| &&
      var w' := Run(w, PassesOf(turns[..n]));
      && DispatchAll(w.lane, w.settled, turns) == Result(w'.lane, w'.settled)
      && (n < |turns| ==> n > 0 && (w'.lane.pending == [] || w'.lane.pending[0].due > turns[n - 1].now))
  }

  lemma OnePass(w: World, t: Turn)
    ensures var w' := Apply(w, DispatchPass(t));
            var p := DispatchTurn(w.lane, t);
            && w'.lane == p.lane && w'.settled == w.settled + p.settled
            && (!p.goOn ==> w'.lane.pending == [] || w'.lane.pending[0].due > t.now)
  {
  }

  lemma {:induction false} AfterFirst(w: World, turns: seq<Turn>, n: nat)
    requires 0 < n <= |turns|
    ensures Run(w, PassesOf(turns[..n])) == Run(Apply(w, DispatchPass(turns[0])), PassesOf(turns[1..][..n - 1]))
  {
    assert turns[..n][1..] == turns[1..][..n - 1];
    assert PassesOf(turns[..n])[1..] == PassesOf(turns[1..][..n - 1]);
  }

  // The dispatch loop is a run of passes, and it does not leave a due report behind: as long as it is given
  // turns, it stops only when the queue is empty or its head is due later than the clock it last read.
  lemma {:induction false} LoopStopsWhenNothingIsDue(w: World, turns: seq<Turn>)
    ensures exists n :: StopsAfter(w, turns, n)
    decreases turns
  {
    if turns == [] {
      assert turns[..0] == [];
      assert StopsAfter(w, turns, 0);
    } else {
      OnePass(w, turns[0]);
      var next := Apply(w, DispatchPass(turns[0]));
      var n := 1;
      if DispatchTurn(w.lane, turns[0]).goOn {
        LoopStopsWhenNothingIsDue(next, turns[1..]);
        var m :| StopsAfter(next, turns[1..], m);
        n := m + 1;
      } else {
        assert turns[1..][..0] == [];
      }
      AfterFirst(w, turns, n);
      assert StopsAfter(w, turns, n);
    }
  }
}
