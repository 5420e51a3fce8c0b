/**
 * What the lane folds its reports over (crates/easycon-controller/src/session.rs): over every run it is the last
 * report the device took, unless the lane reset what it shows since then, and neutral if it did.
 */
module LaneBase {
  import opened Wrappers
  import opened Timing
  import opened Report
  import opened SequencePlan
  import opened LaneQueue

  // The lane resets what it shows when it puts a cleanup in front, when a write is refused, and when the stream
  // is lost; an accepted report is shown from then on.
  predicate ResetBy(w: World, s: Step, was: bool) {
    var l := Apply(w, s).lane;
    if l.pending != [] && IsCleanup(l.pending[0]) then true
    else if s.StreamLost? then true
    else if s.DispatchPass? && DispatchTurn(w.lane, s.turn).wrote then s.turn.write.Refused?
    else was
  }

  predicate ResetAfter(w: World, steps: seq<Step>, was: bool)
    decreases steps
  {
    if steps == [] then was else ResetAfter(Apply(w, steps[0]), steps[1..], ResetBy(w, steps[0], was))
  }

  function Base(w: World, reset: bool): Report {
    if reset then NEUTRAL else w.accepted
  }

  predicate BaseInv(w: World, reset: bool) {
    if SequenceInv(w) then w.lane.desired == Base(w, reset)
    else Folded(w.lane.pending, Base(w, reset), w.lane.desired)
  }

  lemma CleanedUp(w: World, l: Lane, op: nat, completion: Completion, now: nat)
    requires Shape(l.pending) && (completion.CancelCleanup? || completion.FailureCleanup?)
    ensures BaseInv(w.(lane := Cleanup(l, op, completion, now)), true)
    ensures Cleanup(l, op, completion, now).pending != [] && IsCleanup(Cleanup(l, op, completion, now).pending[0])
  {
    CleanupFolds(l, op, completion, now);
  }

  lemma ObserveBase(w: World, cancelled: set<nat>, now: nat, reset: bool)
    requires QueueInv(w) && BaseInv(w, reset)
    ensures var l := Observe(w.lane, cancelled, now);
            l == w.lane || (l.pending != [] && IsCleanup(l.pending[0]) && BaseInv(w.(lane := l), true))
  {
    var l := w.lane;
    if l.pending == [] && l.waiting.Some? && l.waiting.value.operation in cancelled {
      CleanedUp(w, l.(waiting := None), l.waiting.value.operation, CancelCleanup(true), now);
    } else {
      var i := FirstCancelled(l.pending, cancelled);
      if i < |l.pending| {
        var op := l.pending[i].operation;
        WithoutIsShaped(w, op);
        CleanedUp(w, l.(pending := Without(l.pending, op)), op, CancelCleanup(l.owner == Some(op)), now);
      }
    }
  }

  lemma ScheduleBase(w: World, l: Lane, s: Waiting, now: nat, reset: bool)
    requires l.pending == [] && l.owner == Some(s.operation) && l.waiting == None && l.desired == Base(w, reset)
    requires NewSequence(s.steps) == Checked.Accepted(s.steps)
    ensures var l' := Schedule(l, s, now);
            if l'.pending != [] && IsCleanup(l'.pending[0]) then BaseInv(w.(lane := l'), true) else BaseInv(w.(lane := l'), reset)
  {
    var plan := PlanOf(s.steps, s.origin, l.desired, l.last, l.interval);
    if plan == None {
      CleanedUp(w, l, s.operation, FailureCleanup(true), now);
    } else {
      EntriesAlone(s, l.desired, l.last, l.interval);
      assert [] + Entries(plan.value, s.operation) == Entries(plan.value, s.operation);
    }
  }

  lemma EmptyBase(w: World, reset: bool)
    requires BaseInv(w, reset) && w.lane.pending == []
    ensures w.lane.desired == Base(w, reset)
  {
  }

  lemma CommandBase(w: World, s: Step, reset: bool)
    requires QueueInv(w) && BaseInv(w, reset) && Enabled(w, s) && (s.DirectCommand? || s.SequenceCommand?)
    ensures BaseInv(Apply(w, s), ResetBy(w, s, reset))
  {
    var l, l' := w.lane, Apply(w, s).lane;
    if l'.pending == l.pending {
      StaysBase(w, s, reset);
    } else if s.DirectCommand? {
      DirectBase(w, s, reset);
    } else {
      EmptyBase(w, reset);
      ScheduleBase(w, l.(owner := Some(s.operation)), Waiting(s.operation, s.steps, s.now), s.now, reset);
    }
  }

  // A queue with a cleanup in front is folded over neutral.
  lemma FrontIsNeutral(w: World, reset: bool)
    requires BaseInv(w, reset) && w.lane.pending != [] && IsCleanup(w.lane.pending[0])
    ensures Base(w, reset) == NEUTRAL
  {
  }

  lemma StaysBase(w: World, s: Step, reset: bool)
    requires BaseInv(w, reset) && (s.DirectCommand? || s.SequenceCommand?) && Apply(w, s).lane.pending == w.lane.pending
    requires QueueInv(w)
    ensures BaseInv(Apply(w, s), ResetBy(w, s, reset))
  {
    if w.lane.pending != [] && IsCleanup(w.lane.pending[0]) { FrontIsNeutral(w, reset); }
  }

  lemma DirectBase(w: World, s: Step, reset: bool)
    requires QueueInv(w) && BaseInv(w, reset) && s.DirectCommand? && Apply(w, s).lane.pending != w.lane.pending
    ensures BaseInv(Apply(w, s), ResetBy(w, s, reset))
  {
    var l, l' := w.lane, Apply(w, s).lane;
    var e := l'.pending[|l.pending|];
    assert !SequenceInv(w);
    FoldedAppend(l.pending, Base(w, reset), l.desired, e);
    if l.pending != [] && IsCleanup(l.pending[0]) { FrontIsNeutral(w, reset); }
    assert l'.pending[0] == if l.pending == [] then e else l.pending[0];
    assert !SequenceInv(Apply(w, s)) by { assert l'.owner == None; }
  }

  lemma ActivateBase(w: World, s: Step, reset: bool)
    requires QueueInv(w) && BaseInv(w, reset) && s.ActivateWaiting?
    ensures BaseInv(Apply(w, s), ResetBy(w, s, reset))
  {
    var l := w.lane;
    if l.pending == [] && l.waiting.Some? {
      EmptyBase(w, reset);
      if l.waiting.value.operation in s.cancelled {
        CleanedUp(w, l.(waiting := None), l.waiting.value.operation, CancelCleanup(true), s.now);
      } else {
        ScheduleBase(w, l.(waiting := None), l.waiting.value, s.now, reset);
      }
    } else if l.pending != [] && IsCleanup(l.pending[0]) {
      FrontIsNeutral(w, reset);
    }
  }

  // ---- Passes of the dispatch loop ----------------------------------------------------------------------------

  lemma HeadTakenBase(w: World, t: Turn, reset: bool)
    requires QueueInv(w) && !SequenceInv(w) && BaseInv(w, reset) && DispatchTurn(w.lane, t).wrote && t.write.Accepted?
    ensures var w' := Pass(w, t); Folded(w'.lane.pending, w'.accepted, w'.lane.desired)
    ensures var l := Pass(w, t).lane;
            l.pending != [] && IsCleanup(l.pending[0]) ==> Folded(l.pending, NEUTRAL, l.desired)
  {
    HeadTaken(w.lane.pending, Base(w, reset), w.lane.desired);
    HeadIsNoSequence(w.lane.pending, Base(w, reset), w.lane.desired);
  }

  lemma AcceptedBase(w: World, t: Turn, reset: bool)
    requires QueueInv(w) && BaseInv(w, reset) && DispatchTurn(w.lane, t).wrote && t.write.Accepted?
    ensures BaseInv(Pass(w, t), false)
    ensures var l := Pass(w, t).lane; l.pending != [] && IsCleanup(l.pending[0]) ==> BaseInv(Pass(w, t), true)
  {
    if SequenceInv(w) {
      SequenceTaken(w, t);
    } else {
      HeadTakenBase(w, t, reset);
      TakenIsNoSequence(w, t, reset);
    }
  }

  lemma TakenIsNoSequence(w: World, t: Turn, reset: bool)
    requires QueueInv(w) && !SequenceInv(w) && BaseInv(w, reset) && DispatchTurn(w.lane, t).wrote && t.write.Accepted?
    ensures !SequenceInv(Pass(w, t))
  {
    HeadTakenBase(w, t, reset);
    FoldedIsNoSequence(Pass(w, t), Pass(w, t).accepted);
  }

  lemma SequenceTaken(w: World, t: Turn)
    requires QueueInv(w) && SequenceInv(w) && DispatchTurn(w.lane, t).wrote && t.write.Accepted?
    ensures var w' := Pass(w, t);
            && w'.lane.desired == w'.accepted && (SequenceInv(w') || w'.lane.pending == [])
            && (w'.lane.pending != [] ==> !IsCleanup(w'.lane.pending[0]))
  {
    var q := w.lane.pending;
    assert q[0].completion == SequenceReport(0 == |q| - 1);
    if |q| > 1 {
      forall k | 0 <= k < |q| - 1
        ensures q[1..][k].operation == w.lane.owner.value && q[1..][k].mutation == None
        ensures q[1..][k].completion == SequenceReport(k == |q[1..]| - 1)
      {
        assert q[1..][k] == q[k + 1];
      }
      assert SequenceOnly(q[1..], w.lane.owner.value);
    }
  }

  lemma {:induction false} FoldedIsNoSequence(w: World, base: Report)
    requires Folded(w.lane.pending, base, w.lane.desired)
    ensures !SequenceInv(w)
  {
    if w.lane.pending != [] { HeadIsNoSequence(w.lane.pending, base, w.lane.desired); }
  }

  lemma CleanupRefusedBase(l: Lane, head: Scheduled, write: Write)
    requires write.Refused? && Shape(l.pending) && l.desired == NEUTRAL
    ensures var l' := CleanupRefused(l, head, write).lane; Folded(l'.pending, NEUTRAL, l'.desired)
  {
    RefoldedFolded(l.pending);
  }

  lemma RefusedBase(w: World, t: Turn)
    requires QueueInv(w) && w.lane.pending != [] && t.write.Refused?
    ensures var l := WriteRefused(w.lane.(pending := w.lane.pending[1..]), w.lane.pending[0], t).lane;
            Folded(l.pending, NEUTRAL, l.desired)
  {
    var l, head := w.lane, w.lane.pending[0];
    var op := head.operation;
    RefusedIsShaped(w);
    if !t.write.unclosed {
      var rest := l.(pending := Without(l.pending[1..], op), desired := NEUTRAL, connected := l.connected && !t.write.closed);
      if !IsCleanup(head) {
        var release := l.owner == Some(op);
        CleanupFolds(rest, op, if t.write.byCancel then CancelCleanup(release) else FailureCleanup(release), t.later);
      } else {
        CleanupRefusedBase(LaneQueue.Release(rest, op), head, t.write);
      }
    }
  }

  lemma PostponedBase(w: World, due: nat, reset: bool)
    requires QueueInv(w) && BaseInv(w, reset) && w.lane.pending != []
    ensures BaseInv(w.(lane := w.lane.(pending := [w.lane.pending[0].(due := due)] + w.lane.pending[1..])), reset)
  {
    var q := w.lane.pending;
    var q' := [q[0].(due := due)] + q[1..];
    assert q'[1..] == q[1..];
    if SequenceInv(w) {
      forall k | 0 <= k < |q'|
        ensures q'[k].operation == w.lane.owner.value && q'[k].mutation == None && q'[k].completion == SequenceReport(k == |q'| - 1) {
        assert q'[k] == q[k].(due := q'[k].due);
      }
    } else {
      FoldedIsNoSequence(w.(lane := w.lane.(pending := q')), Base(w, reset));
    }
  }

  lemma PassBase(w: World, t: Turn, reset: bool)
    requires QueueInv(w) && BaseInv(w, reset)
    ensures BaseInv(Pass(w, t), ResetBy(w, DispatchPass(t), reset))
  {
    var l := w.lane;
    if l.pending == [] || l.pending[0].due > t.now {
      if l.pending != [] && IsCleanup(l.pending[0]) { FrontIsNeutral(w, reset); }
      assert Pass(w, t).lane == l && Pass(w, t).accepted == w.accepted;
    } else if !IsCleanup(l.pending[0]) && l.pending[0].operation in t.cancelled {
      ObserveBase(w, t.cancelled, t.later, reset);
      ObservedPass(w, t);
    } else if Earliest(l.last, l.interval) > t.now {
      PostponedBase(w, Earliest(l.last, l.interval), reset);
      if IsCleanup(l.pending[0]) { FrontIsNeutral(w, reset); }
    } else {
      WrittenBase(w, t, reset);
    }
  }

  lemma ObservedPass(w: World, t: Turn)
    requires w.lane.pending != [] && w.lane.pending[0].due <= t.now
    requires !IsCleanup(w.lane.pending[0]) && w.lane.pending[0].operation in t.cancelled
    ensures Pass(w, t) == w.(lane := Observe(w.lane, t.cancelled, t.later)) && !DispatchTurn(w.lane, t).wrote
  {
    assert w.settled + [] == w.settled;
  }

  lemma WrittenBase(w: World, t: Turn, reset: bool)
    requires QueueInv(w) && BaseInv(w, reset) && DispatchTurn(w.lane, t).wrote
    ensures BaseInv(Pass(w, t), ResetBy(w, DispatchPass(t), reset))
  {
    if t.write.Accepted? {
      AcceptedBase(w, t, reset);
    } else {
      RefusedBase(w, t);
      FoldedIsNoSequence(Pass(w, t), NEUTRAL);
    }
  }

  lemma StepKeepsBase(w: World, s: Step, reset: bool)
    requires QueueInv(w) && BaseInv(w, reset)
    ensures BaseInv(Apply(w, s), ResetBy(w, s, reset))
  {
    if !Enabled(w, s) {
      if w.lane.pending != [] && IsCleanup(w.lane.pending[0]) { FrontIsNeutral(w, reset); }
    } else {
      match s
      case DirectCommand(_, _, _, _) => CommandBase(w, s, reset);
      case SequenceCommand(_, _, _, _) => CommandBase(w, s, reset);
      case ActivateWaiting(_, _) => ActivateBase(w, s, reset);
      case ObserveCancelled(cancelled, now) =>
        ObserveBase(w, cancelled, now, reset);
        if w.lane.pending != [] && IsCleanup(w.lane.pending[0]) { FrontIsNeutral(w, reset); }
      case DispatchPass(t) => PassBase(w, t, reset);
      case StreamLost(_) =>
      case Connected => if w.lane.pending != [] && IsCleanup(w.lane.pending[0]) { FrontIsNeutral(w, reset); }
    }
  }

  lemma {:induction false} RunKeepsBase(w: World, steps: seq<Step>, reset: bool)
    requires QueueInv(w) && BaseInv(w, reset)
    ensures BaseInv(Run(w, steps), ResetAfter(w, steps, reset)) && QueueInv(Run(w, steps))
    decreases steps
  {
    if steps != [] {
      StepKeepsQueue(w, steps[0]);
      StepKeepsBase(w, steps[0], reset);
      RunKeepsBase(Apply(w, steps[0]), steps[1..], ResetBy(w, steps[0], reset));
    }
  }

  // ---- Main result -------------------------------------------------------------------------------------------------

  // The lane never forgets what the device shows, and never shows what it reset: over every run its queue is
  // folded over the last report the device took, or over neutral if the lane reset what it shows since then; and
  // a sequence in it leaves that report, or neutral, as what the lane shows.
  lemma {:induction false} BaseIsExact(interval: nat, steps: seq<Step>)
    ensures var w := Run(Init(interval), steps);
            var base := if ResetAfter(Init(interval), steps, false) then NEUTRAL else w.accepted;
            if w.lane.pending != [] && w.lane.pending[0].completion.SequenceReport? then w.lane.desired == base
            else FoldOf(w.lane.pending, base, w.lane.desired)
  {
    var w := Run(Init(interval), steps);
    var reset := ResetAfter(Init(interval), steps, false);
    RunKeepsBase(Init(interval), steps, false);
    if !SequenceInv(w) {
      FoldedIsFoldOf(w.lane.pending, Base(w, reset), w.lane.desired);
      if w.lane.pending != [] { HeadIsNoSequence(w.lane.pending, Base(w, reset), w.lane.desired); }
    }
  }
}
