/**
 * The write lease of a sequence (crates/easycon-controller/src/session.rs): over every run of the lane it is
 * held by a sequence that is still on the lane, and by nobody else, so it is always given back.
 */
module LaneLease {
  import opened Wrappers
  import opened Report
  import opened SequencePlan
  import Timing
  import opened LaneQueue
  import V = LaneVerdicts

  predicate GivesBack(c: Completion) {
    match c
    case CancelCleanup(release) => release
    case FailureCleanup(release) => release
    case SequenceReport(_) => true
    case Direct => false
  }

  // The holder's entries are its reports, or a cleanup that gives the lease back.
  predicate HolderEntries(q: seq<Scheduled>, op: nat) {
    forall e :: e in q && e.operation == op ==> GivesBack(e.completion)
  }

  predicate HolderInv(l: Lane) {
    l.owner.Some? ==> Queued(l, l.owner.value) && HolderEntries(l.pending, l.owner.value)
  }

  lemma RebuildHolder(l: Lane, op: nat)
    requires HolderEntries(l.pending, op)
    ensures HolderEntries(Rebuild(l).pending, op)
  {
    V.RefoldedKeepsEntries(l.pending, NEUTRAL);
    forall e | e in Rebuild(l).pending && e.operation == op ensures GivesBack(e.completion) {
      var k :| 0 <= k < |Rebuild(l).pending| && Rebuild(l).pending[k] == e;
      assert l.pending[k] in l.pending;
    }
  }

  // A cleanup in front: of the holder, and then it gives the lease back, or of somebody else.
  lemma CleanupHolder(l: Lane, op: nat, completion: Completion, now: nat)
    requires l.owner.Some? ==> (Queued(l, l.owner.value) || l.owner.value == op) && HolderEntries(l.pending, l.owner.value)
    requires l.owner == Some(op) ==> GivesBack(completion)
    ensures HolderInv(Cleanup(l, op, completion, now))
  {
    if l.owner.Some? {
      RebuildHolder(l, l.owner.value);
      CleanupKeeps(l, op, completion, now, l.owner.value);
    }
  }

  lemma {:induction false} WithoutHolder(l: Lane, op: nat, holder: nat)
    requires HolderEntries(l.pending, holder) && (Queued(l, holder) || holder == op)
    ensures HolderEntries(Without(l.pending, op), holder)
    ensures holder == op || Queued(l.(pending := Without(l.pending, op)), holder)
  {
  }

  lemma ScheduleHolder(l: Lane, s: Waiting, now: nat)
    requires l.pending == [] && l.owner == Some(s.operation) && s.steps != []
    ensures HolderInv(Schedule(l, s, now))
  {
    var plan := PlanOf(s.steps, s.origin, l.desired, l.last, l.interval);
    ScheduleKeeps(l, s, now, s.operation);
    if plan == None {
      CleanupHolder(l.(pending := Without(l.pending, s.operation)), s.operation, FailureCleanup(true), now);
    } else {
      EntriesGiveBack(plan.value, s.operation);
    }
  }

  lemma {:induction false} EntriesGiveBack(plan: seq<Planned>, op: nat)
    ensures forall e :: e in Entries(plan, op) ==> GivesBack(e.completion)
  {
    if plan != [] { EntriesGiveBack(plan[1..], op); }
  }

  lemma ObserveHolder(w: World, cancelled: set<nat>, now: nat)
    requires QueueInv(w) && HolderInv(w.lane)
    ensures HolderInv(Observe(w.lane, cancelled, now))
  {
    var l := w.lane;
    if l.pending == [] && l.waiting.Some? && l.waiting.value.operation in cancelled {
      CleanupHolder(l.(waiting := None), l.waiting.value.operation, CancelCleanup(true), now);
    } else {
      var i := FirstCancelled(l.pending, cancelled);
      if i < |l.pending| {
        var op := l.pending[i].operation;
        if l.owner.Some? { WithoutHolder(l, op, l.owner.value); }
        CleanupHolder(l.(pending := Without(l.pending, op)), op, CancelCleanup(l.owner == Some(op)), now);
      }
    }
  }

  lemma CommandHolder(w: World, s: Step)
    requires QueueInv(w) && HolderInv(w.lane) && Enabled(w, s) && (s.DirectCommand? || s.SequenceCommand?)
    ensures HolderInv(Apply(w, s).lane)
  {
    if s.SequenceCommand? && Apply(w, s).lane != w.lane {
      if w.lane.pending == [] {
        ScheduleHolder(w.lane.(owner := Some(s.operation)), Waiting(s.operation, s.steps, s.now), s.now);
      }
    }
  }

  lemma ActivateHolder(w: World, cancelled: set<nat>, now: nat)
    requires QueueInv(w) && HolderInv(w.lane)
    ensures HolderInv(Activate(w.lane, cancelled, now))
  {
    var l := w.lane;
    if l.pending == [] && l.waiting.Some? {
      if l.waiting.value.operation in cancelled {
        CleanupHolder(l.(waiting := None), l.waiting.value.operation, CancelCleanup(true), now);
      } else {
        ScheduleHolder(l.(waiting := None), l.waiting.value, now);
      }
    }
  }

  // ---- Passes of the dispatch loop -----------------------------------------------------------------------------

  // The head is taken, and it was somebody else's.
  lemma OtherTaken(l: Lane, head: Scheduled, at: nat)
    requires HolderInv(l) && l.pending != [] && head == l.pending[0] && l.owner.Some? && l.owner.value != head.operation
    ensures HolderInv(WriteAccepted(l.(pending := l.pending[1..]), head, at).lane)
  {
    if e :| e in l.pending && e.operation == l.owner.value { assert e in l.pending[1..]; }
  }

  // It was the holder's: it has more on the lane, or gives the lease back.
  lemma OwnTaken(t: V.Tracked, head: Scheduled, at: nat)
    requires QueueInv(t.w) && HolderInv(t.w.lane) && t.w.lane.pending != [] && head == t.w.lane.pending[0]
    requires t.w.lane.owner == Some(head.operation)
    ensures HolderInv(WriteAccepted(t.w.lane.(pending := t.w.lane.pending[1..]), head, at).lane)
  {
    var l := t.w.lane;
    assert head in l.pending && GivesBack(head.completion);
    if head.completion == SequenceReport(false) {
      MoreOfSequence(t.w);
      assert forall e :: e in l.pending[1..] ==> e in l.pending;
    }
  }

  lemma AcceptedHolder(t: V.Tracked, head: Scheduled, at: nat)
    requires V.Inv(t) && HolderInv(t.w.lane) && t.w.lane.pending != [] && head == t.w.lane.pending[0]
    ensures HolderInv(WriteAccepted(t.w.lane.(pending := t.w.lane.pending[1..]), head, at).lane)
  {
    if t.w.lane.owner == Some(head.operation) { OwnTaken(t, head, at); }
    else if t.w.lane.owner.Some? { OtherTaken(t.w.lane, head, at); }
  }

  // A report that is not a sequence's last has the next one behind it.
  lemma MoreOfSequence(w: World)
    requires QueueInv(w) && w.lane.pending != [] && w.lane.pending[0].completion == SequenceReport(false)
    ensures SequenceInv(w) && |w.lane.pending| > 1 && w.lane.pending[1].operation == w.lane.pending[0].operation
    ensures w.lane.pending[1] in w.lane.pending[1..] && w.lane.owner == Some(w.lane.pending[0].operation)
  {
    var q := w.lane.pending;
    if !SequenceInv(w) {
      HeadIsNoSequence(q, if Folded(q, w.accepted, w.lane.desired) then w.accepted else NEUTRAL, w.lane.desired);
    } else {
      assert q[0].completion == SequenceReport(0 == |q| - 1);
      assert q[1..][0] == q[1];
    }
  }

  // A drain frees the lease: its holder is on the lane.
  lemma FailHolder(l: Lane, closeOk: bool)
    requires HolderInv(l)
    ensures HolderInv(FailPending(l, closeOk).lane)
  {
  }

  lemma CleanupRefusedHolder(l: Lane, head: Scheduled, write: Write)
    requires write.Refused? && HolderInv(l)
    ensures HolderInv(CleanupRefused(l, head, write).lane)
  {
    FailHolder(l, write.drained);
    if l.owner.Some? {
      RebuildHolder(l, l.owner.value);
      RebuildKeeps(l, l.owner.value);
    }
  }

  lemma RefusedHolder(l: Lane, t: Turn)
    requires HolderInv(l) && l.pending != [] && t.write.Refused?
    ensures HolderInv(WriteRefused(l.(pending := l.pending[1..]), l.pending[0], t).lane)
  {
    var head := l.pending[0];
    var op := head.operation;
    assert head in l.pending;
    if !t.write.unclosed {
      var rest := l.(pending := Without(l.pending[1..], op), desired := NEUTRAL, connected := l.connected && !t.write.closed);
      if l.owner.Some? && l.owner.value != op { OthersStayQueued(l, op, l.owner.value); }
      if !IsCleanup(head) {
        var release := l.owner == Some(op);
        CleanupHolder(rest, op, if t.write.byCancel then CancelCleanup(release) else FailureCleanup(release), t.later);
      } else {
        CleanupRefusedHolder(LaneQueue.Release(rest, op), head, t.write);
      }
    }
  }

  lemma {:induction false} OthersStayQueued(l: Lane, op: nat, holder: nat)
    requires l.pending != [] && l.pending[0].operation == op != holder && Queued(l, holder) && HolderEntries(l.pending, holder)
    ensures Queued(l.(pending := Without(l.pending[1..], op)), holder) && HolderEntries(Without(l.pending[1..], op), holder)
  {
    if e :| e in l.pending && e.operation == holder {
      assert e in l.pending[1..];
      assert e in Without(l.pending[1..], op);
    }
  }

  lemma PassHolder(t: V.Tracked, turn: Turn)
    requires V.Inv(t) && HolderInv(t.w.lane)
    ensures HolderInv(DispatchTurn(t.w.lane, turn).lane)
  {
    var l := t.w.lane;
    if l.pending != [] && l.pending[0].due <= turn.now {
      var head := l.pending[0];
      if !IsCleanup(head) && head.operation in turn.cancelled {
        ObserveHolder(t.w, turn.cancelled, turn.later);
      } else if Timing.Earliest(l.last, l.interval) > turn.now {
        PostponedHolder(l, Timing.Earliest(l.last, l.interval));
      } else if turn.write.Accepted? {
        AcceptedHolder(t, head, turn.write.at);
      } else {
        RefusedHolder(l, turn);
      }
    }
  }

  lemma PostponedHolder(l: Lane, due: nat)
    requires HolderInv(l) && l.pending != []
    ensures HolderInv(l.(pending := [l.pending[0].(due := due)] + l.pending[1..]))
  {
    var q' := [l.pending[0].(due := due)] + l.pending[1..];
    V.PostponedNames(l.pending, due);
    if l.owner.Some? {
      if e :| e in l.pending && e.operation == l.owner.value {
        if e == l.pending[0] { assert q'[0] in q'; } else { assert e in l.pending[1..] && e in q'; }
      }
    }
  }

  lemma StepKeepsHolder(t: V.Tracked, s: Step)
    requires V.Inv(t) && HolderInv(t.w.lane)
    ensures HolderInv(Apply(t.w, s).lane)
  {
    if Enabled(t.w, s) {
      match s
      case DirectCommand(_, _, _, _) => CommandHolder(t.w, s);
      case SequenceCommand(_, _, _, _) => CommandHolder(t.w, s);
      case ActivateWaiting(cancelled, now) => ActivateHolder(t.w, cancelled, now);
      case ObserveCancelled(cancelled, now) => ObserveHolder(t.w, cancelled, now);
      case DispatchPass(turn) => PassHolder(t, turn);
      case StreamLost(closeOk) => LostHolder(t.w.lane, closeOk);
      case Connected =>
    }
  }

  lemma LostHolder(l: Lane, closeOk: bool)
    requires HolderInv(l)
    ensures HolderInv(FailPending(l.(desired := NEUTRAL), closeOk).lane)
  {
    assert HolderInv(l.(desired := NEUTRAL));
    FailHolder(l.(desired := NEUTRAL), closeOk);
  }

  lemma {:induction false} RunKeepsHolder(t: V.Tracked, steps: seq<Step>)
    requires V.Inv(t) && HolderInv(t.w.lane)
    ensures HolderInv(V.TrackRun(t, steps).w.lane)
    decreases steps
  {
    if steps != [] {
      StepKeepsHolder(t, steps[0]);
      V.StepKeepsInv(t, steps[0]);
      RunKeepsHolder(V.Track(t, steps[0]), steps[1..]);
    }
  }

  // ---- Main results ------------------------------------------------------------------------------------------------

  lemma {:induction false} ReachableLane(interval: nat, steps: seq<Step>)
    ensures var w := Run(Init(interval), steps); QueueInv(w) && HolderInv(w.lane) && V.Untold(w.lane, w.settled)
  {
    var t := V.Tracked(Init(interval), {}, {});
    V.TracksTheRun(t, steps);
    V.RunKeepsInv(t, steps);
    RunKeepsHolder(t, steps);
  }

  // The lease is never lost: whoever holds it is waiting or queued, so it has not been told anything yet, and
  // what it still has on the lane gives the lease back at the end.
  lemma {:induction false} LeaseIsHeldOnTheLane(interval: nat, steps: seq<Step>)
    requires Run(Init(interval), steps).lane.owner.Some?
    ensures var w := Run(Init(interval), steps);
            && Queued(w.lane, w.lane.owner.value) && !HasVerdict(w.settled, w.lane.owner.value)
            && forall e :: e in w.lane.pending && e.operation == w.lane.owner.value ==> GivesBack(e.completion)
  {
    ReachableLane(interval, steps);
  }

  // And it is held by every sequence that waits, or has reports queued.
  lemma {:induction false} SequencesHoldTheLease(interval: nat, steps: seq<Step>, op: nat)
    requires var l := Run(Init(interval), steps).lane;
             || (l.waiting.Some? && l.waiting.value.operation == op)
             || (l.pending != [] && l.pending[0].operation == op && l.pending[0].completion.SequenceReport?)
    ensures Run(Init(interval), steps).lane.owner == Some(op)
  {
    var w := Run(Init(interval), steps);
    ReachableLane(interval, steps);
    if !(w.lane.waiting.Some? && w.lane.waiting.value.operation == op) && !SequenceInv(w) {
      HeadIsNoSequence(w.lane.pending, if Folded(w.lane.pending, w.accepted, w.lane.desired) then w.accepted else NEUTRAL,
                       w.lane.desired);
    }
  }

  // Once an operation was told anything it has the lease no more, so with nothing on the lane the lease is free.
  lemma {:induction false} ToldGivesBack(interval: nat, steps: seq<Step>, op: nat)
    ensures var w := Run(Init(interval), steps);
            && (HasVerdict(w.settled, op) ==> w.lane.owner != Some(op))
            && (w.lane.pending == [] && w.lane.waiting == None ==> w.lane.owner == None)
  {
    ReachableLane(interval, steps);
  }
}
