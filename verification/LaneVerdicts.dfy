/**
 * What the lane tells the operations it settles (crates/easycon-controller/src/session.rs): over every
 * run of `LaneQueue` no operation is told two different things, success means that its last report was
 * accepted, and cancellation that it was asked for.
 */
module LaneVerdicts {
  import opened Wrappers
  import opened Report
  import opened SequencePlan
  import opened LaneQueue

  // A run with its witnesses: the operations seen cancelled, and those whose effect was accepted.
  datatype Tracked = Tracked(w: World, asked: set<nat>, delivered: set<nat>)

  predicate CompletesEffect(e: Scheduled) {
    e.completion.Direct? || e.completion == SequenceReport(true)
  }

  function Asks(w: World, s: Step): set<nat> {
    match s
    case DirectCommand(op, _, _, found) => if found.cancelled then {op} else {}
    case SequenceCommand(op, _, _, found) => if found.cancelled then {op} else {}
    case ActivateWaiting(cancelled, _) => cancelled
    case ObserveCancelled(cancelled, _) => cancelled
    case DispatchPass(t) =>
      t.cancelled + if w.lane.pending != [] && t.write.Refused? && t.write.byCancel then {w.lane.pending[0].operation} else {}
    case _ => {}
  }

  function Delivers(w: World, s: Step): set<nat> {
    if s.DispatchPass? && w.lane.pending != [] && DispatchTurn(w.lane, s.turn).wrote && s.turn.write.Accepted?
       && CompletesEffect(w.lane.pending[0])
    then {w.lane.pending[0].operation} else {}
  }

  function Track(t: Tracked, s: Step): Tracked {
    Tracked(Apply(t.w, s), t.asked + Asks(t.w, s), t.delivered + Delivers(t.w, s))
  }

  function TrackRun(t: Tracked, steps: seq<Step>): Tracked
    decreases steps
  {
    if steps == [] then t else TrackRun(Track(t, steps[0]), steps[1..])
  }

  lemma {:induction false} TracksTheRun(t: Tracked, steps: seq<Step>)
    ensures TrackRun(t, steps).w == Run(t.w, steps)
    decreases steps
  {
    if steps != [] { TracksTheRun(Track(t, steps[0]), steps[1..]); }
  }

  // ---- What every step keeps -------------------------------------------------------------------------------

  // No two entries of one operation.
  predicate Unique(q: seq<Scheduled>) {
    forall i, j :: 0 <= i < j < |q| ==> q[i].operation != q[j].operation
  }

  predicate CleanupsAsked(q: seq<Scheduled>, asked: set<nat>) {
    forall e :: e in q && e.completion.CancelCleanup? ==> e.operation in asked
  }

  // The verdicts given so far.
  predicate Verdicts(settled: seq<Settled>, admitted: set<nat>, asked: set<nat>, delivered: set<nat>) {
    && (forall s, r :: s in settled && r in settled && s.operation == r.operation ==> s.verdict == r.verdict)
    && (forall s :: s in settled ==> s.operation in admitted)
    && (forall s :: s in settled && s.verdict == Cancelled ==> s.operation in asked)
    && (forall s :: s in settled && s.verdict == Succeeded ==> s.operation in delivered)
    && (forall op :: op in delivered ==> Settled(op, Succeeded) in settled)
  }

  // An operation still on the lane has not been told anything.
  predicate Untold(l: Lane, settled: seq<Settled>) {
    forall s :: s in settled ==> !Queued(l, s.operation)
  }

  predicate Inv(t: Tracked) {
    && QueueInv(t.w)
    && (SequenceInv(t.w) || Unique(t.w.lane.pending))
    && CleanupsAsked(t.w.lane.pending, t.asked)
    && Untold(t.w.lane, t.w.settled)
    && Verdicts(t.w.settled, t.w.admitted, t.asked, t.delivered)
  }

  lemma {:induction false} WithoutUnique(q: seq<Scheduled>, op: nat)
    requires Unique(q)
    ensures Unique(Without(q, op))
  {
    if q != [] {
      WithoutUnique(q[1..], op);
      var r := Without(q[1..], op);
      forall k | 0 <= k < |r| ensures r[k].operation != q[0].operation {
        assert r[k] in r;
        var j :| 0 <= j < |q[1..]| && q[1..][j] == r[k];
        assert q[j + 1] == r[k];
      }
    }
  }

  lemma {:induction false} RefoldedKeepsEntries(q: seq<Scheduled>, base: Report)
    ensures forall k :: 0 <= k < |q| ==>
              Refolded(q, base)[k].operation == q[k].operation && Refolded(q, base)[k].completion == q[k].completion
  {
    if q != [] {
      RefoldedKeepsEntries(q[1..], if q[0].mutation.Some? then Act(q[0].mutation.value, base) else base);
    }
  }

  // What a rebuilt queue and a cleanup in front of it keep.
  lemma RebuildLanes(l: Lane, asked: set<nat>)
    requires Unique(l.pending) && CleanupsAsked(l.pending, asked)
    ensures Unique(Rebuild(l).pending) && CleanupsAsked(Rebuild(l).pending, asked)
    ensures forall op :: Queued(Rebuild(l), op) ==> Queued(l, op)
  {
    RefoldedKeepsEntries(l.pending, NEUTRAL);
    var q := Rebuild(l).pending;
    forall e | e in q ensures exists f :: f in l.pending && f.operation == e.operation && f.completion == e.completion {
      var k :| 0 <= k < |q| && q[k] == e;
      assert l.pending[k] in l.pending;
    }
  }

  lemma CleanupLanes(l: Lane, op: nat, completion: Completion, now: nat, asked: set<nat>)
    requires Unique(l.pending) && CleanupsAsked(l.pending, asked)
    requires !(exists e :: e in l.pending && e.operation == op)
    requires completion.CancelCleanup? ==> op in asked
    ensures var l' := Cleanup(l, op, completion, now);
            && Unique(l'.pending) && CleanupsAsked(l'.pending, asked)
            && forall x :: Queued(l', x) ==> x == op || Queued(l, x)
  {
    RebuildLanes(l, asked);
    RefoldedKeepsEntries(l.pending, NEUTRAL);
    var l' := Cleanup(l, op, completion, now);
    forall k | 0 < k < |l'.pending| ensures l'.pending[k].operation != op {
      assert l'.pending[k].operation == l.pending[k - 1].operation;
      assert l.pending[k - 1] in l.pending;
    }
    forall x | Queued(l', x) ensures x == op || Queued(l, x) {
      if e :| e in l'.pending && e.operation == x {
        if e != l'.pending[0] { assert e in Rebuild(l).pending; assert Queued(Rebuild(l), x); }
      }
    }
  }

  // Taking an operation out leaves a queue without it, whatever the queue was.
  lemma {:induction false} WithoutLanes(w: World, op: nat, asked: set<nat>)
    requires SequenceInv(w) || Unique(w.lane.pending)
    requires SequenceInv(w) ==> w.lane.owner == Some(op)
    requires CleanupsAsked(w.lane.pending, asked)
    ensures var q := Without(w.lane.pending, op); Unique(q) && CleanupsAsked(q, asked)
  {
    if SequenceInv(w) {
      SequenceGone(w.lane.pending, op);
    } else {
      WithoutUnique(w.lane.pending, op);
    }
  }

  // A step that settles nobody, and puts nobody on the lane who was not there.
  lemma QuietStep(t: Tracked, l: Lane, asked: set<nat>)
    requires Inv(t) && t.asked <= asked
    requires QueueInv(t.w.(lane := l))
    requires SequenceInv(t.w.(lane := l)) || Unique(l.pending)
    requires CleanupsAsked(l.pending, asked)
    requires forall op :: Queued(l, op) ==> Queued(t.w.lane, op)
    ensures Inv(Tracked(t.w.(lane := l), asked, t.delivered))
  {
  }

  lemma ObserveLanes(t: Tracked, cancelled: set<nat>, now: nat, asked: set<nat>)
    requires Inv(t) && t.asked + cancelled <= asked
    ensures Inv(Tracked(t.w.(lane := Observe(t.w.lane, cancelled, now)), asked, t.delivered))
  {
    var l := t.w.lane;
    ObserveKeepsQueue(t.w, cancelled, now);
    if l.pending == [] && l.waiting.Some? && l.waiting.value.operation in cancelled {
      CleanupLanes(l.(waiting := None), l.waiting.value.operation, CancelCleanup(true), now, asked);
      QuietStep(t, Observe(l, cancelled, now), asked);
    } else {
      var i := FirstCancelled(l.pending, cancelled);
      if i < |l.pending| {
        var op := l.pending[i].operation;
        assert l.pending[i] in l.pending;
        WithoutLanes(t.w, op, asked);
        CleanupLanes(l.(pending := Without(l.pending, op)), op, CancelCleanup(l.owner == Some(op)), now, asked);
        QuietStep(t, Observe(l, cancelled, now), asked);
      } else {
        assert Observe(l, cancelled, now) == l;
      }
    }
  }

  lemma ScheduleLanes(t: Tracked, l: Lane, s: Waiting, now: nat, asked: set<nat>)
    requires Inv(t) && t.asked <= asked
    requires l.pending == [] && l.waiting == None && l.owner == Some(s.operation)
    requires l.desired in {t.w.accepted, NEUTRAL}
    requires NewSequence(s.steps) == Checked.Accepted(s.steps)
    requires s.operation in t.w.admitted && forall x :: x in t.w.settled ==> x.operation != s.operation
    ensures Inv(Tracked(t.w.(lane := Schedule(l, s, now)), asked, t.delivered))
  {
    ScheduleKeepsQueue(t.w, l, s, now);
    var plan := PlanOf(s.steps, s.origin, l.desired, l.last, l.interval);
    if plan == None {
      CleanupLanes(l, s.operation, FailureCleanup(true), now, asked);
    } else {
      EntriesAlone(s, l.desired, l.last, l.interval);
      EntriesNamed(plan.value, s.operation);
      assert Schedule(l, s, now).pending == Entries(plan.value, s.operation);
    }
  }

  // The calls of one step agree, and are true.
  predicate Honest(calls: seq<Settled>, asked: set<nat>, delivered: set<nat>) {
    && (forall s, r :: s in calls && r in calls && s.operation == r.operation ==> s.verdict == r.verdict)
    && (forall s :: s in calls && s.verdict == Cancelled ==> s.operation in asked)
    && (forall s :: s in calls && s.verdict == Succeeded ==> s.operation in delivered)
  }

  // Those called have been told nothing yet, and are off the lane afterwards.
  predicate Calls(t: Tracked, w': World, calls: seq<Settled>) {
    && w'.settled == t.w.settled + calls
    && t.w.admitted <= w'.admitted
    && (forall s :: s in calls ==> s.operation in w'.admitted && !Queued(w'.lane, s.operation))
    && (forall s :: s in calls ==> Queued(t.w.lane, s.operation) || s.operation !in t.w.admitted)
    && (forall op :: Queued(w'.lane, op) ==> Queued(t.w.lane, op) || op !in t.w.admitted)
  }

  lemma CallsKeepVerdicts(t: Tracked, w': World, calls: seq<Settled>, asked: set<nat>, delivered: set<nat>)
    requires Inv(t) && t.asked <= asked && t.delivered <= delivered
    requires Calls(t, w', calls) && Honest(calls, asked, delivered)
    requires forall op :: op in delivered && op !in t.delivered ==> Settled(op, Succeeded) in calls
    ensures Verdicts(w'.settled, w'.admitted, asked, delivered) && Untold(w'.lane, w'.settled)
  {
    assert forall s :: s in w'.settled <==> s in t.w.settled || s in calls;
  }

  lemma SettlingStep(t: Tracked, w': World, calls: seq<Settled>, asked: set<nat>, delivered: set<nat>)
    requires Inv(t) && t.asked <= asked && t.delivered <= delivered
    requires QueueInv(w') && (SequenceInv(w') || Unique(w'.lane.pending)) && CleanupsAsked(w'.lane.pending, asked)
    requires Calls(t, w', calls) && Honest(calls, asked, delivered)
    requires forall op :: op in delivered && op !in t.delivered ==> Settled(op, Succeeded) in calls
    ensures Inv(Tracked(w', asked, delivered))
  {
    CallsKeepVerdicts(t, w', calls, asked, delivered);
  }

  lemma ActivateLanes(t: Tracked, cancelled: set<nat>, now: nat, asked: set<nat>)
    requires Inv(t) && t.asked + cancelled <= asked
    ensures Inv(Tracked(t.w.(lane := Activate(t.w.lane, cancelled, now)), asked, t.delivered))
  {
    var l := t.w.lane;
    if l.pending == [] && l.waiting.Some? {
      var taken := l.(waiting := None);
      if l.waiting.value.operation in cancelled {
        ActivateKeepsQueue(t.w, cancelled, now);
        CleanupLanes(taken, l.waiting.value.operation, CancelCleanup(true), now, asked);
        QuietStep(t, Activate(l, cancelled, now), asked);
      } else {
        EmptyIsSettledDown(t.w);
        assert Queued(l, l.waiting.value.operation);
        ScheduleLanes(t, taken, l.waiting.value, now, asked);
      }
    } else {
      assert Activate(l, cancelled, now) == l;
    }
  }

  lemma DirectLanes(t: Tracked, op: nat, action: Action, now: nat, found: Found)
    requires Inv(t) && op !in t.w.admitted
    ensures Inv(Track(t, DirectCommand(op, action, now, found)))
  {
    var r := HandleDirect(t.w.lane, op, action, now, found);
    var w' := Apply(t.w, DirectCommand(op, action, now, found));
    DirectKeepsQueue(t.w, op, action, now, found);
    FreshIsNotQueued(t.w, op);
    if r.settled == [] {
      var q := w'.lane.pending;
      assert q == t.w.lane.pending + [q[|q| - 1]] && q[|q| - 1].operation == op && q[|q| - 1].completion.Direct?;
      assert t.w.lane.owner == None;
      forall k | 0 <= k < |q| - 1 ensures q[k].operation != op { assert q[k] in t.w.lane.pending; }
      assert Unique(q);
      forall x | Queued(w'.lane, x) ensures x == op || Queued(t.w.lane, x) {
        if e :| e in q && e.operation == x && e != q[|q| - 1] { assert e in t.w.lane.pending; }
      }
    }
    SettlingStep(t, w', r.settled, t.asked + Asks(t.w, DirectCommand(op, action, now, found)), t.delivered);
    assert Track(t, DirectCommand(op, action, now, found)).delivered == t.delivered;
  }

  lemma FreshIsNotQueued(w: World, op: nat)
    requires QueueInv(w) && op !in w.admitted
    ensures !Queued(w.lane, op)
  {
  }

  // A sequence that is told something at once, or waits.
  lemma SequenceStaysOff(t: Tracked, op: nat, steps: seq<SequenceStep>, now: nat, found: Found, asked: set<nat>)
    requires Inv(t) && op !in t.w.admitted && NewSequence(steps) == Checked.Accepted(steps)
    requires t.asked <= asked && (found.cancelled ==> op in asked)
    requires var r := HandleSequence(t.w.lane, op, steps, now, found); r.settled != [] || t.w.lane.pending != []
    ensures Inv(Tracked(Apply(t.w, SequenceCommand(op, steps, now, found)), asked, t.delivered))
  {
    var r := HandleSequence(t.w.lane, op, steps, now, found);
    FreshIsNotQueued(t.w, op);
    SequenceKeepsQueue(t.w, op, steps, now, found);
    SettlingStep(t, Apply(t.w, SequenceCommand(op, steps, now, found)), r.settled, asked, t.delivered);
  }

  // One that has an empty queue to itself.
  lemma SequenceGoesOn(t: Tracked, op: nat, steps: seq<SequenceStep>, now: nat, asked: set<nat>)
    requires Inv(t) && op !in t.w.admitted && NewSequence(steps) == Checked.Accepted(steps) && t.asked <= asked
    requires t.w.lane.pending == [] && t.w.lane.owner == None
    ensures var l := Schedule(t.w.lane.(owner := Some(op)), Waiting(op, steps, now), now);
            Inv(Tracked(t.w.(lane := l, admitted := t.w.admitted + {op}), asked, t.delivered))
  {
    EmptyIsSettledDown(t.w);
    FreshIsNotQueued(t.w, op);
    var known := Tracked(t.w.(admitted := t.w.admitted + {op}), t.asked, t.delivered);
    ScheduleLanes(known, t.w.lane.(owner := Some(op)), Waiting(op, steps, now), now, asked);
  }

  lemma SequenceLanes(t: Tracked, op: nat, steps: seq<SequenceStep>, now: nat, found: Found)
    requires Inv(t) && op !in t.w.admitted && NewSequence(steps) == Checked.Accepted(steps)
    ensures Inv(Track(t, SequenceCommand(op, steps, now, found)))
  {
    var s := SequenceCommand(op, steps, now, found);
    var r := HandleSequence(t.w.lane, op, steps, now, found);
    var asked := t.asked + Asks(t.w, s);
    assert Track(t, s) == Tracked(Apply(t.w, s), asked, t.delivered);
    if r.settled != [] || t.w.lane.pending != [] {
      SequenceStaysOff(t, op, steps, now, found, asked);
    } else {
      SequenceGoesOn(t, op, steps, now, asked);
      assert Apply(t.w, s) == t.w.(lane := r.lane, admitted := t.w.admitted + {op});
    }
  }

  lemma {:induction false} DrainedOps(q: seq<Scheduled>, v: Verdict)
    ensures forall s :: s in AllSettled(q, v) ==> s.verdict == v && exists e :: e in q && e.operation == s.operation
  {
    if q != [] {
      DrainedOps(q[1..], v);
      assert q[0] in q;
      forall s | s in AllSettled(q, v) ensures s.verdict == v && exists e :: e in q && e.operation == s.operation {
        if s in AllSettled(q[1..], v) {
          var e :| e in q[1..] && e.operation == s.operation;
          assert e in q;
        } else {
          assert s == Settled(q[0].operation, v);
        }
      }
    }
  }

  // Draining tells everybody on the lane the same.
  lemma DrainCalls(l: Lane, v: Verdict)
    ensures forall s :: s in Drain(l, v).settled ==> s.verdict == v && Queued(l, s.operation)
    ensures forall op :: !Queued(Drain(l, v).lane, op)
  {
    DrainedOps(l.pending, v);
  }

  // The calls of a drain, and nothing left behind.
  lemma DrainFits(t: Tracked, l: Lane, v: Verdict, w': World, asked: set<nat>)
    requires Inv(t) && v in {Failed, StrictlyFailed} && forall x :: Queued(l, x) ==> Queued(t.w.lane, x)
    requires w'.settled == t.w.settled + Drain(l, v).settled && w'.admitted == t.w.admitted
    requires w'.lane.pending == [] && w'.lane.waiting == None
    ensures Calls(t, w', Drain(l, v).settled) && Honest(Drain(l, v).settled, asked, t.delivered)
  {
    DrainCalls(l, v);
  }

  lemma LostIs(w: World, closeOk: bool)
    ensures var w' := Apply(w, StreamLost(closeOk));
            var v := if closeOk then Failed else StrictlyFailed;
            && w'.settled == w.settled + Drain(w.lane.(desired := NEUTRAL), v).settled
            && w'.admitted == w.admitted && w'.lane.pending == [] && w'.lane.waiting == None
  {
  }

  lemma LostLanes(t: Tracked, closeOk: bool)
    requires Inv(t)
    ensures Inv(Track(t, StreamLost(closeOk)))
  {
    var w' := Apply(t.w, StreamLost(closeOk));
    var l, v := t.w.lane.(desired := NEUTRAL), if closeOk then Failed else StrictlyFailed;
    LostIs(t.w, closeOk);
    assert forall x :: Queued(l, x) ==> Queued(t.w.lane, x);
    DrainFits(t, l, v, w', t.asked);
    StepKeepsQueue(t.w, StreamLost(closeOk));
    SettlingStep(t, w', Drain(l, v).settled, t.asked, t.delivered);
    assert Track(t, StreamLost(closeOk)) == Tracked(w', t.asked, t.delivered);
  }

  // ---- Passes of the dispatch loop ---------------------------------------------------------------------------

  // The queue behind its head, and what is known about the two.
  lemma BehindHead(t: Tracked)
    requires Inv(t) && t.w.lane.pending != []
    ensures var q := t.w.lane.pending;
            && (!SequenceInv(t.w) ==> Unique(q[1..]) && forall e :: e in q[1..] ==> e.operation != q[0].operation)
            && (SequenceInv(t.w) && |q| == 1 ==> q[1..] == [])
            && CleanupsAsked(q[1..], t.asked)
            && (t.w.lane.waiting.Some? ==> t.w.lane.waiting.value.operation != q[0].operation)
            && Queued(t.w.lane, q[0].operation)
  {
    var q := t.w.lane.pending;
    assert q[0] in q;
    if !SequenceInv(t.w) {
      forall e | e in q[1..] ensures e.operation != q[0].operation {
        var k :| 0 <= k < |q[1..]| && q[1..][k] == e;
        assert q[k + 1] == e;
      }
    }
  }

  // What an accepted write tells: nothing while a sequence goes on, else one verdict to the head.
  lemma AcceptedIs(w: World, turn: Turn)
    requires w.lane.pending != [] && turn.write.Accepted? && DispatchTurn(w.lane, turn).wrote
    ensures var w' := Apply(w, DispatchPass(turn));
            var head := w.lane.pending[0];
            var calls := DispatchTurn(w.lane, turn).settled;
            && w'.lane.pending == w.lane.pending[1..] && w'.lane.waiting == w.lane.waiting
            && w'.settled == w.settled + calls && w'.admitted == w.admitted
            && (head.completion == SequenceReport(false) ==> calls == [])
            && (CompletesEffect(head) ==> calls == [Settled(head.operation, Succeeded)])
            && (head.completion.CancelCleanup? ==> calls == [Settled(head.operation, Cancelled)])
            && (head.completion.FailureCleanup? ==> calls == [Settled(head.operation, Failed)])
  {
  }

  lemma AcceptedLanes(t: Tracked, turn: Turn)
    requires Inv(t) && t.w.lane.pending != [] && turn.write.Accepted?
    requires DispatchTurn(t.w.lane, turn).wrote
    ensures Inv(Track(t, DispatchPass(turn)))
  {
    var s := DispatchPass(turn);
    var q := t.w.lane.pending;
    var w' := Apply(t.w, s);
    var calls := DispatchTurn(t.w.lane, turn).settled;
    StepKeepsQueue(t.w, s);
    BehindHead(t);
    AcceptedIs(t.w, turn);
    AcceptedAlone(t, turn);
    assert q[0] in q;
    SettlingStep(t, w', calls, t.asked + Asks(t.w, s), t.delivered + Delivers(t.w, s));
  }

  // Whoever is told something on acceptance has no other entry.
  lemma AcceptedAlone(t: Tracked, turn: Turn)
    requires Inv(t) && t.w.lane.pending != [] && turn.write.Accepted? && DispatchTurn(t.w.lane, turn).wrote
    ensures var q, w' := t.w.lane.pending, Apply(t.w, DispatchPass(turn));
            && (DispatchTurn(t.w.lane, turn).settled != [] ==> !Queued(w'.lane, q[0].operation))
            && (SequenceInv(w') || Unique(w'.lane.pending))
            && (forall x :: Queued(w'.lane, x) ==> Queued(t.w.lane, x))
  {
    var q := t.w.lane.pending;
    AcceptedIs(t.w, turn);
    BehindHead(t);
    if SequenceInv(t.w) {
      assert q[0].completion == SequenceReport(0 == |q| - 1);
      if |q| > 1 {
        var w' := Apply(t.w, DispatchPass(turn));
        SequenceRest(q, t.w.lane.owner.value);
        assert SequenceInv(w');
      }
    } else {
      NotSequence(t.w);
    }
  }

  lemma SequenceRest(q: seq<Scheduled>, op: nat)
    requires SequenceOnly(q, op) && |q| > 1
    ensures SequenceOnly(q[1..], op)
  {
    forall k | 0 <= k < |q| - 1
      ensures q[1..][k].operation == op && q[1..][k].mutation == None
      ensures q[1..][k].completion == SequenceReport(k == |q[1..]| - 1)
    {
      assert q[1..][k] == q[k + 1];
    }
  }

  lemma NotSequence(w: World)
    requires QueueInv(w) && !SequenceInv(w) && w.lane.pending != []
    ensures !w.lane.pending[0].completion.SequenceReport?
  {
    HeadIsNoSequence(w.lane.pending, if Folded(w.lane.pending, w.accepted, w.lane.desired) then w.accepted else NEUTRAL, w.lane.desired);
  }

  // What is left once the head's operation is out of the queue.
  lemma RestLanes(t: Tracked)
    requires Inv(t) && t.w.lane.pending != []
    ensures var q, op := t.w.lane.pending, t.w.lane.pending[0].operation;
            var rest := Without(q[1..], op);
            && Unique(rest) && CleanupsAsked(rest, t.asked)
            && (forall e :: e in rest ==> e in q && e.operation != op)
  {
    var q := t.w.lane.pending;
    BehindHead(t);
    if SequenceInv(t.w) {
      SequenceGone(q[1..], q[0].operation);
    } else {
      WithoutUnique(q[1..], q[0].operation);
    }
  }

  // The lane without the head's operation, as a refused write leaves it.
  function Left(l: Lane, write: Write): Lane
    requires l.pending != [] && write.Refused?
  {
    l.(pending := Without(l.pending[1..], l.pending[0].operation), desired := NEUTRAL, connected := l.connected && !write.closed)
  }

  lemma LeftNames(t: Tracked, write: Write)
    requires Inv(t) && t.w.lane.pending != [] && write.Refused?
    ensures var left, op := Left(t.w.lane, write), t.w.lane.pending[0].operation;
            && Unique(left.pending) && CleanupsAsked(left.pending, t.asked)
            && !Queued(left, op) && Queued(t.w.lane, op)
            && !(exists e :: e in left.pending && e.operation == op)
            && (forall x :: Queued(left, x) ==> Queued(t.w.lane, x))
  {
    RestLanes(t);
    BehindHead(t);
  }

  function Why(l: Lane, write: Write): Completion
    requires l.pending != [] && write.Refused?
  {
    var release := l.owner == Some(l.pending[0].operation);
    if write.byCancel then CancelCleanup(release) else FailureCleanup(release)
  }

  lemma ReportRefusedIs(w: World, turn: Turn)
    requires w.lane.pending != [] && turn.write.Refused? && !turn.write.unclosed
    requires DispatchTurn(w.lane, turn).wrote && !IsCleanup(w.lane.pending[0])
    ensures var w' := Apply(w, DispatchPass(turn));
            && w'.lane == Cleanup(Left(w.lane, turn.write), w.lane.pending[0].operation, Why(w.lane, turn.write), turn.later)
            && w'.settled == w.settled && w'.admitted == w.admitted && w'.accepted == w.accepted
  {
  }

  // A refused report gives way to a cleanup of its operation.
  lemma ReportRefusedLanes(t: Tracked, turn: Turn)
    requires Inv(t) && t.w.lane.pending != [] && turn.write.Refused? && !turn.write.unclosed
    requires DispatchTurn(t.w.lane, turn).wrote && !IsCleanup(t.w.lane.pending[0])
    ensures Inv(Track(t, DispatchPass(turn)))
  {
    var s := DispatchPass(turn);
    var op := t.w.lane.pending[0].operation;
    var asked := t.asked + Asks(t.w, s);
    ReportRefusedIs(t.w, turn);
    StepKeepsQueue(t.w, s);
    LeftNames(t, turn.write);
    CleanupLanes(Left(t.w.lane, turn.write), op, Why(t.w.lane, turn.write), turn.later, asked);
    var w' := Apply(t.w, s);
    assert w' == t.w.(lane := w'.lane);
    QuietStep(t, w'.lane, asked);
    assert Track(t, s) == Tracked(w', asked, t.delivered);
  }

  lemma UnclosedIs(w: World, turn: Turn)
    requires w.lane.pending != [] && turn.write.Refused? && turn.write.unclosed && DispatchTurn(w.lane, turn).wrote
    ensures var w' := Apply(w, DispatchPass(turn));
            var rest := w.lane.(pending := w.lane.pending[1..]);
            && w'.lane.pending == [] && w'.lane.waiting == None && w'.admitted == w.admitted
            && w'.settled == w.settled + (Drain(rest, StrictlyFailed).settled + [Settled(w.lane.pending[0].operation, StrictlyFailed)])
  {
  }

  lemma UnclosedFits(t: Tracked, w': World, asked: set<nat>)
    requires Inv(t) && t.w.lane.pending != []
    requires var rest := t.w.lane.(pending := t.w.lane.pending[1..]);
             w'.settled == t.w.settled + (Drain(rest, StrictlyFailed).settled + [Settled(t.w.lane.pending[0].operation, StrictlyFailed)])
    requires w'.lane.pending == [] && w'.lane.waiting == None && w'.admitted == t.w.admitted
    ensures var rest := t.w.lane.(pending := t.w.lane.pending[1..]);
            var calls := Drain(rest, StrictlyFailed).settled + [Settled(t.w.lane.pending[0].operation, StrictlyFailed)];
            Calls(t, w', calls) && Honest(calls, asked, t.delivered)
  {
    var l := t.w.lane;
    var rest := l.(pending := l.pending[1..]);
    BehindHead(t);
    DrainCalls(rest, StrictlyFailed);
    forall x | Queued(rest, x) ensures Queued(l, x) {
      if e :| e in rest.pending && e.operation == x { assert e in l.pending; }
    }
  }

  // A write whose stream could not be closed fails everybody strictly.
  lemma UnclosedLanes(t: Tracked, turn: Turn)
    requires Inv(t) && t.w.lane.pending != [] && turn.write.Refused? && turn.write.unclosed
    requires DispatchTurn(t.w.lane, turn).wrote
    ensures Inv(Track(t, DispatchPass(turn)))
  {
    var s := DispatchPass(turn);
    var rest := t.w.lane.(pending := t.w.lane.pending[1..]);
    var calls := Drain(rest, StrictlyFailed).settled + [Settled(t.w.lane.pending[0].operation, StrictlyFailed)];
    var asked := t.asked + Asks(t.w, s);
    UnclosedIs(t.w, turn);
    UnclosedFits(t, Apply(t.w, s), asked);
    StepKeepsQueue(t.w, s);
    SettlingStep(t, Apply(t.w, s), calls, asked, t.delivered);
    RefusedTracks(t, turn);
  }

  lemma RefusedTracks(t: Tracked, turn: Turn)
    requires turn.write.Refused?
    ensures Track(t, DispatchPass(turn))
         == Tracked(Apply(t.w, DispatchPass(turn)), t.asked + Asks(t.w, DispatchPass(turn)), t.delivered)
  {
  }

  // The calls after a cleanup that was not delivered.
  lemma CleanupRefusedCalls(l: Lane, head: Scheduled, write: Write)
    requires write.Refused? && !Queued(l, head.operation)
    ensures var r := CleanupRefused(l, head, write);
            var verdict := if head.completion.CancelCleanup? then Cancelled else Failed;
            && (forall x, y :: x in r.settled && y in r.settled && x.operation == y.operation ==> x.verdict == y.verdict)
            && (forall x :: x in r.settled && x.operation != head.operation ==>
                  Queued(l, x.operation) && x.verdict in {Failed, StrictlyFailed})
            && (forall x :: x in r.settled && x.operation == head.operation ==> x.verdict in {verdict, StrictlyFailed})
            && (forall x :: Queued(r.lane, x) ==> Queued(l, x))
            && (forall x :: x in r.settled ==> !Queued(r.lane, x.operation))
  {
    DrainCalls(l, StrictlyFailed);
    DrainCalls(l, Failed);
    RebuildNames(l);
  }

  lemma RebuildNames(l: Lane)
    ensures forall op :: Queued(Rebuild(l), op) ==> Queued(l, op)
  {
    RefoldedKeepsEntries(l.pending, NEUTRAL);
    var q := Rebuild(l).pending;
    forall op | Queued(Rebuild(l), op) ensures Queued(l, op) {
      if e :| e in q && e.operation == op {
        var k :| 0 <= k < |q| && q[k] == e;
        assert l.pending[k] in l.pending;
      }
    }
  }

  lemma CleanupRefusedIs(w: World, turn: Turn)
    requires w.lane.pending != [] && turn.write.Refused? && !turn.write.unclosed
    requires DispatchTurn(w.lane, turn).wrote && IsCleanup(w.lane.pending[0])
    ensures var w' := Apply(w, DispatchPass(turn));
            var head := w.lane.pending[0];
            var r := CleanupRefused(LaneQueue.Release(Left(w.lane, turn.write), head.operation), head, turn.write);
            w' == After(w, r)
  {
  }

  lemma CleanupRefusedQueue(l: Lane, head: Scheduled, write: Write, asked: set<nat>)
    requires write.Refused? && Unique(l.pending) && CleanupsAsked(l.pending, asked)
    ensures Unique(CleanupRefused(l, head, write).lane.pending) && CleanupsAsked(CleanupRefused(l, head, write).lane.pending, asked)
  {
    RebuildLanes(l, asked);
  }

  // What an undelivered cleanup leaves, and tells.
  lemma CleanupRefusedFits(t: Tracked, write: Write, asked: set<nat>)
    requires Inv(t) && t.asked <= asked && t.w.lane.pending != [] && write.Refused? && IsCleanup(t.w.lane.pending[0])
    ensures var head := t.w.lane.pending[0];
            var r := CleanupRefused(LaneQueue.Release(Left(t.w.lane, write), head.operation), head, write);
            && Unique(r.lane.pending) && CleanupsAsked(r.lane.pending, asked)
            && Calls(t, After(t.w, r), r.settled) && Honest(r.settled, asked, t.delivered)
  {
    var head := t.w.lane.pending[0];
    var left := LaneQueue.Release(Left(t.w.lane, write), head.operation);
    LeftNames(t, write);
    assert left.pending == Left(t.w.lane, write).pending && left.waiting == Left(t.w.lane, write).waiting;
    assert forall x :: Queued(left, x) <==> Queued(Left(t.w.lane, write), x);
    CleanupRefusedCalls(left, head, write);
    CleanupRefusedQueue(left, head, write, asked);
    assert head in t.w.lane.pending;
  }

  lemma CleanupRefusedLanes(t: Tracked, turn: Turn)
    requires Inv(t) && t.w.lane.pending != [] && turn.write.Refused? && !turn.write.unclosed
    requires DispatchTurn(t.w.lane, turn).wrote && IsCleanup(t.w.lane.pending[0])
    ensures Inv(Track(t, DispatchPass(turn)))
  {
    var s := DispatchPass(turn);
    var head := t.w.lane.pending[0];
    var r := CleanupRefused(LaneQueue.Release(Left(t.w.lane, turn.write), head.operation), head, turn.write);
    var asked := t.asked + Asks(t.w, s);
    StepKeepsQueue(t.w, s);
    CleanupRefusedIs(t.w, turn);
    CleanupRefusedFits(t, turn.write, asked);
    SettlingStep(t, After(t.w, r), r.settled, asked, t.delivered);
    RefusedTracks(t, turn);
  }

  lemma PassLanes(t: Tracked, turn: Turn)
    requires Inv(t)
    ensures Inv(Track(t, DispatchPass(turn)))
  {
    var s := DispatchPass(turn);
    var l := t.w.lane;
    var asked := t.asked + Asks(t.w, s);
    if DispatchTurn(l, turn).wrote {
      if turn.write.Accepted? { AcceptedLanes(t, turn); }
      else if turn.write.unclosed { UnclosedLanes(t, turn); }
      else if IsCleanup(l.pending[0]) { CleanupRefusedLanes(t, turn); }
      else { ReportRefusedLanes(t, turn); }
    } else {
      UnwrittenLanes(t, turn);
    }
  }

  lemma UnwrittenLanes(t: Tracked, turn: Turn)
    requires Inv(t) && !DispatchTurn(t.w.lane, turn).wrote
    ensures Inv(Track(t, DispatchPass(turn)))
  {
    var s := DispatchPass(turn);
    var l := t.w.lane;
    var l' := DispatchTurn(l, turn).lane;
    var asked := t.asked + Asks(t.w, s);
    assert t.w.settled + [] == t.w.settled;
    assert Track(t, s) == Tracked(t.w.(lane := l'), asked, t.delivered);
    if l.pending == [] || l.pending[0].due > turn.now {
      assert l' == l;
    } else if !IsCleanup(l.pending[0]) && l.pending[0].operation in turn.cancelled {
      ObserveLanes(t, turn.cancelled, turn.later, asked);
    } else {
      PostponedLanes(t, l'.pending[0].due, asked);
    }
  }

  // A queue with another due time for its head.
  lemma PostponedNames(q: seq<Scheduled>, due: nat)
    requires q != []
    ensures var q' := [q[0].(due := due)] + q[1..];
            && (Unique(q) ==> Unique(q'))
            && forall e :: e in q' ==> exists f :: f in q && f.operation == e.operation && f.completion == e.completion
  {
    var q' := [q[0].(due := due)] + q[1..];
    forall k | 0 <= k < |q| ensures q'[k].operation == q[k].operation && q'[k].completion == q[k].completion && q[k] in q {
    }
    forall e | e in q' ensures exists f :: f in q && f.operation == e.operation && f.completion == e.completion {
      var k :| 0 <= k < |q'| && q'[k] == e;
      assert q[k] in q;
    }
  }

  lemma PostponedLanes(t: Tracked, due: nat, asked: set<nat>)
    requires Inv(t) && t.w.lane.pending != [] && t.asked <= asked
    ensures var q := t.w.lane.pending;
            Inv(Tracked(t.w.(lane := t.w.lane.(pending := [q[0].(due := due)] + q[1..])), asked, t.delivered))
  {
    var q := t.w.lane.pending;
    var l' := t.w.lane.(pending := [q[0].(due := due)] + q[1..]);
    PostponedKeepsQueue(t.w, due);
    PostponedNames(q, due);
    if SequenceInv(t.w) { PostponedSequence(q, due, t.w.lane.owner.value); }
    QuietStep(t, l', asked);
  }

  lemma PostponedSequence(q: seq<Scheduled>, due: nat, op: nat)
    requires SequenceOnly(q, op)
    ensures SequenceOnly([q[0].(due := due)] + q[1..], op)
  {
    var q' := [q[0].(due := due)] + q[1..];
    forall k | 0 <= k < |q'|
      ensures q'[k].operation == op && q'[k].mutation == None && q'[k].completion == SequenceReport(k == |q'| - 1) {
      assert q'[k] == q[k].(due := q'[k].due);
    }
  }

  lemma StepKeepsInv(t: Tracked, s: Step)
    requires Inv(t)
    ensures Inv(Track(t, s))
  {
    if !Enabled(t.w, s) {
      NothingHappens(t, s);
    } else {
      match s
      case DirectCommand(op, action, now, found) => DirectLanes(t, op, action, now, found);
      case SequenceCommand(op, steps, now, found) => SequenceLanes(t, op, steps, now, found);
      case ActivateWaiting(cancelled, now) =>
        ActivateLanes(t, cancelled, now, t.asked + cancelled);
        assert Track(t, s) == Tracked(t.w.(lane := Activate(t.w.lane, cancelled, now)), t.asked + cancelled, t.delivered);
      case ObserveCancelled(cancelled, now) =>
        ObserveLanes(t, cancelled, now, t.asked + cancelled);
        assert Track(t, s) == Tracked(t.w.(lane := Observe(t.w.lane, cancelled, now)), t.asked + cancelled, t.delivered);
      case DispatchPass(turn) => PassLanes(t, turn);
      case StreamLost(closeOk) => LostLanes(t, closeOk);
      case Connected => ConnectedLanes(t);
    }
  }

  lemma NothingHappens(t: Tracked, s: Step)
    requires Inv(t) && !Enabled(t.w, s)
    ensures Inv(Track(t, s))
  {
    assert Track(t, s) == Tracked(t.w, t.asked + Asks(t.w, s), t.delivered);
  }

  lemma ConnectedLanes(t: Tracked)
    requires Inv(t)
    ensures Inv(Track(t, Connected))
  {
    StepKeepsQueue(t.w, Connected);
    QuietStep(t, t.w.lane.(connected := !t.w.lane.broken), t.asked);
    assert Track(t, Connected) == Tracked(t.w.(lane := t.w.lane.(connected := !t.w.lane.broken)), t.asked, t.delivered);
  }

  lemma {:induction false} RunKeepsInv(t: Tracked, steps: seq<Step>)
    requires Inv(t)
    ensures Inv(TrackRun(t, steps))
    decreases steps
  {
    if steps != [] {
      StepKeepsInv(t, steps[0]);
      RunKeepsInv(Track(t, steps[0]), steps[1..]);
    }
  }

  // ---- Main results ---------------------------------------------------------------------------------------------

  // However commands, cancellations, refused writes and lost streams interleave, the lane tells an
  // operation one thing only, and tells it only once the operation is off the queue.
  lemma {:induction false} OneVerdictEach(interval: nat, steps: seq<Step>, s: Settled, r: Settled)
    requires var w := Run(Init(interval), steps); s in w.settled && r in w.settled && s.operation == r.operation
    ensures s == r && !Queued(Run(Init(interval), steps).lane, s.operation)
  {
    TracksTheRun(Tracked(Init(interval), {}, {}), steps);
    RunKeepsInv(Tracked(Init(interval), {}, {}), steps);
  }

  // Success is told exactly to the operations whose direct report, or last report of a sequence, the
  // device accepted; and cancellation only to those somebody cancelled.
  lemma {:induction false} VerdictsAreTrue(interval: nat, steps: seq<Step>, op: nat)
    ensures var t := TrackRun(Tracked(Init(interval), {}, {}), steps);
            && t.w == Run(Init(interval), steps)
            && (Settled(op, Succeeded) in t.w.settled <==> op in t.delivered)
            && (Settled(op, Cancelled) in t.w.settled ==> op in t.asked)
  {
    TracksTheRun(Tracked(Init(interval), {}, {}), steps);
    RunKeepsInv(Tracked(Init(interval), {}, {}), steps);
  }
}
