/**
 * The controller lane's report queue outside an automation lease
 * (crates/easycon-controller/src/session.rs): direct actions, a precise sequence and the one waiting
 * behind it, neutral cleanups, and the dispatch loop.
 *
 * The lane is one thread, so a step is a whole pass of it; what it reads of the clock, of operations
 * cancelled by others and of the transport is a parameter of the step.
 */
module LaneQueue {
  import opened Wrappers
  import opened Timing
  import opened Report
  import opened SequencePlan

  datatype Completion =
    | Direct
    | SequenceReport(final: bool)
    | CancelCleanup(release: bool)
    | FailureCleanup(release: bool)

  datatype Scheduled = Scheduled(
    target: nat, due: nat, operation: nat, report: Report, mutation: Option<Action>, completion: Completion)

  datatype Waiting = Waiting(operation: nat, steps: seq<SequenceStep>, origin: nat)

  // `owner` is the sequence that holds the write lease. A `broken` lane has a stream it could not
  // close, and fails every later command.
  datatype Lane = Lane(
    pending: seq<Scheduled>,
    desired: Report,
    last: Option<nat>,
    interval: nat,
    owner: Option<nat>,
    waiting: Option<Waiting>,
    connected: bool,
    broken: bool)

  datatype Verdict = Succeeded | Cancelled | Failed | StrictlyFailed

  // A settling call the lane makes for an operation; one already settled stays as it is.
  datatype Settled = Settled(operation: nat, verdict: Verdict)

  datatype Result = Result(lane: Lane, settled: seq<Settled>)

  // Neutral cleanups are the entries of kind `Neutralize`.
  predicate IsCleanup(e: Scheduled) {
    e.completion.CancelCleanup? || e.completion.FailureCleanup?
  }

  function Without(q: seq<Scheduled>, op: nat): (r: seq<Scheduled>)
    ensures |r| <= |q|
    ensures forall e :: e in r <==> e in q && e.operation != op
  {
    if q == [] then []
    else if q[0].operation == op then Without(q[1..], op)
    else [q[0]] + Without(q[1..], op)
  }

  // ---- Cleanups ------------------------------------------------------------------------------------------

  // The queue refolded from a base: entries without a mutation stay as they are.
  function Refolded(q: seq<Scheduled>, base: Report): (r: seq<Scheduled>)
    ensures |r| == |q|
  {
    if q == [] then []
    else if q[0].mutation.Some? then
      var report := Act(q[0].mutation.value, base);
      [q[0].(report := report)] + Refolded(q[1..], report)
    else [q[0]] + Refolded(q[1..], base)
  }

  function RefoldedDesired(q: seq<Scheduled>, base: Report): Report {
    if q == [] then base
    else if q[0].mutation.Some? then RefoldedDesired(q[1..], Act(q[0].mutation.value, base))
    else RefoldedDesired(q[1..], base)
  }

  function Rebuild(l: Lane): Lane {
    l.(pending := Refolded(l.pending, NEUTRAL), desired := RefoldedDesired(l.pending, NEUTRAL))
  }

  // A neutral for an operation goes to the front, and everything behind it starts from neutral.
  function Cleanup(l: Lane, op: nat, completion: Completion, now: nat): Lane {
    var r := Rebuild(l);
    r.(pending := [Scheduled(now, PacedTarget(l.last, l.interval, now), op, NEUTRAL, None, completion)] + r.pending)
  }

  function Release(l: Lane, op: nat): Lane {
    if l.owner == Some(op) then l.(owner := None) else l
  }

  // ---- Commands ---------------------------------------------------------------------------------------------

  // What the lane finds when it looks at the operation of a command.
  datatype Found = Found(cancelled: bool, started: bool)

  function HandleDirect(l: Lane, op: nat, action: Action, now: nat, found: Found): Result {
    if l.broken then Result(l, [Settled(op, StrictlyFailed)])
    else if found.cancelled then Result(l, [Settled(op, Cancelled)])
    else if !found.started || !l.connected || l.owner.Some? then Result(l, [Settled(op, Failed)])
    else
      var desired := Act(action, l.desired);
      var target := PacedTarget(l.last, l.interval, now);
      Result(l.(desired := desired, pending := l.pending + [Scheduled(target, target, op, desired, Some(action), Direct)]), [])
  }

  function Entries(plan: seq<Planned>, op: nat): (r: seq<Scheduled>)
    ensures |r| == |plan|
  {
    if plan == [] then []
    else
      [Scheduled(plan[0].target, plan[0].due, op, plan[0].report, None, SequenceReport(plan[0].final))]
      + Entries(plan[1..], op)
  }

  function Schedule(l: Lane, w: Waiting, now: nat): Lane {
    var plan := PlanOf(w.steps, w.origin, l.desired, l.last, l.interval);
    if plan == None then Cleanup(l.(pending := Without(l.pending, w.operation)), w.operation, FailureCleanup(true), now)
    else l.(pending := l.pending + Entries(plan.value, w.operation))
  }

  function HandleSequence(l: Lane, op: nat, steps: seq<SequenceStep>, now: nat, found: Found): Result {
    if l.broken then Result(l, [Settled(op, StrictlyFailed)])
    else if found.cancelled then Result(l, [Settled(op, Cancelled)])
    else if !found.started || !l.connected || l.owner.Some? then Result(l, [Settled(op, Failed)])
    else
      var owned := l.(owner := Some(op));
      if l.pending == [] then Result(Schedule(owned, Waiting(op, steps, now), now), [])
      else Result(owned.(waiting := Some(Waiting(op, steps, now))), [])
  }

  // `activate_waiting_sequence`.
  function Activate(l: Lane, cancelled: set<nat>, now: nat): Lane {
    if l.pending != [] || l.waiting == None then l
    else
      var taken := l.(waiting := None);
      if l.waiting.value.operation in cancelled then Cleanup(taken, l.waiting.value.operation, CancelCleanup(true), now)
      else Schedule(taken, l.waiting.value, now)
  }

  // The first report of a cancelled operation; |q| if there is none.
  function FirstCancelled(q: seq<Scheduled>, cancelled: set<nat>): (i: nat)
    ensures i <= |q|
    ensures i < |q| ==> !IsCleanup(q[i]) && q[i].operation in cancelled
    ensures forall k :: 0 <= k < i ==> IsCleanup(q[k]) || q[k].operation !in cancelled
  {
    if q == [] || (!IsCleanup(q[0]) && q[0].operation in cancelled) then 0 else 1 + FirstCancelled(q[1..], cancelled)
  }

  // `observe_cancellation`: at most one cancelled operation leaves the queue in one call.
  function Observe(l: Lane, cancelled: set<nat>, now: nat): Lane {
    if l.pending == [] && l.waiting.Some? && l.waiting.value.operation in cancelled then
      Cleanup(l.(waiting := None), l.waiting.value.operation, CancelCleanup(true), now)
    else
      var i := FirstCancelled(l.pending, cancelled);
      if i == |l.pending| then l
      else
        var op := l.pending[i].operation;
        Cleanup(l.(pending := Without(l.pending, op)), op, CancelCleanup(l.owner == Some(op)), now)
  }

  // ---- Dispatch ------------------------------------------------------------------------------------------------

  // How a write came back. `lost` is the transport saying the device is gone, `closed` that the
  // stream had to be closed to settle the write, `unclosed` that this close failed; `reclosed` and
  // `drained` are how the two closes that follow a lost device end.
  datatype Write =
    | Accepted(at: nat)
    | Refused(lost: bool, byCancel: bool, closed: bool, unclosed: bool, reclosed: bool, drained: bool)

  // One pass of the dispatch loop. `later` is the clock when a cleanup is scheduled in it.
  datatype Turn = Turn(now: nat, later: nat, cancelled: set<nat>, write: Write)

  datatype Passed = Passed(lane: Lane, settled: seq<Settled>, wrote: bool, goOn: bool)

  function AllSettled(q: seq<Scheduled>, v: Verdict): (s: seq<Settled>)
    ensures |s| == |q| && forall k :: 0 <= k < |q| ==> s[k] == Settled(q[k].operation, v)
  {
    if q == [] then [] else [Settled(q[0].operation, v)] + AllSettled(q[1..], v)
  }

  // Everything queued and waiting is settled the same way and gone.
  function Drain(l: Lane, v: Verdict): Result {
    var waiting := if l.waiting.Some? then [Settled(l.waiting.value.operation, v)] else [];
    Result(l.(pending := [], waiting := None), AllSettled(l.pending, v) + waiting)
  }

  predicate Holds(l: Lane, owner: Option<nat>) {
    owner.Some? && (
      || (l.waiting.Some? && l.waiting.value.operation == owner.value)
      || exists e :: e in l.pending && e.operation == owner.value)
  }

  // `fail_pending_disconnected`.
  function FailPending(l: Lane, closeOk: bool): Result {
    var r := Drain(l, if closeOk then Failed else StrictlyFailed);
    var owner := if !closeOk || Holds(l, l.owner) then None else l.owner;
    Result(r.lane.(connected := false, owner := owner, broken := l.broken || !closeOk), r.settled)
  }

  // `seal_after_cleanup_failure`, and then the operation whose write could not be settled cleanly.
  function SealAll(l: Lane, op: nat): Result {
    var r := Drain(l, StrictlyFailed);
    Result(r.lane.(desired := NEUTRAL, owner := None, connected := false, broken := true),
           r.settled + [Settled(op, StrictlyFailed)])
  }

  function WriteAccepted(l: Lane, head: Scheduled, at: nat): Result {
    var next := l.(last := Some(at));
    match head.completion
    case Direct => Result(next, [Settled(head.operation, Succeeded)])
    case SequenceReport(final) =>
      var shown := next.(desired := head.report);
      if final then Result(Release(shown, head.operation), [Settled(head.operation, Succeeded)]) else Result(shown, [])
    case CancelCleanup(release) =>
      Result(if release then Release(next, head.operation) else next, [Settled(head.operation, Cancelled)])
    case FailureCleanup(release) =>
      Result(if release then Release(next, head.operation) else next, [Settled(head.operation, Failed)])
  }

  // `handle_report_write_failure`; `l` no longer holds the entry.
  function WriteRefused(l: Lane, head: Scheduled, t: Turn): Result
    requires t.write.Refused?
  {
    var op := head.operation;
    var w := t.write;
    if w.unclosed then SealAll(l, op)
    else
      var rest := l.(pending := Without(l.pending, op), desired := NEUTRAL, connected := l.connected && !w.closed);
      if !IsCleanup(head) then
        var release := l.owner == Some(op);
        Result(Cleanup(rest, op, if w.byCancel then CancelCleanup(release) else FailureCleanup(release), t.later), [])
      else CleanupRefused(Release(rest, op), head, w)
  }

  // A neutral cleanup that was not delivered: nothing is sent in its place.
  function CleanupRefused(l: Lane, head: Scheduled, w: Write): Result
    requires w.Refused?
  {
    var op := head.operation;
    var verdict := if head.completion.CancelCleanup? then Cancelled else Failed;
    if w.lost && !w.reclosed then SealAll(l, op)
    else if w.lost || !l.connected then
      var r := FailPending(l, w.drained);
      Result(r.lane, [Settled(op, verdict)] + r.settled)
    else Result(Rebuild(l), [Settled(op, verdict)])
  }

  function DispatchTurn(l: Lane, t: Turn): Passed {
    if l.pending == [] || l.pending[0].due > t.now then Passed(l, [], false, false)
    else
      var head := l.pending[0];
      if !IsCleanup(head) && head.operation in t.cancelled then Passed(Observe(l, t.cancelled, t.later), [], false, true)
      else if Earliest(l.last, l.interval) > t.now then
        Passed(l.(pending := [head.(due := Earliest(l.last, l.interval))] + l.pending[1..]), [], false, false)
      else
        var rest := l.(pending := l.pending[1..]);
        var r := if t.write.Accepted? then WriteAccepted(rest, head, t.write.at) else WriteRefused(rest, head, t);
        Passed(r.lane, r.settled, true, true)
  }

  // ---- Runs of the lane ----------------------------------------------------------------------------------------

  datatype Step =
    | DirectCommand(operation: nat, action: Action, now: nat, found: Found)
    | SequenceCommand(operation: nat, steps: seq<SequenceStep>, now: nat, found: Found)
    | ActivateWaiting(cancelled: set<nat>, now: nat)
    | ObserveCancelled(cancelled: set<nat>, now: nat)
    | DispatchPass(turn: Turn)
    | StreamLost(closeOk: bool)
    | Connected

  // `accepted` is the last report the device took, neutral at first; `admitted` the operations the
  // lane has been given.
  datatype World = World(lane: Lane, accepted: Report, admitted: set<nat>, settled: seq<Settled>)

  function Init(interval: nat): World {
    World(Lane([], NEUTRAL, None, interval, None, None, false, false), NEUTRAL, {}, [])
  }

  function After(w: World, r: Result): World {
    w.(lane := r.lane, settled := w.settled + r.settled)
  }

  // An operation is submitted once, and its sequence has been validated.
  predicate Enabled(w: World, s: Step) {
    match s
    case DirectCommand(op, _, _, _) => op !in w.admitted
    case SequenceCommand(op, steps, _, _) => op !in w.admitted && NewSequence(steps) == Checked.Accepted(steps)
    case _ => true
  }

  function Apply(w: World, s: Step): World {
    if !Enabled(w, s) then w
    else
      match s
      case DirectCommand(op, action, now, found) =>
        After(w, HandleDirect(w.lane, op, action, now, found)).(admitted := w.admitted + {op})
      case SequenceCommand(op, steps, now, found) =>
        After(w, HandleSequence(w.lane, op, steps, now, found)).(admitted := w.admitted + {op})
      case ActivateWaiting(cancelled, now) => w.(lane := Activate(w.lane, cancelled, now))
      case ObserveCancelled(cancelled, now) => w.(lane := Observe(w.lane, cancelled, now))
      case DispatchPass(t) => Pass(w, t)
      case StreamLost(closeOk) => After(w, FailPending(w.lane.(desired := NEUTRAL), closeOk))
      case Connected => w.(lane := w.lane.(connected := !w.lane.broken))
  }

  function Pass(w: World, t: Turn): World {
    var p := DispatchTurn(w.lane, t);
    World(p.lane, if p.wrote && t.write.Accepted? && w.lane.pending != [] then w.lane.pending[0].report else w.accepted,
          w.admitted, w.settled + p.settled)
  }

  function Run(w: World, steps: seq<Step>): World
    decreases steps
  {
    if steps == [] then w else Run(Apply(w, steps[0]), steps[1..])
  }

  // ---- The refold invariant ------------------------------------------------------------------------------------

  // Direct reports in a row, each the fold of the mutations up to its own over `base`.
  predicate Chain(q: seq<Scheduled>, base: Report, desired: Report) {
    if q == [] then desired == base
    else
      && q[0].completion.Direct? && q[0].mutation.Some?
      && q[0].report == Act(q[0].mutation.value, base)
      && Chain(q[1..], q[0].report, desired)
  }

  // Cleanups come first, and what follows one is folded over neutral.
  predicate Folded(q: seq<Scheduled>, base: Report, desired: Report) {
    if q != [] && IsCleanup(q[0]) then
      base == NEUTRAL && q[0].report == NEUTRAL && q[0].mutation == None && Folded(q[1..], NEUTRAL, desired)
    else Chain(q, base, desired)
  }

  // The same order of entries, whatever their reports.
  predicate Directs(q: seq<Scheduled>) {
    forall e :: e in q ==> e.completion.Direct? && e.mutation.Some?
  }

  predicate Shape(q: seq<Scheduled>) {
    if q != [] && IsCleanup(q[0]) then q[0].report == NEUTRAL && q[0].mutation == None && Shape(q[1..]) else Directs(q)
  }

  // A scheduled sequence has the queue to itself.
  predicate SequenceOnly(q: seq<Scheduled>, op: nat) {
    && q != []
    && (forall k :: 0 <= k < |q| ==> q[k].operation == op && q[k].mutation == None
                                     && q[k].completion == SequenceReport(k == |q| - 1))
  }

  predicate FoldInv(w: World) {
    || Folded(w.lane.pending, w.accepted, w.lane.desired)
    || Folded(w.lane.pending, NEUTRAL, w.lane.desired)
  }

  predicate SequenceInv(w: World) {
    && w.lane.owner.Some?
    && SequenceOnly(w.lane.pending, w.lane.owner.value)
    && w.lane.desired in {w.accepted, NEUTRAL}
    && w.lane.waiting == None
  }

  predicate Named(w: World) {
    && (forall e :: e in w.lane.pending ==> e.operation in w.admitted)
    && (w.lane.waiting.Some? ==> w.lane.waiting.value.operation in w.admitted)
    && (w.lane.waiting.Some? ==> forall e :: e in w.lane.pending ==> e.operation != w.lane.waiting.value.operation)
  }

  predicate QueueInv(w: World) {
    && (FoldInv(w) || SequenceInv(w))
    && Named(w)
    && (w.lane.waiting.Some? ==> NewSequence(w.lane.waiting.value.steps) == Checked.Accepted(w.lane.waiting.value.steps))
    && (w.lane.waiting.Some? ==> w.lane.owner == Some(w.lane.waiting.value.operation))
  }

  lemma {:induction false} ChainDirects(q: seq<Scheduled>, base: Report, desired: Report)
    requires Chain(q, base, desired)
    ensures Directs(q)
  {
    if q != [] { ChainDirects(q[1..], q[0].report, desired); }
  }

  lemma {:induction false} FoldedShape(q: seq<Scheduled>, base: Report, desired: Report)
    requires Folded(q, base, desired)
    ensures Shape(q)
  {
    if q != [] && IsCleanup(q[0]) {
      FoldedShape(q[1..], NEUTRAL, desired);
    } else {
      ChainDirects(q, base, desired);
    }
  }

  lemma {:induction false} ShapeWithout(q: seq<Scheduled>, op: nat)
    requires Shape(q)
    ensures Shape(Without(q, op))
  {
    if q != [] && IsCleanup(q[0]) {
      ShapeWithout(q[1..], op);
    } else {
      var r := Without(q, op);
      assert forall e :: e in r ==> e in q;
      assert Directs(r);
      if r != [] { assert r[0] in r; }
    }
  }

  lemma {:induction false} RefoldedChain(q: seq<Scheduled>, base: Report)
    requires Directs(q)
    ensures Chain(Refolded(q, base), base, RefoldedDesired(q, base))
  {
    if q != [] {
      assert q[0] in q;
      RefoldedChain(q[1..], Act(q[0].mutation.value, base));
    }
  }

  lemma {:induction false} RefoldedFolded(q: seq<Scheduled>)
    requires Shape(q)
    ensures Folded(Refolded(q, NEUTRAL), NEUTRAL, RefoldedDesired(q, NEUTRAL))
  {
    if q != [] && IsCleanup(q[0]) {
      RefoldedFolded(q[1..]);
    } else {
      if q != [] { assert q[0] in q; }
      RefoldedChain(q, NEUTRAL);
    }
  }

  // Whatever was queued, after a cleanup a neutral is in front and the rest is folded over neutral.
  lemma CleanupFolds(l: Lane, op: nat, completion: Completion, now: nat)
    requires Shape(l.pending) && (completion.CancelCleanup? || completion.FailureCleanup?)
    ensures var l' := Cleanup(l, op, completion, now);
            && Folded(l'.pending, NEUTRAL, l'.desired)
            && l'.pending != [] && l'.pending[0].report == NEUTRAL && l'.pending[0].operation == op
  {
    RefoldedFolded(l.pending);
    var l' := Cleanup(l, op, completion, now);
    assert l'.pending[1..] == Refolded(l.pending, NEUTRAL);
  }

  lemma {:induction false} ChainAppend(q: seq<Scheduled>, base: Report, desired: Report, e: Scheduled)
    requires Chain(q, base, desired)
    requires e.completion.Direct? && e.mutation.Some? && e.report == Act(e.mutation.value, desired)
    ensures Chain(q + [e], base, e.report)
  {
    if q == [] {
      assert q + [e] == [e];
      assert [e][1..] == [];
    } else {
      assert (q + [e])[1..] == q[1..] + [e];
      ChainAppend(q[1..], q[0].report, desired, e);
    }
  }

  lemma {:induction false} FoldedAppend(q: seq<Scheduled>, base: Report, desired: Report, e: Scheduled)
    requires Folded(q, base, desired)
    requires e.completion.Direct? && e.mutation.Some? && e.report == Act(e.mutation.value, desired)
    ensures Folded(q + [e], base, e.report)
  {
    if q != [] && IsCleanup(q[0]) {
      assert (q + [e])[1..] == q[1..] + [e];
      FoldedAppend(q[1..], NEUTRAL, desired, e);
    } else {
      ChainAppend(q, base, desired, e);
    }
  }

  lemma {:induction false} SequenceGone(q: seq<Scheduled>, op: nat)
    requires forall k :: 0 <= k < |q| ==> q[k].operation == op
    ensures Without(q, op) == []
  {
    if q != [] { SequenceGone(q[1..], op); }
  }

  lemma {:induction false} EntriesAre(plan: seq<Planned>, op: nat, k: nat)
    requires k < |plan|
    ensures Entries(plan, op)[k] == Scheduled(plan[k].target, plan[k].due, op, plan[k].report, None, SequenceReport(plan[k].final))
  {
    if k > 0 { EntriesAre(plan[1..], op, k - 1); }
  }

  lemma {:induction false} EntriesNamed(plan: seq<Planned>, op: nat)
    ensures forall e :: e in Entries(plan, op) ==> e.operation == op
  {
    if plan != [] { EntriesNamed(plan[1..], op); }
  }

  lemma {:induction false} RefoldedNamed(q: seq<Scheduled>, base: Report)
    ensures forall e :: e in Refolded(q, base) ==> exists f :: f in q && f.operation == e.operation
  {
    if q != [] {
      RefoldedNamed(q[1..], if q[0].mutation.Some? then Act(q[0].mutation.value, base) else base);
      forall e | e in Refolded(q, base) ensures exists f :: f in q && f.operation == e.operation {
        if e.operation == q[0].operation {
          assert q[0] in q;
        } else {
          var f :| f in q[1..] && f.operation == e.operation;
          assert f in q;
        }
      }
    }
  }

  lemma EntriesAlone(s: Waiting, desired: Report, last: Option<nat>, interval: nat)
    requires NewSequence(s.steps) == Checked.Accepted(s.steps)
    requires PlanOf(s.steps, s.origin, desired, last, interval).Some?
    ensures SequenceOnly(Entries(PlanOf(s.steps, s.origin, desired, last, interval).value, s.operation), s.operation)
  {
    var plan := PlanOf(s.steps, s.origin, desired, last, interval).value;
    OneReportPerOffset(s.steps, s.origin, desired, last, interval);
    LeastFeasibleSchedule(s.steps, s.origin, desired, last, interval, []);
    var q := Entries(plan, s.operation);
    forall k | 0 <= k < |q|
      ensures q[k].operation == s.operation && q[k].mutation == None && q[k].completion == SequenceReport(k == |q| - 1)
    {
      EntriesAre(plan, s.operation, k);
    }
  }

  lemma ScheduleKeepsQueue(w: World, l: Lane, s: Waiting, now: nat)
    requires s.operation in w.admitted
    requires l.pending == [] && l.waiting == None && l.owner == Some(s.operation)
    requires l.desired in {w.accepted, NEUTRAL}
    requires NewSequence(s.steps) == Checked.Accepted(s.steps)
    ensures QueueInv(w.(lane := Schedule(l, s, now)))
  {
    var plan := PlanOf(s.steps, s.origin, l.desired, l.last, l.interval);
    if plan == None {
      CleanupFolds(l, s.operation, FailureCleanup(true), now);
      RefoldedNamed([], NEUTRAL);
    } else {
      EntriesAlone(s, l.desired, l.last, l.interval);
      assert [] + Entries(plan.value, s.operation) == Entries(plan.value, s.operation);
    }
  }

  lemma CleanupKeepsQueue(w: World, l: Lane, op: nat, completion: Completion, now: nat)
    requires Shape(l.pending) && (completion.CancelCleanup? || completion.FailureCleanup?)
    requires l.waiting == None || (l.waiting == w.lane.waiting && l.owner == w.lane.owner && QueueInv(w))
    requires Named(w.(lane := l)) && op in w.admitted && (l.waiting.Some? ==> l.waiting.value.operation != op)
    ensures QueueInv(w.(lane := Cleanup(l, op, completion, now)))
  {
    CleanupFolds(l, op, completion, now);
    RefoldedNamed(l.pending, NEUTRAL);
  }

  // Taking an operation out of the queue leaves something a cleanup can refold.
  lemma {:induction false} WithoutIsShaped(w: World, op: nat)
    requires QueueInv(w)
    requires SequenceInv(w) ==> w.lane.owner == Some(op)
    ensures Shape(Without(w.lane.pending, op))
  {
    if SequenceInv(w) {
      SequenceGone(w.lane.pending, op);
    } else {
      FoldedShape(w.lane.pending, if Folded(w.lane.pending, w.accepted, w.lane.desired) then w.accepted else NEUTRAL, w.lane.desired);
      ShapeWithout(w.lane.pending, op);
    }
  }

  lemma ObserveKeepsQueue(w: World, cancelled: set<nat>, now: nat)
    requires QueueInv(w)
    ensures QueueInv(w.(lane := Observe(w.lane, cancelled, now)))
  {
    var l := w.lane;
    if l.pending == [] && l.waiting.Some? && l.waiting.value.operation in cancelled {
      CleanupKeepsQueue(w, l.(waiting := None), l.waiting.value.operation, CancelCleanup(true), now);
    } else {
      var i := FirstCancelled(l.pending, cancelled);
      if i < |l.pending| {
        var op := l.pending[i].operation;
        WithoutIsShaped(w, op);
        CleanupKeepsQueue(w, l.(pending := Without(l.pending, op)), op, CancelCleanup(l.owner == Some(op)), now);
      } else {
        assert w.(lane := Observe(l, cancelled, now)) == w;
      }
    }
  }

  lemma EmptyIsSettledDown(w: World)
    requires QueueInv(w) && w.lane.pending == []
    ensures w.lane.desired in {w.accepted, NEUTRAL}
  {
  }

  lemma ActivateKeepsQueue(w: World, cancelled: set<nat>, now: nat)
    requires QueueInv(w)
    ensures QueueInv(w.(lane := Activate(w.lane, cancelled, now)))
  {
    var l := w.lane;
    if l.pending == [] && l.waiting.Some? {
      var taken := l.(waiting := None);
      if l.waiting.value.operation in cancelled {
        CleanupKeepsQueue(w, taken, l.waiting.value.operation, CancelCleanup(true), now);
      } else {
        EmptyIsSettledDown(w);
        ScheduleKeepsQueue(w, taken, l.waiting.value, now);
      }
    } else {
      assert w.(lane := Activate(l, cancelled, now)) == w;
    }
  }

  lemma DirectKeepsQueue(w: World, op: nat, action: Action, now: nat, found: Found)
    requires QueueInv(w) && op !in w.admitted
    ensures QueueInv(w.(lane := HandleDirect(w.lane, op, action, now, found).lane, admitted := w.admitted + {op}))
  {
    var l := w.lane;
    var l' := HandleDirect(l, op, action, now, found).lane;
    if l' != l {
      var e := l'.pending[|l.pending|];
      if Folded(l.pending, w.accepted, l.desired) { FoldedAppend(l.pending, w.accepted, l.desired, e); }
      if Folded(l.pending, NEUTRAL, l.desired) { FoldedAppend(l.pending, NEUTRAL, l.desired, e); }
    }
  }

  lemma SequenceKeepsQueue(w: World, op: nat, steps: seq<SequenceStep>, now: nat, found: Found)
    requires QueueInv(w) && op !in w.admitted && NewSequence(steps) == Checked.Accepted(steps)
    ensures QueueInv(w.(lane := HandleSequence(w.lane, op, steps, now, found).lane, admitted := w.admitted + {op}))
  {
    var l := w.lane;
    var l' := HandleSequence(l, op, steps, now, found).lane;
    if l' != l && l.pending == [] {
      EmptyIsSettledDown(w);
      ScheduleKeepsQueue(w.(admitted := w.admitted + {op}), l.(owner := Some(op)), Waiting(op, steps, now), now);
    }
  }

  // The next report of a sequence is taken, and the rest of it still has the queue to itself.
  lemma SequenceAccepted(w: World, t: Turn)
    requires QueueInv(w) && SequenceInv(w) && t.write.Accepted?
    ensures var head := w.lane.pending[0];
            var rest := w.lane.(pending := w.lane.pending[1..]);
            QueueInv(w.(accepted := head.report, lane := WriteAccepted(rest, head, t.write.at).lane))
  {
    var q := w.lane.pending;
    var head := q[0];
    var w' := w.(accepted := head.report, lane := WriteAccepted(w.lane.(pending := q[1..]), head, t.write.at).lane);
    assert head.completion == SequenceReport(0 == |q| - 1);
    if |q| > 1 {
      forall k | 0 <= k < |q| - 1
        ensures q[1..][k].operation == w.lane.owner.value && q[1..][k].mutation == None
        ensures q[1..][k].completion == SequenceReport(k == |q[1..]| - 1)
      {
        assert q[1..][k] == q[k + 1];
      }
      assert SequenceOnly(q[1..], w.lane.owner.value);
      assert SequenceInv(w');
    } else {
      assert Folded(w'.lane.pending, w'.accepted, w'.lane.desired);
    }
  }

  lemma {:induction false} HeadIsNoSequence(q: seq<Scheduled>, base: Report, desired: Report)
    requires Folded(q, base, desired) && q != []
    ensures !q[0].completion.SequenceReport?
  {
  }

  lemma {:induction false} HeadTaken(q: seq<Scheduled>, base: Report, desired: Report)
    requires Folded(q, base, desired) && q != []
    ensures Folded(q[1..], q[0].report, desired)
  {
    if !IsCleanup(q[0]) {
      assert Chain(q[1..], q[0].report, desired);
      if |q| > 1 { assert q[1..][0].completion.Direct?; }
    }
  }

  predicate Bases(w: World, base: Report) {
    base in {w.accepted, NEUTRAL} && Folded(w.lane.pending, base, w.lane.desired)
  }

  // A direct report or a cleanup is taken: what is behind it is folded over it.
  lemma HeadAccepted(w: World, t: Turn, base: Report)
    requires QueueInv(w) && w.lane.pending != [] && t.write.Accepted? && Bases(w, base)
    ensures var head := w.lane.pending[0];
            var rest := w.lane.(pending := w.lane.pending[1..]);
            FoldInv(w.(accepted := head.report, lane := WriteAccepted(rest, head, t.write.at).lane))
  {
    HeadTaken(w.lane.pending, base, w.lane.desired);
    HeadIsNoSequence(w.lane.pending, base, w.lane.desired);
  }

  lemma AcceptedKeepsNames(w: World, t: Turn)
    requires Named(w) && w.lane.pending != [] && t.write.Accepted?
    requires w.lane.waiting.Some? ==> w.lane.owner == Some(w.lane.waiting.value.operation)
    ensures var head := w.lane.pending[0];
            var l := WriteAccepted(w.lane.(pending := w.lane.pending[1..]), head, t.write.at).lane;
            && Named(w.(accepted := head.report, lane := l))
            && l.waiting == w.lane.waiting && (l.waiting.Some? ==> l.owner == w.lane.owner)
  {
    assert w.lane.pending[0] in w.lane.pending;
  }

  lemma AcceptedKeepsQueue(w: World, t: Turn)
    requires QueueInv(w) && w.lane.pending != [] && t.write.Accepted?
    ensures var head := w.lane.pending[0];
            var rest := w.lane.(pending := w.lane.pending[1..]);
            QueueInv(w.(accepted := head.report, lane := WriteAccepted(rest, head, t.write.at).lane))
  {
    if SequenceInv(w) {
      SequenceAccepted(w, t);
    } else {
      HeadAccepted(w, t, if Folded(w.lane.pending, w.accepted, w.lane.desired) then w.accepted else NEUTRAL);
      AcceptedKeepsNames(w, t);
    }
  }

  lemma CleanupRefusedKeepsQueue(w: World, l: Lane, head: Scheduled, write: Write)
    requires write.Refused? && Shape(l.pending) && l.desired == NEUTRAL
    requires QueueInv(w) && Named(w.(lane := l))
    requires l.waiting.Some? ==> l.waiting == w.lane.waiting && l.owner == Some(l.waiting.value.operation)
    ensures QueueInv(w.(lane := CleanupRefused(l, head, write).lane))
  {
    RefoldedFolded(l.pending);
    RefoldedNamed(l.pending, NEUTRAL);
  }

  lemma RefusedKeepsQueue(w: World, t: Turn)
    requires QueueInv(w) && w.lane.pending != [] && t.write.Refused?
    ensures var head := w.lane.pending[0];
            var rest := w.lane.(pending := w.lane.pending[1..]);
            QueueInv(w.(lane := WriteRefused(rest, head, t).lane))
  {
    var l := w.lane;
    var head := l.pending[0];
    var op := head.operation;
    assert head in l.pending;
    RefusedIsShaped(w);
    var rest := l.(pending := Without(l.pending[1..], op), desired := NEUTRAL, connected := l.connected && !t.write.closed);
    if !t.write.unclosed {
      if !IsCleanup(head) {
        var release := l.owner == Some(op);
        CleanupKeepsQueue(w, rest, op, if t.write.byCancel then CancelCleanup(release) else FailureCleanup(release), t.later);
      } else {
        CleanupRefusedKeepsQueue(w, Release(rest, op), head, t.write);
      }
    }
  }

  lemma RefusedIsShaped(w: World)
    requires QueueInv(w) && w.lane.pending != []
    ensures Shape(Without(w.lane.pending[1..], w.lane.pending[0].operation))
  {
    var q := w.lane.pending;
    if SequenceInv(w) {
      SequenceGone(q[1..], q[0].operation);
    } else {
      FoldedShape(q, if Folded(q, w.accepted, w.lane.desired) then w.accepted else NEUTRAL, w.lane.desired);
      if !IsCleanup(q[0]) { ShapeOfDirects(q[1..]); }
      ShapeWithout(q[1..], q[0].operation);
    }
  }

  lemma PassKeepsQueue(w: World, t: Turn)
    requires QueueInv(w)
    ensures QueueInv(Pass(w, t))
  {
    var l := w.lane;
    if l.pending == [] || l.pending[0].due > t.now {
      assert Pass(w, t) == w;
    } else {
      var head := l.pending[0];
      if !IsCleanup(head) && head.operation in t.cancelled {
        ObserveKeepsQueue(w, t.cancelled, t.later);
      } else if Earliest(l.last, l.interval) > t.now {
        PostponedKeepsQueue(w, Earliest(l.last, l.interval));
      } else if t.write.Accepted? {
        AcceptedKeepsQueue(w, t);
      } else {
        RefusedKeepsQueue(w, t);
      }
    }
  }

  // Only the due time of the head changes.
  lemma PostponedKeepsQueue(w: World, due: nat)
    requires QueueInv(w) && w.lane.pending != []
    ensures QueueInv(w.(lane := w.lane.(pending := [w.lane.pending[0].(due := due)] + w.lane.pending[1..])))
  {
    var q := w.lane.pending;
    var q' := [q[0].(due := due)] + q[1..];
    assert q'[1..] == q[1..];
    assert q[0] in q;
  }

  lemma StepKeepsQueue(w: World, s: Step)
    requires QueueInv(w)
    ensures QueueInv(Apply(w, s))
  {
    if Enabled(w, s) {
      match s
      case DirectCommand(op, action, now, found) => DirectKeepsQueue(w, op, action, now, found);
      case SequenceCommand(op, steps, now, found) => SequenceKeepsQueue(w, op, steps, now, found);
      case ActivateWaiting(cancelled, now) => ActivateKeepsQueue(w, cancelled, now);
      case ObserveCancelled(cancelled, now) => ObserveKeepsQueue(w, cancelled, now);
      case DispatchPass(t) => PassKeepsQueue(w, t);
      case StreamLost(closeOk) =>
      case Connected =>
    }
  }

  lemma {:induction false} RunKeepsQueue(w: World, steps: seq<Step>)
    requires QueueInv(w)
    ensures QueueInv(Run(w, steps))
    decreases steps
  {
    if steps != [] {
      StepKeepsQueue(w, steps[0]);
      RunKeepsQueue(Apply(w, steps[0]), steps[1..]);
    }
  }

  // ---- Main results -----------------------------------------------------------------------------------------------

  // How many cleanups stand at the front.
  function Cleanups(q: seq<Scheduled>): (n: nat)
    ensures n <= |q|
  {
    if q != [] && IsCleanup(q[0]) then 1 + Cleanups(q[1..]) else 0
  }

  function Mutations(q: seq<Scheduled>): seq<Action> {
    if q == [] then []
    else Mutations(q[..|q| - 1]) + if q[|q| - 1].mutation.Some? then [q[|q| - 1].mutation.value] else []
  }

  lemma {:induction false} MutationsFirst(e: Scheduled, q: seq<Scheduled>)
    requires e.mutation.Some?
    ensures Mutations([e] + q) == [e.mutation.value] + Mutations(q)
  {
    if q == [] {
      assert [e] + q == [e];
      assert [e][..0] == [];
    } else {
      assert ([e] + q)[..|q|] == [e] + q[..|q| - 1];
      MutationsFirst(e, q[..|q| - 1]);
    }
  }

  lemma {:induction false} ChainIsFold(q: seq<Scheduled>, base: Report, desired: Report)
    requires Chain(q, base, desired)
    ensures desired == Fold(base, Mutations(q))
  {
    if q != [] {
      ChainIsFold(q[1..], q[0].report, desired);
      OneThenRest(q, base);
    }
  }

  lemma {:induction false} ChainAt(q: seq<Scheduled>, base: Report, desired: Report, k: nat)
    requires Chain(q, base, desired) && k < |q|
    ensures q[k].report == Fold(base, Mutations(q[..k + 1]))
  {
    OneThenRest(q[..k + 1], base);
    assert q[..k + 1][1..] == q[1..][..k];
    if k > 0 {
      ChainAt(q[1..], q[0].report, desired, k - 1);
    }
  }

  lemma {:induction false} OneThenRest(q: seq<Scheduled>, base: Report)
    requires q != [] && q[0].mutation.Some?
    ensures Fold(base, Mutations(q)) == Fold(Act(q[0].mutation.value, base), Mutations(q[1..]))
  {
    var a := q[0].mutation.value;
    assert q == [q[0]] + q[1..];
    MutationsFirst(q[0], q[1..]);
    FoldConcat(base, [a], Mutations(q[1..]));
    assert Fold(base, [a]) == Act(a, Fold(base, [a][..0]));
  }

  lemma {:induction false} FoldedIsFold(q: seq<Scheduled>, base: Report, desired: Report)
    requires Folded(q, base, desired)
    ensures var n := Cleanups(q);
            && (n > 0 ==> base == NEUTRAL)
            && (forall k :: 0 <= k < n ==> IsCleanup(q[k]) && q[k].report == NEUTRAL)
            && Chain(q[n..], base, desired)
  {
    if q != [] && IsCleanup(q[0]) {
      var n := Cleanups(q[1..]);
      FoldedIsFold(q[1..], NEUTRAL, desired);
      assert q[n + 1..] == q[1..][n..];
      forall k | 0 <= k < n + 1 ensures IsCleanup(q[k]) && q[k].report == NEUTRAL {
        if k > 0 { assert q[k] == q[1..][k - 1]; }
      }
    } else {
      assert q[0..] == q;
    }
  }

  // What a queue that is folded over a base looks like.
  predicate FoldOf(q: seq<Scheduled>, base: Report, desired: Report) {
    var n := Cleanups(q);
    && (n > 0 ==> base == NEUTRAL)
    && (forall k :: 0 <= k < n ==> q[k].report == NEUTRAL)
    && (forall k :: n <= k < |q| ==> q[k].report == Fold(base, Mutations(q[n..k + 1])))
    && desired == Fold(base, Mutations(q[n..]))
  }

  lemma SliceAt<T>(q: seq<T>, n: nat, k: nat)
    requires n <= k < |q|
    ensures q[n..][..k - n + 1] == q[n..k + 1] && q[n..][k - n] == q[k]
  {
  }

  lemma {:induction false} FoldAt(q: seq<Scheduled>, n: nat, base: Report, desired: Report, k: nat)
    requires n <= k < |q| && Chain(q[n..], base, desired)
    ensures q[k].report == Fold(base, Mutations(q[n..k + 1]))
  {
    SliceAt(q, n, k);
    ChainAt(q[n..], base, desired, k - n);
  }

  lemma {:induction false} FoldedIsFoldOf(q: seq<Scheduled>, base: Report, desired: Report)
    requires Folded(q, base, desired)
    ensures FoldOf(q, base, desired)
  {
    FoldedIsFold(q, base, desired);
    var n := Cleanups(q);
    assert desired == Fold(base, Mutations(q[n..])) by { ChainIsFold(q[n..], base, desired); }
    forall k | n <= k < |q| ensures q[k].report == Fold(base, Mutations(q[n..k + 1])) {
      FoldAt(q, n, base, desired, k);
    }
  }

  // The lane's desired state is never out of step with its queue: over every run, unless a sequence has
  // the queue, the cleanups stand in front and are neutral, each report behind them is the fold of the
  // queued mutations up to its own, and `desired` is the fold of all of them. The one base they are
  // folded over is the last report the device took, or neutral; with a cleanup queued it is neutral.
  lemma {:induction false} QueueIsFolded(interval: nat, steps: seq<Step>)
    requires forall e :: e in Run(Init(interval), steps).lane.pending ==> !e.completion.SequenceReport?
    ensures var w := Run(Init(interval), steps);
            FoldOf(w.lane.pending, w.accepted, w.lane.desired) || FoldOf(w.lane.pending, NEUTRAL, w.lane.desired)
  {
    var w := Run(Init(interval), steps);
    RunKeepsQueue(Init(interval), steps);
    if Folded(w.lane.pending, w.accepted, w.lane.desired) {
      FoldedIsFoldOf(w.lane.pending, w.accepted, w.lane.desired);
    } else if Folded(w.lane.pending, NEUTRAL, w.lane.desired) {
      FoldedIsFoldOf(w.lane.pending, NEUTRAL, w.lane.desired);
    }
  }

  // Two queues with the same entries up to the reports planned for them.
  predicate SameEntries(q: seq<Scheduled>, r: seq<Scheduled>) {
    |q| == |r| && forall k :: 0 <= k < |q| ==> q[k] == r[k].(report := q[k].report)
  }

  lemma {:induction false} RefoldForgets(q: seq<Scheduled>, r: seq<Scheduled>, base: Report)
    requires SameEntries(q, r) && Shape(q) && Shape(r)
    ensures Refolded(q, base) == Refolded(r, base)
    ensures RefoldedDesired(q, base) == RefoldedDesired(r, base)
  {
    if q != [] {
      assert q[0] == r[0].(report := q[0].report);
      assert SameEntries(q[1..], r[1..]) by {
        forall k | 0 <= k < |q| - 1 ensures q[1..][k] == r[1..][k].(report := q[1..][k].report) {
          assert q[k + 1] == r[k + 1].(report := q[k + 1].report);
        }
      }
      if IsCleanup(q[0]) {
        RefoldForgets(q[1..], r[1..], base);
      } else {
        assert q[0] in q && r[0] in r;
        assert Directs(q[1..]) && Directs(r[1..]);
        ShapeOfDirects(q[1..]);
        ShapeOfDirects(r[1..]);
        RefoldForgets(q[1..], r[1..], Act(q[0].mutation.value, base));
      }
    }
  }

  lemma {:induction false} ShapeOfDirects(q: seq<Scheduled>)
    requires Directs(q)
    ensures Shape(q)
  {
    if q != [] { assert q[0] in q; }
  }

  // A removed action leaves no trace: what a cleanup queues depends on the entries that remain, and not
  // on the reports or the desired state the removed operation had a part in.
  lemma {:induction false} RemovedLeavesNoTrace(a: Lane, b: Lane, op: nat, completion: Completion, now: nat)
    requires Shape(Without(a.pending, op)) && Shape(Without(b.pending, op))
    requires SameEntries(Without(a.pending, op), Without(b.pending, op)) && a.last == b.last && a.interval == b.interval
    ensures var ca := Cleanup(a.(pending := Without(a.pending, op)), op, completion, now);
            var cb := Cleanup(b.(pending := Without(b.pending, op)), op, completion, now);
            ca.pending == cb.pending && ca.desired == cb.desired
  {
    RefoldForgets(Without(a.pending, op), Without(b.pending, op), NEUTRAL);
  }

  // ---- No operation is lost -------------------------------------------------------------------------------------

  predicate Queued(l: Lane, op: nat) {
    || (l.waiting.Some? && l.waiting.value.operation == op)
    || exists e :: e in l.pending && e.operation == op
  }

  predicate HasVerdict(settled: seq<Settled>, op: nat) {
    exists s :: s in settled && s.operation == op
  }

  predicate Accounted(l: Lane, settled: seq<Settled>, op: nat) {
    Queued(l, op) || HasVerdict(settled, op)
  }

  predicate NothingLost(w: World) {
    forall op :: op in w.admitted ==> Accounted(w.lane, w.settled, op)
  }

  lemma {:induction false} RefoldedKeepsNames(q: seq<Scheduled>, base: Report)
    ensures forall k :: 0 <= k < |q| ==> Refolded(q, base)[k].operation == q[k].operation
  {
    if q != [] {
      RefoldedKeepsNames(q[1..], if q[0].mutation.Some? then Act(q[0].mutation.value, base) else base);
    }
  }

  lemma RebuildKeeps(l: Lane, op: nat)
    requires Queued(l, op)
    ensures Queued(Rebuild(l), op)
  {
    RefoldedKeepsNames(l.pending, NEUTRAL);
    if e :| e in l.pending && e.operation == op {
      var k :| 0 <= k < |l.pending| && l.pending[k] == e;
      assert Rebuild(l).pending[k] in Rebuild(l).pending;
    }
  }

  lemma CleanupKeeps(l: Lane, op: nat, completion: Completion, now: nat, x: nat)
    requires Queued(l, x) || x == op
    ensures Queued(Cleanup(l, op, completion, now), x)
  {
    var l' := Cleanup(l, op, completion, now);
    assert l'.pending[0] in l'.pending;
    if Queued(l, x) {
      RebuildKeeps(l, x);
      if e :| e in Rebuild(l).pending && e.operation == x { assert e in l'.pending; }
    }
  }

  lemma ObserveKeeps(l: Lane, cancelled: set<nat>, now: nat, x: nat)
    requires Queued(l, x)
    ensures Queued(Observe(l, cancelled, now), x)
  {
    if l.pending == [] && l.waiting.Some? && l.waiting.value.operation in cancelled {
      CleanupKeeps(l.(waiting := None), l.waiting.value.operation, CancelCleanup(true), now, x);
    } else {
      var i := FirstCancelled(l.pending, cancelled);
      if i < |l.pending| {
        var op := l.pending[i].operation;
        var rest := l.(pending := Without(l.pending, op));
        assert Queued(rest, x) || x == op;
        CleanupKeeps(rest, op, CancelCleanup(l.owner == Some(op)), now, x);
      }
    }
  }

  lemma ScheduleKeeps(l: Lane, w: Waiting, now: nat, x: nat)
    requires Queued(l, x) || x == w.operation
    requires w.steps != []
    ensures Queued(Schedule(l, w, now), x)
  {
    var plan := PlanOf(w.steps, w.origin, l.desired, l.last, l.interval);
    if plan == None {
      CleanupKeeps(l.(pending := Without(l.pending, w.operation)), w.operation, FailureCleanup(true), now, x);
    } else {
      LeastFeasibleSchedule(w.steps, w.origin, l.desired, l.last, l.interval, []);
      EntriesAre(plan.value, w.operation, 0);
      var l' := Schedule(l, w, now);
      assert l'.pending[|l.pending|] == Entries(plan.value, w.operation)[0];
      assert l'.pending[|l.pending|] in l'.pending;
      if e :| e in l.pending && e.operation == x { assert e in l'.pending; }
    }
  }

  lemma {:induction false} AllSettledHas(q: seq<Scheduled>, v: Verdict, e: Scheduled)
    requires e in q
    ensures Settled(e.operation, v) in AllSettled(q, v)
  {
    if e != q[0] { AllSettledHas(q[1..], v, e); }
  }

  lemma DrainSettles(l: Lane, v: Verdict, x: nat)
    requires Queued(l, x)
    ensures HasVerdict(Drain(l, v).settled, x)
  {
    var s := Drain(l, v).settled;
    if e :| e in l.pending && e.operation == x {
      AllSettledHas(l.pending, v, e);
      assert Settled(x, v) in s;
    } else {
      assert Settled(x, v) in s;
    }
  }

  lemma RefusedKeeps(l: Lane, head: Scheduled, t: Turn, x: nat)
    requires t.write.Refused? && (Queued(l, x) || x == head.operation)
    ensures var r := WriteRefused(l, head, t); Accounted(r.lane, r.settled, x)
  {
    var op := head.operation;
    var w := t.write;
    var r := WriteRefused(l, head, t);
    var rest := l.(pending := Without(l.pending, op), desired := NEUTRAL, connected := l.connected && !w.closed);
    assert x == op || Queued(rest, x);
    if w.unclosed {
      if Queued(l, x) { DrainSettles(l, StrictlyFailed, x); }
      assert Settled(op, StrictlyFailed) in r.settled;
    } else if !IsCleanup(head) {
      var release := l.owner == Some(op);
      CleanupKeeps(rest, op, if w.byCancel then CancelCleanup(release) else FailureCleanup(release), t.later, x);
    } else if x == op {
      assert r.settled[0].operation == op || r.settled[|r.settled| - 1].operation == op;
    } else {
      var released := Release(rest, op);
      assert Queued(released, x);
      if w.lost && !w.reclosed {
        DrainSettles(released, StrictlyFailed, x);
      } else if w.lost || !rest.connected {
        DrainSettles(released, if w.drained then Failed else StrictlyFailed, x);
      } else {
        RebuildKeeps(released, x);
      }
    }
  }

  lemma AcceptedKeeps(w: World, t: Turn, x: nat)
    requires QueueInv(w) && w.lane.pending != [] && t.write.Accepted? && Queued(w.lane, x)
    ensures var head := w.lane.pending[0];
            var r := WriteAccepted(w.lane.(pending := w.lane.pending[1..]), head, t.write.at);
            Accounted(r.lane, r.settled, x)
  {
    var q := w.lane.pending;
    var head := q[0];
    var r := WriteAccepted(w.lane.(pending := q[1..]), head, t.write.at);
    if x == head.operation {
      if SequenceInv(w) && |q| > 1 {
        assert q[1].operation == q[0].operation && q[1] in q[1..];
      } else {
        if !SequenceInv(w) {
          HeadIsNoSequence(q, if Folded(q, w.accepted, w.lane.desired) then w.accepted else NEUTRAL, w.lane.desired);
        }
        assert |r.settled| == 1 && r.settled[0].operation == x;
        assert r.settled[0] in r.settled;
      }
    } else if e :| e in q && e.operation == x {
      assert e in q[1..];
    }
  }

  lemma PassKeeps(w: World, t: Turn, x: nat)
    requires QueueInv(w) && Queued(w.lane, x)
    ensures var p := DispatchTurn(w.lane, t); Accounted(p.lane, p.settled, x)
  {
    var l := w.lane;
    if l.pending != [] && l.pending[0].due <= t.now {
      var head := l.pending[0];
      var rest := l.(pending := l.pending[1..]);
      assert Queued(rest, x) || x == head.operation;
      if !IsCleanup(head) && head.operation in t.cancelled {
        ObserveKeeps(l, t.cancelled, t.later, x);
      } else if Earliest(l.last, l.interval) > t.now {
        var l' := DispatchTurn(l, t).lane;
        assert l'.pending[0] in l'.pending && l'.pending[1..] == l.pending[1..];
      } else if t.write.Accepted? {
        AcceptedKeeps(w, t, x);
      } else {
        RefusedKeeps(rest, head, t, x);
      }
    }
  }

  // What one step does to one operation that is still on the lane.
  lemma StepKeepsOne(w: World, s: Step, x: nat)
    requires QueueInv(w) && Enabled(w, s) && Queued(w.lane, x)
    ensures Accounted(Apply(w, s).lane, Apply(w, s).settled, x)
  {
    match s
    case DirectCommand(op, action, now, found) =>
      if e :| e in w.lane.pending && e.operation == x { assert e in Apply(w, s).lane.pending || Apply(w, s).lane == w.lane; }
    case SequenceCommand(op, steps, now, found) =>
      if HandleSequence(w.lane, op, steps, now, found).lane != w.lane && w.lane.pending == [] {
        ScheduleKeeps(w.lane.(owner := Some(op)), Waiting(op, steps, now), now, x);
      }
    case ActivateWaiting(cancelled, now) =>
      if w.lane.pending == [] && w.lane.waiting.Some? {
        var taken := w.lane.(waiting := None);
        if w.lane.waiting.value.operation in cancelled {
          CleanupKeeps(taken, w.lane.waiting.value.operation, CancelCleanup(true), now, x);
        } else {
          ScheduleKeeps(taken, w.lane.waiting.value, now, x);
        }
      }
    case ObserveCancelled(cancelled, now) => ObserveKeeps(w.lane, cancelled, now, x);
    case DispatchPass(t) =>
      PassKeeps(w, t, x);
      VerdictsStay(w.settled, DispatchTurn(w.lane, t).settled, x);
    case StreamLost(closeOk) =>
      DrainSettles(w.lane.(desired := NEUTRAL), if closeOk then Failed else StrictlyFailed, x);
      VerdictsStay(w.settled, Drain(w.lane.(desired := NEUTRAL), if closeOk then Failed else StrictlyFailed).settled, x);
    case Connected =>
  }

  lemma VerdictsStay(a: seq<Settled>, b: seq<Settled>, x: nat)
    ensures HasVerdict(a, x) || HasVerdict(b, x) ==> HasVerdict(a + b, x)
  {
    if s :| s in a && s.operation == x { assert s in a + b; }
    if s :| s in b && s.operation == x { assert s in a + b; }
  }

  lemma NewOneIsAccounted(w: World, s: Step)
    requires Enabled(w, s) && (s.DirectCommand? || s.SequenceCommand?)
    ensures Accounted(Apply(w, s).lane, Apply(w, s).settled, s.operation)
  {
    var w' := Apply(w, s);
    if w'.settled != w.settled {
      assert w'.settled[|w'.settled| - 1] in w'.settled;
    } else if s.DirectCommand? {
      assert w'.lane.pending[|w.lane.pending|] in w'.lane.pending;
    } else if w.lane.pending == [] {
      ScheduleKeeps(w.lane.(owner := Some(s.operation)), Waiting(s.operation, s.steps, s.now), s.now, s.operation);
    }
  }

  lemma StepLosesNothing(w: World, s: Step)
    requires QueueInv(w) && NothingLost(w)
    ensures NothingLost(Apply(w, s))
  {
    if Enabled(w, s) {
      var w' := Apply(w, s);
      forall op | op in w'.admitted ensures Accounted(w'.lane, w'.settled, op) {
        if op !in w.admitted {
          NewOneIsAccounted(w, s);
        } else if HasVerdict(w.settled, op) {
          VerdictsStay(w.settled, w'.settled[|w.settled|..], op);
          assert w'.settled == w.settled + w'.settled[|w.settled|..];
        } else {
          StepKeepsOne(w, s, op);
        }
      }
    }
  }

  lemma {:induction false} RunLosesNothing(w: World, steps: seq<Step>)
    requires QueueInv(w) && NothingLost(w)
    ensures NothingLost(Run(w, steps))
    decreases steps
  {
    if steps != [] {
      StepKeepsQueue(w, steps[0]);
      StepLosesNothing(w, steps[0]);
      RunLosesNothing(Apply(w, steps[0]), steps[1..]);
    }
  }

  // Over every run, an operation the lane was given is in its queue, waiting, or settled: cleanups,
  // refused writes, a lost stream and a coalesced sequence drop none.
  lemma {:induction false} NoOperationIsLost(interval: nat, steps: seq<Step>, op: nat)
    requires op in Run(Init(interval), steps).admitted
    ensures var w := Run(Init(interval), steps); Queued(w.lane, op) || HasVerdict(w.settled, op)
  {
    RunLosesNothing(Init(interval), steps);
  }
}
