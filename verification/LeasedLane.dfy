/**
 * The reports of an Automation lease on the lane, with the settlement records of their operations
 * (crates/easycon-controller/src/session.rs). While a lease is held the queue holds its reports and the
 * cleanups of their operations and nothing else, because it is granted on an empty queue only. Sealing its
 * generation takes reports out without a cleanup in their place.
 *
 * What a report says and when it is due plays no part here; an entry is the operation it belongs to.
 */
module LeasedLane {
  import opened Wrappers
  import opened LaneRecord
  import O = OwnedOperation
  import S = Settlement
  import Q = LaneQueue
  import L = LaneSettlement

  datatype Entry = Report(operation: nat) | Cleanup(operation: nat, cancels: bool)

  // `given` are the operations the lane was sent, `told` the settling calls it made.
  datatype World = World(
    queue: seq<Entry>, sealed: bool, given: set<nat>, told: seq<Q.Settled>, ops: map<nat, S.World>, phase: Phase)

  // How a write that was refused goes on: `strictly` if its stream could not be closed.
  datatype Refusal = Refusal(byCancel: bool, strictly: bool)

  // What the lane itself reads besides the operation: its own failure, the lease, and the connection.
  datatype Admission = Admission(broken: bool, allowed: bool, connected: bool)

  datatype Step =
    | Create(operation: nat, owner: nat, transfer: Option<nat>)
    | Other(operation: nat, step: S.Step)
    | Seal
    | Command(operation: nat, admission: Admission, errors: L.Errors)
    | Observe(errors: L.Errors)
    | DropSealed(errors: L.Errors)
    | BeginWrite
    | EndRefused(refusal: Refusal, errors: L.Errors)
    | ClaimAccepted
    | SeeClaimed
    | SeeUnclaimed(refused: Option<Refusal>, errors: L.Errors)
    | FinishWrite(errors: L.Errors)
    | CleanupWritten(errors: L.Errors)
    | CleanupLost(verdict: Q.Verdict, errors: L.Errors)
    | Drain(verdict: Q.Verdict, errors: L.Errors)

  function Init(): World {
    World([], false, {}, [], map[], Idle)
  }

  function Without(q: seq<Entry>, who: set<nat>): (r: seq<Entry>)
    ensures forall e :: e in r <==> e in q && e.operation !in who
    ensures Distinct(q) ==> Distinct(r)
  {
    if q == [] then []
    else
      var rest := Without(q[1..], who);
      assert Distinct(q) ==> forall e :: e in q[1..] ==> e.operation != q[0].operation;
      if q[0].operation in who then rest else [q[0]] + rest
  }

  ghost predicate Distinct(q: seq<Entry>) {
    forall i, j :: 0 <= i < j < |q| ==> q[i].operation != q[j].operation
  }

  function Calls(q: seq<Entry>, who: set<nat>, v: Q.Verdict): (r: seq<Q.Settled>)
    ensures forall s :: s in r <==> s.verdict == v && s.operation in who && Holds(q, s.operation)
  {
    if q == [] then []
    else
      var rest := Calls(q[1..], who, v);
      assert forall op :: Holds(q, op) <==> q[0].operation == op || Holds(q[1..], op);
      if q[0].operation in who then [Q.Settled(q[0].operation, v)] + rest else rest
  }

  predicate Holds(q: seq<Entry>, op: nat) {
    exists e :: e in q && e.operation == op
  }

  function All(q: seq<Entry>): set<nat> {
    set e | e in q :: e.operation
  }

  // The reports whose operations somebody cancelled, and those whose operations have not ended.
  function CancelledReports(w: World): set<nat> {
    set e | e in w.queue && e.Report? && e.operation in w.ops && w.ops[e.operation].op.reason.Some? :: e.operation
  }

  function OpenReports(w: World): set<nat> {
    set e | e in w.queue && e.Report? && e.operation in w.ops && !w.ops[e.operation].op.state.Ended? :: e.operation
  }

  function FirstOf(q: seq<Entry>, who: set<nat>): (i: nat)
    ensures i <= |q| && (i < |q| ==> q[i].Report? && q[i].operation in who)
  {
    if q == [] || (q[0].Report? && q[0].operation in who) then 0 else 1 + FirstOf(q[1..], who)
  }

  function Written(w: World): S.World
    requires InFlight(w.phase)
  {
    if w.phase.flight.operation in w.ops then w.ops[w.phase.flight.operation] else S.Init(0, None)
  }

  predicate Enabled(w: World, s: Step) {
    match s
    case Create(op, _, _) => op !in w.ops
    case Other(op, step) => op in w.ops && !OnlyLane(step)
    case Seal => true
    case Command(op, _, _) => w.phase.Idle? && op in w.ops && op !in w.given
    case Observe(_) => w.phase.Idle?
    case DropSealed(_) => w.phase.Idle? && w.sealed
    case BeginWrite => w.phase.Idle? && w.queue != [] && w.queue[0].Report? && w.queue[0].operation in w.ops
    case EndRefused(_, _) => w.phase.Writing? && Refused(Written(w), w.phase.flight.gate)
    case ClaimAccepted => w.phase.Writing? && w.phase.flight.operation in w.ops && Accepted(Written(w), w.phase.flight.gate)
    case SeeClaimed => w.phase.Claiming? && Written(w).record.ClaimedFull?
    case SeeUnclaimed(_, _) => w.phase.Claiming? && !Written(w).record.ClaimingFull? && !Written(w).record.ClaimedFull?
    case FinishWrite(_) => w.phase.Finishing? && w.phase.flight.operation in w.ops
    case CleanupWritten(_) => w.phase.Idle? && w.queue != [] && w.queue[0].Cleanup?
    case CleanupLost(v, _) => w.phase.Idle? && w.queue != [] && w.queue[0].Cleanup? && v in {Q.Failed, Q.StrictlyFailed}
    case Drain(v, _) => w.phase.Idle? && !v.Succeeded?
  }

  // A step of the lane: the queue it leaves, and the settling calls it makes.
  function Leave(w: World, queue: seq<Entry>, calls: seq<Q.Settled>, errors: L.Errors): World {
    w.(queue := queue, told := w.told + calls, ops := L.TellAll(w.ops, calls, errors), phase := Idle)
  }

  function Out(w: World, who: set<nat>, v: Q.Verdict, errors: L.Errors): World {
    Leave(w, Without(w.queue, who), Calls(w.queue, who, v), errors)
  }

  // A cleanup of the operation in the place of its report.
  function Replaced(q: seq<Entry>, op: nat, cancels: bool): seq<Entry> {
    [Cleanup(op, cancels)] + Without(q, {op})
  }

  // `handle_direct`, for a lease. The operation is started before the lane looks at the connection.
  function Handle(w: World, op: nat, a: Admission, errors: L.Errors): World
    requires op in w.ops
  {
    var o := w.ops[op];
    var w1 := w.(given := w.given + {op});
    if a.broken then Leave(w1, w.queue, [Q.Settled(op, Q.StrictlyFailed)], errors)
    else if o.op.reason.Some? || w.sealed then Leave(w1, w.queue, [Q.Settled(op, Q.Cancelled)], errors)
    else
      var begun := w1.(ops := L.Act(w.ops, op, S.StartOperation));
      if !L.Look(o).started || !a.connected || !a.allowed then Leave(begun, w.queue, [Q.Settled(op, Q.Failed)], errors)
      else begun.(queue := w.queue + [Report(op)])
  }

  // `handle_report_write_failure`.
  function Refuse(w: World, r: Refusal, errors: L.Errors): World
    requires InFlight(w.phase)
  {
    var op := w.phase.flight.operation;
    if r.strictly then Out(w, All(w.queue), Q.StrictlyFailed, errors)
    else if w.sealed then Out(w, {op}, if r.byCancel then Q.Cancelled else Q.Failed, errors)
    else w.(queue := Replaced(w.queue, op, r.byCancel), phase := Idle)
  }

  function Deliver(w: World, errors: L.Errors): World
    requires InFlight(w.phase)
  {
    Out(w, {w.phase.flight.operation}, Q.Succeeded, errors)
  }

  function VerdictOf(e: Entry): Q.Verdict
    requires e.Cleanup?
  {
    if e.cancels then Q.Cancelled else Q.Failed
  }

  // `observe_cancellation`: a sealed generation's cancelled reports all go; otherwise the cleanup of one
  // operation takes their place.
  function Observed(w: World, errors: L.Errors): World {
    if w.sealed then Out(w, CancelledReports(w), Q.Cancelled, errors)
    else
      var i := FirstOf(w.queue, CancelledReports(w));
      if i == |w.queue| then w else w.(queue := Replaced(w.queue, w.queue[i].operation, true), phase := Idle)
  }

  // `settle_sealed_generation_actions`; that it asks an operation to cancel which it cannot settle any more is
  // a step anybody may take.
  function Dropped(w: World, errors: L.Errors): World {
    Out(w, OpenReports(w), Q.Cancelled, errors)
  }

  // A cleanup that found the device gone: its operation is told its own verdict, the others that one.
  function LostCalls(q: seq<Entry>, v: Q.Verdict): seq<Q.Settled>
    requires q != [] && q[0].Cleanup?
  {
    [Q.Settled(q[0].operation, VerdictOf(q[0]))] + Calls(q, All(q) - {q[0].operation}, v)
  }

  function Apply(w: World, s: Step): World {
    if !Enabled(w, s) then w
    else
      match s
      case Create(op, owner, transfer) => w.(ops := w.ops[op := S.Init(owner, transfer)])
      case Other(op, step) => w.(ops := L.Act(w.ops, op, step))
      case Seal => w.(sealed := true)
      case Command(op, admission, errors) => Handle(w, op, admission, errors)
      case Observe(errors) => Observed(w, errors)
      case DropSealed(errors) => Dropped(w, errors)
      case BeginWrite =>
        var op := w.queue[0].operation;
        w.(ops := w.ops[op := Begun(w.ops[op])], phase := Writing(Flight(op, |w.ops[op].gates|, 0, {})))
      case EndRefused(r, errors) => Refuse(w, r, errors)
      case ClaimAccepted =>
        w.(ops := L.Act(w.ops, w.phase.flight.operation, S.ClaimReservedFull), phase := Claiming(w.phase.flight))
      case SeeClaimed => w.(phase := Finishing(w.phase.flight))
      case SeeUnclaimed(r, errors) => if r.Some? then Refuse(w, r.value, errors) else Deliver(w, errors)
      case FinishWrite(errors) => Deliver(w.(ops := L.Act(w.ops, w.phase.flight.operation, S.FinishSuccess)), errors)
      case CleanupWritten(errors) => Out(w, {w.queue[0].operation}, VerdictOf(w.queue[0]), errors)
      case CleanupLost(v, errors) => Leave(w, [], LostCalls(w.queue, v), errors)
      case Drain(v, errors) => Out(w, All(w.queue), v, errors)
  }

  function Run(w: World, steps: seq<Step>): World
    decreases |steps|
  {
    if |steps| == 0 then w else Run(Apply(w, steps[0]), steps[1..])
  }

  // ---- The invariant -------------------------------------------------------------------------------------------------

  ghost predicate QueueInv(w: World) {
    && Distinct(w.queue)
    && (forall e :: e in w.queue ==> e.operation in w.given && !Q.HasVerdict(w.told, e.operation))
    && (forall op :: op in w.given ==> op in w.ops && (Holds(w.queue, op) || Q.HasVerdict(w.told, op)))
    && (forall s, r :: s in w.told && r in w.told && s.operation == r.operation ==> s == r)
  }

  ghost predicate ToldInv(w: World) {
    && (forall s :: s in w.told ==>
          && s.operation in w.given && s.operation in w.ops
          && S.Closed(w.ops[s.operation].record) && (s.verdict.Succeeded? ==> w.ops[s.operation].reserved))
    && (forall op :: op in w.given && op in w.ops ==> Q.HasVerdict(w.told, op) || !w.ops[op].op.state.Pending?)
  }

  predicate AcceptedIsTold(w: World, soon: set<nat>) {
    forall op :: op in w.ops && w.ops[op].reserved && w.ops[op].strict.None? ==>
      Q.Settled(op, Q.Succeeded) in w.told || op in soon
  }

  predicate OfHead(w: World, f: Flight) {
    w.queue != [] && w.queue[0] == Report(f.operation) && f.operation in w.ops
  }

  ghost predicate Inv(w: World) {
    && QueueInv(w) && ToldInv(w) && !w.phase.Gone?
    && if InFlight(w.phase) then
         var op := w.phase.flight.operation;
         && OfHead(w, w.phase.flight) && S.Inv(w.ops[op]) && Stage(w.ops[op], w.phase)
         && L.AllQuiet(w.ops - {op}) && AcceptedIsTold(w, {op})
       else L.AllQuiet(w.ops) && AcceptedIsTold(w, {})
  }

  // ---- Steps of the lane -----------------------------------------------------------------------------------------------

  // Whoever leaves the queue is told something, for the first and only time.
  ghost predicate Fair(w: World, queue: seq<Entry>, calls: seq<Q.Settled>) {
    && Distinct(queue)
    && (forall e :: e in queue ==> Holds(w.queue, e.operation))
    && (forall s :: s in calls ==> s.operation in w.given && !Holds(queue, s.operation) && !Q.HasVerdict(w.told, s.operation))
    && (forall op :: Holds(w.queue, op) ==> Holds(queue, op) || Q.HasVerdict(calls, op))
    && (forall op :: op in w.given ==> Holds(w.queue, op) || Q.HasVerdict(w.told, op) || Q.HasVerdict(calls, op))
    && (forall s, r :: s in calls && r in calls && s.operation == r.operation ==> s == r)
  }

  lemma {:induction false} LeaveKeepsQueue(w: World, queue: seq<Entry>, calls: seq<Q.Settled>, errors: L.Errors)
    requires Fair(w, queue, calls) && L.Carried(w.ops, L.TellAll(w.ops, calls, errors))
    requires forall e :: e in w.queue ==> e.operation in w.given && !Q.HasVerdict(w.told, e.operation)
    requires forall op :: op in w.given ==> op in w.ops
    requires forall s, r :: s in w.told && r in w.told && s.operation == r.operation ==> s == r
    ensures QueueInv(Leave(w, queue, calls, errors))
  {
    var w' := Leave(w, queue, calls, errors);
    assert forall s :: s in w'.told <==> s in w.told || s in calls;
    forall e | e in queue ensures e.operation in w'.given && !Q.HasVerdict(w'.told, e.operation) {
      assert Holds(queue, e.operation) && Holds(w.queue, e.operation);
    }
    forall op | op in w'.given ensures op in w'.ops && (Holds(queue, op) || Q.HasVerdict(w'.told, op)) {
      Q.VerdictsStay(w.told, calls, op);
    }
  }

  lemma LeaveKeepsTold(w: World, queue: seq<Entry>, calls: seq<Q.Settled>, errors: L.Errors)
    requires Fair(w, queue, calls) && L.AllQuiet(w.ops) && forall op :: op in w.given ==> op in w.ops
    requires forall s :: s in w.told ==>
               s.operation in w.given && S.Closed(w.ops[s.operation].record) && (s.verdict.Succeeded? ==> w.ops[s.operation].reserved)
    requires forall op :: op in w.given ==> Q.HasVerdict(w.told, op) || Q.HasVerdict(calls, op) || !w.ops[op].op.state.Pending?
    requires forall s :: s in calls && s.verdict.Succeeded? ==> w.ops[s.operation].reserved && S.Closed(w.ops[s.operation].record)
    ensures ToldInv(Leave(w, queue, calls, errors))
    ensures L.AllQuiet(Leave(w, queue, calls, errors).ops) && L.Carried(w.ops, Leave(w, queue, calls, errors).ops)
  {
    var w' := Leave(w, queue, calls, errors);
    L.TellAllCarries(w.ops, calls, errors);
    forall s | s in w'.told
      ensures s.operation in w'.given && s.operation in w'.ops
      ensures S.Closed(w'.ops[s.operation].record) && (s.verdict.Succeeded? ==> w'.ops[s.operation].reserved) {
      assert Carries(w.ops[s.operation], w'.ops[s.operation]);
    }
    forall op | op in w'.given && op in w'.ops ensures Q.HasVerdict(w'.told, op) || !w'.ops[op].op.state.Pending? {
      assert Carries(w.ops[op], w'.ops[op]);
      Q.VerdictsStay(w.told, calls, op);
    }
  }

  lemma LeaveKeepsAccepted(w: World, w': World, soon: set<nat>)
    requires AcceptedIsTold(w, soon) && L.Carried(w.ops, w'.ops)
    requires forall s :: s in w.told ==> s in w'.told
    requires forall op :: op in soon ==> Q.Settled(op, Q.Succeeded) in w'.told || op !in w.ops || w.ops[op].strict.Some?
    ensures AcceptedIsTold(w', {})
  {
    forall op | op in w'.ops && w'.ops[op].reserved && w'.ops[op].strict.None? ensures Q.Settled(op, Q.Succeeded) in w'.told {
      assert Carries(w.ops[op], w'.ops[op]);
    }
  }

  // The lane between two writes, or with one just over: `soon` is what it is about to tell of.
  ghost predicate Ready(w: World, soon: set<nat>) {
    QueueInv(w) && ToldInv(w) && L.AllQuiet(w.ops) && AcceptedIsTold(w, soon)
  }

  lemma {:induction false} OutIsFair(w: World, who: set<nat>, v: Q.Verdict)
    requires QueueInv(w)
    ensures Fair(w, Without(w.queue, who), Calls(w.queue, who, v))
  {
    var queue, calls := Without(w.queue, who), Calls(w.queue, who, v);
    forall op | Holds(w.queue, op) ensures Holds(queue, op) || Q.HasVerdict(calls, op) {
      var e :| e in w.queue && e.operation == op;
      if op in who { assert Q.Settled(op, v) in calls; } else { assert e in queue; }
    }
    forall e | e in queue ensures Holds(w.queue, e.operation) { assert e in w.queue; }
  }

  // Whoever is about to be told success is told so, if it is taken out of the queue with it.
  lemma {:induction false} SoonIsTold(w: World, who: set<nat>, v: Q.Verdict, soon: set<nat>)
    requires forall op :: op in soon ==>
               op in w.ops && (w.ops[op].strict.Some? || (v.Succeeded? && op in who && Holds(w.queue, op)))
    ensures forall op :: op in soon && w.ops[op].strict.None? ==> Q.Settled(op, Q.Succeeded) in Calls(w.queue, who, v)
  {
  }

  lemma OutKeepsQueue(w: World, who: set<nat>, v: Q.Verdict, errors: L.Errors)
    requires QueueInv(w) && L.Carried(w.ops, Out(w, who, v, errors).ops)
    ensures QueueInv(Out(w, who, v, errors))
  {
    OutIsFair(w, who, v);
    LeaveKeepsQueue(w, Without(w.queue, who), Calls(w.queue, who, v), errors);
  }

  lemma OutKeepsTold(w: World, who: set<nat>, v: Q.Verdict, errors: L.Errors)
    requires QueueInv(w) && ToldInv(w) && L.AllQuiet(w.ops)
    requires v.Succeeded? ==> forall op :: op in who && Holds(w.queue, op) ==> w.ops[op].reserved && S.Closed(w.ops[op].record)
    ensures ToldInv(Out(w, who, v, errors))
    ensures L.AllQuiet(Out(w, who, v, errors).ops) && L.Carried(w.ops, Out(w, who, v, errors).ops)
  {
    OutIsFair(w, who, v);
    LeaveKeepsTold(w, Without(w.queue, who), Calls(w.queue, who, v), errors);
  }

  lemma OutKeepsAccepted(w: World, who: set<nat>, v: Q.Verdict, errors: L.Errors, soon: set<nat>)
    requires AcceptedIsTold(w, soon) && L.Carried(w.ops, Out(w, who, v, errors).ops)
    requires forall op :: op in soon ==>
               op in w.ops && (w.ops[op].strict.Some? || (v.Succeeded? && op in who && Holds(w.queue, op)))
    ensures AcceptedIsTold(Out(w, who, v, errors), {})
  {
    SoonIsTold(w, who, v, soon);
    LeaveKeepsAccepted(w, Out(w, who, v, errors), soon);
  }

  lemma OutKeeps(w: World, who: set<nat>, v: Q.Verdict, errors: L.Errors, soon: set<nat>)
    requires Ready(w, soon)
    requires v.Succeeded? ==> forall op :: op in who && Holds(w.queue, op) ==> w.ops[op].reserved && S.Closed(w.ops[op].record)
    requires forall op :: op in soon ==>
               op in w.ops && (w.ops[op].strict.Some? || (v.Succeeded? && op in who && Holds(w.queue, op)))
    ensures Inv(Out(w, who, v, errors))
  {
    OutKeepsTold(w, who, v, errors);
    OutKeepsQueue(w, who, v, errors);
    OutKeepsAccepted(w, who, v, errors, soon);
  }

  lemma {:induction false} WithoutHolds(q: seq<Entry>, who: set<nat>)
    ensures forall op :: Holds(Without(q, who), op) <==> Holds(q, op) && op !in who
  {
    forall op | Holds(q, op) && op !in who ensures Holds(Without(q, who), op) {
      var e :| e in q && e.operation == op;
      assert e in Without(q, who);
    }
  }

  lemma ReplacedIs(q: seq<Entry>, op: nat, cancels: bool)
    requires Distinct(q) && Holds(q, op)
    ensures Distinct(Replaced(q, op, cancels))
    ensures forall x :: Holds(Replaced(q, op, cancels), x) <==> Holds(q, x)
  {
    var queue, rest := Replaced(q, op, cancels), Without(q, {op});
    WithoutHolds(q, {op});
    forall i, j | 0 <= i < j < |queue| ensures queue[i].operation != queue[j].operation {
      assert queue[j] == rest[j - 1] && rest[j - 1] in rest;
      if i > 0 { assert queue[i] == rest[i - 1]; }
    }
    assert queue[0] in queue;
    forall x | Holds(rest, x) ensures Holds(queue, x) {
      var e :| e in rest && e.operation == x;
      assert e in queue;
    }
    forall x | Holds(queue, x) ensures Holds(q, x) {
      var e :| e in queue && e.operation == x;
      if e != queue[0] { assert e in rest && Holds(rest, x); }
    }
  }

  // A queue of the same operations.
  lemma SameNames(w: World, queue: seq<Entry>)
    requires QueueInv(w) && Distinct(queue) && forall x :: Holds(queue, x) <==> Holds(w.queue, x)
    ensures QueueInv(w.(queue := queue, phase := Idle))
  {
    forall e | e in queue ensures e.operation in w.given && !Q.HasVerdict(w.told, e.operation) {
      assert Holds(queue, e.operation);
    }
  }

  // A cleanup for a report settles nobody.
  lemma ReplacedKeeps(w: World, op: nat, cancels: bool)
    requires Ready(w, {}) && Holds(w.queue, op)
    ensures Inv(w.(queue := Replaced(w.queue, op, cancels), phase := Idle))
  {
    ReplacedIs(w.queue, op, cancels);
    SameNames(w, Replaced(w.queue, op, cancels));
  }

  // ---- A command -------------------------------------------------------------------------------------------------------

  lemma AtOnceIsFair(w: World, op: nat, v: Q.Verdict)
    requires QueueInv(w) && op !in w.given
    requires forall s :: s in w.told ==> s.operation in w.given
    ensures Fair(w.(given := w.given + {op}), w.queue, [Q.Settled(op, v)])
  {
    var calls := [Q.Settled(op, v)];
    assert calls[0] in calls;
    forall e | e in w.queue ensures Holds(w.queue, e.operation) && e.operation != op {}
  }

  lemma ToldAtOnceKeeps(w: World, op: nat, v: Q.Verdict, errors: L.Errors)
    requires Ready(w, {}) && op in w.ops && op !in w.given && !v.Succeeded?
    ensures Inv(Leave(w.(given := w.given + {op}), w.queue, [Q.Settled(op, v)], errors))
  {
    var w1 := w.(given := w.given + {op});
    AtOnceIsFair(w, op, v);
    HasCall(op, v);
    FairKeeps(w1, w.queue, [Q.Settled(op, v)], errors);
  }

  lemma HasCall(op: nat, v: Q.Verdict)
    ensures Q.HasVerdict([Q.Settled(op, v)], op)
  {
    assert [Q.Settled(op, v)][0] in [Q.Settled(op, v)];
  }

  // A step that tells nobody success.
  lemma FairKeeps(w: World, queue: seq<Entry>, calls: seq<Q.Settled>, errors: L.Errors)
    requires Fair(w, queue, calls) && L.AllQuiet(w.ops) && AcceptedIsTold(w, {})
    requires forall e :: e in w.queue ==> e.operation in w.given && !Q.HasVerdict(w.told, e.operation)
    requires forall op :: op in w.given ==>
               op in w.ops && (Q.HasVerdict(w.told, op) || Q.HasVerdict(calls, op) || !w.ops[op].op.state.Pending?)
    requires forall s, r :: s in w.told && r in w.told && s.operation == r.operation ==> s == r
    requires forall s :: s in w.told ==>
               s.operation in w.given && S.Closed(w.ops[s.operation].record) && (s.verdict.Succeeded? ==> w.ops[s.operation].reserved)
    requires forall s :: s in calls ==> !s.verdict.Succeeded?
    ensures Inv(Leave(w, queue, calls, errors))
  {
    LeaveKeepsTold(w, queue, calls, errors);
    LeaveKeepsQueue(w, queue, calls, errors);
    LeaveKeepsAccepted(w, Leave(w, queue, calls, errors), {});
  }

  lemma AppendedIs(q: seq<Entry>, op: nat)
    requires Distinct(q) && !Holds(q, op)
    ensures Distinct(q + [Report(op)])
    ensures forall x :: Holds(q + [Report(op)], x) <==> Holds(q, x) || x == op
  {
    var queue := q + [Report(op)];
    forall i, j | 0 <= i < j < |queue| ensures queue[i].operation != queue[j].operation {
      assert queue[i] in q;
    }
    assert queue[|q|] in queue;
    forall x | Holds(q, x) ensures Holds(queue, x) {
      var e :| e in q && e.operation == x;
      assert e in queue;
    }
  }

  lemma AppendedKeepsQueue(w: World, op: nat)
    requires QueueInv(w) && op in w.ops && op !in w.given && !Q.HasVerdict(w.told, op)
    ensures QueueInv(w.(given := w.given + {op}, queue := w.queue + [Report(op)], phase := Idle))
  {
    AppendedIs(w.queue, op);
    forall e | e in w.queue + [Report(op)] ensures e.operation in w.given + {op} && !Q.HasVerdict(w.told, e.operation) {}
  }

  lemma QueuedKeeps(w: World, op: nat)
    requires Ready(w, {}) && op in w.ops && op !in w.given && !w.ops[op].op.state.Pending?
    ensures Inv(w.(given := w.given + {op}, queue := w.queue + [Report(op)], phase := Idle))
  {
    AppendedKeepsQueue(w, op);
  }

  lemma StartReady(w: World, op: nat)
    requires Ready(w, {}) && op in w.ops
    ensures Ready(w.(ops := L.Act(w.ops, op, S.StartOperation)), {})
    ensures L.Look(w.ops[op]).started ==> !L.Act(w.ops, op, S.StartOperation)[op].op.state.Pending?
  {
    StepCarries(w.ops[op], S.StartOperation);
    QuietStays(w.ops[op], S.StartOperation);
    SetReady(w, op, S.Apply(w.ops[op], S.StartOperation), {});
  }

  lemma CommandKeeps(w: World, op: nat, a: Admission, errors: L.Errors)
    requires Inv(w) && w.phase.Idle? && op in w.ops && op !in w.given
    ensures Inv(Handle(w, op, a, errors))
  {
    if a.broken {
      ToldAtOnceKeeps(w, op, Q.StrictlyFailed, errors);
    } else if w.ops[op].op.reason.Some? || w.sealed {
      ToldAtOnceKeeps(w, op, Q.Cancelled, errors);
    } else {
      var w1 := w.(ops := L.Act(w.ops, op, S.StartOperation));
      StartReady(w, op);
      if !L.Look(w.ops[op]).started || !a.connected || !a.allowed {
        ToldAtOnceKeeps(w1, op, Q.Failed, errors);
        assert w1.(given := w1.given + {op}) == w.(given := w.given + {op}, ops := w1.ops);
      } else {
        QueuedKeeps(w1, op);
      }
    }
  }

  // ---- A change of one operation ---------------------------------------------------------------------------------------

  lemma SetKeepsLists(w: World, op: nat, o: S.World)
    requires QueueInv(w) && ToldInv(w) && op in w.ops && Carries(w.ops[op], o)
    ensures QueueInv(w.(ops := w.ops[op := o])) && ToldInv(w.(ops := w.ops[op := o]))
  {
  }

  lemma SetKeepsAccepted(w: World, op: nat, o: S.World, soon: set<nat>)
    requires AcceptedIsTold(w, soon) && op in w.ops && Carries(w.ops[op], o)
    requires op in soon || o.reserved == w.ops[op].reserved
    ensures AcceptedIsTold(w.(ops := w.ops[op := o]), soon)
  {
  }

  lemma SetReady(w: World, op: nat, o: S.World, soon: set<nat>)
    requires Ready(w, soon) && op in w.ops && S.Inv(o) && Quiet(o) && Carries(w.ops[op], o) && o.reserved == w.ops[op].reserved
    ensures Ready(w.(ops := w.ops[op := o]), soon)
  {
    SetKeepsLists(w, op, o);
    SetKeepsAccepted(w, op, o, soon);
  }

  lemma SetQuiet(w: World, op: nat, o: S.World)
    requires Inv(w) && op in w.ops && (InFlight(w.phase) ==> op != w.phase.flight.operation)
    requires S.Inv(o) && Quiet(o) && Carries(w.ops[op], o) && o.reserved == w.ops[op].reserved
    ensures Inv(w.(ops := w.ops[op := o]))
  {
    SetKeepsLists(w, op, o);
    if InFlight(w.phase) {
      SetKeepsAccepted(w, op, o, {w.phase.flight.operation});
      assert w.ops[op := o] - {w.phase.flight.operation} == (w.ops - {w.phase.flight.operation})[op := o];
    } else {
      SetKeepsAccepted(w, op, o, {});
    }
  }

  lemma SetInFlight(w: World, o: S.World, p: Phase)
    requires QueueInv(w) && ToldInv(w) && InFlight(p) && OfHead(w, p.flight)
    requires L.AllQuiet(w.ops - {p.flight.operation}) && AcceptedIsTold(w, {p.flight.operation})
    requires S.Inv(o) && Stage(o, p) && Carries(w.ops[p.flight.operation], o)
    ensures Inv(w.(ops := w.ops[p.flight.operation := o], phase := p))
  {
    var op := p.flight.operation;
    SetKeepsLists(w, op, o);
    SetKeepsAccepted(w, op, o, {op});
    assert w.ops[op := o] - {op} == w.ops - {op};
  }

  lemma CreateKeeps(w: World, op: nat, o: S.World)
    requires Inv(w) && op !in w.ops && S.Inv(o) && Quiet(o) && !o.reserved
    ensures Inv(w.(ops := w.ops[op := o]))
  {
    if InFlight(w.phase) {
      assert w.ops[op := o] - {w.phase.flight.operation} == (w.ops - {w.phase.flight.operation})[op := o];
    }
  }

  lemma OpHasInv(w: World, op: nat)
    requires Inv(w) && op in w.ops
    ensures S.Inv(w.ops[op])
    ensures if InFlight(w.phase) && op == w.phase.flight.operation then Stage(w.ops[op], w.phase) else Quiet(w.ops[op])
  {
    if InFlight(w.phase) && op != w.phase.flight.operation { assert op in w.ops - {w.phase.flight.operation}; }
  }

  lemma OtherKeeps(w: World, op: nat, s: S.Step)
    requires Inv(w) && op in w.ops && !OnlyLane(s)
    ensures Inv(w.(ops := L.Act(w.ops, op, s)))
  {
    var o := w.ops[op];
    OpHasInv(w, op);
    StepCarries(o, s);
    if InFlight(w.phase) && op == w.phase.flight.operation {
      StageStays(o, s, w.phase);
      SetInFlight(w, S.Apply(o, s), w.phase);
    } else {
      QuietStays(o, s);
      SetQuiet(w, op, S.Apply(o, s));
    }
  }

  // ---- A write ---------------------------------------------------------------------------------------------------------

  lemma BeginKeeps(w: World)
    requires Inv(w) && Enabled(w, BeginWrite)
    ensures var op := w.queue[0].operation;
            Inv(w.(ops := w.ops[op := Begun(w.ops[op])], phase := Writing(Flight(op, |w.ops[op].gates|, 0, {}))))
  {
    var op := w.queue[0].operation;
    assert w.queue[0] in w.queue;
    assert !Q.HasVerdict(w.told, op);
    BegunIsInTransport(w.ops[op]);
    SetInFlight(w, Begun(w.ops[op]), Writing(Flight(op, |w.ops[op].gates|, 0, {})));
  }

  lemma ClaimKeeps(w: World)
    requires Inv(w) && w.phase.Writing? && Accepted(Written(w), w.phase.flight.gate)
    ensures Inv(w.(ops := L.Act(w.ops, w.phase.flight.operation, S.ClaimReservedFull), phase := Claiming(w.phase.flight)))
  {
    var f := w.phase.flight;
    StepCarries(w.ops[f.operation], S.ClaimReservedFull);
    ClaimWins(w.ops[f.operation], f.gate);
    SetInFlight(w, S.Apply(w.ops[f.operation], S.ClaimReservedFull), Claiming(f));
  }

  // A write that is over leaves the lane ready again; `soon` is its operation, if it was accepted.
  lemma OverIsReady(w: World, o: S.World, soon: set<nat>)
    requires Inv(w) && InFlight(w.phase) && S.Inv(o) && Quiet(o) && Carries(w.ops[w.phase.flight.operation], o)
    requires w.phase.flight.operation in soon || (o.reserved ==> o.strict.Some?)
    ensures Ready(w.(ops := w.ops[w.phase.flight.operation := o]), soon)
  {
    var op := w.phase.flight.operation;
    SetKeepsLists(w, op, o);
    SetKeepsAccepted(w, op, o, {op});
    assert w.ops[op := o] - {op} == w.ops - {op};
    L.WholeIsQuiet(L.World(L.Init(0).lane, w.ops[op := o], Idle), op);
  }

  lemma RefuseKeeps(w: World, r: Refusal, errors: L.Errors)
    requires Inv(w) && InFlight(w.phase) && Quiet(Written(w)) && (Written(w).reserved ==> Written(w).strict.Some?)
    ensures Inv(Refuse(w, r, errors))
  {
    var op := w.phase.flight.operation;
    OverIsReady(w, w.ops[op], {});
    assert w.ops[op := w.ops[op]] == w.ops && w.(ops := w.ops) == w;
    assert w.queue[0] in w.queue;
    if r.strictly { OutKeeps(w, All(w.queue), Q.StrictlyFailed, errors, {}); }
    else if w.sealed { OutKeeps(w, {op}, if r.byCancel then Q.Cancelled else Q.Failed, errors, {}); }
    else { ReplacedKeeps(w, op, r.byCancel); }
  }

  lemma DeliverKeeps(w: World, o: S.World, errors: L.Errors)
    requires Inv(w) && InFlight(w.phase) && S.Inv(o) && Quiet(o) && Carries(w.ops[w.phase.flight.operation], o)
    requires S.Closed(o.record) && o.reserved
    ensures Inv(Deliver(w.(ops := w.ops[w.phase.flight.operation := o]), errors))
  {
    var op := w.phase.flight.operation;
    OverIsReady(w, o, {op});
    assert w.queue[0] in w.queue;
    OutKeeps(w.(ops := w.ops[op := o]), {op}, Q.Succeeded, errors, {op});
  }

  lemma EndKeeps(w: World, r: Refusal, errors: L.Errors)
    requires Inv(w) && w.phase.Writing? && Refused(Written(w), w.phase.flight.gate)
    ensures Inv(Refuse(w, r, errors))
  {
    RefusedIsQuiet(Written(w), w.phase.flight.gate);
    RefuseKeeps(w, r, errors);
  }

  lemma UnclaimedKeeps(w: World, r: Option<Refusal>, errors: L.Errors)
    requires Inv(w) && w.phase.Claiming? && !Written(w).record.ClaimingFull? && !Written(w).record.ClaimedFull?
    ensures Inv(if r.Some? then Refuse(w, r.value, errors) else Deliver(w, errors))
  {
    var op := w.phase.flight.operation;
    var o := w.ops[op];
    assert S.Closed(o.record) && o.strict.Some? && Quiet(o);
    WonIsReserved(o, w.phase.flight.gate);
    if r.Some? { RefuseKeeps(w, r.value, errors); }
    else {
      DeliverKeeps(w, o, errors);
      assert w.ops[op := o] == w.ops && w.(ops := w.ops) == w;
    }
  }

  lemma FinishKeeps(w: World, errors: L.Errors)
    requires Inv(w) && w.phase.Finishing?
    ensures Inv(Deliver(w.(ops := L.Act(w.ops, w.phase.flight.operation, S.FinishSuccess)), errors))
  {
    var o := w.ops[w.phase.flight.operation];
    StepCarries(o, S.FinishSuccess);
    FinishCloses(o, w.phase.flight.gate);
    DeliverKeeps(w, S.Apply(o, S.FinishSuccess), errors);
  }

  lemma LostIsFair(w: World, v: Q.Verdict)
    requires QueueInv(w) && w.queue != [] && w.queue[0].Cleanup?
    ensures Fair(w, [], LostCalls(w.queue, v))
    ensures v != Q.Succeeded ==> forall s :: s in LostCalls(w.queue, v) ==> !s.verdict.Succeeded?
  {
    var head := w.queue[0];
    var rest := Calls(w.queue, All(w.queue) - {head.operation}, v);
    var calls := LostCalls(w.queue, v);
    assert head in w.queue && calls[0] in calls;
    assert forall s :: s in calls <==> s == calls[0] || s in rest;
    forall op | Holds(w.queue, op) ensures Q.HasVerdict(calls, op) {
      if op != head.operation { assert Q.Settled(op, v) in rest; }
    }
    forall s | s in calls ensures Holds(w.queue, s.operation) {}
  }

  lemma LostKeeps(w: World, v: Q.Verdict, errors: L.Errors)
    requires Inv(w) && w.phase.Idle? && w.queue != [] && w.queue[0].Cleanup? && !v.Succeeded?
    ensures Inv(Leave(w, [], LostCalls(w.queue, v), errors))
  {
    LostIsFair(w, v);
    FairKeeps(w, [], LostCalls(w.queue, v), errors);
  }

  // ---- Every step, every run -------------------------------------------------------------------------------------------

  lemma ObserveKeeps(w: World, errors: L.Errors)
    requires Inv(w) && w.phase.Idle?
    ensures Inv(Observed(w, errors))
  {
    if w.sealed {
      OutKeeps(w, CancelledReports(w), Q.Cancelled, errors, {});
    } else {
      var i := FirstOf(w.queue, CancelledReports(w));
      if i < |w.queue| {
        assert w.queue[i] in w.queue;
        ReplacedKeeps(w, w.queue[i].operation, true);
      }
    }
  }

  predicate OfWrite(s: Step) {
    s.BeginWrite? || s.EndRefused? || s.ClaimAccepted? || s.SeeClaimed? || s.SeeUnclaimed? || s.FinishWrite?
  }

  lemma WriteStepKeepsInv(w: World, s: Step)
    requires Inv(w) && Enabled(w, s) && OfWrite(s)
    ensures Inv(Apply(w, s))
  {
    match s
    case BeginWrite => BeginKeeps(w);
    case EndRefused(r, errors) => EndKeeps(w, r, errors);
    case ClaimAccepted => ClaimKeeps(w);
    case SeeClaimed =>
    case SeeUnclaimed(r, errors) => UnclaimedKeeps(w, r, errors);
    case FinishWrite(errors) => FinishKeeps(w, errors);
  }

  lemma LaneStepKeepsInv(w: World, s: Step)
    requires Inv(w) && Enabled(w, s) && !OfWrite(s) && !s.Create? && !s.Other?
    ensures Inv(Apply(w, s))
  {
    match s
    case Seal =>
    case Command(op, admission, errors) => CommandKeeps(w, op, admission, errors);
    case Observe(errors) => ObserveKeeps(w, errors);
    case DropSealed(errors) => OutKeeps(w, OpenReports(w), Q.Cancelled, errors, {});
    case CleanupWritten(errors) => OutKeeps(w, {w.queue[0].operation}, VerdictOf(w.queue[0]), errors, {});
    case CleanupLost(v, errors) => LostKeeps(w, v, errors);
    case Drain(v, errors) => OutKeeps(w, All(w.queue), v, errors, {});
  }

  lemma StepKeepsInv(w: World, s: Step)
    requires Inv(w)
    ensures Inv(Apply(w, s))
  {
    if Enabled(w, s) {
      if OfWrite(s) { WriteStepKeepsInv(w, s); }
      else if s.Create? { CreateKeeps(w, s.operation, S.Init(s.owner, s.transfer)); }
      else if s.Other? { OtherKeeps(w, s.operation, s.step); }
      else { LaneStepKeepsInv(w, s); }
    }
  }

  lemma {:induction false} RunKeepsInv(w: World, steps: seq<Step>)
    requires Inv(w)
    ensures Inv(Run(w, steps))
    decreases |steps|
  {
    if |steps| > 0 {
      StepKeepsInv(w, steps[0]);
      RunKeepsInv(Apply(w, steps[0]), steps[1..]);
    }
  }

  ghost predicate Reachable(w: World) {
    exists steps: seq<Step> :: w == Run(Init(), steps)
  }

  lemma ReachableHasInv(w: World)
    requires Reachable(w)
    ensures Inv(w)
  {
    var steps: seq<Step> :| w == Run(Init(), steps);
    RunKeepsInv(Init(), steps);
  }

  // ---- Main results ----------------------------------------------------------------------------------------------------

  // Every action of a lease ends, too: however its generation is sealed and released, its reports taken out of
  // the queue, replaced by cleanups, written, refused or drained, one that is off the lane, with no call of
  // its own under way, has ended; it was told one thing only; and it ended in success if and only if that was
  // success and nobody recorded a strict failure, which is if and only if the device took its report and
  // nobody did.
  lemma LeasedOperationEnds(w: World, op: nat)
    requires Reachable(w) && op in w.given && !Holds(w.queue, op) && op in w.ops && w.ops[op].tasks == []
    ensures w.ops[op].op.state.Ended? && S.Closed(w.ops[op].record)
    ensures exists s :: s in w.told && s.operation == op && forall r :: r in w.told && r.operation == op ==> r == s
    ensures w.ops[op].op.state == O.Ended(O.Succeeded) <==>
              w.ops[op].strict.None? && Q.Settled(op, Q.Succeeded) in w.told
    ensures w.ops[op].op.state == O.Ended(O.Succeeded) <==> w.ops[op].strict.None? && S.SomeGateAccepted(w.ops[op])
  {
    ReachableHasInv(w);
    OpHasInv(w, op);
    if InFlight(w.phase) { assert w.queue[0] in w.queue; }
    var s :| s in w.told && s.operation == op;
    L.ClosedHasEnded(w.ops[op]);
  }

  // With its queue holding only reports of ended operations, and no call under way, everything has ended.
  lemma RestHasEnded(w: World)
    requires Inv(w) && w.phase.Idle? && forall op :: op in w.ops ==> w.ops[op].tasks == []
    requires forall e :: e in w.queue ==> e.operation in w.ops && w.ops[e.operation].op.state.Ended?
    ensures forall op :: op in w.given ==> op in w.ops && w.ops[op].op.state.Ended?
  {
    forall op | op in w.given ensures op in w.ops && w.ops[op].op.state.Ended? {
      OpHasInv(w, op);
      if Holds(w.queue, op) {
        var e :| e in w.queue && e.operation == op;
      } else {
        var s :| s in w.told && s.operation == op;
        L.ClosedHasEnded(w.ops[op]);
      }
    }
  }

  // What the generation looks like then.
  ghost predicate OnlyEndedReports(w: World) {
    forall e :: e in w.queue && e.Report? ==> e.operation in w.ops && w.ops[e.operation].op.state.Ended?
  }

  ghost predicate NothingUnderWay(w: World) {
    (forall op :: op in w.ops ==> w.ops[op].tasks == []) && (forall e :: e in w.queue ==> e.Report?)
  }

  ghost predicate AllEnded(w: World) {
    forall op :: op in w.given ==> op in w.ops && w.ops[op].op.state.Ended?
  }

  lemma DroppedIs(w: World, errors: L.Errors)
    requires w.phase.Idle? && w.sealed
    ensures Apply(w, DropSealed(errors)) == Dropped(w, errors)
  {
  }

  lemma DroppedSettles(w: World, errors: L.Errors)
    requires Inv(w) && w.phase.Idle? && w.sealed
    ensures OnlyEndedReports(Dropped(w, errors))
    ensures NothingUnderWay(Dropped(w, errors)) ==> AllEnded(Dropped(w, errors))
  {
    OutKeeps(w, OpenReports(w), Q.Cancelled, errors, {});
    DroppedAreEnded(w, errors);
    if NothingUnderWay(Dropped(w, errors)) { RestHasEnded(Dropped(w, errors)); }
  }

  // So a release does not wait for ever: once the lane has taken its generation's reports out of the queue,
  // only those of ended operations stay; and with no cleanup left there, and the calls done, every action it
  // was given has ended, which is what the release waits for.
  lemma DroppedGenerationSettles(w: World, errors: L.Errors)
    requires Reachable(w) && w.phase.Idle? && w.sealed
    ensures var w' := Apply(w, DropSealed(errors));
            w'.given == w.given && OnlyEndedReports(w') && (NothingUnderWay(w') ==> AllEnded(w'))
  {
    ReachableHasInv(w);
    DroppedIs(w, errors);
    DroppedSettles(w, errors);
  }

  // The reports that stay in the queue belong to operations that had ended before.
  lemma DroppedAreEnded(w: World, errors: L.Errors)
    requires Inv(w) && w.phase.Idle? && w.sealed
    ensures forall e :: e in Dropped(w, errors).queue && e.Report? ==>
              e.operation in Dropped(w, errors).ops && Dropped(w, errors).ops[e.operation].op.state.Ended?
  {
    var w' := Dropped(w, errors);
    var calls := Calls(w.queue, OpenReports(w), Q.Cancelled);
    forall e | e in w'.queue && e.Report? ensures e.operation in w'.ops && w'.ops[e.operation].op.state.Ended? {
      assert e in w.queue && e.operation !in OpenReports(w);
      UntoldStays(w.ops, calls, errors, e.operation);
    }
  }

  lemma {:induction false} UntoldStays(ops: map<nat, S.World>, calls: seq<Q.Settled>, errors: L.Errors, op: nat)
    requires op in ops && forall s :: s in calls ==> s.operation != op
    ensures op in L.TellAll(ops, calls, errors) && L.TellAll(ops, calls, errors)[op] == ops[op]
  {
    if calls != [] {
      assert calls[0] in calls;
      UntoldStays(L.Tell(ops, calls[0], errors), calls[1..], errors, op);
    }
  }
}
