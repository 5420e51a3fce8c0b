/**
 * The lane and the settlement records of its operations as one machine
 * (crates/easycon-controller/src/session.rs): what `LaneQueue` says it tells an operation becomes the
 * call that `Settlement` says it is, the write that completes an operation's effect takes place
 * between two passes of the lane, in the midst of everybody else's steps, and `Close` drains it.
 */
module LaneSettlement {
  import opened Wrappers
  import opened LaneRecord
  import O = OwnedOperation
  import S = Settlement
  import G = WriteGate
  import R = Report
  import Q = LaneQueue
  import V = LaneVerdicts
  import C = Close

  datatype World = World(lane: V.Tracked, ops: map<nat, S.World>, phase: Phase)

  type Errors = nat -> O.Error

  // `Other` is a step of anybody but the lane: the backend, a canceller, a lease release, or a settling
  // call on its way. `errors` are the failures the lane tells with the step. `CloseLane` is the lane's last
  // step: what the close found in its queues, and what came in while it waited, are `found` and `outside`.
  datatype Step =
    | Create(operation: nat, owner: nat, transfer: Option<nat>)
    | Other(operation: nat, step: S.Step)
    | LaneStep(lane: Q.Step, errors: Errors)
    | BeginWrite(now: nat, cancelled: set<nat>)
    | EndRefused(later: nat, write: Q.Write, errors: Errors)
    | ClaimAccepted
    | SeeClaimed
    | SeeUnclaimed(later: nat, write: Q.Write, errors: Errors)
    | FinishWrite(errors: Errors)
    | CloseLane(found: C.Lane, outside: C.World, errors: Errors)

  function Init(interval: nat): World {
    World(V.Tracked(Q.Init(interval), {}, {}), map[], Idle)
  }

  predicate WritesEffect(l: Q.Lane, now: nat, cancelled: set<nat>) {
    Q.DispatchTurn(l, Q.Turn(now, now, cancelled, Q.Accepted(0))).wrote && V.CompletesEffect(l.pending[0])
  }

  // The cancellations a step of the lane saw were requested.
  predicate Requested(w: World, cancelled: set<nat>) {
    forall op :: op in cancelled ==> op in w.ops && w.ops[op].op.reason.Some?
  }

  // What the lane finds at the operation of a command.
  function Look(o: S.World): Q.Found {
    Q.Found(o.op.reason.Some?, o.op.state.Pending? && o.op.claimed.None?)
  }

  predicate LaneMay(w: World, s: Q.Step) {
    && Q.Enabled(w.lane.w, s)
    && match s
       case DirectCommand(op, _, _, found) => op in w.ops && found == Look(w.ops[op])
       case SequenceCommand(op, _, _, found) => op in w.ops && found == Look(w.ops[op])
       case ActivateWaiting(cancelled, _) => Requested(w, cancelled)
       case ObserveCancelled(cancelled, _) => Requested(w, cancelled)
       case DispatchPass(t) => Requested(w, t.cancelled) && !WritesEffect(w.lane.w.lane, t.now, t.cancelled)
       case _ => true
  }

  // The record of the write in flight.
  function Written(w: World): S.World
    requires InFlight(w.phase)
  {
    if w.phase.flight.operation in w.ops then w.ops[w.phase.flight.operation] else S.Init(0, None)
  }

  // The acceptance time its gate holds.
  function TimeOf(w: World): nat
    requires InFlight(w.phase)
  {
    var o, gate := Written(w), w.phase.flight.gate;
    if gate < |o.gates| && o.gates[gate].acceptedAtNs.Some? then o.gates[gate].acceptedAtNs.value else 0
  }

  function Operations(q: seq<Q.Scheduled>): (ops: seq<nat>)
    ensures |ops| == |q| && forall k :: 0 <= k < |q| ==> ops[k] == q[k].operation
  {
    if q == [] then [] else [q[0].operation] + Operations(q[1..])
  }

  // A close finds the lane's queue as it is, and commands for operations submitted once; those without a
  // record are not the lane's.
  predicate MayClose(w: World, found: C.Lane, outside: C.World) {
    var l := w.lane.w.lane;
    var heard := C.CloseLane(found, outside).heard;
    && found.pending == Operations(l.pending)
    && found.waiting == (if l.waiting.Some? then Some(l.waiting.value.operation) else None)
    && found.connected == l.connected
    && (forall op :: op in found.closeDeferred ==> op !in w.ops)
    && (forall c :: c in heard && c.Reporting? ==> c.operation in w.ops && c.operation !in w.lane.w.admitted)
    && (forall c :: c in heard && c.Requesting? ==> c.operation !in w.ops)
  }

  predicate Enabled(w: World, s: Step) {
    match s
    case Create(op, _, _) => op !in w.ops
    case Other(op, step) => op in w.ops && !OnlyLane(step)
    case LaneStep(step, _) => w.phase.Idle? && LaneMay(w, step)
    case BeginWrite(now, cancelled) =>
      && w.phase.Idle? && Requested(w, cancelled) && WritesEffect(w.lane.w.lane, now, cancelled)
      && w.lane.w.lane.pending[0].operation in w.ops
    case EndRefused(_, write, _) => w.phase.Writing? && Refused(Written(w), w.phase.flight.gate) && write.Refused?
    case ClaimAccepted =>
      w.phase.Writing? && w.phase.flight.operation in w.ops && Accepted(Written(w), w.phase.flight.gate)
    case SeeClaimed => w.phase.Claiming? && Written(w).record.ClaimedFull?
    case SeeUnclaimed(_, write, _) =>
      && w.phase.Claiming? && !Written(w).record.ClaimingFull? && !Written(w).record.ClaimedFull?
      && (write.Accepted? ==> write.at == TimeOf(w))
    case FinishWrite(_) => w.phase.Finishing? && w.phase.flight.operation in w.ops
    case CloseLane(found, outside, _) => w.phase.Idle? && MayClose(w, found, outside)
  }

  function Act(ops: map<nat, S.World>, op: nat, s: S.Step): map<nat, S.World>
    requires op in ops
  {
    ops[op := S.Apply(ops[op], s)]
  }

  // The call behind a verdict; success was claimed and finished before it is told.
  function CallOf(v: Q.Verdict, error: O.Error): (s: S.Step)
    requires !v.Succeeded?
    ensures Settles(s)
  {
    match v
    case Cancelled => S.SettleCancellation
    case Failed => S.SettleFailure(error)
    case StrictlyFailed => S.SettleStrictFailure(error)
  }

  function Tell(ops: map<nat, S.World>, s: Q.Settled, errors: Errors): map<nat, S.World> {
    if s.verdict.Succeeded? || s.operation !in ops then ops
    else Act(ops, s.operation, CallOf(s.verdict, errors(s.operation)))
  }

  function TellAll(ops: map<nat, S.World>, calls: seq<Q.Settled>, errors: Errors): map<nat, S.World> {
    if calls == [] then ops else TellAll(Tell(ops, calls[0], errors), calls[1..], errors)
  }

  // The settling calls of one step of the lane.
  function CallsOf(w: Q.World, s: Q.Step): seq<Q.Settled> {
    var told := Q.Apply(w, s).settled;
    if |w.settled| <= |told| then told[|w.settled|..] else []
  }

  // A command that is neither refused nor cancelled starts its operation.
  function Started(w: World, s: Q.Step): map<nat, S.World> {
    if (s.DirectCommand? || s.SequenceCommand?) && s.operation in w.ops && !w.lane.w.lane.broken && !s.found.cancelled
    then Act(w.ops, s.operation, S.StartOperation) else w.ops
  }

  function Pass(w: World, s: Q.Step, errors: Errors): World {
    World(V.Track(w.lane, s), TellAll(Started(w, s), CallsOf(w.lane.w, s), errors), Idle)
  }

  function TurnOf(f: Flight, later: nat, write: Q.Write): Q.Step {
    Q.DispatchPass(Q.Turn(f.now, later, f.cancelled, write))
  }

  // ---- A write --------------------------------------------------------------------------------------------------

  function TakenOff(w: World, f: Flight): World
    requires f.operation in w.ops
  {
    w.(ops := w.ops[f.operation := Begun(w.ops[f.operation])], phase := Writing(f))
  }

  function Claimed(w: World): World
    requires InFlight(w.phase) && w.phase.flight.operation in w.ops
  {
    w.(ops := Act(w.ops, w.phase.flight.operation, S.ClaimReservedFull), phase := Claiming(w.phase.flight))
  }

  function Finished(w: World): World
    requires InFlight(w.phase) && w.phase.flight.operation in w.ops
  {
    w.(ops := Act(w.ops, w.phase.flight.operation, S.FinishSuccess))
  }

  // ---- The close -------------------------------------------------------------------------------------------------

  function VerdictOf(v: C.Verdict): Q.Verdict {
    if v.Cancellation? then Q.Cancelled else Q.StrictlyFailed
  }

  function ToldAtClose(outside: C.World): Q.Verdict {
    if outside.closes then Q.Cancelled else Q.StrictlyFailed
  }

  // The settling calls of a close on operations with a record.
  function CallsAtClose(settled: seq<C.Settled>, ops: set<nat>): seq<Q.Settled> {
    if settled == [] then []
    else
      var rest := CallsAtClose(settled[1..], ops);
      if settled[0].operation in ops then [Q.Settled(settled[0].operation, VerdictOf(settled[0].verdict))] + rest else rest
  }

  function Told(calls: seq<Q.Settled>): set<nat> {
    set s | s in calls :: s.operation
  }

  // The queue is empty, and every operation heard of in the close was given to the lane.
  function Drained(t: V.Tracked, calls: seq<Q.Settled>): V.Tracked {
    var lane := t.w.lane.(pending := [], waiting := None, owner := None, desired := R.NEUTRAL, connected := false);
    V.Tracked(Q.World(lane, t.w.accepted, t.w.admitted + Told(calls), t.w.settled + calls), t.asked + Told(calls), t.delivered)
  }

  function ClosingCalls(w: World, found: C.Lane, outside: C.World): seq<Q.Settled> {
    CallsAtClose(C.CloseLane(found, outside).settled, w.ops.Keys)
  }

  function Shut(w: World, calls: seq<Q.Settled>, errors: Errors): World {
    World(Drained(w.lane, calls), TellAll(w.ops, calls, errors), Gone)
  }

  function Apply(w: World, s: Step): World {
    if !Enabled(w, s) then w
    else
      match s
      case Create(op, owner, transfer) => w.(ops := w.ops[op := S.Init(owner, transfer)])
      case Other(op, step) => w.(ops := Act(w.ops, op, step))
      case LaneStep(step, errors) => Pass(w, step, errors)
      case BeginWrite(now, cancelled) =>
        var op := w.lane.w.lane.pending[0].operation;
        TakenOff(w, Flight(op, |w.ops[op].gates|, now, cancelled))
      case EndRefused(later, write, errors) => Pass(w, TurnOf(w.phase.flight, later, write), errors)
      case ClaimAccepted => Claimed(w)
      case SeeClaimed => w.(phase := Finishing(w.phase.flight))
      case SeeUnclaimed(later, write, errors) => Pass(w, TurnOf(w.phase.flight, later, write), errors)
      case FinishWrite(errors) =>
        Pass(Finished(w), TurnOf(w.phase.flight, w.phase.flight.now, Q.Accepted(TimeOf(w))), errors)
      case CloseLane(found, outside, errors) => Shut(w, ClosingCalls(w, found, outside), errors)
  }

  function Run(w: World, steps: seq<Step>): World
    decreases |steps|
  {
    if |steps| == 0 then w else Run(Apply(w, steps[0]), steps[1..])
  }

  // ---- The invariant -----------------------------------------------------------------------------------------------

  ghost predicate AllQuiet(ops: map<nat, S.World>) {
    forall op :: op in ops ==> S.Inv(ops[op]) && Quiet(ops[op])
  }

  ghost predicate Carried(ops: map<nat, S.World>, ops': map<nat, S.World>) {
    && ops'.Keys == ops.Keys
    && forall op :: op in ops ==> Carries(ops[op], ops'[op]) && ops'[op].reserved == ops[op].reserved
  }

  // An operation that was told something has let go of its owner, and success follows an acceptance.
  ghost predicate ToldInv(w: World) {
    forall s :: s in w.lane.w.settled ==>
      s.operation in w.ops && S.Closed(w.ops[s.operation].record) && (s.verdict.Succeeded? ==> w.ops[s.operation].reserved)
  }

  // An operation still on the lane was started.
  ghost predicate StartedInv(w: World) {
    forall op :: op in w.lane.w.admitted && op in w.ops ==>
      Q.HasVerdict(w.lane.w.settled, op) || !w.ops[op].op.state.Pending?
  }

  // An acceptance that no strict failure spoiled is told, or is about to be.
  predicate AcceptedIsTold(w: World, soon: set<nat>) {
    forall op :: op in w.ops && w.ops[op].reserved && w.ops[op].strict.None? ==>
      Q.Settled(op, Q.Succeeded) in w.lane.w.settled || op in soon
  }

  ghost predicate LaneInv(w: World) {
    && V.Inv(w.lane) && Q.NothingLost(w.lane.w)
    && (forall op :: op in w.lane.w.admitted ==> op in w.ops)
    && ToldInv(w) && StartedInv(w)
  }

  // The write in flight is that of the head of the queue.
  predicate OfHead(w: World, f: Flight) {
    && WritesEffect(w.lane.w.lane, f.now, f.cancelled) && w.lane.w.lane.pending[0].operation == f.operation
    && f.operation in w.ops
  }

  ghost predicate FlightInv(w: World, f: Flight) {
    OfHead(w, f) && S.Inv(w.ops[f.operation]) && Stage(w.ops[f.operation], w.phase) && AllQuiet(w.ops - {f.operation})
  }

  ghost predicate Inv(w: World) {
    && LaneInv(w)
    && (w.phase.Gone? ==> w.lane.w.lane.pending == [] && w.lane.w.lane.waiting == None)
    && if InFlight(w.phase) then FlightInv(w, w.phase.flight) && AcceptedIsTold(w, {w.phase.flight.operation})
       else AllQuiet(w.ops) && AcceptedIsTold(w, {})
  }

  // ---- Settling calls ------------------------------------------------------------------------------------------------

  lemma TellOne(o: S.World, v: Q.Verdict, error: O.Error)
    requires S.Inv(o) && Quiet(o) && !v.Succeeded?
    ensures var o' := S.Apply(o, CallOf(v, error));
            S.Inv(o') && Quiet(o') && Carries(o, o') && o'.reserved == o.reserved && S.Closed(o'.record)
  {
    StepCarries(o, CallOf(v, error));
    QuietStays(o, CallOf(v, error));
    CallCloses(o, CallOf(v, error));
  }

  lemma SetCarries(ops: map<nat, S.World>, op: nat, o: S.World)
    requires AllQuiet(ops) && op in ops
    requires S.Inv(o) && Quiet(o) && Carries(ops[op], o) && o.reserved == ops[op].reserved
    ensures AllQuiet(ops[op := o]) && Carried(ops, ops[op := o])
  {
  }

  lemma TellCarries(ops: map<nat, S.World>, s: Q.Settled, errors: Errors)
    requires AllQuiet(ops) && s.operation in ops
    ensures AllQuiet(Tell(ops, s, errors)) && Carried(ops, Tell(ops, s, errors))
    ensures !s.verdict.Succeeded? ==> S.Closed(Tell(ops, s, errors)[s.operation].record)
  {
    if !s.verdict.Succeeded? {
      TellOne(ops[s.operation], s.verdict, errors(s.operation));
      SetCarries(ops, s.operation, S.Apply(ops[s.operation], CallOf(s.verdict, errors(s.operation))));
    }
  }

  lemma {:induction false} TellAllCarries(ops: map<nat, S.World>, calls: seq<Q.Settled>, errors: Errors)
    requires AllQuiet(ops) && forall s :: s in calls ==> s.operation in ops
    ensures AllQuiet(TellAll(ops, calls, errors)) && Carried(ops, TellAll(ops, calls, errors))
    ensures forall s :: s in calls && !s.verdict.Succeeded? ==> S.Closed(TellAll(ops, calls, errors)[s.operation].record)
  {
    if calls != [] {
      var ops1 := Tell(ops, calls[0], errors);
      TellCarries(ops, calls[0], errors);
      TellAllCarries(ops1, calls[1..], errors);
      CarriedOn(ops, ops1, TellAll(ops1, calls[1..], errors));
      forall s | s in calls && !s.verdict.Succeeded? ensures S.Closed(TellAll(ops, calls, errors)[s.operation].record) {
        if s == calls[0] { assert Carries(ops1[s.operation], TellAll(ops1, calls[1..], errors)[s.operation]); }
      }
    }
  }

  lemma CarriedOn(a: map<nat, S.World>, b: map<nat, S.World>, c: map<nat, S.World>)
    requires Carried(a, b) && Carried(b, c)
    ensures Carried(a, c)
  {
  }

  lemma CallsAreNew(w: Q.World, s: Q.Step)
    ensures Q.Apply(w, s).settled == w.settled + CallsOf(w, s)
  {
  }

  lemma StartedCarries(w: World, s: Q.Step)
    requires AllQuiet(w.ops)
    ensures AllQuiet(Started(w, s)) && Carried(w.ops, Started(w, s))
  {
    if (s.DirectCommand? || s.SequenceCommand?) && s.operation in w.ops {
      StepCarries(w.ops[s.operation], S.StartOperation);
      QuietStays(w.ops[s.operation], S.StartOperation);
      SetCarries(w.ops, s.operation, S.Apply(w.ops[s.operation], S.StartOperation));
    }
  }

  // ---- A pass of the lane ----------------------------------------------------------------------------------------------

  // A command that settles nothing has started its operation.
  lemma NewOneStarts(w: World, s: Q.Step)
    requires (s.DirectCommand? || s.SequenceCommand?) && Q.Enabled(w.lane.w, s)
    requires s.operation in w.ops && s.found == Look(w.ops[s.operation]) && CallsOf(w.lane.w, s) == []
    ensures s.operation in Started(w, s) && !Started(w, s)[s.operation].op.state.Pending?
  {
  }

  predicate Legal(w: World, s: Q.Step) {
    Q.Enabled(w.lane.w, s) && (s.DirectCommand? || s.SequenceCommand? ==> s.operation in w.ops && s.found == Look(w.ops[s.operation]))
  }

  // What the lane was given with a step.
  function Given(s: Q.Step): set<nat> {
    if s.DirectCommand? || s.SequenceCommand? then {s.operation} else {}
  }

  lemma AdmitsGiven(w: Q.World, s: Q.Step)
    ensures Q.Apply(w, s).admitted <= w.admitted + Given(s)
    ensures Q.Enabled(w, s) ==> Q.Apply(w, s).admitted == w.admitted + Given(s)
  {
  }

  lemma PassKeepsStarted(w: World, s: Q.Step, errors: Errors)
    requires LaneInv(w) && Legal(w, s)
    requires Carried(w.ops, Started(w, s)) && Carried(Started(w, s), Pass(w, s, errors).ops)
    ensures StartedInv(Pass(w, s, errors))
  {
    var w' := Pass(w, s, errors);
    var calls := CallsOf(w.lane.w, s);
    CallsAreNew(w.lane.w, s);
    AdmitsGiven(w.lane.w, s);
    forall op | op in w'.lane.w.admitted && op in w'.ops
      ensures Q.HasVerdict(w'.lane.w.settled, op) || !w'.ops[op].op.state.Pending? {
      if op in w.lane.w.admitted {
        Q.VerdictsStay(w.lane.w.settled, calls, op);
      } else if calls == [] {
        NewOneStarts(w, s);
      } else {
        OneCall(w.lane.w, s);
      }
    }
  }

  lemma OneCall(w: Q.World, s: Q.Step)
    requires Q.Enabled(w, s) && (s.DirectCommand? || s.SequenceCommand?) && CallsOf(w, s) != []
    ensures Q.HasVerdict(Q.Apply(w, s).settled, s.operation)
  {
    CallsAreNew(w, s);
    assert CallsOf(w, s)[0].operation == s.operation && CallsOf(w, s)[0] in Q.Apply(w, s).settled;
  }

  // Whoever is told something by a step of the lane has let go of its owner.
  lemma PassKeepsTold(w: World, t: V.Tracked, calls: seq<Q.Settled>, ops: map<nat, S.World>, delivers: set<nat>)
    requires LaneInv(w) && V.Inv(t) && t.w.settled == w.lane.w.settled + calls && t.delivered == w.lane.delivered + delivers
    requires Carried(w.ops, ops) && forall s :: s in calls ==> s.operation in ops
    requires forall s :: s in calls && !s.verdict.Succeeded? ==> S.Closed(ops[s.operation].record)
    requires forall op :: op in delivers ==> op in w.ops && w.ops[op].reserved && S.Closed(w.ops[op].record)
    ensures ToldInv(World(t, ops, Idle))
  {
    forall s | s in t.w.settled
      ensures s.operation in ops && S.Closed(ops[s.operation].record) && (s.verdict.Succeeded? ==> ops[s.operation].reserved) {
      if s in w.lane.w.settled {
        assert Carries(w.ops[s.operation], ops[s.operation]);
      } else if s.verdict.Succeeded? {
        assert s.operation in t.delivered;
      }
    }
  }

  lemma PassKeepsAccepted(w: World, t: V.Tracked, ops: map<nat, S.World>, delivers: set<nat>)
    requires AcceptedIsTold(w, delivers) && Carried(w.ops, ops)
    requires forall s :: s in w.lane.w.settled ==> s in t.w.settled
    requires forall op :: op in delivers ==> Q.Settled(op, Q.Succeeded) in t.w.settled
    ensures AcceptedIsTold(World(t, ops, Idle), {})
  {
    forall op | op in ops && ops[op].reserved && ops[op].strict.None? ensures Q.Settled(op, Q.Succeeded) in t.w.settled {
      assert Carries(w.ops[op], ops[op]);
    }
  }

  lemma PassCarries(w: World, s: Q.Step, errors: Errors)
    requires LaneInv(w) && AllQuiet(w.ops) && Legal(w, s)
    ensures var ops := Pass(w, s, errors).ops;
            && AllQuiet(ops) && Carried(w.ops, ops)
            && Carried(w.ops, Started(w, s)) && Carried(Started(w, s), ops)
            && (forall c :: c in CallsOf(w.lane.w, s) ==> c.operation in ops)
            && (forall c :: c in CallsOf(w.lane.w, s) && !c.verdict.Succeeded? ==> S.Closed(ops[c.operation].record))
  {
    var calls := CallsOf(w.lane.w, s);
    StartedCarries(w, s);
    CallsAreKnown(w, s);
    TellAllCarries(Started(w, s), calls, errors);
    CarriedOn(w.ops, Started(w, s), TellAll(Started(w, s), calls, errors));
  }

  lemma CallsAreKnown(w: World, s: Q.Step)
    requires LaneInv(w) && Legal(w, s)
    ensures forall c :: c in CallsOf(w.lane.w, s) ==> c.operation in w.ops
  {
    QueueGoesOn(w, s);
    forall c | c in CallsOf(w.lane.w, s) ensures c.operation in w.ops { assert c in V.Track(w.lane, s).w.settled; }
  }

  lemma QueueGoesOn(w: World, s: Q.Step)
    requires LaneInv(w) && Legal(w, s)
    ensures var t := V.Track(w.lane, s);
            && V.Inv(t) && Q.NothingLost(t.w)
            && t.w.settled == w.lane.w.settled + CallsOf(w.lane.w, s)
            && t.delivered == w.lane.delivered + V.Delivers(w.lane.w, s)
            && (forall op :: op in t.w.admitted ==> op in w.ops)
            && (forall op :: op in t.delivered ==> Q.Settled(op, Q.Succeeded) in t.w.settled)
  {
    V.StepKeepsInv(w.lane, s);
    Q.StepLosesNothing(w.lane.w, s);
    CallsAreNew(w.lane.w, s);
    AdmitsGiven(w.lane.w, s);
  }

  lemma PassKeepsLane(w: World, s: Q.Step, errors: Errors)
    requires LaneInv(w) && AllQuiet(w.ops) && Legal(w, s)
    requires forall op :: op in V.Delivers(w.lane.w, s) ==> op in w.ops && w.ops[op].reserved && S.Closed(w.ops[op].record)
    ensures LaneInv(Pass(w, s, errors))
  {
    QueueGoesOn(w, s);
    PassCarries(w, s, errors);
    PassKeepsStarted(w, s, errors);
    PassKeepsTold(w, V.Track(w.lane, s), CallsOf(w.lane.w, s), Pass(w, s, errors).ops, V.Delivers(w.lane.w, s));
  }

  lemma PassAccepts(w: World, s: Q.Step, errors: Errors)
    requires LaneInv(w) && AllQuiet(w.ops) && Legal(w, s) && AcceptedIsTold(w, V.Delivers(w.lane.w, s))
    ensures AcceptedIsTold(Pass(w, s, errors), {})
  {
    QueueGoesOn(w, s);
    PassCarries(w, s, errors);
    DeliveredIsTold(w, s);
    PassKeepsAccepted(w, V.Track(w.lane, s), Pass(w, s, errors).ops, V.Delivers(w.lane.w, s));
  }

  lemma DeliveredIsTold(w: World, s: Q.Step)
    requires LaneInv(w) && Legal(w, s)
    ensures forall op :: op in V.Delivers(w.lane.w, s) ==> Q.Settled(op, Q.Succeeded) in V.Track(w.lane, s).w.settled
    ensures forall v :: v in w.lane.w.settled ==> v in V.Track(w.lane, s).w.settled
  {
    QueueGoesOn(w, s);
  }

  // A step of the lane with no write in flight, or at the end of one.
  lemma PassKeeps(w: World, s: Q.Step, errors: Errors)
    requires LaneInv(w) && AllQuiet(w.ops) && Legal(w, s)
    requires forall op :: op in V.Delivers(w.lane.w, s) ==> op in w.ops && w.ops[op].reserved && S.Closed(w.ops[op].record)
    requires AcceptedIsTold(w, V.Delivers(w.lane.w, s))
    ensures Inv(Pass(w, s, errors))
  {
    PassKeepsLane(w, s, errors);
    PassCarries(w, s, errors);
    PassAccepts(w, s, errors);
  }

  // ---- A change of one operation ---------------------------------------------------------------------------------------

  lemma SetKeepsLane(w: World, op: nat, o: S.World)
    requires LaneInv(w) && op in w.ops && Carries(w.ops[op], o)
    ensures LaneInv(w.(ops := w.ops[op := o]))
  {
  }

  lemma SetKeepsTold(w: World, op: nat, o: S.World, soon: set<nat>)
    requires AcceptedIsTold(w, soon) && op in w.ops && Carries(w.ops[op], o)
    requires op in soon || o.reserved == w.ops[op].reserved
    ensures AcceptedIsTold(w.(ops := w.ops[op := o]), soon)
  {
  }

  // One without a write in flight.
  lemma SetQuiet(w: World, op: nat, o: S.World)
    requires Inv(w) && op in w.ops && (InFlight(w.phase) ==> op != w.phase.flight.operation)
    requires S.Inv(o) && Quiet(o) && Carries(w.ops[op], o) && o.reserved == w.ops[op].reserved
    ensures Inv(w.(ops := w.ops[op := o]))
  {
    SetKeepsLane(w, op, o);
    if InFlight(w.phase) {
      SetKeepsTold(w, op, o, {w.phase.flight.operation});
      assert w.ops[op := o] - {w.phase.flight.operation} == (w.ops - {w.phase.flight.operation})[op := o];
    } else {
      SetKeepsTold(w, op, o, {});
    }
  }

  // One whose write is in flight, or takes off.
  lemma SetInFlight(w: World, o: S.World, p: Phase)
    requires LaneInv(w) && InFlight(p) && OfHead(w, p.flight)
    requires AllQuiet(w.ops - {p.flight.operation}) && AcceptedIsTold(w, {p.flight.operation})
    requires S.Inv(o) && Stage(o, p) && Carries(w.ops[p.flight.operation], o)
    ensures Inv(World(w.lane, w.ops[p.flight.operation := o], p))
  {
    var op := p.flight.operation;
    SetKeepsLane(w, op, o);
    SetKeepsTold(w, op, o, {op});
    assert w.ops[op := o] - {op} == w.ops - {op};
  }

  lemma CreateKeepsLane(w: World, op: nat, o: S.World)
    requires LaneInv(w) && op !in w.ops
    ensures LaneInv(w.(ops := w.ops[op := o]))
  {
  }

  lemma CreateKeeps(w: World, op: nat, o: S.World)
    requires Inv(w) && op !in w.ops && S.Inv(o) && Quiet(o) && !o.reserved
    ensures Inv(w.(ops := w.ops[op := o]))
  {
    CreateKeepsLane(w, op, o);
    if InFlight(w.phase) {
      assert w.ops[op := o] - {w.phase.flight.operation} == (w.ops - {w.phase.flight.operation})[op := o];
    }
  }

  lemma OpHasInv(w: World, op: nat)
    requires Inv(w) && op in w.ops
    ensures S.Inv(w.ops[op])
    ensures if InFlight(w.phase) && op == w.phase.flight.operation then Stage(w.ops[op], w.phase) else Quiet(w.ops[op])
  {
    if InFlight(w.phase) && op != w.phase.flight.operation { assert op in w.ops - {w.phase.flight.operation}; }
  }

  // Whatever the others do to one operation.
  lemma OtherKeeps(w: World, op: nat, s: S.Step)
    requires Inv(w) && op in w.ops && !OnlyLane(s)
    ensures Inv(w.(ops := Act(w.ops, op, s)))
  {
    var o := w.ops[op];
    OpHasInv(w, op);
    StepCarries(o, s);
    if InFlight(w.phase) && op == w.phase.flight.operation {
      StageStays(o, s, w.phase);
      SetInFlight(w, S.Apply(o, s), w.phase);
    } else {
      QuietStays(o, s);
      SetQuiet(w, op, S.Apply(o, s));
    }
  }

  // ---- A write from its beginning to its end --------------------------------------------------------------------------

  // The head of the queue was started and has not been told anything.
  lemma HeadIsOpen(w: World)
    requires LaneInv(w) && w.lane.w.lane.pending != []
    ensures var op := w.lane.w.lane.pending[0].operation;
            op in w.ops && !w.ops[op].op.state.Pending? && !Q.HasVerdict(w.lane.w.settled, op)
  {
    var op := w.lane.w.lane.pending[0].operation;
    assert w.lane.w.lane.pending[0] in w.lane.w.lane.pending;
    assert Q.Queued(w.lane.w.lane, op);
  }

  lemma BeginKeeps(w: World, f: Flight)
    requires Inv(w) && w.phase.Idle? && OfHead(w, f) && f.gate == |w.ops[f.operation].gates|
    ensures Inv(TakenOff(w, f))
  {
    HeadIsOpen(w);
    BegunIsInTransport(w.ops[f.operation]);
    SetInFlight(w, Begun(w.ops[f.operation]), Writing(f));
  }

  lemma ClaimKeeps(w: World)
    requires Inv(w) && w.phase.Writing? && Accepted(Written(w), w.phase.flight.gate)
    ensures Inv(Claimed(w))
  {
    var f := w.phase.flight;
    StepCarries(w.ops[f.operation], S.ClaimReservedFull);
    ClaimWins(w.ops[f.operation], f.gate);
    SetInFlight(w, S.Apply(w.ops[f.operation], S.ClaimReservedFull), Claiming(f));
  }

  lemma WholeIsQuiet(w: World, op: nat)
    requires op in w.ops && AllQuiet(w.ops - {op}) && S.Inv(w.ops[op]) && Quiet(w.ops[op])
    ensures AllQuiet(w.ops)
  {
    forall x | x in w.ops ensures S.Inv(w.ops[x]) && Quiet(w.ops[x]) {
      if x != op { assert x in w.ops - {op}; }
    }
  }

  // The pass that ends a write takes up where the pass that began it left off.
  lemma FlightDelivers(w: World, f: Flight, later: nat, write: Q.Write)
    requires OfHead(w, f)
    ensures V.Delivers(w.lane.w, TurnOf(f, later, write)) == if write.Accepted? then {f.operation} else {}
  {
  }

  lemma RefusedKeeps(w: World, later: nat, write: Q.Write, errors: Errors)
    requires Inv(w) && w.phase.Writing? && Refused(Written(w), w.phase.flight.gate) && write.Refused?
    ensures Inv(Pass(w, TurnOf(w.phase.flight, later, write), errors))
  {
    var f := w.phase.flight;
    RefusedIsQuiet(w.ops[f.operation], f.gate);
    WholeIsQuiet(w, f.operation);
    FlightDelivers(w, f, later, write);
    PassKeeps(w, TurnOf(f, later, write), errors);
  }

  lemma UnclaimedKeeps(w: World, later: nat, write: Q.Write, errors: Errors)
    requires Inv(w) && w.phase.Claiming? && !Written(w).record.ClaimingFull? && !Written(w).record.ClaimedFull?
    ensures Inv(Pass(w, TurnOf(w.phase.flight, later, write), errors))
  {
    var f := w.phase.flight;
    assert S.Closed(w.ops[f.operation].record) && w.ops[f.operation].strict.Some?;
    WonIsReserved(w.ops[f.operation], f.gate);
    WholeIsQuiet(w, f.operation);
    FlightDelivers(w, f, later, write);
    PassKeeps(w, TurnOf(f, later, write), errors);
  }

  // With the claim finished, the flight is over but for the pass that tells it.
  lemma FinishedIsQuiet(w: World, o: S.World)
    requires Inv(w) && w.phase.Finishing? && S.Inv(o) && Quiet(o) && Carries(w.ops[w.phase.flight.operation], o)
    ensures var op := w.phase.flight.operation;
            var w1 := w.(ops := w.ops[op := o]);
            LaneInv(w1) && AllQuiet(w1.ops) && AcceptedIsTold(w1, {op}) && OfHead(w1, w.phase.flight)
  {
    var op := w.phase.flight.operation;
    SetKeepsLane(w, op, o);
    SetKeepsTold(w, op, o, {op});
    assert w.ops[op := o] - {op} == w.ops - {op};
    WholeIsQuiet(w.(ops := w.ops[op := o]), op);
  }

  lemma FinishedIsSettled(w: World)
    requires Inv(w) && w.phase.Finishing?
    ensures var w1 := Finished(w);
            && LaneInv(w1) && AllQuiet(w1.ops) && AcceptedIsTold(w1, {w.phase.flight.operation}) && OfHead(w1, w.phase.flight)
            && w1.ops[w.phase.flight.operation].reserved && S.Closed(w1.ops[w.phase.flight.operation].record)
  {
    var o := w.ops[w.phase.flight.operation];
    StepCarries(o, S.FinishSuccess);
    FinishCloses(o, w.phase.flight.gate);
    FinishedIsQuiet(w, S.Apply(o, S.FinishSuccess));
  }

  lemma FinishKeeps(w: World, at: nat, errors: Errors)
    requires Inv(w) && w.phase.Finishing?
    ensures Inv(Pass(Finished(w), TurnOf(w.phase.flight, w.phase.flight.now, Q.Accepted(at)), errors))
  {
    var f := w.phase.flight;
    FinishedIsSettled(w);
    FlightDelivers(Finished(w), f, f.now, Q.Accepted(at));
    PassKeeps(Finished(w), TurnOf(f, f.now, Q.Accepted(at)), errors);
  }

  lemma LaneStepKeeps(w: World, s: Q.Step, errors: Errors)
    requires Inv(w) && w.phase.Idle? && LaneMay(w, s)
    ensures Inv(Pass(w, s, errors))
  {
    NothingDelivered(w, s);
    PassKeeps(w, s, errors);
  }

  lemma NothingDelivered(w: World, s: Q.Step)
    requires LaneMay(w, s)
    ensures V.Delivers(w.lane.w, s) == {} && Legal(w, s)
  {
  }

  // ---- The close drains the lane -----------------------------------------------------------------------------------------

  lemma {:induction false} CallsAre(settled: seq<C.Settled>, ops: set<nat>, s: Q.Settled)
    ensures s in CallsAtClose(settled, ops) <==>
              s.operation in ops && exists c :: c in settled && c.operation == s.operation && VerdictOf(c.verdict) == s.verdict
  {
    if settled != [] { CallsAre(settled[1..], ops, s); }
  }

  // Whom a close settles, and how.
  ghost predicate Leaves(w: World, found: C.Lane, outside: C.World, op: nat) {
    op in w.ops && (Q.Queued(w.lane.w.lane, op) || C.Reporting(op) in C.CloseLane(found, outside).heard)
  }

  lemma ClosingCallsAre(w: World, found: C.Lane, outside: C.World, s: Q.Settled)
    requires MayClose(w, found, outside)
    ensures s in ClosingCalls(w, found, outside) <==>
              Leaves(w, found, outside, s.operation) && s.verdict == ToldAtClose(outside)
  {
    var r := C.CloseLane(found, outside);
    var v := if outside.closes then C.Cancellation else C.StrictFailure;
    CallsAre(r.settled, w.ops.Keys, s);
    C.CloseDrainsEverything(found, outside, C.Settled(s.operation, v));
    FoundQueued(w, found, outside, s.operation);
    forall c | c in r.settled ensures c.verdict == v { C.CloseDrainsEverything(found, outside, c); }
    if C.Requesting(s.operation) in r.heard { assert s.operation !in w.ops; }
  }

  lemma FoundQueued(w: World, found: C.Lane, outside: C.World, op: nat)
    requires MayClose(w, found, outside)
    ensures Q.Queued(w.lane.w.lane, op) <==> op in found.pending || found.waiting == Some(op)
  {
    var q := w.lane.w.lane.pending;
    if op in found.pending {
      var k :| 0 <= k < |found.pending| && found.pending[k] == op;
      assert q[k] in q && q[k].operation == op;
    }
    if e :| e in q && e.operation == op {
      var k :| 0 <= k < |q| && q[k] == e;
      assert found.pending[k] == op;
    }
  }

  // The verdicts of the close are the first and only ones of their operations.
  lemma DrainedKeepsVerdicts(w: World, calls: seq<Q.Settled>, v: Q.Verdict)
    requires V.Inv(w.lane) && !v.Succeeded?
    requires forall s :: s in calls ==> s.verdict == v && (Q.Queued(w.lane.w.lane, s.operation) || s.operation !in w.lane.w.admitted)
    ensures V.Inv(Drained(w.lane, calls))
  {
    var t := w.lane;
    var t' := Drained(t, calls);
    assert Q.FoldInv(t'.w);
    forall s | s in calls ensures s.operation in Told(calls) && !Q.HasVerdict(t.w.settled, s.operation) {
    }
    forall s, r | s in t'.w.settled && r in t'.w.settled && s.operation == r.operation ensures s.verdict == r.verdict {
      assert s in t.w.settled || s in calls;
      assert r in t.w.settled || r in calls;
    }
  }

  lemma DrainedLosesNothing(w: World, calls: seq<Q.Settled>)
    requires Q.NothingLost(w.lane.w)
    requires forall op :: op in w.lane.w.admitted && Q.Queued(w.lane.w.lane, op) ==> Q.HasVerdict(calls, op)
    ensures forall op :: op in Drained(w.lane, calls).w.admitted ==> Q.HasVerdict(Drained(w.lane, calls).w.settled, op)
  {
    forall op | op in Drained(w.lane, calls).w.admitted ensures Q.HasVerdict(Drained(w.lane, calls).w.settled, op) {
      if op in Told(calls) {
        var s :| s in calls && s.operation == op;
        assert s in Drained(w.lane, calls).w.settled;
      } else {
        assert Q.Accounted(w.lane.w.lane, w.lane.w.settled, op);
      }
      Q.VerdictsStay(w.lane.w.settled, calls, op);
    }
  }

  ghost predicate AllAtClose(w: World, calls: seq<Q.Settled>, v: Q.Verdict) {
    && (forall s :: s in calls ==>
          s.verdict == v && s.operation in w.ops
          && (Q.Queued(w.lane.w.lane, s.operation) || s.operation !in w.lane.w.admitted))
    && (forall op :: op in w.lane.w.admitted && Q.Queued(w.lane.w.lane, op) ==> Q.HasVerdict(calls, op))
  }

  lemma ShutKeepsLane(w: World, calls: seq<Q.Settled>, v: Q.Verdict, errors: Errors)
    requires LaneInv(w) && AllQuiet(w.ops) && !v.Succeeded? && AllAtClose(w, calls, v)
    ensures LaneInv(Shut(w, calls, errors))
  {
    DrainedKeepsVerdicts(w, calls, v);
    DrainedLosesNothing(w, calls);
    TellAllCarries(w.ops, calls, errors);
    PassKeepsTold(w, Drained(w.lane, calls), calls, TellAll(w.ops, calls, errors), {});
  }

  lemma ShutKeeps(w: World, calls: seq<Q.Settled>, v: Q.Verdict, errors: Errors)
    requires Inv(w) && w.phase.Idle? && !v.Succeeded? && AllAtClose(w, calls, v)
    ensures Inv(Shut(w, calls, errors))
  {
    ShutKeepsLane(w, calls, v, errors);
    TellAllCarries(w.ops, calls, errors);
    PassKeepsAccepted(w, Drained(w.lane, calls), TellAll(w.ops, calls, errors), {});
  }

  lemma CallsAreAll(w: World, found: C.Lane, outside: C.World)
    requires MayClose(w, found, outside) && forall op :: op in w.lane.w.admitted ==> op in w.ops
    ensures AllAtClose(w, ClosingCalls(w, found, outside), ToldAtClose(outside))
  {
    var calls := ClosingCalls(w, found, outside);
    var v := ToldAtClose(outside);
    forall s | s in calls
      ensures s.verdict == v && s.operation in w.ops
              && (Q.Queued(w.lane.w.lane, s.operation) || s.operation !in w.lane.w.admitted) {
      ClosingCallsAre(w, found, outside, s);
    }
    forall op | op in w.lane.w.admitted && Q.Queued(w.lane.w.lane, op) ensures Q.HasVerdict(calls, op) {
      ClosingCallsAre(w, found, outside, Q.Settled(op, v));
    }
  }

  lemma CloseKeeps(w: World, found: C.Lane, outside: C.World, errors: Errors)
    requires Inv(w) && w.phase.Idle? && MayClose(w, found, outside)
    ensures Inv(Shut(w, ClosingCalls(w, found, outside), errors))
  {
    CallsAreAll(w, found, outside);
    ShutKeeps(w, ClosingCalls(w, found, outside), ToldAtClose(outside), errors);
  }

  // ---- Every step, every run -------------------------------------------------------------------------------------------

  predicate OfWrite(s: Step) {
    s.BeginWrite? || s.EndRefused? || s.ClaimAccepted? || s.SeeClaimed? || s.SeeUnclaimed? || s.FinishWrite?
  }

  lemma WriteStepKeepsInv(w: World, s: Step)
    requires Inv(w) && Enabled(w, s) && OfWrite(s)
    ensures Inv(Apply(w, s))
  {
    match s
    case BeginWrite(now, cancelled) =>
      var op := w.lane.w.lane.pending[0].operation;
      BeginKeeps(w, Flight(op, |w.ops[op].gates|, now, cancelled));
    case EndRefused(later, write, errors) => RefusedKeeps(w, later, write, errors);
    case ClaimAccepted => ClaimKeeps(w);
    case SeeClaimed => SeeClaimedKeeps(w);
    case SeeUnclaimed(later, write, errors) => UnclaimedKeeps(w, later, write, errors);
    case FinishWrite(errors) => FinishKeeps(w, TimeOf(w), errors);
  }

  lemma SeeClaimedKeeps(w: World)
    requires Inv(w) && w.phase.Claiming? && Written(w).record.ClaimedFull?
    ensures Inv(w.(phase := Finishing(w.phase.flight)))
  {
  }

  lemma StepKeepsInv(w: World, s: Step)
    requires Inv(w)
    ensures Inv(Apply(w, s))
  {
    if Enabled(w, s) {
      if OfWrite(s) {
        WriteStepKeepsInv(w, s);
      } else {
        match s
        case Create(op, owner, transfer) => CreateKeeps(w, op, S.Init(owner, transfer));
        case Other(op, step) => OtherKeeps(w, op, step);
        case LaneStep(step, errors) => LaneStepKeeps(w, step, errors);
        case CloseLane(found, outside, errors) => CloseKeeps(w, found, outside, errors);
      }
    }
  }

  lemma {:induction false} RunKeepsInv(w: World, steps: seq<Step>)
    requires Inv(w)
    ensures Inv(Run(w, steps))
    decreases |steps|
  {
    if |steps| > 0 {
      StepKeepsInv(w, steps[0]);
      RunKeepsInv(Apply(w, steps[0]), steps[1..]);
    }
  }

  ghost predicate Reachable(w: World) {
    exists interval: nat, steps: seq<Step> :: w == Run(Init(interval), steps)
  }

  lemma InitHasInv(interval: nat)
    ensures Inv(Init(interval))
  {
  }

  lemma ReachableHasInv(w: World)
    requires Reachable(w)
    ensures Inv(w)
  {
    var interval: nat, steps: seq<Step> :| w == Run(Init(interval), steps);
    InitHasInv(interval);
    RunKeepsInv(Init(interval), steps);
  }

  // ---- Main results -----------------------------------------------------------------------------------------------------

  // Nothing of this operation is under way: it is off the lane, and no settling call of it is unfinished.
  predicate Through(w: World, op: nat) {
    op in w.lane.w.admitted && !Q.Queued(w.lane.w.lane, op) && op in w.ops && w.ops[op].tasks == []
  }

  lemma ThroughIsTold(w: World, op: nat)
    requires Inv(w) && Through(w, op)
    ensures S.Inv(w.ops[op]) && S.Closed(w.ops[op].record)
    ensures w.ops[op].reserved && w.ops[op].strict.None? ==> Q.Settled(op, Q.Succeeded) in w.lane.w.settled
    ensures Q.Settled(op, Q.Succeeded) in w.lane.w.settled ==> w.ops[op].reserved
  {
    OpHasInv(w, op);
    assert Q.Accounted(w.lane.w.lane, w.lane.w.settled, op);
    if InFlight(w.phase) { assert w.lane.w.lane.pending[0] in w.lane.w.lane.pending; }
  }

  // A record without calls that has let go of its owner belongs to an operation that has ended.
  lemma ClosedHasEnded(o: S.World)
    requires S.Inv(o) && S.Closed(o.record) && o.tasks == []
    ensures o.op.state.Ended?
    ensures o.op.state == O.Ended(O.Succeeded) <==> o.strict.None? && o.reserved
    ensures o.strict.Some? ==> o.op.state == O.Ended(O.Failed(o.strict.value))
    ensures o.reserved <==> S.SomeGateAccepted(o)
  {
    if i :| 0 <= i < |o.gates| && G.IsFullAccepted(o.gates[i]) {
      assert S.GateInv(o.gates[i], o.record.NotDispatched?, o.reserved);
    }
  }

  // Every operation given to the lane ends: whatever commands, cancellations, leases, completions and
  // failures of writes interleave, and through a close at any point of it, one that is off the lane again,
  // with nothing of it under way, has ended, and its owner is spent.
  lemma EveryOperationEnds(w: World, op: nat)
    requires Reachable(w) && Through(w, op)
    ensures w.ops[op].op.state.Ended? && S.Closed(w.ops[op].record)
  {
    ReachableHasInv(w);
    ThroughIsTold(w, op);
    ClosedHasEnded(w.ops[op]);
  }

  // And it ends as it was told: in success if and only if the lane told it success and nobody recorded a
  // strict failure, which is if and only if the device took its report and nobody did; and the strict failure
  // is the result if there is one.
  lemma OperationEndsAsTold(w: World, op: nat)
    requires Reachable(w) && Through(w, op)
    ensures var o := w.ops[op];
            && (o.op.state == O.Ended(O.Succeeded) <==>
                  o.strict.None? && Q.Settled(op, Q.Succeeded) in w.lane.w.settled)
            && (o.op.state == O.Ended(O.Succeeded) <==> o.strict.None? && S.SomeGateAccepted(o))
            && (o.strict.Some? ==> o.op.state == O.Ended(O.Failed(o.strict.value)))
            && (Q.Settled(op, Q.Succeeded) in w.lane.w.settled ==> S.SomeGateAccepted(o))
  {
    ReachableHasInv(w);
    ThroughIsTold(w, op);
    ClosedHasEnded(w.ops[op]);
  }

  lemma {:induction false} GoneStays(w: World, steps: seq<Step>)
    requires w.phase.Gone?
    ensures Run(w, steps).phase.Gone? && Run(w, steps).lane == w.lane
    decreases |steps|
  {
    if |steps| > 0 { GoneStays(Apply(w, steps[0]), steps[1..]); }
  }

  // What a close tells.
  lemma CloseTells(w: World, found: C.Lane, outside: C.World, op: nat)
    requires MayClose(w, found, outside)
    ensures var t := Drained(w.lane, ClosingCalls(w, found, outside));
            && (op in t.w.admitted <==> op in w.lane.w.admitted || Leaves(w, found, outside, op))
            && (forall v :: Q.Settled(op, v) in t.w.settled <==>
                  Q.Settled(op, v) in w.lane.w.settled || (v == ToldAtClose(outside) && Leaves(w, found, outside, op)))
  {
    var calls := ClosingCalls(w, found, outside);
    forall v ensures Q.Settled(op, v) in calls <==> v == ToldAtClose(outside) && Leaves(w, found, outside, op) {
      ClosingCallsAre(w, found, outside, Q.Settled(op, v));
    }
    if op in Told(calls) {
      var s :| s in calls && s.operation == op;
      ClosingCallsAre(w, found, outside, s);
    }
    if Q.Settled(op, ToldAtClose(outside)) in calls {
      assert Q.Settled(op, ToldAtClose(outside)).operation in Told(calls);
    }
  }

  lemma {:induction false} ShutForGood(w: World, after: seq<Step>, op: nat)
    requires Inv(w) && w.phase.Gone?
    ensures var w' := Run(w, after);
            && w'.lane == w.lane
            && (op in w.lane.w.admitted ==> op in w'.ops && (w'.ops[op].tasks == [] ==> w'.ops[op].op.state.Ended?))
  {
    RunKeepsInv(w, after);
    GoneStays(w, after);
    GoneHasEnded(Run(w, after), op);
  }

  // With the lane gone, an operation it was given has only its own calls left.
  lemma GoneHasEnded(w: World, op: nat)
    requires Inv(w) && w.phase.Gone?
    ensures op in w.lane.w.admitted ==> op in w.ops && (w.ops[op].tasks == [] ==> w.ops[op].op.state.Ended?)
  {
    if op in w.lane.w.admitted && w.ops[op].tasks == [] {
      ThroughIsTold(w, op);
      ClosedHasEnded(w.ops[op]);
    }
  }

  lemma CloseIsShut(w: World, found: C.Lane, outside: C.World, errors: Errors)
    requires w.phase.Idle? && MayClose(w, found, outside)
    ensures Apply(w, CloseLane(found, outside, errors)) == Shut(w, ClosingCalls(w, found, outside), errors)
  {
  }

  lemma {:induction false} ShutKeepsAll(w: World, found: C.Lane, outside: C.World, errors: Errors, after: seq<Step>, op: nat)
    requires Reachable(w) && w.phase.Idle? && MayClose(w, found, outside)
    ensures var shut := Shut(w, ClosingCalls(w, found, outside), errors);
            var w' := Run(shut, after);
            && w'.lane == shut.lane
            && (op in shut.lane.w.admitted ==> op in w'.ops && (w'.ops[op].tasks == [] ==> w'.ops[op].op.state.Ended?))
  {
    ReachableHasInv(w);
    CloseKeeps(w, found, outside, errors);
    ShutForGood(Shut(w, ClosingCalls(w, found, outside), errors), after, op);
  }

  // Close at any point of any run: whatever was on the lane, and every report heard of on the way out, is told
  // one verdict by it, and nothing else is; and from then on each operation the lane was ever given has ended
  // as soon as its own calls are done.
  lemma {:induction false} CloseEndsEverything(w: World, found: C.Lane, outside: C.World, errors: Errors, after: seq<Step>, op: nat)
    requires Reachable(w) && w.phase.Idle? && MayClose(w, found, outside)
    ensures var w' := Run(Apply(w, CloseLane(found, outside, errors)), after);
            && (op in w'.lane.w.admitted <==> op in w.lane.w.admitted || Leaves(w, found, outside, op))
            && (forall v :: Q.Settled(op, v) in w'.lane.w.settled <==>
                  Q.Settled(op, v) in w.lane.w.settled || (v == ToldAtClose(outside) && Leaves(w, found, outside, op)))
            && (op in w'.lane.w.admitted ==> op in w'.ops && (w'.ops[op].tasks == [] ==> w'.ops[op].op.state.Ended?))
  {
    CloseIsShut(w, found, outside, errors);
    ShutKeepsAll(w, found, outside, errors, after, op);
    CloseTells(w, found, outside, op);
  }
}
