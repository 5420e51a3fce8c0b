/**
 * The settlement record of one report operation, raced by the lane, the backend completion,
 * cancellers, a sealed lease and resource close (crates/easycon-controller/src/session.rs).
 *
 * Every critical section is one step of `World`. A call that takes the settlement owner, or the
 * claim the owner turns into, out of the record keeps it in a `Task` until its next step.
 */
module Settlement {
  import opened Wrappers
  import opened OwnedOperation
  import A = TerminalArbiter
  import G = WriteGate

  datatype Record =
    | NotDispatched
    | Outstanding
    | FullAcceptedReserved(strict: Option<Error>)
    | ClaimingFull(pendingStrict: Option<Error>)
    | ClaimedFull
    | Finished
    | FailedRecord

  // Where a call that holds the owner or its claim stands.
  datatype Task =
    | OwnerClaimFull
    | FullClaimReturned(outcome: ClaimOutcome)
    | OwnerCancel
    | OwnerCancelRequested
    | OwnerFailure(error: Error)
    | OwnerFailureChecked(error: Error)
    | OwnerStrict(error: Error)
    | ClaimPublishing
    | ClaimHeld(domain: Option<Error>)
    | ClaimFinishing(domain: Option<Error>)

  // One step of a call: the operation, the record, and the call's next place, if it has one.
  datatype Advanced = Advanced(op: Operation, record: Record, next: Option<Task>)

  function Advance(op: Operation, record: Record, task: Task): Advanced {
    var owner := op.arbiter.primaryOwner;
    match task
    case OwnerClaimFull =>
      Advanced(Claim(op, owner, A.EffectAccepted, TrySuccess), record,
               Some(FullClaimReturned(ClaimResult(op, owner, A.EffectAccepted, TrySuccess))))
    case FullClaimReturned(outcome) => CompleteFullClaim(op, record, outcome)
    case OwnerCancel => Advanced(RequestCancel(op, ParentClose), record, Some(OwnerCancelRequested))
    case OwnerCancelRequested =>
      Advanced(Claim(op, owner, A.NotDelivered, TryCancellation), record,
               if !ClaimResult(op, owner, A.NotDelivered, TryCancellation).Claimed? then None
               else if op.claimed.None? then Some(ClaimPublishing)
               else Some(ClaimHeld(None)))
    case OwnerFailure(error) =>
      Advanced(op, record, Some(if op.reason.Some? then OwnerCancel else OwnerFailureChecked(error)))
    case OwnerFailureChecked(error) =>
      Advanced(Claim(op, owner, A.ExecutionFailed, TryFailure(error)), record,
               if ClaimResult(op, owner, A.ExecutionFailed, TryFailure(error)).Claimed? then Some(ClaimHeld(None)) else None)
    case OwnerStrict(error) =>
      Advanced(Claim(op, owner, A.ExecutionFailed, TryFailure(error)), record,
               if ClaimResult(op, owner, A.ExecutionFailed, TryFailure(error)).Claimed? then Some(ClaimHeld(Some(error))) else None)
    case ClaimPublishing => Advanced(PublishCancelling(op), record, Some(ClaimHeld(None)))
    case ClaimHeld(domain) =>
      Advanced(BeginFinish(op, owner), record, if CanBeginFinish(op, owner) then Some(ClaimFinishing(domain)) else None)
    case ClaimFinishing(domain) =>
      Advanced(if op.claimed.Some? then CommitFinish(op, owner, domain) else op, record, None)
  }

  function CompleteFullClaim(op: Operation, record: Record, outcome: ClaimOutcome): Advanced {
    if !record.ClaimingFull? then
      Advanced(if outcome.Claimed? then Abandon(op, op.arbiter.primaryOwner) else op, record, None)
    else if !outcome.Claimed? then Advanced(op, FailedRecord, None)
    else if record.pendingStrict.Some? then Advanced(op, FailedRecord, Some(ClaimHeld(record.pendingStrict)))
    else Advanced(op, ClaimedFull, None)
  }

  // How many of its own steps a call still needs.
  function Rank(task: Task): nat {
    match task
    case ClaimFinishing(_) => 1
    case ClaimHeld(_) => 2
    case ClaimPublishing => 3
    case FullClaimReturned(_) => 3
    case OwnerClaimFull => 4
    case OwnerCancelRequested => 4
    case OwnerCancel => 5
    case OwnerFailureChecked(_) => 3
    case OwnerStrict(_) => 3
    case OwnerFailure(_) => 6
  }

  // ---- The critical sections of the record ----------------------------------------------------

  datatype Taken = Taken(record: Record, task: Option<Task>)

  function MarkDispatched(r: Record): Record {
    if r.NotDispatched? then Outstanding else r
  }

  function ReserveFullAccepted(r: Record): Record {
    if r.Outstanding? then FullAcceptedReserved(None) else r
  }

  function TakeForFullClaim(r: Record): Taken {
    if r.FullAcceptedReserved? then Taken(ClaimingFull(r.strict), Some(OwnerClaimFull)) else Taken(r, None)
  }

  function TakeForSuccess(r: Record): Taken {
    if r.ClaimedFull? then Taken(Finished, Some(ClaimHeld(None))) else Taken(r, None)
  }

  function TakeForCancellation(r: Record): Taken {
    if r.NotDispatched? || r.Outstanding? then Taken(Finished, Some(OwnerCancel)) else Taken(r, None)
  }

  function TakeNotDispatched(r: Record, next: Task): Taken {
    if r.NotDispatched? then Taken(Finished, Some(next)) else Taken(r, None)
  }

  function TakeForFailure(r: Record, error: Error): Taken {
    if r.NotDispatched? || r.Outstanding? then Taken(FailedRecord, Some(OwnerFailure(error))) else Taken(r, None)
  }

  function TakeForStrict(r: Record, error: Error): Taken {
    match r
    case NotDispatched => Taken(FailedRecord, Some(OwnerStrict(error)))
    case Outstanding => Taken(FailedRecord, Some(OwnerStrict(error)))
    case FullAcceptedReserved(s) => Taken(FullAcceptedReserved(s.Or(Some(error))), None)
    case ClaimingFull(s) => Taken(ClaimingFull(s.Or(Some(error))), None)
    case ClaimedFull => Taken(FailedRecord, Some(ClaimHeld(Some(error))))
    case _ => Taken(r, None)
  }

  predicate Closed(r: Record) {
    r.Finished? || r.FailedRecord?
  }

  // ---- The interleaving -----------------------------------------------------------------------

  /**
   * `reserved` remembers that a gate reserved full acceptance through the record, `strict` the
   * first strict failure the record took or stored, `failures` the errors given to a
   * `settle_failure` that got the owner.
   */
  datatype World = World(
    op: Operation,
    record: Record,
    gates: seq<G.Gate>,
    tasks: seq<Task>,
    reserved: bool,
    strict: Option<Error>,
    failure: Option<Error>)

  datatype Step =
    | StartOperation
    | LaneJoined
    | Cancel(reason: Reason)
    | NewGate
    | GateDispatch(gate: nat)
    | GateReserve(gate: nat)
    | GatePublish(gate: nat, atNs: nat)
    | GateBeginNonFull(gate: nat)
    | GateSettle(gate: nat, outcome: G.Outcome)
    | ClaimReservedFull
    | FinishSuccess
    | SettleCancellation
    | SettleNotDispatchedCancellation
    | RejectGeneration(cleanup: Option<Error>)
    | SettleFailure(error: Error)
    | SettleStrictFailure(error: Error)
    | TaskStep(task: nat)

  function Init(owner: nat, transfer: Option<nat>): World {
    World(New(owner, transfer), NotDispatched, [], [], false, None, None)
  }

  function Take(w: World, t: Taken): World {
    w.(record := t.record, tasks := w.tasks + (if t.task.Some? then [t.task.value] else []))
  }

  function Apply(w: World, s: Step): World {
    match s
    case StartOperation => w.(op := Start(w.op))
    case LaneJoined => w.(op := w.op.(arbiter := A.Join(w.op.arbiter, w.op.arbiter.primaryOwner)))
    case Cancel(reason) => w.(op := RequestCancel(w.op, reason))
    // Every gate of the effect-completing report carries both reservations of this record.
    case NewGate => w.(gates := w.gates + [G.Tracked(true, true, false)])
    case GateDispatch(i) => if i < |w.gates| then DispatchThrough(w, i) else w
    case GateReserve(i) => if i < |w.gates| then ReserveThrough(w, i) else w
    case GatePublish(i, at) => if i < |w.gates| then w.(gates := w.gates[i := G.Publish(w.gates[i], at)]) else w
    case GateBeginNonFull(i) => if i < |w.gates| then w.(gates := w.gates[i := G.BeginNonFull(w.gates[i])]) else w
    case GateSettle(i, o) =>
      if i < |w.gates| && !o.FullAccepted? then w.(gates := w.gates[i := G.SettleNonFull(w.gates[i], o)]) else w
    case ClaimReservedFull => Take(w, TakeForFullClaim(w.record))
    case FinishSuccess => Take(w, TakeForSuccess(w.record))
    case SettleCancellation => Take(w, TakeForCancellation(w.record))
    case SettleNotDispatchedCancellation => Take(w, TakeNotDispatched(w.record, OwnerCancel))
    case RejectGeneration(None) => Take(w, TakeNotDispatched(w.record, OwnerCancel))
    case RejectGeneration(Some(e)) =>
      var taken := TakeNotDispatched(w.record, OwnerStrict(e));
      if taken.task.Some? then Take(w, taken).(strict := Some(e)) else w
    case SettleFailure(e) =>
      var taken := TakeForFailure(w.record, e);
      if taken.task.Some? then Take(w, taken).(failure := Some(e)) else w
    case SettleStrictFailure(e) =>
      if Closed(w.record) then w else Take(w, TakeForStrict(w.record, e)).(strict := w.strict.Or(Some(e)))
    case TaskStep(i) => if i < |w.tasks| then AdvanceTask(w, i) else w
  }

  // The gate and the record move in one step: the reservation runs under the gate lock. The lane
  // dispatches only an operation it has started.
  function DispatchThrough(w: World, i: nat): World
    requires i < |w.gates|
  {
    if w.op.state.Pending? then w
    else
      var answer := w.record.NotDispatched?;
      w.(gates := w.gates[i := G.MarkDispatched(w.gates[i], answer)],
         record := if G.AsksDispatch(w.gates[i]) then MarkDispatched(w.record) else w.record)
  }

  function ReserveThrough(w: World, i: nat): World
    requires i < |w.gates|
  {
    var answer := w.record.Outstanding?;
    var asks := G.AsksFull(w.gates[i]);
    w.(gates := w.gates[i := G.ReserveFullAcceptance(w.gates[i], answer)],
       record := if asks then ReserveFullAccepted(w.record) else w.record,
       reserved := w.reserved || (asks && answer))
  }

  function AdvanceTask(w: World, i: nat): World
    requires i < |w.tasks|
  {
    var a := Advance(w.op, w.record, w.tasks[i]);
    w.(op := a.op, record := a.record,
       tasks := if a.next.Some? then w.tasks[i := a.next.value] else w.tasks[..i] + w.tasks[i + 1..])
  }

  function Run(w: World, steps: seq<Step>): World
    decreases steps
  {
    if steps == [] then w else Run(Apply(w, steps[0]), steps[1..])
  }

  // ---- What every step keeps --------------------------------------------------------------------

  predicate HoldsToken(r: Record) {
    r.NotDispatched? || r.Outstanding? || r.FullAcceptedReserved? || r.ClaimedFull?
  }

  // The owner, or the claim it turned into, is in exactly one place: the record, one call, or spent.
  function Places(w: World): nat {
    |w.tasks| + (if HoldsToken(w.record) then 1 else 0) + (if w.op.state.Ended? then 1 else 0)
  }

  ghost predicate Unclaimed(op: Operation) {
    && (op.state.Pending? || op.state.Running?)
    && op.claimed.None?
    && op.arbiter.winner.None?
    && !op.arbiter.committed
    && op.arbiter.activeOwner == op.arbiter.primaryOwner
  }

  ghost predicate ClaimedAs(op: Operation, primary: Result, status: ClaimStatus) {
    && !op.state.Ended?
    && op.claimed.Some?
    && op.claimed.value.owner == op.arbiter.primaryOwner
    && op.claimed.value.primary == primary
    && op.claimed.value.status == status
    && op.arbiter.winner == Some(WinnerOf(primary))
    && !op.arbiter.committed
    && op.arbiter.activeOwner == op.arbiter.primaryOwner
  }

  ghost predicate Started(op: Operation) {
    !op.state.Pending?
  }

  ghost predicate RecordInv(w: World) {
    match w.record
    case NotDispatched => Unclaimed(w.op) && !w.reserved && w.strict.None? && w.failure.None?
    case Outstanding => Unclaimed(w.op) && Started(w.op) && !w.reserved && w.strict.None? && w.failure.None?
    case FullAcceptedReserved(s) => Unclaimed(w.op) && Started(w.op) && w.reserved && w.strict == s && w.failure.None?
    case ClaimingFull(s) =>
      && w.reserved && w.strict == s && w.failure.None? && |w.tasks| == 1
      && (w.tasks[0].OwnerClaimFull? || w.tasks[0] == FullClaimReturned(Claimed))
    case ClaimedFull => ClaimedAs(w.op, Succeeded, Held) && w.reserved && w.strict.None? && w.failure.None?
    case _ => |w.tasks| == 1 ==> !w.tasks[0].OwnerClaimFull? && !w.tasks[0].FullClaimReturned?
  }

  // What the holder of the owner or claim knows about the operation it is settling.
  ghost predicate TaskInv(w: World, t: Task) {
    match t
    case OwnerClaimFull => Unclaimed(w.op) && Started(w.op)
    case FullClaimReturned(o) => ClaimedAs(w.op, Succeeded, Held)
    case OwnerCancel => Unclaimed(w.op) && !w.reserved && w.strict.None?
    case OwnerCancelRequested => Unclaimed(w.op) && !w.reserved && w.strict.None? && w.op.reason.Some?
    case OwnerFailure(e) => Unclaimed(w.op) && !w.reserved && w.strict.None? && w.failure == Some(e)
    case OwnerFailureChecked(e) => Unclaimed(w.op) && !w.reserved && w.strict.None? && w.failure == Some(e)
    case OwnerStrict(e) => Unclaimed(w.op) && !w.reserved && w.strict == Some(e)
    case ClaimPublishing =>
      !w.reserved && w.strict.None? && w.op.reason.Some? && ClaimedAs(w.op, Cancelled(w.op.reason.value), Held)
    case ClaimHeld(d) => HeldInv(w, d, Held)
    case ClaimFinishing(d) => HeldInv(w, d, Finishing)
  }

  ghost predicate HeldInv(w: World, domain: Option<Error>, status: ClaimStatus) {
    && w.op.claimed.Some?
    && ClaimedAs(w.op, w.op.claimed.value.primary, status)
    && domain == w.strict
    && Explained(w, if domain.Some? then Failed(domain.value) else w.op.claimed.value.primary)
  }

  // The only results an operation may have, read off what happened to its record.
  ghost predicate Explained(w: World, result: Result) {
    if w.strict.Some? then result == Failed(w.strict.value)
    else if w.reserved then result == Succeeded
    else
      || (w.op.reason.Some? && result == Cancelled(w.op.reason.value))
      || (w.failure.Some? && result == Failed(w.failure.value))
  }

  ghost predicate Inv(w: World) {
    && Places(w) == 1
    && RecordInv(w)
    && (|w.tasks| == 1 ==> TaskInv(w, w.tasks[0]))
    && (w.op.state.Ended? ==> Closed(w.record) && Explained(w, w.op.state.result) && w.op.arbiter.committed)
    && (w.op.arbiter.winner == Some(A.Success) ==> w.reserved)
    && GatesInv(w.gates, w.record.NotDispatched?, w.reserved)
  }

  // Whether the backend was ever given this write.
  predicate Entered(g: G.Gate) {
    g.phase !in {G.NotDispatched, G.DispatchRejected}
  }

  // A gate keeps a reservation until it consults it, so it cannot pass a phase without the record.
  ghost predicate GateInv(g: G.Gate, untouched: bool, reserved: bool) {
    && G.WellFormed(g)
    && (g.phase == G.NotDispatched ==> g.dispatchReservation && g.fullReservation)
    && (g.phase == G.Outstanding ==> g.fullReservation)
    && (Entered(g) ==> !untouched)
    && (G.IsFullAccepted(g) ==> reserved)
  }

  // `untouched` says the record was never dispatched. At most one gate is ever entered.
  ghost predicate GatesInv(gates: seq<G.Gate>, untouched: bool, reserved: bool) {
    && (forall i :: 0 <= i < |gates| ==> GateInv(gates[i], untouched, reserved))
    && (reserved ==> exists i :: 0 <= i < |gates| && G.IsFullAccepted(gates[i]))
    && (forall i, j :: 0 <= i < j < |gates| ==> !(Entered(gates[i]) && Entered(gates[j])))
  }

  lemma GateMoved(gates: seq<G.Gate>, i: nat, g: G.Gate, untouched: bool, reserved: bool, untouched': bool,
                  reserved': bool)
    requires i < |gates| && GatesInv(gates, untouched, reserved)
    requires GateInv(g, untouched', reserved')
    requires untouched' ==> untouched
    requires Entered(g) ==> Entered(gates[i]) || untouched
    requires G.IsFullAccepted(gates[i]) ==> G.IsFullAccepted(g)
    requires reserved' <==> reserved || G.IsFullAccepted(g)
    ensures GatesInv(gates[i := g], untouched', reserved')
  {
    var gates' := gates[i := g];
    forall j | 0 <= j < |gates'| ensures GateInv(gates'[j], untouched', reserved') {
      assert GateInv(gates[j], untouched, reserved);
    }
    if G.IsFullAccepted(g) {
      assert G.IsFullAccepted(gates'[i]);
    } else if reserved {
      var j :| 0 <= j < |gates| && G.IsFullAccepted(gates[j]);
      assert G.IsFullAccepted(gates'[j]);
    }
    forall j, k | 0 <= j < k < |gates'| ensures !(Entered(gates'[j]) && Entered(gates'[k])) {
      assert GateInv(gates[j], untouched, reserved) && GateInv(gates[k], untouched, reserved);
    }
  }

  lemma GateAdded(gates: seq<G.Gate>, g: G.Gate, untouched: bool, reserved: bool)
    requires GatesInv(gates, untouched, reserved)
    requires GateInv(g, untouched, reserved) && !Entered(g)
    ensures GatesInv(gates + [g], untouched, reserved)
  {
    if reserved {
      var j :| 0 <= j < |gates| && G.IsFullAccepted(gates[j]);
      assert G.IsFullAccepted((gates + [g])[j]);
    }
  }

  predicate Claims(t: Task) {
    t.OwnerClaimFull? || t.FullClaimReturned?
  }

  predicate Finishes(t: Task) {
    t.ClaimPublishing? || t.ClaimHeld? || t.ClaimFinishing?
  }

  lemma OneTask(w: World)
    requires Inv(w) && w.tasks != []
    ensures |w.tasks| == 1 && TaskInv(w, w.tasks[0])
    ensures var a := Advance(w.op, w.record, w.tasks[0]);
            && AdvanceTask(w, 0).tasks == (if a.next.Some? then [a.next.value] else [])
            && AdvanceTask(w, 0) == w.(op := a.op, record := a.record, tasks := if a.next.Some? then [a.next.value] else [])
  {
  }

  // The claim for success, on its way to the arbiter and back to the record.
  lemma ClaimStepKeepsInv(w: World)
    requires Inv(w) && w.tasks != [] && Claims(w.tasks[0])
    ensures Inv(AdvanceTask(w, 0))
  {
    OneTask(w);
  }

  // The claim held by a call, on its way to the commit.
  lemma FinishStepKeepsInv(w: World)
    requires Inv(w) && w.tasks != [] && Finishes(w.tasks[0])
    ensures Inv(AdvanceTask(w, 0))
  {
    OneTask(w);
  }

  // The owner held by a call, on its way to a claim.
  lemma OwnerStepKeepsInv(w: World)
    requires Inv(w) && w.tasks != [] && !Claims(w.tasks[0]) && !Finishes(w.tasks[0])
    ensures Inv(AdvanceTask(w, 0))
  {
    OneTask(w);
  }

  lemma TaskStepKeepsInv(w: World, i: nat)
    requires Inv(w) && i < |w.tasks|
    ensures Inv(AdvanceTask(w, i))
  {
    OneTask(w);
    if Claims(w.tasks[0]) { ClaimStepKeepsInv(w); }
    else if Finishes(w.tasks[0]) { FinishStepKeepsInv(w); }
    else { OwnerStepKeepsInv(w); }
  }

  predicate IsGateStep(s: Step) {
    s.NewGate? || s.GateDispatch? || s.GateReserve? || s.GatePublish? || s.GateBeginNonFull? || s.GateSettle?
  }

  // A step that leaves all but the gates as it is.
  lemma OnlyGatesMove(w: World, gates: seq<G.Gate>)
    requires Inv(w) && GatesInv(gates, w.record.NotDispatched?, w.reserved)
    ensures Inv(w.(gates := gates))
  {
    var w' := w.(gates := gates);
    assert RecordInv(w');
    if |w.tasks| == 1 { assert TaskInv(w', w'.tasks[0]); }
  }

  lemma DispatchKeepsInv(w: World, i: nat)
    requires Inv(w) && i < |w.gates|
    ensures Inv(DispatchThrough(w, i))
  {
    var w' := DispatchThrough(w, i);
    if w' != w {
      assert GateInv(w.gates[i], w.record.NotDispatched?, w.reserved);
      GateMoved(w.gates, i, w'.gates[i], w.record.NotDispatched?, w.reserved, w'.record.NotDispatched?, w'.reserved);
      assert w'.gates == w.gates[i := w'.gates[i]];
    }
  }

  lemma ReserveKeepsInv(w: World, i: nat)
    requires Inv(w) && i < |w.gates|
    ensures Inv(ReserveThrough(w, i))
  {
    var w' := ReserveThrough(w, i);
    assert GateInv(w.gates[i], w.record.NotDispatched?, w.reserved);
    GateMoved(w.gates, i, w'.gates[i], w.record.NotDispatched?, w.reserved, w'.record.NotDispatched?, w'.reserved);
    assert w'.gates == w.gates[i := w'.gates[i]];
  }

  lemma GateStepKeepsInv(w: World, s: Step)
    requires Inv(w) && IsGateStep(s)
    ensures Inv(Apply(w, s))
  {
    if s.NewGate? {
      GateAdded(w.gates, G.Tracked(true, true, false), w.record.NotDispatched?, w.reserved);
      OnlyGatesMove(w, w.gates + [G.Tracked(true, true, false)]);
    } else if s.gate < |w.gates| {
      if s.GateDispatch? {
        DispatchKeepsInv(w, s.gate);
      } else if s.GateReserve? {
        ReserveKeepsInv(w, s.gate);
      } else {
        SettleGateKeepsInv(w, s);
      }
    }
  }

  // The steps of a gate no record hears of.
  lemma SettleGateKeepsInv(w: World, s: Step)
    requires Inv(w) && (s.GatePublish? || s.GateBeginNonFull? || s.GateSettle?) && s.gate < |w.gates|
    ensures Inv(Apply(w, s))
  {
    var w' := Apply(w, s);
    if w' != w {
      assert GateInv(w.gates[s.gate], w.record.NotDispatched?, w.reserved);
      GateMoved(w.gates, s.gate, w'.gates[s.gate], w.record.NotDispatched?, w.reserved, w.record.NotDispatched?, w.reserved);
      OnlyGatesMove(w, w.gates[s.gate := w'.gates[s.gate]]);
    }
  }

  // The steps of the operation that settle nothing.
  lemma OperationStepKeepsInv(w: World, s: Step)
    requires Inv(w) && (s.StartOperation? || s.LaneJoined? || s.Cancel?)
    ensures Inv(Apply(w, s))
  {
    var w' := Apply(w, s);
    assert w'.gates == w.gates && w'.record == w.record && w'.tasks == w.tasks;
  }

  predicate TakesOpen(s: Step) {
    s.SettleCancellation? || s.SettleNotDispatchedCancellation? || s.RejectGeneration? || s.SettleFailure?
  }

  // The calls that take the owner from an open record only.
  lemma OpenStepKeepsInv(w: World, s: Step)
    requires Inv(w) && TakesOpen(s)
    ensures Inv(Apply(w, s))
  {
    if Apply(w, s) != w { assert w.tasks == [] && Apply(w, s).gates == w.gates; }
  }

  lemma AcceptedStepKeepsInv(w: World, s: Step)
    requires Inv(w) && (s.ClaimReservedFull? || s.FinishSuccess?)
    ensures Inv(Apply(w, s))
  {
    if Apply(w, s) != w { assert w.tasks == [] && Apply(w, s).gates == w.gates; }
  }

  lemma StrictStepKeepsInv(w: World, error: Error)
    requires Inv(w)
    ensures Inv(Apply(w, SettleStrictFailure(error)))
  {
    var w' := Apply(w, SettleStrictFailure(error));
    assert w'.gates == w.gates;
    if w.record.ClaimingFull? { assert w'.tasks == w.tasks; } else if !Closed(w.record) { assert w.tasks == []; }
  }

  lemma RecordStepKeepsInv(w: World, s: Step)
    requires Inv(w) && !IsGateStep(s) && !s.TaskStep?
    ensures Inv(Apply(w, s))
  {
    match s
    case SettleStrictFailure(e) => StrictStepKeepsInv(w, e);
    case ClaimReservedFull => AcceptedStepKeepsInv(w, s);
    case FinishSuccess => AcceptedStepKeepsInv(w, s);
    case StartOperation => OperationStepKeepsInv(w, s);
    case LaneJoined => OperationStepKeepsInv(w, s);
    case Cancel(_) => OperationStepKeepsInv(w, s);
    case _ => OpenStepKeepsInv(w, s);
  }

  lemma StepKeepsInv(w: World, s: Step)
    requires Inv(w)
    ensures Inv(Apply(w, s))
  {
    if s.TaskStep? {
      if s.task < |w.tasks| { TaskStepKeepsInv(w, s.task); }
    } else if IsGateStep(s) {
      GateStepKeepsInv(w, s);
    } else {
      RecordStepKeepsInv(w, s);
    }
  }

  lemma {:induction false} RunKeepsInv(w: World, steps: seq<Step>)
    requires Inv(w)
    ensures Inv(Run(w, steps))
    decreases steps
  {
    if steps != [] {
      StepKeepsInv(w, steps[0]);
      RunKeepsInv(Apply(w, steps[0]), steps[1..]);
    }
  }

  lemma InitHasInv(owner: nat, transfer: Option<nat>)
    ensures Inv(Init(owner, transfer))
  {
  }

  lemma {:induction false} ReachableHasInv(owner: nat, transfer: Option<nat>, steps: seq<Step>)
    ensures Inv(Run(Init(owner, transfer), steps))
  {
    RunKeepsInv(Init(owner, transfer), steps);
  }

  // ---- Main results -----------------------------------------------------------------------------

  // Owner linearity: over every interleaving the owner, or its claim, is in exactly one place, and
  // the backend is given the effect-completing write at most once.
  lemma {:induction false} OwnerIsLinear(owner: nat, transfer: Option<nat>, steps: seq<Step>)
    ensures var w := Run(Init(owner, transfer), steps);
            && Places(w) == 1
            && forall i, j :: 0 <= i < j < |w.gates| ==> !(Entered(w.gates[i]) && Entered(w.gates[j]))
  {
    ReachableHasInv(owner, transfer, steps);
  }

  ghost predicate SomeGateAccepted(w: World) {
    exists i :: 0 <= i < |w.gates| && G.IsFullAccepted(w.gates[i])
  }

  // The result, the acceptance and the strict failure as a caller sees them.
  ghost predicate ResultStays(w: World, w': World) {
    && (w.reserved ==> w'.reserved)
    && (w.strict.Some? ==> w'.strict == w.strict)
    && (w.op.state.Ended? ==> w'.op.state == w.op.state && w'.strict == w.strict && w'.reserved == w.reserved)
    && (w.op.reason.Some? ==> w'.op.reason == w.op.reason)
  }

  lemma StepKeepsResult(w: World, s: Step)
    requires Inv(w)
    ensures ResultStays(w, Apply(w, s))
  {
    if s.TaskStep? && s.task < |w.tasks| {
      assert |w.tasks| == 1 && s.task == 0;
    }
    if s.GateReserve? && s.gate < |w.gates| {
      assert GateInv(w.gates[s.gate], w.record.NotDispatched?, w.reserved);
    }
  }

  lemma {:induction false} RunKeepsResult(w: World, steps: seq<Step>)
    requires Inv(w)
    ensures ResultStays(w, Run(w, steps))
    decreases steps
  {
    if steps != [] {
      StepKeepsInv(w, steps[0]);
      StepKeepsResult(w, steps[0]);
      RunKeepsResult(Apply(w, steps[0]), steps[1..]);
    }
  }

  // Once some gate holds full acceptance, no later step of anybody can end the operation
  // cancelled: it can only end succeeded, or failed with the first strict failure recorded.
  lemma {:induction false} AcceptedIsNeverCancelled(owner: nat, transfer: Option<nat>, before: seq<Step>,
                                                    after: seq<Step>)
    requires SomeGateAccepted(Run(Init(owner, transfer), before))
    ensures var w := Run(Run(Init(owner, transfer), before), after);
            w.op.state.Ended? ==>
              w.op.state.result == if w.strict.Some? then Failed(w.strict.value) else Succeeded
  {
    ReachableHasInv(owner, transfer, before);
    var mid := Run(Init(owner, transfer), before);
    RunKeepsInv(mid, after);
    RunKeepsResult(mid, after);
  }

  // Success is never claimed, and never committed, without a gate's full acceptance.
  lemma {:induction false} SuccessNeedsAcceptance(owner: nat, transfer: Option<nat>, steps: seq<Step>)
    ensures var w := Run(Init(owner, transfer), steps);
            && (w.op.arbiter.winner == Some(A.Success) ==> SomeGateAccepted(w))
            && (w.op.state == Ended(Succeeded) ==> SomeGateAccepted(w) && w.strict.None?)
  {
    ReachableHasInv(owner, transfer, steps);
  }

  // Exactly how an operation ended, read off what happened to its record.
  lemma {:induction false} EndedResult(owner: nat, transfer: Option<nat>, steps: seq<Step>)
    ensures var w := Run(Init(owner, transfer), steps);
            w.op.state.Ended? ==>
              && w.op.arbiter.committed
              && (w.strict.Some? ==> w.op.state.result == Failed(w.strict.value))
              && (w.strict.None? && SomeGateAccepted(w) ==> w.op.state.result == Succeeded)
              && (w.strict.None? && !SomeGateAccepted(w) ==>
                    || (w.op.reason.Some? && w.op.state.result == Cancelled(w.op.reason.value))
                    || (w.failure.Some? && w.op.state.result == Failed(w.failure.value)))
  {
    ReachableHasInv(owner, transfer, steps);
  }

  // One call's next step: it makes progress, and holds what it needs for it.
  predicate Progresses(w: World, i: nat)
    requires i < |w.tasks|
  {
    var a := Advance(w.op, w.record, w.tasks[i]);
    && (a.next.None? ==> a.op.state.Ended? || a.record.ClaimedFull?)
    && (a.next.Some? ==> Rank(a.next.value) < Rank(w.tasks[i]))
    && (w.tasks[i].ClaimFinishing? ==>
          && w.op.claimed.Some?
          && A.CommitApplies(w.op.arbiter, w.op.arbiter.primaryOwner, WinnerOf(w.op.claimed.value.primary)))
  }

  lemma InvProgresses(w: World, i: nat)
    requires Inv(w) && i < |w.tasks|
    ensures Progresses(w, i)
  {
  }

  // No settlement is dropped on the way: a call that holds the owner always wins its claim, a call
  // that holds the claim always gets to finish it, and the commit it makes always applies.
  lemma {:induction false} NoClaimIsLost(owner: nat, transfer: Option<nat>, steps: seq<Step>)
    ensures var w := Run(Init(owner, transfer), steps); forall i: nat :: i < |w.tasks| ==> Progresses(w, i)
  {
    ReachableHasInv(owner, transfer, steps);
    var w := Run(Init(owner, transfer), steps);
    forall i: nat | i < |w.tasks| ensures Progresses(w, i) { InvProgresses(w, i); }
  }

  // With no call in flight, a record that has let go of its owner belongs to an ended operation,
  // and one that has not belongs to an operation that is still open.
  lemma {:induction false} QuiescentRecordIsSettled(owner: nat, transfer: Option<nat>, steps: seq<Step>)
    ensures var w := Run(Init(owner, transfer), steps);
            w.tasks == [] ==> (Closed(w.record) <==> w.op.state.Ended?)
  {
    ReachableHasInv(owner, transfer, steps);
  }

  // ---- The call that settles, uninterrupted ------------------------------------------------------

  // What a call does from `task` on when nobody else moves.
  function Finish(op: Operation, record: Record, task: Task): Advanced
    decreases Rank(task)
  {
    var a := Advance(op, record, task);
    if a.next.None? then a
    else if Rank(a.next.value) >= Rank(task) then a
    else Finish(a.op, a.record, a.next.value)
  }

  // Uninterrupted, any call that holds the owner or the claim ends the operation, except that a
  // full claim without a strict failure parks the claim in the record.
  lemma {:induction false} FinishEnds(w: World)
    requires Inv(w) && |w.tasks| == 1
    ensures var f := Finish(w.op, w.record, w.tasks[0]);
            && f.next.None?
            && (f.op.state.Ended? || f.record.ClaimedFull?)
            && Inv(w.(op := f.op, record := f.record, tasks := []))
    decreases Rank(w.tasks[0])
  {
    TaskStepKeepsInv(w, 0);
    var a := Advance(w.op, w.record, w.tasks[0]);
    var w' := AdvanceTask(w, 0);
    if a.next.Some? {
      assert w'.tasks == [a.next.value];
      FinishEnds(w');
      assert w'.(op := Finish(w'.op, w'.record, w'.tasks[0]).op,
                 record := Finish(w'.op, w'.record, w'.tasks[0]).record, tasks := [])
          == w.(op := Finish(w.op, w.record, w.tasks[0]).op,
                record := Finish(w.op, w.record, w.tasks[0]).record, tasks := []);
    } else {
      assert w'.tasks == [];
      assert w' == w.(op := a.op, record := a.record, tasks := []);
    }
  }
}
