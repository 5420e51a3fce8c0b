/**
 * The operation and its settlement record as the mutable objects they are, each method the whole
 * call with nobody interleaved. What it leaves behind is what the step machine of `Settlement`
 * reaches by taking the call's steps one after another.
 */
module SettlementObjects {
  import opened Wrappers
  import opened OwnedOperation
  import S = Settlement
  import A = TerminalArbiter
  import G = WriteGate

  class OperationObject {
    var state: State
    var reason: Option<Reason>
    const arbiter: A.TerminalArbiterState
    var claimed: Option<Transaction>

    ghost function View(): Operation
      reads this, arbiter
    {
      Operation(state, reason, arbiter.View(), claimed)
    }

    constructor (owner: nat, transfer: Option<nat>)
      ensures View() == New(owner, transfer) && fresh(arbiter)
    {
      state, reason, claimed := Pending, None, None;
      arbiter := new A.TerminalArbiterState(owner, transfer);
    }

    method StartRunning() returns (applied: bool)
      modifies this
      ensures View() == Start(old(View()))
      ensures applied == (old(state) == Pending && old(claimed).None?)
    {
      if state.Ended? || claimed.Some? { return false; }
      if !state.Pending? { return false; }
      state := Running;
      return true;
    }

    method Cancel(why: Reason) returns (applied: bool)
      modifies this
      ensures View() == RequestCancel(old(View()), why)
      ensures applied == (!old(state).Ended? && old(reason).None?)
    {
      if state.Ended? || reason.Some? { return false; }
      reason := Some(why);
      return true;
    }

    method ClaimOwned(owner: nat, evidence: A.Evidence, candidate: Candidate) returns (result: ClaimOutcome)
      modifies this, arbiter
      ensures result == ClaimResult(old(View()), owner, evidence, candidate)
      ensures View() ==
              var next := Claim(old(View()), owner, evidence, candidate);
              if result.Claimed? && old(claimed).None? && candidate.TryCancellation? then PublishCancelling(next) else next
    {
      if state.Ended? { return Closed; }
      if claimed.Some? {
        var held := claimed.value;
        if held.status == Abandoned {
          if held.owner == owner && held.evidence == evidence && held.candidate == candidate {
            claimed := Some(held.(status := Held));
            return Claimed;
          }
          return Rejected;
        }
        return Observe;
      }
      var primary: Result;
      match candidate {
        case TrySuccess =>
          if !state.Running? { return Rejected; }
          primary := Succeeded;
        case TryFailure(error) =>
          if !state.Pending? && !state.Running? { return Rejected; }
          primary := Failed(error);
        case TryCancellation =>
          if (!state.Pending? && !state.Running?) || reason.None? { return Rejected; }
          primary := Cancelled(reason.value);
      }
      var claim := arbiter.ClaimWinner(owner, evidence, WinnerOf(primary));
      match claim {
        case Claimed =>
        case Observe => return Observe;
        case RejectedOwner => return Rejected;
        case RejectedEvidence => return Rejected;
      }
      claimed := Some(Transaction(owner, evidence, candidate, primary, Held));
      if primary.Cancelled? {
        state := Cancelling;
      }
      return Claimed;
    }

    // `OperationSettlementClaim::finish`: the first section, the cleanup, the commit.
    method FinishClaim(ghost record: S.Record, owner: nat, domain: Option<Error>)
      requires owner == arbiter.primaryOwner
      modifies this, arbiter
      ensures View() == S.Finish(old(View()), record, S.ClaimHeld(domain)).op
    {
      ghost var before := View();
      if state.Ended? || claimed.None? { return; }
      if claimed.value.owner != owner || claimed.value.status != Held { return; }
      claimed := Some(claimed.value.(status := Finishing));
      assert S.Finish(View(), record, S.ClaimFinishing(domain)).op == CommitFinish(View(), owner, domain);
      var primary := claimed.value.primary;
      var _ := arbiter.CommitWinner(owner, WinnerOf(primary));
      state := Ended(if domain.Some? then Failed(domain.value) else primary);
    }

    // A claim that is dropped unfinished can be taken up again by the same owner.
    method AbandonClaim(owner: nat)
      modifies this
      ensures View() == Abandon(old(View()), owner)
    {
      if state.Ended? || claimed.None? { return; }
      if claimed.value.owner != owner || claimed.value.status != Held { return; }
      claimed := Some(claimed.value.(status := Abandoned));
    }
  }

  // What an uninterrupted call that took `task` out of a record leaves behind.
  ghost function After(op: Operation, taken: S.Taken): S.Advanced {
    if taken.task.Some? then S.Finish(op, taken.record, taken.task.value) else S.Advanced(op, taken.record, None)
  }

  // The steps of an owner's cancellation, one by one: ask, claim, publish, and finish what was claimed.
  lemma {:induction false} CancellationGoes(op: Operation, record: S.Record)
    ensures var requested, owner := RequestCancel(op, ParentClose), op.arbiter.primaryOwner;
            S.Finish(op, record, S.OwnerCancel).op ==
              if !ClaimResult(requested, owner, A.NotDelivered, TryCancellation).Claimed? then requested
              else S.Finish(Requested(requested), record, S.ClaimHeld(None)).op
  {
    var requested, owner := RequestCancel(op, ParentClose), op.arbiter.primaryOwner;
    assert S.Finish(op, record, S.OwnerCancel) == S.Finish(requested, record, S.OwnerCancelRequested);
    ClaimGoes(requested, record);
  }

  // What the claim leaves: a new one is published, one taken up again is as it was.
  function Requested(op: Operation): Operation {
    var claimed := Claim(op, op.arbiter.primaryOwner, A.NotDelivered, TryCancellation);
    if op.claimed.None? then PublishCancelling(claimed) else claimed
  }

  lemma {:induction false} ClaimGoes(op: Operation, record: S.Record)
    ensures S.Finish(op, record, S.OwnerCancelRequested).op ==
              if !ClaimResult(op, op.arbiter.primaryOwner, A.NotDelivered, TryCancellation).Claimed? then op
              else S.Finish(Requested(op), record, S.ClaimHeld(None)).op
  {
    var claimed := Claim(op, op.arbiter.primaryOwner, A.NotDelivered, TryCancellation);
    if ClaimResult(op, op.arbiter.primaryOwner, A.NotDelivered, TryCancellation).Claimed? && op.claimed.None? {
      assert S.Finish(op, record, S.OwnerCancelRequested) == S.Finish(claimed, record, S.ClaimPublishing);
      assert S.Finish(claimed, record, S.ClaimPublishing) == S.Finish(PublishCancelling(claimed), record, S.ClaimHeld(None));
    }
  }

  // `settle_owned_cancellation`.
  method SettleOwnedCancellation(op: OperationObject, ghost record: S.Record)
    modifies op, op.arbiter
    ensures op.View() == S.Finish(old(op.View()), record, S.OwnerCancel).op
  {
    CancellationGoes(op.View(), record);
    if op.reason.None? {
      var _ := op.Cancel(ParentClose);
    }
    var outcome := op.ClaimOwned(op.arbiter.primaryOwner, A.NotDelivered, TryCancellation);
    if outcome.Claimed? {
      op.FinishClaim(record, op.arbiter.primaryOwner, None);
    }
  }

  // `settle_owned_failure`: an operation asked to cancel is cancelled instead.
  method SettleOwnedFailure(op: OperationObject, ghost record: S.Record, error: Error)
    modifies op, op.arbiter
    ensures op.View() == S.Finish(old(op.View()), record, S.OwnerFailure(error)).op
  {
    if op.reason.Some? {
      SettleOwnedCancellation(op, record);
      return;
    }
    assert S.Finish(op.View(), record, S.OwnerFailure(error)) == S.Finish(op.View(), record, S.OwnerFailureChecked(error));
    var outcome := op.ClaimOwned(op.arbiter.primaryOwner, A.ExecutionFailed, TryFailure(error));
    if outcome.Claimed? {
      op.FinishClaim(record, op.arbiter.primaryOwner, None);
    }
  }

  // `settle_owned_strict_failure`: cancellation does not take precedence.
  method SettleOwnedStrictFailure(op: OperationObject, ghost record: S.Record, error: Error)
    modifies op, op.arbiter
    ensures op.View() == S.Finish(old(op.View()), record, S.OwnerStrict(error)).op
  {
    var outcome := op.ClaimOwned(op.arbiter.primaryOwner, A.ExecutionFailed, TryFailure(error));
    if outcome.Claimed? {
      op.FinishClaim(record, op.arbiter.primaryOwner, Some(error));
    }
  }

  class OperationSettlementRecord {
    var state: S.Record

    constructor ()
      ensures state == S.NotDispatched
    {
      state := S.NotDispatched;
    }

    method MarkDispatched() returns (dispatched: bool)
      modifies this
      ensures state == S.MarkDispatched(old(state)) && dispatched == old(state).NotDispatched?
    {
      dispatched := state.NotDispatched?;
      if dispatched { state := S.Outstanding; }
    }

    method ReserveGenerationRejection() returns (owner: bool)
      modifies this
      ensures state == S.TakeNotDispatched(old(state), S.OwnerCancel).record && owner == old(state).NotDispatched?
    {
      owner := state.NotDispatched?;
      if owner { state := S.Finished; }
    }

    method ReserveFullAccepted() returns (reserved: bool)
      modifies this
      ensures state == S.ReserveFullAccepted(old(state)) && reserved == old(state).Outstanding?
    {
      reserved := state.Outstanding?;
      if reserved { state := S.FullAcceptedReserved(None); }
    }

    method ClaimReservedFullAccepted(op: OperationObject) returns (claimed: bool)
      modifies this, op, op.arbiter
      ensures var f := After(old(op.View()), S.TakeForFullClaim(old(state)));
              op.View() == f.op && state == f.record
      ensures claimed ==> state.ClaimedFull?
    {
      if !state.FullAcceptedReserved? { return false; }
      state := S.ClaimingFull(state.strict);
      ghost var before := op.View();
      var outcome := op.ClaimOwned(op.arbiter.primaryOwner, A.EffectAccepted, TrySuccess);
      assert S.Finish(before, state, S.OwnerClaimFull) == S.Finish(op.View(), state, S.FullClaimReturned(outcome));
      claimed := CompleteFullClaim(op, outcome);
    }

    // A record that has moved on meanwhile drops the claim it is handed.
    method CompleteFullClaim(op: OperationObject, outcome: ClaimOutcome) returns (claimed: bool)
      modifies this, op, op.arbiter
      ensures var f := S.Finish(old(op.View()), old(state), S.FullClaimReturned(outcome));
              op.View() == f.op && state == f.record
      ensures claimed == (old(state).ClaimingFull? && state.ClaimedFull?)
    {
      if !state.ClaimingFull? {
        if outcome.Claimed? {
          op.AbandonClaim(op.arbiter.primaryOwner);
        }
        return false;
      }
      var strict := state.pendingStrict;
      if !outcome.Claimed? {
        state := S.FailedRecord;
        return false;
      }
      if strict.None? {
        state := S.ClaimedFull;
        return true;
      }
      state := S.FailedRecord;
      op.FinishClaim(state, op.arbiter.primaryOwner, strict);
      claimed := false;
    }

    method FinishSuccess(op: OperationObject) returns (finished: bool)
      modifies this, op, op.arbiter
      ensures var f := After(old(op.View()), S.TakeForSuccess(old(state)));
              op.View() == f.op && state == f.record
      ensures finished == old(state).ClaimedFull?
    {
      if !state.ClaimedFull? { return false; }
      state := S.Finished;
      op.FinishClaim(state, op.arbiter.primaryOwner, None);
      finished := true;
    }

    // A lane that died after physical acceptance is finished by the thread that joined it.
    method FinishClaimedAfterLaneJoin(op: OperationObject) returns (finished: bool)
      modifies this, op, op.arbiter
      ensures var claim := After(old(op.View()), S.TakeForFullClaim(old(state)));
              var f := After(claim.op, S.TakeForSuccess(claim.record));
              op.View() == f.op && state == f.record
      ensures finished ==> state.Finished?
    {
      if !state.ClaimedFull? {
        var _ := ClaimReservedFullAccepted(op);
      }
      finished := FinishSuccess(op);
    }

    method SettleCancellation(op: OperationObject)
      modifies this, op, op.arbiter
      ensures var t := S.TakeForCancellation(old(state));
              state == t.record && op.View() == After(old(op.View()), t).op
    {
      if state.NotDispatched? || state.Outstanding? {
        state := S.Finished;
        SettleOwnedCancellation(op, state);
      }
    }

    method SettleNotDispatchedCancellation(op: OperationObject)
      modifies this, op, op.arbiter
      ensures var t := S.TakeNotDispatched(old(state), S.OwnerCancel);
              state == t.record && op.View() == After(old(op.View()), t).op
    {
      if state.NotDispatched? {
        state := S.Finished;
        SettleOwnedCancellation(op, state);
      }
    }

    method SettleFailure(op: OperationObject, error: Error)
      modifies this, op, op.arbiter
      ensures var t := S.TakeForFailure(old(state), error);
              state == t.record && op.View() == After(old(op.View()), t).op
    {
      if state.NotDispatched? || state.Outstanding? {
        state := S.FailedRecord;
        SettleOwnedFailure(op, state, error);
      }
    }

    method SettleStrictFailure(op: OperationObject, error: Error)
      modifies this, op, op.arbiter
      ensures var t := S.TakeForStrict(old(state), error);
              state == t.record && op.View() == After(old(op.View()), t).op
    {
      match state {
        case NotDispatched =>
          state := S.FailedRecord;
          SettleOwnedStrictFailure(op, state, error);
        case Outstanding =>
          state := S.FailedRecord;
          SettleOwnedStrictFailure(op, state, error);
        case FullAcceptedReserved(strict) =>
          state := S.FullAcceptedReserved(if strict.Some? then strict else Some(error));
        case ClaimingFull(strict) =>
          state := S.ClaimingFull(if strict.Some? then strict else Some(error));
        case ClaimedFull =>
          state := S.FailedRecord;
          op.FinishClaim(state, op.arbiter.primaryOwner, Some(error));
        case Finished =>
        case FailedRecord =>
      }
    }
  }

  // `WriteSettlement::mark_dispatched` with the record's reservation installed: the record moves
  // while the gate is locked, so no other thread sees one without the other.
  method DispatchThrough(gate: G.WriteSettlement, record: OperationSettlementRecord) returns (dispatched: bool)
    modifies gate, record
    ensures gate.View() == G.MarkDispatched(old(gate.View()), old(record.state).NotDispatched?)
    ensures record.state == if G.AsksDispatch(old(gate.View())) then S.MarkDispatched(old(record.state)) else old(record.state)
    ensures dispatched == G.Dispatches(old(gate.View()), old(record.state).NotDispatched?)
  {
    var answer := false;
    if gate.phase == G.NotDispatched && gate.dispatchReservation {
      answer := record.MarkDispatched();
    }
    dispatched := gate.Dispatch(answer);
  }

  // `WriteSettlement::reserve_full_acceptance`, likewise.
  method ReserveThrough(gate: G.WriteSettlement, record: OperationSettlementRecord) returns (reserved: bool)
    modifies gate, record
    ensures gate.View() == G.ReserveFullAcceptance(old(gate.View()), old(record.state).Outstanding?)
    ensures record.state == if G.AsksFull(old(gate.View())) then S.ReserveFullAccepted(old(record.state)) else old(record.state)
    ensures reserved == G.Reserves(old(gate.View()), old(record.state).Outstanding?)
  {
    var answer := false;
    if gate.phase == G.Outstanding && gate.fullReservation {
      answer := record.ReserveFullAccepted();
    }
    reserved := gate.Reserve(answer);
  }

  // ---- What the uninterrupted calls leave behind, in the states a run can reach --------------------

  // A reserved acceptance taken over after the lane is gone ends the operation as the physical
  // acceptance says: succeeded, or failed with the strict failure recorded meanwhile.
  lemma {:induction false} JoinTakeoverEnds(owner: nat, transfer: Option<nat>, steps: seq<S.Step>)
    requires var w := S.Run(S.Init(owner, transfer), steps);
             w.tasks == [] && (w.record.FullAcceptedReserved? || w.record.ClaimedFull?)
    ensures var w := S.Run(S.Init(owner, transfer), steps);
            var claim := After(w.op, S.TakeForFullClaim(w.record));
            After(claim.op, S.TakeForSuccess(claim.record)).op.state
              == Ended(if w.strict.Some? then Failed(w.strict.value) else Succeeded)
  {
    S.ReachableHasInv(owner, transfer, steps);
    var w := S.Run(S.Init(owner, transfer), steps);
    var mid := w;
    if w.record.FullAcceptedReserved? {
      var taken := S.Apply(w, S.ClaimReservedFull);
      S.StepKeepsInv(w, S.ClaimReservedFull);
      assert taken.tasks == [S.OwnerClaimFull];
      S.FinishEnds(taken);
      mid := taken.(op := S.Finish(taken.op, taken.record, taken.tasks[0]).op,
                    record := S.Finish(taken.op, taken.record, taken.tasks[0]).record, tasks := []);
      assert S.Inv(mid);
    }
    if mid.record.ClaimedFull? {
      var last := S.Apply(mid, S.FinishSuccess);
      S.StepKeepsInv(mid, S.FinishSuccess);
      assert last.tasks == [S.ClaimHeld(None)];
      S.FinishEnds(last);
    }
  }

  lemma {:induction false} HeldClaimEnds(op: Operation, record: S.Record, primary: Result, domain: Option<Error>)
    requires S.ClaimedAs(op, primary, Held)
    ensures S.Finish(op, record, S.ClaimHeld(domain)).op.state == Ended(if domain.Some? then Failed(domain.value) else primary)
  {
    var begun := BeginFinish(op, op.arbiter.primaryOwner);
    assert S.Finish(op, record, S.ClaimHeld(domain)) == S.Finish(begun, record, S.ClaimFinishing(domain));
  }

  lemma {:induction false} CancellationEnds(op: Operation, record: S.Record)
    requires S.Unclaimed(op)
    ensures S.Finish(op, record, S.OwnerCancel).op.state
         == Ended(Cancelled(if op.reason.Some? then op.reason.value else ParentClose))
  {
    var asked := RequestCancel(op, ParentClose);
    var claimed := Claim(asked, op.arbiter.primaryOwner, A.NotDelivered, TryCancellation);
    var published := PublishCancelling(claimed);
    assert S.Finish(op, record, S.OwnerCancel) == S.Finish(asked, record, S.OwnerCancelRequested);
    assert S.Finish(asked, record, S.OwnerCancelRequested) == S.Finish(claimed, record, S.ClaimPublishing);
    assert S.Finish(claimed, record, S.ClaimPublishing) == S.Finish(published, record, S.ClaimHeld(None));
    HeldClaimEnds(published, record, Cancelled(asked.reason.value), None);
  }

  lemma {:induction false} FailureEnds(op: Operation, record: S.Record, error: Error)
    requires S.Unclaimed(op)
    ensures S.Finish(op, record, S.OwnerFailure(error)).op.state
         == Ended(if op.reason.Some? then Cancelled(op.reason.value) else Failed(error))
  {
    if op.reason.Some? {
      assert S.Finish(op, record, S.OwnerFailure(error)) == S.Finish(op, record, S.OwnerCancel);
      CancellationEnds(op, record);
    } else {
      var claimed := Claim(op, op.arbiter.primaryOwner, A.ExecutionFailed, TryFailure(error));
      assert S.Finish(op, record, S.OwnerFailure(error)) == S.Finish(op, record, S.OwnerFailureChecked(error));
      assert S.Finish(op, record, S.OwnerFailureChecked(error)) == S.Finish(claimed, record, S.ClaimHeld(None));
      HeldClaimEnds(claimed, record, Failed(error), None);
    }
  }

  lemma {:induction false} StrictFailureEnds(op: Operation, record: S.Record, error: Error)
    requires S.Unclaimed(op)
    ensures S.Finish(op, record, S.OwnerStrict(error)).op.state == Ended(Failed(error))
  {
    var claimed := Claim(op, op.arbiter.primaryOwner, A.ExecutionFailed, TryFailure(error));
    assert S.Finish(op, record, S.OwnerStrict(error)) == S.Finish(claimed, record, S.ClaimHeld(Some(error)));
    HeldClaimEnds(claimed, record, Failed(error), Some(error));
  }

  // A settling call on an open operation ends it there and then. A failure loses to a cancellation
  // already asked for; a strict failure does not.
  lemma {:induction false} SettlingCallEnds(owner: nat, transfer: Option<nat>, steps: seq<S.Step>, error: Error)
    requires var w := S.Run(S.Init(owner, transfer), steps);
             w.record.NotDispatched? || w.record.Outstanding?
    ensures var w := S.Run(S.Init(owner, transfer), steps);
            var cancelled := Cancelled(if w.op.reason.Some? then w.op.reason.value else ParentClose);
            && After(w.op, S.TakeForCancellation(w.record)).op.state == Ended(cancelled)
            && After(w.op, S.TakeForFailure(w.record, error)).op.state
                 == Ended(if w.op.reason.Some? then cancelled else Failed(error))
            && After(w.op, S.TakeForStrict(w.record, error)).op.state == Ended(Failed(error))
            && After(w.op, S.TakeNotDispatched(w.record, S.OwnerCancel)).op.state
                 == (if w.record.NotDispatched? then Ended(cancelled) else w.op.state)
            && After(w.op, S.TakeNotDispatched(w.record, S.OwnerStrict(error))).op.state
                 == (if w.record.NotDispatched? then Ended(Failed(error)) else w.op.state)
  {
    S.ReachableHasInv(owner, transfer, steps);
    var w := S.Run(S.Init(owner, transfer), steps);
    CancellationEnds(w.op, S.Finished);
    StrictFailureEnds(w.op, S.Finished, error);
    FailureEnds(w.op, S.FailedRecord, error);
    StrictFailureEnds(w.op, S.FailedRecord, error);
  }
}
