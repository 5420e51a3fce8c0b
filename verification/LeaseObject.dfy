/**
 * The lease generation as the mutable object it is: what each section of its gate lock does to the
 * gate, and what the calls it makes outside the lock do to the actions.
 */
module LeaseObject {
  import opened Wrappers
  import opened OwnedOperation
  import O = SettlementObjects
  import S = Settlement
  import R = Release

  datatype LeaseAction = LeaseAction(operation: O.OperationObject, settlement: O.OperationSettlementRecord)

  // What submitting an action came to.
  datatype Submission = Submitted(action: LeaseAction) | SubmitError(error: Error)

  // What a resolved admission answers, or still has to do once the gate lock is released.
  datatype Resolution =
    | Admitted(admitted: LeaseAction)
    | NotSubmitted(why: Error)
    | Refused
    | RejectOwner(rejected: LeaseAction)
    | AlreadyDispatched(dispatched: LeaseAction)

  ghost predicate Distinct(actions: seq<LeaseAction>) {
    forall i, j :: 0 <= i < j < |actions| ==>
      && actions[i].operation != actions[j].operation
      && actions[i].operation.arbiter != actions[j].operation.arbiter
      && actions[i].settlement != actions[j].settlement
  }

  ghost function Footprint(actions: seq<LeaseAction>): set<object> {
    (set a | a in actions :: a.operation as object)
    + (set a | a in actions :: a.operation.arbiter as object)
    + (set a | a in actions :: a.settlement as object)
  }

  class LeaseGeneration {
    var record: R.ReleaseRecord?
    var actions: seq<LeaseAction>
    var reservations: nat

    constructor ()
      ensures record == null && actions == [] && reservations == 0
    {
      record, actions, reservations := null, [], 0;
    }

    // `is_sealed`.
    method IsSealed() returns (sealed: bool)
      ensures sealed == (record != null)
    {
      sealed := record != null;
    }

    // The first section of `admit`.
    method BeginAdmission() returns (reserved: bool)
      modifies this`reservations
      ensures reserved == (record == null)
      ensures reservations == old(reservations) + (if reserved then 1 else 0)
    {
      reserved := record == null;
      if reserved { reservations := reservations + 1; }
    }

    // The resolving section of `admit`. Under a sealed gate the action's owner is taken if it was
    // never dispatched; the action is listed either way.
    method ResolveAdmission(submission: Submission) returns (resolution: Resolution)
      requires reservations > 0
      modifies this`reservations, this`actions,
               if submission.Submitted? then {submission.action.settlement} else {}
      ensures reservations == old(reservations) - 1
      ensures actions == old(actions) + (if submission.Submitted? then [submission.action] else [])
      ensures submission.Submitted? ==>
                submission.action.settlement.state ==
                  if record == null then old(submission.action.settlement.state)
                  else S.TakeNotDispatched(old(submission.action.settlement.state), S.OwnerCancel).record
      ensures resolution ==
                if submission.SubmitError? then (if record == null then NotSubmitted(submission.error) else Refused)
                else if record == null then Admitted(submission.action)
                else if old(submission.action.settlement.state).NotDispatched? then RejectOwner(submission.action)
                else AlreadyDispatched(submission.action)
    {
      reservations := reservations - 1;
      if submission.SubmitError? {
        return if record == null then NotSubmitted(submission.error) else Refused;
      }
      var action := submission.action;
      if record == null {
        resolution := Admitted(action);
      } else {
        var owner := action.settlement.ReserveGenerationRejection();
        resolution := if owner then RejectOwner(action) else AlreadyDispatched(action);
      }
      actions := actions + [action];
    }

    // `actions_settled`: no admission in flight and every listed operation terminal.
    method ActionsSettled() returns (settled: bool)
      ensures settled <==> reservations == 0 && forall i :: 0 <= i < |actions| ==> actions[i].operation.state.Ended?
    {
      if reservations != 0 { return false; }
      for i := 0 to |actions|
        invariant forall k :: 0 <= k < i ==> actions[k].operation.state.Ended?
      {
        if !actions[i].operation.state.Ended? { return false; }
      }
      return true;
    }

    // The sealing section of `request_cleanup`: only the first call creates a record.
    method Seal() returns (release: R.ReleaseRecord, created: bool)
      modifies this`record
      ensures record == release
      ensures created == (old(record) == null)
      ensures created ==> fresh(release) && release.phase == R.Undispatched(false)
      ensures !created ==> record == old(record)
    {
      if record != null {
        return record, false;
      }
      release := new R.ReleaseRecord();
      created := true;
      record := release;
    }

    // An action the backend already has keeps its record and is only asked to cancel.
    method SettleSealedAction(action: LeaseAction, cleanupFailure: Option<Error>)
      modifies action.operation, action.operation.arbiter, action.settlement
      ensures SealedResult(old(action.operation.View()), old(action.settlement.state), cleanupFailure,
                           action.operation.View(), action.settlement.state)
    {
      if !action.operation.state.Ended? {
        if cleanupFailure.Some? {
          action.settlement.SettleStrictFailure(action.operation, cleanupFailure.value);
        } else {
          var _ := action.operation.Cancel(ParentClose);
          action.settlement.SettleNotDispatchedCancellation(action.operation);
        }
      }
    }

    // The loop of `request_cleanup` over the actions the seal found.
    method SettleSealedActions(sealed: seq<LeaseAction>, cleanupFailure: Option<Error>)
      requires Distinct(sealed)
      modifies Footprint(sealed)
      ensures forall i :: 0 <= i < |sealed| ==>
                SealedResult(old(sealed[i].operation.View()), old(sealed[i].settlement.state), cleanupFailure,
                             sealed[i].operation.View(), sealed[i].settlement.state)
    {
      for i := 0 to |sealed|
        invariant forall k :: 0 <= k < i ==>
                    SealedResult(old(sealed[k].operation.View()), old(sealed[k].settlement.state), cleanupFailure,
                                 sealed[k].operation.View(), sealed[k].settlement.state)
        invariant forall k :: i <= k < |sealed| ==>
                    && sealed[k].operation.View() == old(sealed[k].operation.View())
                    && sealed[k].settlement.state == old(sealed[k].settlement.state)
      {
        assert sealed[i] in sealed;
        SettleSealedAction(sealed[i], cleanupFailure);
      }
    }
  }

  // What sealing leaves of one action.
  ghost predicate SealedResult(op: Operation, record: S.Record, cleanupFailure: Option<Error>, op': Operation,
                               record': S.Record) {
    if op.state.Ended? then op' == op && record' == record
    else if cleanupFailure.Some? then
      var t := S.TakeForStrict(record, cleanupFailure.value);
      record' == t.record && op' == O.After(op, t).op
    else
      var t := S.TakeNotDispatched(record, S.OwnerCancel);
      record' == t.record && op' == O.After(RequestCancel(op, ParentClose), t).op
  }

  // Sealing without a cleanup failure cancels exactly the actions the backend never saw. One that
  // is outstanding is asked to cancel and waits for its own completion; one whose acceptance is
  // reserved keeps its owner for success.
  lemma SealCancelsOnlyUndispatched(w: S.World, op': Operation, record': S.Record)
    requires S.Inv(w) && w.tasks == [] && !w.op.state.Ended?
    requires SealedResult(w.op, w.record, None, op', record')
    ensures w.record.NotDispatched? ==>
              op'.state == Ended(Cancelled(if w.op.reason.Some? then w.op.reason.value else ParentClose))
    ensures !w.record.NotDispatched? ==>
              record' == w.record && op' == RequestCancel(w.op, ParentClose) && op'.state == w.op.state
  {
    if w.record.NotDispatched? {
      O.CancellationEnds(RequestCancel(w.op, ParentClose), S.Finished);
    }
  }
}
