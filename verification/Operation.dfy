/**
 * An operation whose terminal result is owned by one settlement owner
 * (crates/easycon-runtime/src/operation.rs). Claiming freezes the winner; finishing commits it.
 */
module OwnedOperation {
  import opened Wrappers
  import A = TerminalArbiter

  type Error = nat

  datatype Reason = Requested | Deadline | ParentClose
  datatype Result = Succeeded | Failed(error: Error) | Cancelled(reason: Reason)
  datatype State = Pending | Running | Cancelling | Ended(result: Result)
  datatype Candidate = TrySuccess | TryFailure(error: Error) | TryCancellation
  datatype ClaimStatus = Held | Finishing | Abandoned
  datatype Transaction = Transaction(
    owner: nat,
    evidence: A.Evidence,
    candidate: Candidate,
    primary: Result,
    status: ClaimStatus)
  datatype ClaimOutcome = Claimed | Observe | Rejected | Closed

  datatype Operation = Operation(
    state: State,
    reason: Option<Reason>,
    arbiter: A.Arbiter,
    claimed: Option<Transaction>)

  function New(owner: nat, transfer: Option<nat>): Operation {
    Operation(Pending, None, A.New(owner, transfer), None)
  }

  function WinnerOf(primary: Result): A.Winner {
    match primary
    case Succeeded => A.Success
    case Failed(_) => A.Failure
    case Cancelled(_) => A.Cancellation
  }

  function Start(op: Operation): Operation {
    if op.state == Pending && op.claimed.None? then op.(state := Running) else op
  }

  // The reason is sticky: the first request wins and the state does not move while it is owned.
  function RequestCancel(op: Operation, reason: Reason): Operation {
    if op.state.Ended? || op.reason.Some? then op else op.(reason := Some(reason))
  }

  function PrimaryOf(op: Operation, candidate: Candidate): Option<Result> {
    match (op.state, candidate)
    case (Running, TrySuccess) => Some(Succeeded)
    case (Pending, TryFailure(e)) => Some(Failed(e))
    case (Running, TryFailure(e)) => Some(Failed(e))
    case (Pending, TryCancellation) => if op.reason.Some? then Some(Cancelled(op.reason.value)) else None
    case (Running, TryCancellation) => if op.reason.Some? then Some(Cancelled(op.reason.value)) else None
    case _ => None
  }

  predicate Recovers(op: Operation, owner: nat, evidence: A.Evidence, candidate: Candidate) {
    && op.claimed.Some?
    && op.claimed.value.status == Abandoned
    && op.claimed.value.owner == owner
    && op.claimed.value.evidence == evidence
    && op.claimed.value.candidate == candidate
  }

  function ClaimResult(op: Operation, owner: nat, evidence: A.Evidence, candidate: Candidate): ClaimOutcome {
    if op.state.Ended? then Closed
    else if op.claimed.Some? then
      if Recovers(op, owner, evidence, candidate) then Claimed
      else if op.claimed.value.status == Abandoned then Rejected
      else Observe
    else
      var primary := PrimaryOf(op, candidate);
      if primary.None? then Rejected
      else match A.ClaimOutcome(op.arbiter, owner, evidence, WinnerOf(primary.value))
        case Claimed => Claimed
        case Observe => Observe
        case _ => Rejected
  }

  function Claim(op: Operation, owner: nat, evidence: A.Evidence, candidate: Candidate): Operation {
    if !ClaimResult(op, owner, evidence, candidate).Claimed? then op
    else if op.claimed.Some? then op.(claimed := Some(op.claimed.value.(status := Held)))
    else
      var primary := PrimaryOf(op, candidate).value;
      op.(arbiter := A.Claim(op.arbiter, owner, evidence, WinnerOf(primary)),
          claimed := Some(Transaction(owner, evidence, candidate, primary, Held)))
  }

  // A cancellation winner becomes visible only after the claim's critical section.
  function PublishCancelling(op: Operation): Operation {
    if op.state.Pending? || op.state.Running? then op.(state := Cancelling) else op
  }

  predicate CanBeginFinish(op: Operation, owner: nat) {
    && !op.state.Ended?
    && op.claimed.Some?
    && op.claimed.value.owner == owner
    && op.claimed.value.status == Held
  }

  function BeginFinish(op: Operation, owner: nat): Operation {
    if CanBeginFinish(op, owner) then op.(claimed := Some(op.claimed.value.(status := Finishing))) else op
  }

  // A domain failure replaces whatever the winner was.
  function CommitFinish(op: Operation, owner: nat, domain: Option<Error>): Operation
    requires op.claimed.Some?
  {
    var primary := op.claimed.value.primary;
    op.(arbiter := A.Commit(op.arbiter, owner, WinnerOf(primary)),
        state := Ended(if domain.Some? then Failed(domain.value) else primary))
  }

  function Abandon(op: Operation, owner: nat): Operation {
    if CanBeginFinish(op, owner) then op.(claimed := Some(op.claimed.value.(status := Abandoned))) else op
  }

  // A claim is never up for grabs. While it is held, or being finished, everybody else only observes it; once
  // abandoned it is refused to all but its own party, and that party finds the operation as it left it.
  lemma AbandonedClaimWaits(op: Operation, owner: nat, evidence: A.Evidence, candidate: Candidate)
    requires !op.state.Ended? && op.claimed.Some? && op.claimed.value.status == Held
    ensures var tx := op.claimed.value;
            var own := owner == tx.owner && evidence == tx.evidence && candidate == tx.candidate;
            && ClaimResult(op, owner, evidence, candidate) == Observe
            && ClaimResult(BeginFinish(op, tx.owner), owner, evidence, candidate) == Observe
            && Abandon(op, tx.owner) != op && (owner != tx.owner ==> Abandon(op, owner) == op)
            && ClaimResult(Abandon(op, tx.owner), owner, evidence, candidate) == (if own then Claimed else Rejected)
            && Claim(Abandon(op, tx.owner), owner, evidence, candidate) == (if own then op else Abandon(op, tx.owner))
  {
  }
}
