/**
 * Why an operation ended as it did (crates/easycon-controller/src/session.rs and
 * crates/easycon-runtime/src/operation.rs): over every interleaving of its record, which reason and which
 * error it ends with, told from the calls that were made.
 */
module SettlementCauses {
  import opened Wrappers
  import opened OwnedOperation
  import opened Settlement
  import S = Settlement
  import A = TerminalArbiter
  import G = WriteGate

  // A call of the lane, a lease or a close that cancels without being given a reason.
  predicate CancelsItself(done: seq<Step>) {
    SettleCancellation in done || SettleNotDispatchedCancellation in done || RejectGeneration(None) in done
  }

  predicate AskedReason(done: seq<Step>, r: Reason) {
    Cancel(r) in done || (r == ParentClose && CancelsItself(done))
  }

  predicate AskedStrict(done: seq<Step>, e: Error) {
    SettleStrictFailure(e) in done || RejectGeneration(Some(e)) in done
  }

  predicate CauseInv(w: World, done: seq<Step>) {
    && (w.op.reason.Some? ==> AskedReason(done, w.op.reason.value))
    && (w.strict.Some? ==> AskedStrict(done, w.strict.value))
    && (w.failure.Some? ==> SettleFailure(w.failure.value) in done)
    && (forall t :: t in w.tasks && t.OwnerCancel? ==> CancelsItself(done) || w.op.reason.Some?)
  }

  lemma CausesStay(w: World, done: seq<Step>, s: Step)
    requires CauseInv(w, done)
    ensures CauseInv(w, done + [s])
  {
  }

  lemma TaskKeepsCauses(w: World, done: seq<Step>, i: nat)
    requires Inv(w) && CauseInv(w, done) && i < |w.tasks|
    ensures CauseInv(AdvanceTask(w, i), done)
  {
    OneTask(w);
    assert w.tasks[0] in w.tasks;
  }

  lemma OperationStepKeepsCauses(w: World, done: seq<Step>, s: Step)
    requires CauseInv(w, done) && (s.StartOperation? || s.LaneJoined? || s.Cancel?)
    ensures CauseInv(Apply(w, s), done + [s])
  {
    assert s in done + [s];
    CausesStay(w, done, s);
  }

  lemma OpenStepKeepsCauses(w: World, done: seq<Step>, s: Step)
    requires CauseInv(w, done) && TakesOpen(s)
    ensures CauseInv(Apply(w, s), done + [s])
  {
    assert s in done + [s];
    CausesStay(w, done, s);
  }

  lemma OtherStepKeepsCauses(w: World, done: seq<Step>, s: Step)
    requires CauseInv(w, done) && (s.ClaimReservedFull? || s.FinishSuccess? || s.SettleStrictFailure?)
    ensures CauseInv(Apply(w, s), done + [s])
  {
    assert s in done + [s];
    CausesStay(w, done, s);
  }

  // What a step other than a call's own adds to the causes.
  lemma RecordStepKeepsCauses(w: World, done: seq<Step>, s: Step)
    requires Inv(w) && CauseInv(w, done) && !s.TaskStep? && !IsGateStep(s)
    ensures CauseInv(Apply(w, s), done + [s])
  {
    if TakesOpen(s) { OpenStepKeepsCauses(w, done, s); }
    else if s.ClaimReservedFull? || s.FinishSuccess? || s.SettleStrictFailure? { OtherStepKeepsCauses(w, done, s); }
    else { OperationStepKeepsCauses(w, done, s); }
  }

  lemma GateStepKeepsCauses(w: World, done: seq<Step>, s: Step)
    requires CauseInv(w, done) && IsGateStep(s)
    ensures CauseInv(Apply(w, s), done + [s])
  {
    CausesStay(w, done, s);
  }

  lemma StepKeepsCauses(w: World, done: seq<Step>, s: Step)
    requires Inv(w) && CauseInv(w, done)
    ensures CauseInv(Apply(w, s), done + [s])
  {
    if s.TaskStep? {
      if s.task < |w.tasks| { TaskKeepsCauses(w, done, s.task); }
      CausesStay(Apply(w, s), done, s);
    } else if IsGateStep(s) {
      GateStepKeepsCauses(w, done, s);
    } else {
      RecordStepKeepsCauses(w, done, s);
    }
  }

  lemma {:induction false} RunKeepsCauses(w: World, done: seq<Step>, steps: seq<Step>)
    requires Inv(w) && CauseInv(w, done)
    ensures CauseInv(Run(w, steps), done + steps)
    decreases steps
  {
    if steps == [] {
      assert done + steps == done;
    } else {
      StepKeepsInv(w, steps[0]);
      StepKeepsCauses(w, done, steps[0]);
      RunKeepsCauses(Apply(w, steps[0]), done + [steps[0]], steps[1..]);
      assert done + [steps[0]] + steps[1..] == done + steps;
    }
  }

  lemma {:induction false} RunConcat(w: World, a: seq<Step>, b: seq<Step>)
    ensures Run(w, a + b) == Run(Run(w, a), b)
    decreases a
  {
    if a == [] {
      assert [] + b == b;
    } else {
      assert (a + b)[1..] == a[1..] + b;
      RunConcat(Apply(w, a[0]), a[1..], b);
    }
  }

  // A run with one step picked out of it.
  lemma {:induction false} RunThrough(w: World, before: seq<Step>, s: Step, rest: seq<Step>)
    ensures Run(w, before + [s] + rest) == Run(Apply(Run(w, before), s), rest)
  {
    RunConcat(w, before, [s] + rest);
    assert before + ([s] + rest) == before + [s] + rest;
    assert ([s] + rest)[1..] == rest;
  }

  lemma {:induction false} ReachableHasCauses(owner: nat, transfer: Option<nat>, steps: seq<Step>)
    ensures var w := Run(Init(owner, transfer), steps); Inv(w) && CauseInv(w, steps)
  {
    RunKeepsInv(Init(owner, transfer), steps);
    RunKeepsCauses(Init(owner, transfer), [], steps);
    assert [] + steps == steps;
  }

  // ---- Main results --------------------------------------------------------------------------------------------------

  // The first reason given to an open operation is its reason for good, and the one it ends with if it ends
  // cancelled.
  lemma {:induction false} FirstReasonCounts(owner: nat, transfer: Option<nat>, before: seq<Step>, r: Reason, rest: seq<Step>)
    requires var op := Run(Init(owner, transfer), before).op; !op.state.Ended? && op.reason.None?
    ensures var op := Run(Init(owner, transfer), before + [Cancel(r)] + rest).op;
            op.reason == Some(r) && (op.state.Ended? && op.state.result.Cancelled? ==> op.state.result == Cancelled(r))
  {
    var w := Run(Init(owner, transfer), before);
    RunThrough(Init(owner, transfer), before, Cancel(r), rest);
    ReachableHasInv(owner, transfer, before);
    StepKeepsInv(w, Cancel(r));
    RunKeepsInv(Apply(w, Cancel(r)), rest);
    RunKeepsResult(Apply(w, Cancel(r)), rest);
  }

  // And nobody's reason is made up: it was given, or it is that of a close and some call cancelled by itself.
  lemma {:induction false} ReasonIsGiven(owner: nat, transfer: Option<nat>, steps: seq<Step>)
    ensures var reason := Run(Init(owner, transfer), steps).op.reason;
            && (reason.Some? ==> AskedReason(steps, reason.value))
            && (reason.Some? && reason.value != ParentClose ==> Cancel(reason.value) in steps)
  {
    ReachableHasCauses(owner, transfer, steps);
  }

  // Every end has its cause among the calls: success an accepted gate, a failure the call that brought its very
  // error, a cancellation its very reason.
  lemma {:induction false} EndHasCause(owner: nat, transfer: Option<nat>, steps: seq<Step>)
    requires Run(Init(owner, transfer), steps).op.state.Ended?
    ensures var w := Run(Init(owner, transfer), steps);
            match w.op.state.result
            case Succeeded => SomeGateAccepted(w)
            case Failed(e) => SettleFailure(e) in steps || AskedStrict(steps, e)
            case Cancelled(r) => AskedReason(steps, r)
  {
    ReachableHasCauses(owner, transfer, steps);
  }

  // The first strict failure that finds the record open is how the operation ends, whatever went before it,
  // acceptance included.
  lemma {:induction false} FirstStrictWins(owner: nat, transfer: Option<nat>, before: seq<Step>, e: Error, rest: seq<Step>)
    requires !S.Closed(Run(Init(owner, transfer), before).record) && forall x :: !AskedStrict(before, x)
    ensures var op := Run(Init(owner, transfer), before + [SettleStrictFailure(e)] + rest).op;
            op.state.Ended? ==> op.state.result == Failed(e)
  {
    var w := Run(Init(owner, transfer), before);
    RunThrough(Init(owner, transfer), before, SettleStrictFailure(e), rest);
    ReachableHasCauses(owner, transfer, before);
    StepKeepsInv(w, SettleStrictFailure(e));
    RunKeepsInv(Apply(w, SettleStrictFailure(e)), rest);
    RunKeepsResult(Apply(w, SettleStrictFailure(e)), rest);
  }

  predicate Open(w: World) {
    w.record.NotDispatched? || w.record.Outstanding?
  }

  // A call that took the owner for a cancellation ends it cancelled; nothing that comes later changes that.
  ghost predicate TakenBy(w: World, failure: Option<Error>) {
    Inv(w) && S.Closed(w.record) && !w.reserved && w.strict.None? && w.failure == failure
  }

  lemma StepKeepsTaken(w: World, s: Step, failure: Option<Error>)
    requires TakenBy(w, failure)
    ensures TakenBy(Apply(w, s), failure)
  {
    StepKeepsInv(w, s);
    if s.GateReserve? && s.gate < |w.gates| { assert GateInv(w.gates[s.gate], w.record.NotDispatched?, w.reserved); }
    if s.TaskStep? && s.task < |w.tasks| { OneTask(w); }
  }

  lemma {:induction false} RunKeepsTaken(w: World, steps: seq<Step>, failure: Option<Error>)
    requires TakenBy(w, failure)
    ensures TakenBy(Run(w, steps), failure)
    decreases steps
  {
    if steps != [] {
      StepKeepsTaken(w, steps[0], failure);
      RunKeepsTaken(Apply(w, steps[0]), steps[1..], failure);
    }
  }

  lemma {:induction false} CancellationTakes(owner: nat, transfer: Option<nat>, before: seq<Step>, rest: seq<Step>)
    requires Open(Run(Init(owner, transfer), before))
    ensures var op := Run(Init(owner, transfer), before + [SettleCancellation] + rest).op;
            op.state.Ended? ==> op.reason.Some? && op.state.result == Cancelled(op.reason.value)
  {
    var w := Run(Init(owner, transfer), before);
    RunThrough(Init(owner, transfer), before, SettleCancellation, rest);
    ReachableHasInv(owner, transfer, before);
    StepKeepsInv(w, SettleCancellation);
    RunKeepsTaken(Apply(w, SettleCancellation), rest, None);
  }

  // From a failure's taking on, a reason comes from a cancel only.
  lemma {:induction false} ReasonAfterFailure(w: World, steps: seq<Step>, failure: Option<Error>)
    requires TakenBy(w, failure) && forall t :: t in w.tasks && t.OwnerCancel? ==> w.op.reason.Some?
    ensures var reason := Run(w, steps).op.reason;
            reason != w.op.reason ==> w.op.reason.None? && reason.Some? && Cancel(reason.value) in steps
    decreases steps
  {
    if steps != [] {
      var w' := Apply(w, steps[0]);
      StepKeepsTaken(w, steps[0], failure);
      ReasonStep(w, steps[0], failure);
      ReasonAfterFailure(w', steps[1..], failure);
    }
  }

  lemma ReasonStep(w: World, s: Step, failure: Option<Error>)
    requires TakenBy(w, failure) && forall t :: t in w.tasks && t.OwnerCancel? ==> w.op.reason.Some?
    ensures var w' := Apply(w, s);
            && (w'.op.reason != w.op.reason ==> w.op.reason.None? && w'.op.reason.Some? && s == Cancel(w'.op.reason.value))
            && (forall t :: t in w'.tasks && t.OwnerCancel? ==> w'.op.reason.Some?)
  {
    if s.TaskStep? && s.task < |w.tasks| {
      OneTask(w);
      assert w.tasks[0] in w.tasks;
    }
  }

  // A failure that finds the record open ends the operation with its error, or else with a cancellation that
  // was asked for, before it or after it.
  lemma {:induction false} FailureTakes(owner: nat, transfer: Option<nat>, before: seq<Step>, e: Error, rest: seq<Step>)
    requires Open(Run(Init(owner, transfer), before))
    ensures var op := Run(Init(owner, transfer), before + [SettleFailure(e)] + rest).op;
            op.state.Ended? ==>
              || op.state.result == Failed(e)
              || exists r :: op.state.result == Cancelled(r)
                   && (Run(Init(owner, transfer), before).op.reason == Some(r) || Cancel(r) in rest)
  {
    var w := Run(Init(owner, transfer), before);
    RunThrough(Init(owner, transfer), before, SettleFailure(e), rest);
    ReachableHasInv(owner, transfer, before);
    StepKeepsInv(w, SettleFailure(e));
    var taken := Apply(w, SettleFailure(e));
    RunKeepsTaken(taken, rest, Some(e));
    ReasonAfterFailure(taken, rest, Some(e));
  }

  // ---- What an observer sees ------------------------------------------------------------------------------------------

  predicate EndsCancelled(op: Operation, t: Task) {
    (t.ClaimHeld? || t.ClaimFinishing?) && op.claimed.Some? && op.claimed.value.primary.Cancelled?
  }

  // A claimed cancellation has been published once its holder goes on to finish it.
  predicate PublishedInv(w: World) {
    && (w.op.state.Cancelling? ==> w.op.claimed.Some? && w.op.claimed.value.primary.Cancelled?)
    && (forall t :: t in w.tasks && EndsCancelled(w.op, t) ==> !w.op.state.Pending? && !w.op.state.Running?)
  }

  lemma TaskPublishes(w: World, i: nat)
    requires Inv(w) && PublishedInv(w) && i < |w.tasks|
    ensures PublishedInv(AdvanceTask(w, i))
  {
    OneTask(w);
    assert w.tasks[0] in w.tasks;
  }

  lemma StepPublishes(w: World, s: Step)
    requires Inv(w) && PublishedInv(w)
    ensures PublishedInv(Apply(w, s))
  {
    if s.TaskStep? {
      if s.task < |w.tasks| { TaskPublishes(w, s.task); }
    } else if !IsGateStep(s) {
      RecordStepPublishes(w, s);
    }
  }

  lemma RecordStepPublishes(w: World, s: Step)
    requires Inv(w) && PublishedInv(w) && !s.TaskStep? && !IsGateStep(s)
    ensures PublishedInv(Apply(w, s))
  {
  }

  lemma {:induction false} RunPublishes(w: World, steps: seq<Step>)
    requires Inv(w) && PublishedInv(w)
    ensures PublishedInv(Run(w, steps))
    decreases steps
  {
    if steps != [] {
      StepKeepsInv(w, steps[0]);
      StepPublishes(w, steps[0]);
      RunPublishes(Apply(w, steps[0]), steps[1..]);
    }
  }

  // Nobody sees an operation cancelled who could not have seen it cancelling: the step that ends it cancelled
  // finds it there; and cancelling is seen only where the claim for a cancellation is already won.
  lemma {:induction false} CancellingIsSeenFirst(owner: nat, transfer: Option<nat>, steps: seq<Step>, next: Step)
    ensures var w := Run(Init(owner, transfer), steps);
            var after := Apply(w, next).op.state;
            && (after.Ended? && after.result.Cancelled? && !w.op.state.Ended? ==> w.op.state.Cancelling?)
            && (w.op.state.Cancelling? ==> w.op.arbiter.winner == Some(A.Cancellation))
  {
    var w := Run(Init(owner, transfer), steps);
    ReachableHasInv(owner, transfer, steps);
    RunPublishes(Init(owner, transfer), steps);
    if !w.op.state.Ended? { EndIsPublished(w, next); }
    if w.op.state.Cancelling? { CancellingIsClaimed(w); }
  }

  lemma EndIsPublished(w: World, s: Step)
    requires Inv(w) && PublishedInv(w) && !w.op.state.Ended?
    ensures var after := Apply(w, s).op.state; after.Ended? && after.result.Cancelled? ==> w.op.state.Cancelling?
  {
    if s.TaskStep? && s.task < |w.tasks| {
      OneTask(w);
      assert w.tasks[0] in w.tasks;
    }
  }

  lemma CancellingIsClaimed(w: World)
    requires Inv(w) && PublishedInv(w) && w.op.state.Cancelling?
    ensures w.op.arbiter.winner == Some(A.Cancellation)
  {
    if w.tasks != [] { OneTask(w); }
  }

  // ---- The gate behind the record --------------------------------------------------------------------------------------

  ghost predicate OneEntered(gates: seq<G.Gate>) {
    exists i :: 0 <= i < |gates| && S.Entered(gates[i])
  }

  predicate Underway(r: Record) {
    r.Outstanding? || r.FullAcceptedReserved? || r.ClaimingFull? || r.ClaimedFull?
  }

  ghost predicate EnteredInv(w: World) {
    Underway(w.record) || w.reserved ==> OneEntered(w.gates)
  }

  lemma EnteredStays(gates: seq<G.Gate>, i: nat, g: G.Gate)
    requires OneEntered(gates) && i < |gates| && (S.Entered(gates[i]) ==> S.Entered(g))
    ensures OneEntered(gates[i := g])
  {
    var k :| 0 <= k < |gates| && S.Entered(gates[k]);
    assert S.Entered(gates[i := g][k]);
  }

  lemma GateStepEnters(w: World, s: Step)
    requires EnteredInv(w) && IsGateStep(s)
    ensures EnteredInv(Apply(w, s))
  {
    var w' := Apply(w, s);
    if s.NewGate? {
      if OneEntered(w.gates) {
        var k :| 0 <= k < |w.gates| && S.Entered(w.gates[k]);
        assert S.Entered(w'.gates[k]);
      }
    } else if s.GateDispatch? {
      DispatchEnters(w, s.gate);
    } else if s.gate < |w.gates| && OneEntered(w.gates) {
      EnteredStays(w.gates, s.gate, w'.gates[s.gate]);
    }
  }

  lemma DispatchEnters(w: World, i: nat)
    requires EnteredInv(w)
    ensures EnteredInv(Apply(w, GateDispatch(i)))
  {
    var w' := Apply(w, GateDispatch(i));
    if i < |w.gates| && w'.gates != w.gates {
      if OneEntered(w.gates) { EnteredStays(w.gates, i, w'.gates[i]); }
      else if w.record.NotDispatched? && Underway(w'.record) { assert S.Entered(w'.gates[i]); }
    }
  }

  lemma StepEnters(w: World, s: Step)
    requires Inv(w) && EnteredInv(w)
    ensures EnteredInv(Apply(w, s))
  {
    if IsGateStep(s) {
      GateStepEnters(w, s);
    } else if s.TaskStep? {
      if s.task < |w.tasks| { OneTask(w); }
    }
  }

  lemma {:induction false} RunEnters(w: World, steps: seq<Step>)
    requires Inv(w) && EnteredInv(w)
    ensures EnteredInv(Run(w, steps))
    decreases steps
  {
    if steps != [] {
      StepKeepsInv(w, steps[0]);
      StepEnters(w, steps[0]);
      RunEnters(Apply(w, steps[0]), steps[1..]);
    }
  }

  // A record is under way through one gate: exactly one of its gates was dispatched, no more and no less, and
  // none while the record is not dispatched.
  lemma {:induction false} DispatchedThroughOneGate(owner: nat, transfer: Option<nat>, steps: seq<Step>)
    ensures var w := Run(Init(owner, transfer), steps);
            && (w.record.NotDispatched? ==> !OneEntered(w.gates))
            && (w.reserved || w.record.Outstanding? ==>
                  exists i :: 0 <= i < |w.gates| && S.Entered(w.gates[i])
                              && forall j :: 0 <= j < |w.gates| && j != i ==> !S.Entered(w.gates[j]))
  {
    ReachableHasInv(owner, transfer, steps);
    RunEnters(Init(owner, transfer), steps);
    var w := Run(Init(owner, transfer), steps);
    if OneEntered(w.gates) {
      var i :| 0 <= i < |w.gates| && S.Entered(w.gates[i]);
      assert GateInv(w.gates[i], w.record.NotDispatched?, w.reserved);
    }
  }
}
