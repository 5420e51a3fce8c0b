# Controller settlement and scheduling engine

A Dafny model of the part of the Controller and the Runtime that decides how an input report ends and
when it is sent: the settlement protocol raced by the lane thread, backend completions, cancellers, lease
release and close; the lane's queue with its pacing, its sequences and its Amiibo saves; and the Runtime
primitives below them.

`dafny verify dfyconfig.toml` checks all of it.

## How it is modelled

**State machines.** What the program runs under mutexes and atomics on several threads is a step machine:
a `World`, a `Step` for each critical section or atomic access, `Apply`, and `Run` over any list of steps.
A call that spans several critical sections keeps its place in the world between its steps, so a theorem
over `Run(Init(), steps)` is about every interleaving. Atomic accesses are sequentially consistent.

**Objects.** The program's records and gates are classes with the same fields. Their methods are proved
against the transition functions the machines are made of; the laws of those functions are lemmas.

**The outside.** Clock readings, transport replies, cancellations by others and arriving commands are
parameters: arguments of a step, lists, or functions from the number of a call to its reply. Errors are
codes, operations and records are ids.

| file | models |
|---|---|
| `TerminalArbiter`, `Operation` | the one winner of an operation, and claiming and finishing through its owner |
| `WriteGate`, `GateHistory`, `PartialWrite` | the gate of one logical write, and what it comes to told from its calls; the loop that writes it piece by piece |
| `Settlement`, `SettlementCauses`, `SettlementObjects` | the settlement record of an operation, over all interleavings; what its end is due to; its object |
| `Release`, `ReleaseRegistry`, `RegistryReach`, `ReleaseRegistryObject` | a lease release against close; the registry that projects close and failures onto releases, and whom it reaches |
| `Lease`, `LeaseTrace`, `LeaseObject` | a lease generation: admission, sealing, its release neutral; what its trace records |
| `Acquire`, `AcquireOutcome` | acquisition futures and the grant; who decides an acquisition |
| `Report`, `Radix`, `ReportCodec`, `WireFormat` | the report, its mutations, and its packet; the numbers on the wire |
| `Timing`, `SequencePlan` | timestamps; validation and planning of sequences |
| `LaneQueue`, `LaneVerdicts`, `LaneObject`, `Pacing` | the lane's queue, refolding and dispatch; what it tells operations; the lane object; spacing over whole runs |
| `LaneRecord`, `LaneSettlement`, `LaneProgress` | the lane, its close and the settlement records of its operations as one machine; its progress |
| `LaneLease`, `LaneSchedule`, `LaneBase`, `LanePacing` | over runs of the lane: its write lease, when a sequence plays, what reports are folded over, and their spacing |
| `LaneStream`, `LaneCancel`, `LaneFailures` | over runs of the lane: its connection, what is left of a cancelled operation, and why one fails |
| `LeasedLane`, `LeasedVerdicts`, `LeasedProgress` | the reports of an automation lease on the lane, with their settlement records; why it tells them what it does; that their writes end, and once |
| `Amiibo`, `AmiiboProtocol` | acknowledged exchanges and saves with retries; what follows each exchange |
| `Close`, `CloseHearing` | draining the lane; what it waits for and hears meanwhile |
| `CancellationTree`, `CancellationClaims`, `CancellationCauses`, `CancellationOrder`, `CancellationHooks`, `CancellationProgress`, `CancellationObject` | the cancellation tree, the end of its seals, what its requests leave behind, the order of a seal, its hooks, its freedom from deadlock, and its node |
| `Clock`, `ClockTrace`, `ClockObject` | the virtual clock and its trace |

## Main results

- **Every operation ends as it was told.** `LaneSettlement.OperationEndsAsTold`, `EveryOperationEnds` and
  `CloseEndsEverything` over all interleavings of the lane with all of its records; `LaneProgress.LaneIsNeverStuck`;
  `LeasedLane.LeasedOperationEnds` and `DroppedGenerationSettles` for the actions of a lease.
- **One record.** `Settlement.OwnerIsLinear`, `AcceptedIsNeverCancelled`, `SuccessNeedsAcceptance`, `EndedResult`
  and `NoClaimIsLost`; `SettlementCauses.FirstReasonCounts` and `EndHasCause` say which call an end is due to.
- **The lane.** `LaneQueue.QueueIsFolded`, `RemovedLeavesNoTrace` and `NoOperationIsLost`,
  `LaneVerdicts.OneVerdictEach`, `LanePacing.LaneIsPaced`, `Pacing.ReportsArePaced` and `ReleasePacedExactly`,
  `SequencePlan.LeastFeasibleSchedule` and `CoalescedReports`; told from the steps of a run alone,
  `LaneLease.LeaseIsHeldOnTheLane`, `LaneSchedule.SequenceKeepsItsTime`, `LaneBase.BaseIsExact`,
  `LaneCancel.SeenCancelledIsNeverWritten`, `LaneFailures.FailuresAreTrue` and `LaneStream.StreamIsExact`.
- **Writes.** `WriteGate.GateIsFinal`, `GateHistory.GateIsTold`, `PartialWrite.SuccessIsAccepted`, `FailureSettles` and `FailureCloses`,
  `ReportCodec.RoundTrip` and `StreamIsUnambiguous`, `Amiibo.SavedExactly` and `AcknowledgedExactly`,
  `AmiiboProtocol.SaveGoesByItsRules`.
- **Leases and close.** `Lease.NoReportAfterNeutral`, `Acquire.GrantIsNeverLeaked`,
  `Release.CloseOrderingIsFrozen`, `ReleaseRegistry.NoWaiterIsLost`, `FirstProjectionWins` and
  `OwnershipLossSparesOnlyInFlight`, `RegistryReach.CloseReachesAll`, `AcquireOutcome.LaneDecides`,
  `Close.CloseDrainsEverything` and `CloseAnswersReleases`, `CloseHearing.CloseHearsAndWrites`.
- **The runtime.** `TerminalArbiter.ArbiterHistoryIsLegal`, `CancellationTree.ClosedReachesChildren`,
  `CancellationCauses.FinishedCancelCancels` and `ClosedIsAsked`, `CancellationClaims.SealsTerminate`,
  `CancellationHooks.CancelledHookRuns`, `CancellationProgress.NoDeadlock`,
  `Clock.WakeOrderIsWoken` and `Confluence`.

The methods of the classes tie each object to the functions those are about. A few rows at the end of the
table are small facts and single runs, kept as illustrations.

## Where the code does less than it seems to promise

- **Release neutral and pacing.** A release fixes its target when it begins and does not look at the last
  acceptance again. `Pacing.ReleasePacedExactly` gives the exact condition, one a caller could check before
  the neutral starts; `Pacing.UnpacedReleaseRun` is a run of four steps in which two accepted neutrals start
  at the same instant.
- **A failed write that was accepted.** A backend that accepts a whole write and then returns a length
  that is none makes the write fail while its gate stays accepted and the stream open.
  `PartialWrite.FailureSettles` says of the transport's replies exactly when that happens;
  `PartialWrite.AcceptedYetFailed` is such a case. The dispatch loop looks at the gate before it looks at
  the result, so a direct report still succeeds.
- **Ownership loss.** A registry method that took its snapshot before the loss was recorded still
  completes the records it has not reached. `ReleaseRegistry.OwnershipLossSparesOnlyInFlight` says that
  this is all, `ReleaseRegistry.CompletionAfterOwnershipLoss` is such a run.
- **Dropped propagations.** A cancellation that selected its hooks and is then dropped, as one held by a
  claim that is given up is, runs none of them. `CancellationHooks.CancelledHookRuns` says that this and a
  guard that is gone are the only ways a hook of a cancelled node stays unrun.
- **Deadline ids.** The clock's ids start over after 2^64 - 1 of them; up to there, and no further, they
  are distinct (`Clock.DistinctIdsExactly`).
- **A second release command during close** for the generation being released is put aside and never
  looked at again. `Close.CloseAnswersReleases` shows that its waiter is answered nevertheless, because a
  generation is released through one record (`Lease.OneReleaseRecord`).

## Model

| member | source | states |
|---|---|---|
| `TerminalArbiter.TerminalArbiterState.ClaimWinner` | crates/easycon-runtime/src/concurrency.rs:117-134 | A claim is refused to anyone but the active owner, observed once a winner is set, refused if the evidence does not allow the winner, and otherwise sets it |
| `TerminalArbiter.TerminalArbiterState.MarkPrimaryOwnerJoined` | crates/easycon-runtime/src/concurrency.rs:136-142 | Only the primary owner can be marked as joined |
| `TerminalArbiter.TerminalArbiterState.HandOff` | crates/easycon-runtime/src/concurrency.rs:144-157 | Ownership moves to the transfer owner once, after the join and before any winner |
| `TerminalArbiter.TerminalArbiterState.CommitWinner` | crates/easycon-runtime/src/concurrency.rs:159-165 | Only the active owner commits, only the winner claimed, and only once |
| `TerminalArbiter.ArbiterHistoryIsLegal` | crates/easycon-runtime/src/concurrency.rs:93-205 | Whatever calls are made by anyone in any order, those that take effect form a legal history: join, at most one handoff before any winner, one claim by the then active owner with matching evidence, one commit of that claim by that owner |
| `TerminalArbiter.LegalCallsApply` | crates/easycon-runtime/src/concurrency.rs:117-205 | A call takes effect if and only if it is legal after those that took effect before it; success needs an accepted effect, failure a failed execution, cancellation an effect not delivered |
| `TerminalArbiter.AtMostOneWinner` | crates/easycon-runtime/src/concurrency.rs:117-165 | Over any run at most one claim, one commit and one handoff take effect, and no commit without a claim |
| `WriteGate.GateIsFinal` | crates/easycon-controller/src/transport.rs:118-361 | A settled gate never changes, an accepted one can only settle as accepted, a rejected or failing one is never upgraded by a late completion, and the hook runs once at most |
| `GateHistory.GateIsTold` | crates/easycon-controller/src/transport.rs:192-361 | What a gate is after any calls is told by the first call of each kind that finds its turn: its phase, its outcome and the time of its acceptance, which is the one it was published with |
| `GateHistory.HookRunsAtSettlement` | crates/easycon-controller/src/transport.rs:242-299 | The hook runs once if the calls settle the gate, and not at all if they do not |
| `GateHistory.AnswersAreTrue` | crates/easycon-controller/src/transport.rs:192-240 | Dispatch and reservation answer yes exactly if they move the gate, and use up the reservation they ask |
| `WriteGate.WriteSettlement.constructor` | crates/easycon-controller/src/transport.rs:148-190 | A tracked gate starts undispatched with its reservations and hook in place |
| `WriteGate.WriteSettlement.Dispatch` | crates/easycon-controller/src/transport.rs:192-215 | Dispatch consumes its reservation, and is rejected for good if that says no |
| `WriteGate.WriteSettlement.Reserve` | crates/easycon-controller/src/transport.rs:217-240 | Full acceptance is reserved only on an outstanding gate whose one-shot reservation agrees, and rejected for good otherwise |
| `WriteGate.WriteSettlement.PublishReserved` | crates/easycon-controller/src/transport.rs:242-263 | Only a reserved acceptance is published, once, with its time and the hook |
| `WriteGate.WriteSettlement.StartNonFull` | crates/easycon-controller/src/transport.rs:269-282 | Settling without acceptance can start exactly from an outstanding or rejected gate |
| `WriteGate.WriteSettlement.Complete` | crates/easycon-controller/src/transport.rs:284-299 | A gate being settled takes its outcome once and hands it to the hook |
| `WriteGate.WriteSettlement.FullAcceptedOutcome` | crates/easycon-controller/src/transport.rs:301-313 | Accepted means reserved or settled as accepted |
| `PartialWrite.PlayBackend` | crates/easycon-controller/src/transport.rs:217-263 | The backend's touches of a gate within one call have exactly their effect in order |
| `PartialWrite.SettleFailedWrite` | crates/easycon-controller/src/session.rs:4655-4675 | A failed write settles its gate after the close the failure needs; a gate that cannot be settled any more is left alone |
| `PartialWrite.WriteBytes` | crates/easycon-controller/src/session.rs:4611-4652 | The loop ends as specified, and what the transport took is a prefix of the payload |
| `PartialWrite.WritePayload` | crates/easycon-controller/src/session.rs:4558-4653 | The whole write gives the specified result and gate, and has sent a prefix of the payload whatever happened |
| `PartialWrite.SuccessIsAccepted` | crates/easycon-controller/src/session.rs:4611-4653 | The loop makes at most one call per byte; success means full acceptance at the gate and no close, and without an error from the transport also that every byte was taken |
| `PartialWrite.FailureSettles` | crates/easycon-controller/src/session.rs:4622-4652 | A dispatched write fails without leaving its gate settled as not accepted if and only if some reply of the transport is a length that is none, after valid lengths that leave bytes to send and touches that made the gate accepted |
| `PartialWrite.FailureCloses` | crates/easycon-controller/src/session.rs:4655-4675 | A failure is settled after closing the stream if and only if the first reply is not an error on a stream the backend vouches for; a failed close is the recorded outcome and the error |
| `Settlement.OwnerIsLinear` | crates/easycon-controller/src/session.rs:548-832 | In every interleaving the settlement owner, or its claim, is in exactly one place, and at most one gate of the operation was ever entered |
| `Settlement.StepKeepsInv` | crates/easycon-controller/src/session.rs:579-832 | Every critical section of every party keeps the agreement of record, calls, arbiter and gates |
| `Settlement.RunKeepsResult` | crates/easycon-controller/src/session.rs:658-832 | A recorded reservation, strict failure, cancellation reason or result never changes |
| `Settlement.AcceptedIsNeverCancelled` | crates/easycon-controller/src/session.rs:610-688 | Once a gate holds full acceptance the operation can only end succeeded, or failed with the first strict failure recorded |
| `Settlement.SuccessNeedsAcceptance` | crates/easycon-controller/src/session.rs:610-737 | Success is never claimed nor committed without a gate's full acceptance |
| `Settlement.EndedResult` | crates/easycon-controller/src/session.rs:739-832 | Exactly how an ended operation ended: the strict failure, success if accepted, or the cancellation or failure that was asked for; always committed |
| `SettlementCauses.FirstReasonCounts` | crates/easycon-runtime/src/operation.rs:589-628 | The first reason given to an operation that has not ended is its reason whatever follows, and the one it ends with if it ends cancelled |
| `SettlementCauses.ReasonIsGiven` | crates/easycon-runtime/src/operation.rs:589-600 | Any reason but that of a closing parent is one that some cancel of the run gave |
| `SettlementCauses.EndHasCause` | crates/easycon-controller/src/session.rs:739-832 | Success has an accepted gate behind it, a failure the call that brought its error, a cancellation the reason it was given |
| `SettlementCauses.FirstStrictWins` | crates/easycon-controller/src/session.rs:790-832 | A strict failure of a record that is not closed decides: the operation can only end with the first of them |
| `SettlementCauses.CancellationTakes` | crates/easycon-controller/src/session.rs:739-770 | After a settling cancellation that finds the record open the operation can only end cancelled, for the reason recorded |
| `SettlementCauses.FailureTakes` | crates/easycon-controller/src/session.rs:772-788 | After a failure that finds the record open the operation can only end with its error, or cancelled for a reason that was given before or after |
| `SettlementCauses.CancellingIsSeenFirst` | crates/easycon-runtime/src/operation.rs:1028-1048 | An operation is published as cancelling before it ends cancelled, and only once a cancellation has won |
| `SettlementCauses.DispatchedThroughOneGate` | crates/easycon-controller/src/session.rs:4503-4534 | A record under way was dispatched through exactly one of its gates, an undispatched one through none |
| `Settlement.NoClaimIsLost` | crates/easycon-controller/src/session.rs:5380-5475 | A call that holds the owner wins its claim, one that holds the claim gets to finish it, and its commit applies |
| `Settlement.QuiescentRecordIsSettled` | crates/easycon-controller/src/session.rs:690-737 | With no call in flight the record is closed if and only if the operation has ended |
| `Settlement.FinishEnds` | crates/easycon-runtime/src/operation.rs:821-858 | The call that holds the owner or claim, left alone, ends the operation or leaves the claim in the record |
| `SettlementObjects.OperationObject.StartRunning` | crates/easycon-runtime/src/operation.rs:407-411 | Starting applies to a pending, unclaimed operation only |
| `SettlementObjects.OperationObject.Cancel` | crates/easycon-runtime/src/operation.rs:589-628 | The reason given is recorded unless there was one before, and no state of an owned operation moves |
| `SettlementObjects.OperationObject.ClaimOwned` | crates/easycon-runtime/src/operation.rs:737-819 | A claim answers and leaves the operation as the specified claim does |
| `SettlementObjects.OperationObject.FinishClaim` | crates/easycon-runtime/src/operation.rs:1050-1133 | Finishing commits the claimed result, or the strict failure that replaces it |
| `SettlementObjects.OperationObject.AbandonClaim` | crates/easycon-runtime/src/operation.rs:867-885 | A claim held by its owner, and no other, is marked as abandoned |
| `OwnedOperation.AbandonedClaimWaits` | crates/easycon-runtime/src/operation.rs:737-885 | A claim that is held or being finished is only observed by others; an abandoned one is taken up by its own party alone, with the operation as it was left |
| `SettlementObjects.SettleOwnedCancellation` | crates/easycon-controller/src/session.rs:5441-5450 | Uninterrupted, it leaves the operation as the owner's cancellation runs to its end |
| `SettlementObjects.SettleOwnedFailure` | crates/easycon-controller/src/session.rs:5452-5466 | Uninterrupted, it leaves the operation as the owner's failure runs to its end |
| `SettlementObjects.SettleOwnedStrictFailure` | crates/easycon-controller/src/session.rs:5468-5475 | Uninterrupted, it leaves the operation as the owner's strict failure runs to its end |
| `SettlementObjects.OperationSettlementRecord.MarkDispatched` | crates/easycon-controller/src/session.rs:579-593 | Dispatch is admitted exactly while the owner is still in the undispatched record |
| `SettlementObjects.OperationSettlementRecord.ReserveGenerationRejection` | crates/easycon-controller/src/session.rs:595-608 | A sealed generation takes the owner only from an undispatched record |
| `SettlementObjects.OperationSettlementRecord.ReserveFullAccepted` | crates/easycon-controller/src/session.rs:610-627 | Full acceptance is reserved exactly on an outstanding record |
| `SettlementObjects.OperationSettlementRecord.ClaimReservedFullAccepted` | crates/easycon-controller/src/session.rs:629-656 | The reserved owner is taken once and its claim for success completed |
| `SettlementObjects.OperationSettlementRecord.CompleteFullClaim` | crates/easycon-controller/src/session.rs:658-688 | A claim for success comes back to the record, or is finished with a strict failure recorded meanwhile; a record that is not waiting for it abandons it |
| `SettlementObjects.OperationSettlementRecord.FinishSuccess` | crates/easycon-controller/src/session.rs:714-730 | A claimed success is finished once |
| `SettlementObjects.OperationSettlementRecord.FinishClaimedAfterLaneJoin` | crates/easycon-controller/src/session.rs:732-737 | After the lane is gone a reserved or claimed success is brought to its end |
| `SettlementObjects.OperationSettlementRecord.SettleCancellation` | crates/easycon-controller/src/session.rs:739-754 | Cancellation takes the owner from an undispatched or outstanding record and ends the operation with it |
| `SettlementObjects.OperationSettlementRecord.SettleNotDispatchedCancellation` | crates/easycon-controller/src/session.rs:756-770 | The same, from an undispatched record only |
| `SettlementObjects.OperationSettlementRecord.SettleFailure` | crates/easycon-controller/src/session.rs:772-788 | A failure takes the owner from an undispatched or outstanding record and ends the operation with it |
| `SettlementObjects.OperationSettlementRecord.SettleStrictFailure` | crates/easycon-controller/src/session.rs:790-832 | A strict failure ends the operation, or is left with a reserved or claiming record to end it |
| `SettlementObjects.DispatchThrough` | crates/easycon-controller/src/session.rs:4503-4534 | Dispatch through a gate moves gate and record in one step |
| `SettlementObjects.ReserveThrough` | crates/easycon-controller/src/session.rs:4503-4534 | Reservation through a gate moves gate and record in one step |
| `SettlementObjects.SettlingCallEnds` | crates/easycon-controller/src/session.rs:739-832 | A settling call on an open operation ends it: a failure loses to a cancellation asked for before, a strict failure does not |
| `SettlementObjects.JoinTakeoverEnds` | crates/easycon-controller/src/session.rs:2311-2324 | A reserved acceptance taken over after the lane is gone ends as the physical acceptance says |
| `Release.ReleaseRecord.constructor` | crates/easycon-controller/src/session.rs:904-914 | A release starts undispatched, with no close before it |
| `Release.ReleaseRecord.Begin` | crates/easycon-controller/src/session.rs:916-936 | Beginning the neutral hands out the cancellation and says whether close was there first |
| `Release.ReleaseRecord.Reserve` | crates/easycon-controller/src/session.rs:938-956 | The gate claims an outstanding release once |
| `Release.ReleaseRecord.RequestCloseInterrupt` | crates/easycon-controller/src/session.rs:958-985 | Close acquires a release before the gate claim, interrupts an outstanding one once, and is otherwise told who was first |
| `Release.ReleaseRecord.CompleteWith` | crates/easycon-controller/src/session.rs:987-1010 | The first completion commits its outcome; later ones change nothing |
| `Release.CloseOrderingIsFrozen` | crates/easycon-controller/src/session.rs:887-1011 | Over every order of begin, gate claim, close requests and completions, the answers fit one ordering that is frozen by the gate claim or the first completion |
| `Release.AnswersSayWhoCameFirst` | crates/easycon-controller/src/session.rs:938-1010 | The first completion and every later close request answer true exactly when a close request came before the freezing point |
| `Release.InterruptedAtMostOnce` | crates/easycon-controller/src/session.rs:958-985 | The neutral write is interrupted at most once |
| `Release.CommittedStays` | crates/easycon-controller/src/session.rs:987-1010 | The outcome of a committed release never changes |
| `ReleaseRegistry.NoWaiterIsLost` | crates/easycon-controller/src/session.rs:1066-1189 | Whatever the order of tracking with close, cleanup failure and stream settlement: once a cleanup failure was projected or the stream settled, and no ownership loss was projected, every live tracked release that no registry method has still to reach is committed |
| `ReleaseRegistry.FirstProjectionWins` | crates/easycon-controller/src/session.rs:1109-1147 | Every cleanup failure a registry method ever gave is the outcome of a committed release and is the one projected first; the projection and every committed outcome stay |
| `ReleaseRegistry.OwnershipLossSparesOnlyInFlight` | crates/easycon-controller/src/session.rs:1132-1147 | After ownership loss the registry can still complete a release if and only if a method that took its snapshot before has not reached it yet |
| `RegistryReach.CloseReachesAll` | crates/easycon-controller/src/session.rs:1067-1189 | Once anybody asked for close and no ownership was lost, every live tracked release, also one tracked later, has been asked, was claimed or committed before, or is next in a call under way |
| `RegistryReach.FailureOrCloseCompletesAll` | crates/easycon-controller/src/session.rs:1067-1189 | Once a cleanup failure or a settled stream was recorded and no ownership was lost, every live tracked release no call has still to reach is committed |
| `RegistryReach.LossKeepsReleases` | crates/easycon-controller/src/session.rs:1132-1147 | A release that was tracked and is alive under ownership loss is never dropped |
| `ReleaseRegistryObject.ReleaseInterruptRegistry.Prune` | crates/easycon-controller/src/session.rs:1069-1075 | Records nobody holds are forgotten, the others kept |
| `ReleaseRegistryObject.ReleaseInterruptRegistry.Track` | crates/easycon-controller/src/session.rs:1067-1107 | A tracked release is given at once whatever projection, settlement or close the registry already knows |
| `ReleaseRegistryObject.ReleaseInterruptRegistry.RecordCleanupFailure` | crates/easycon-controller/src/session.rs:1109-1130 | The first cleanup failure is projected onto every tracked release |
| `ReleaseRegistryObject.ReleaseInterruptRegistry.RecordOwnershipLoss` | crates/easycon-controller/src/session.rs:1132-1147 | Ownership loss is recorded only as the first projection, and completes nothing |
| `ReleaseRegistryObject.ReleaseInterruptRegistry.RequestCloseInterrupts` | crates/easycon-controller/src/session.rs:1149-1163 | Every tracked release is told of the close, also after one of them was consumed |
| `ReleaseRegistryObject.ReleaseInterruptRegistry.SettleStreamAfterClose` | crates/easycon-controller/src/session.rs:1165-1189 | Every tracked release still open is completed as settled with the stream, unless a projection came first |
| `Lease.NoReportAfterNeutral` | crates/easycon-controller/src/session.rs:3769-3791 | After the release neutral of a generation no report of it is ever dispatched, nor after the lane has begun its close |
| `Lease.ReservationsCountAdmissions` | crates/easycon-controller/src/session.rs:1235-1394 | The reservation counter is the number of admissions in flight, and a settled sealed generation has spent every action's owner |
| `Lease.SealStays` | crates/easycon-controller/src/session.rs:1413-1488 | Sealing is permanent and keeps its record |
| `Lease.OneReleaseRecord` | crates/easycon-controller/src/session.rs:1413-1488 | All cleanup requests of a generation are answered with one record |
| `LeaseTrace.TraceIsComplete` | crates/easycon-controller/src/session.rs:4503-4534 | Each report of an action that is or was under way appears once in the trace of its generation, and only if it was dispatched; at most one release neutral is dispatched, and it and the close of the lane appear too |
| `LeaseObject.LeaseGeneration.IsSealed` | crates/easycon-controller/src/session.rs:1364-1372 | Sealed means that a release record exists |
| `LeaseObject.LeaseGeneration.BeginAdmission` | crates/easycon-controller/src/session.rs:1235-1260 | An admission is counted exactly while the gate is open |
| `LeaseObject.LeaseGeneration.ResolveAdmission` | crates/easycon-controller/src/session.rs:1290-1362 | An admission is uncounted once and answered by its submission while the gate is open; under a sealed gate its record gives up an owner the backend never had |
| `LeaseObject.LeaseGeneration.ActionsSettled` | crates/easycon-controller/src/session.rs:1374-1394 | True exactly if no admission is in flight and every action's operation has ended |
| `LeaseObject.LeaseGeneration.Seal` | crates/easycon-controller/src/session.rs:1413-1450 | Only the first seal creates a record; the others are given it |
| `LeaseObject.LeaseGeneration.SettleSealedAction` | crates/easycon-controller/src/session.rs:1450-1475 | A sealed action the backend has keeps its record and is asked to cancel; the others are settled |
| `LeaseObject.LeaseGeneration.SettleSealedActions` | crates/easycon-controller/src/session.rs:1450-1475 | Every action the seal found is settled that way, and no other |
| `Acquire.AcquireRecord.Reserve` | crates/easycon-controller/src/session.rs:392-402 | A pending acquisition is reserved by one resolver |
| `Acquire.AcquireRecord.Publish` | crates/easycon-controller/src/session.rs:404-428 | The reserved outcome is stored for its future, or dropped if that is gone |
| `Acquire.AcquireRecord.AbandonFuture` | crates/easycon-controller/src/session.rs:439-459 | An abandoned future takes an outcome that is already there with it, and leaves nothing behind |
| `Acquire.AcquireRecord.TakeReady` | crates/easycon-controller/src/session.rs:464-497 | A ready outcome is delivered once |
| `Acquire.GrantIsNeverLeaked` | crates/easycon-controller/src/session.rs:324-505 | A grant is in exactly one place: with its resolver, in the record, with the caller, or dropped into its own cleanup if the future was abandoned |
| `Acquire.GrantedAndDeliveredOnce` | crates/easycon-controller/src/session.rs:324-497 | No request is granted twice, no future is answered twice |
| `Acquire.OneOwnerAtATime` | crates/easycon-controller/src/session.rs:3546-3632 | Generations are 1, 2, 3, ... and fit the counter, and all but the current owner's are over |
| `Acquire.GrantsAppend` | crates/easycon-controller/src/session.rs:3588-3631 | A grant is never taken back or reordered |
| `AcquireOutcome.FirstReservationDecides` | crates/easycon-controller/src/session.rs:324-428 | The first resolver other than the lane to win a pending record decides it for good, by the signal it sees before its own outcome |
| `AcquireOutcome.LaneDecides` | crates/easycon-controller/src/session.rs:3546-3632 | A free lane that finds the record pending decides by a signal, and without one by the very generation it grants next |
| `AcquireOutcome.DecidedIsDelivered` | crates/easycon-controller/src/session.rs:439-497 | A future polled after the outcome is published returns it, and one dropped then takes it along |
| `AcquireOutcome.ReleaseFrees` | crates/easycon-controller/src/session.rs:3899-3903 | A release ends the ownership of whoever has it, for a generation for good, and a lane that is owned is not taken over |
| `AcquireOutcome.UndecidedIsPending` | crates/easycon-controller/src/session.rs:324-497 | A request without an outcome is pending, being granted, or was given up by its future |
| `Report.LastWriterWins` | crates/easycon-controller/src/session.rs:143-155 | In any list of actions the last one that writes an input decides how it reads |
| `Report.UnwrittenStays` | crates/easycon-controller/src/session.rs:143-155 | An input nobody writes reads as before |
| `Report.ActWrites` | crates/easycon-controller/src/protocol.rs:62-90 | One mutation writes exactly the inputs it names; a button is one bit |
| `Report.SetBitWrites` | crates/easycon-controller/src/protocol.rs:62-65 | Pressing sets one bit of the mask, leaves the others and stays within sixteen bits |
| `Report.ClearBitWrites` | crates/easycon-controller/src/protocol.rs:67-70 | Releasing clears one bit of the mask and leaves the others |
| `Report.SwitchReport.Apply` | crates/easycon-controller/src/session.rs:143-155 | The mutable report takes an action as the value does: every input reads as written or as before |
| `Report.SwitchReport.IsNeutral` | crates/easycon-controller/src/protocol.rs:92-100 | Neutral means equal to the neutral report |
| `ReportCodec.Encode` | crates/easycon-controller/src/protocol.rs:104-131 | The packing loop fills eight chunks exactly, and the packet spells the number of the seven bytes in 7-bit digits with the end marked |
| `ReportCodec.WriteChunks` | crates/easycon-controller/src/protocol.rs:121-126 | The inner loop moves whole 7-bit chunks out of the accumulator and changes nothing of what has been packed |
| `ReportCodec.Packet` | crates/easycon-controller/src/protocol.rs:104-131 | A packet has seven bytes below 0x80 and a last one with the high bit |
| `ReportCodec.RoundTrip` | crates/easycon-controller/src/protocol.rs:104-131 | Decoding a packet gives a report if and only if the packet is that report's encoding |
| `ReportCodec.StreamIsUnambiguous` | crates/easycon-controller/src/protocol.rs:104-131 | Two lists of reports have the same encoded stream if and only if they are the same list |
| `ReportCodec.StreamSplits` | crates/easycon-controller/src/protocol.rs:129-130 | Cutting a stream after every marked byte gives back the packets of its reports |
| `WireFormat.PacketSpells` | crates/easycon-controller/src/protocol.rs:104-131 | The eight bytes of a packet are the 7-bit digits of one number whose fields are the mask, the hat and the four axes, with the end marked |
| `WireFormat.SpellingIsPacket` | crates/easycon-controller/src/protocol.rs:104-131 | Eight bytes that spell that number are the packet |
| `WireFormat.ButtonIsItsMask` | crates/easycon-model/src/controller.rs:3-90 | Every button sets the one bit of the mask it is named for |
| `WireFormat.VectorsAreEncoded` | spec/fixtures/controller/reports-v1.json:18-128 | The vectors kept for the protocol are what the model encodes |
| `WireFormat.SaveHeaderBytes` | crates/easycon-controller/src/amiibo.rs:121-141 | The bytes of a save header, one by one |
| `ReportCodec.HatOf` | crates/easycon-model/src/controller.rs:109-125 | A hat value is known up to eight and read back as the hat it is the value of |
| `SequencePlan.SequenceIsValid` | crates/easycon-controller/src/sequence.rs:37-66 | A sequence exists exactly if it is not empty, not too long, nowhere goes backwards and has no step past the limit |
| `SequencePlan.LeastFeasibleSchedule` | crates/easycon-controller/src/session.rs:3052-3105 | The planned starts respect every target, the spacing and the last acceptance, and any starts that do are pointwise no earlier |
| `SequencePlan.SpacedWithoutSaturation` | crates/easycon-controller/src/session.rs:3060-3087 | Where no sum saturates, starts are at least the whole interval apart and after the last acceptance |
| `SequencePlan.OneReportPerOffset` | crates/easycon-controller/src/session.rs:3055-3103 | There is one report for each distinct offset, in order, and exactly the last is final |
| `SequencePlan.CoalescedReports` | crates/easycon-controller/src/session.rs:3063-3066 | A planned report is the fold of every step up to its offset |
| `SequencePlan.PlanFailsByOverflow` | crates/easycon-controller/src/session.rs:3067-3081 | Planning fails if and only if the last target does not fit in 64 bits |
| `SequencePlan.GroupsFlat` | crates/easycon-controller/src/session.rs:3055-3058 | Grouping by offset loses and reorders no step |
| `LaneQueue.QueueIsFolded` | crates/easycon-controller/src/session.rs:3973-4128 | Over every run the queued reports are the prefix folds of the queued mutations over one base, the desired report is the whole fold, cleanups stand in front, and the base is the last accepted report or neutral, and neutral behind a cleanup |
| `LaneQueue.CleanupFolds` | crates/easycon-controller/src/session.rs:4000-4081 | After a cancel or failure cleanup a neutral of the operation is in front and everything behind it is folded over neutral |
| `LaneQueue.RemovedLeavesNoTrace` | crates/easycon-controller/src/session.rs:3973-4081 | What a cleanup queues does not depend on the removed operation's mutation or any report it had a part in |
| `LaneQueue.NoOperationIsLost` | crates/easycon-controller/src/session.rs:2828-3105 | Over every run an operation given to the lane is queued, waiting or settled |
| `LaneLease.LeaseIsHeldOnTheLane` | crates/easycon-controller/src/session.rs:4178-4216 | Over every run whoever holds the write lease is still on the lane, was told nothing yet, and has nothing on it that would not give the lease back |
| `LaneLease.SequencesHoldTheLease` | crates/easycon-controller/src/session.rs:3014-3050 | A sequence that waits or plays holds the lease |
| `LaneLease.ToldGivesBack` | crates/easycon-controller/src/session.rs:5315-5319 | An operation that was told anything does not hold the lease, and an empty lane is free |
| `LaneSchedule.SequenceKeepsItsTime` | crates/easycon-controller/src/session.rs:3014-3067 | Over every run each queued report of a sequence has for target the instant its command was handled plus the offset of one of its steps, however long it waited |
| `LaneSchedule.SequencePlaysItsPlan` | crates/easycon-controller/src/session.rs:3052-3125 | What is queued of a sequence is the rest of the plan from that instant over the report shown and the last acceptance when it was scheduled |
| `LaneBase.BaseIsExact` | crates/easycon-controller/src/session.rs:3973-4128 | Over every run what the next report is folded over is the last report the device took, or neutral if the lane reset it since |
| `LaneStream.StreamIsExact` | crates/easycon-controller/src/session.rs:4308-4410 | Over every run the lane is connected exactly if a connection was made and no close or loss ended it since, and broken exactly if a close failed |
| `LaneStream.BrokenIsFinal` | crates/easycon-controller/src/session.rs:5199-5240 | A broken lane holds nothing, never connects again and strictly fails every command; without a failed close nobody is strictly failed |
| `LaneStream.CommandsAreAnswered` | crates/easycon-controller/src/session.rs:2828-3032 | What a command is told at once, check by check; if nothing, it is on the lane, and a sequence has the lease |
| `LaneStream.WritesExactly` | crates/easycon-controller/src/session.rs:4083-4128 | A pass writes if and only if its head is due, the interval is over, and it is a cleanup or not cancelled; the loop goes on after a write or a due cancelled head, and otherwise stops |
| `LaneCancel.SeenCancelledIsNeverWritten` | crates/easycon-controller/src/session.rs:3940-3991 | Once the lane has seen an operation cancelled only neutral cleanups are left of it, in any run that follows, and it is never told that it succeeded |
| `LaneCancel.RefusedIsNeverWritten` | crates/easycon-controller/src/session.rs:4308-4360 | The same holds once the device refused a report of it |
| `LaneFailures.FailuresAreTrue` | crates/easycon-controller/src/session.rs:4308-4410 | Nobody is failed who was not refused, without a plan, refused by the device and not by its cancel, or on the lane when the stream was lost |
| `LaneSettlement.OperationEndsAsTold` | crates/easycon-controller/src/session.rs:4145-4196 | An operation that was given to the lane, is off it again and has no call of its own under way ended in success if and only if the lane told it success and no strict failure was recorded, which is if and only if a gate of it was accepted and none was; a strict failure is the result if there is one |
| `LaneSettlement.EveryOperationEnds` | crates/easycon-controller/src/session.rs:4083-4490 | In every interleaving of the lane with the backend, cancellers, leases and a close, such an operation has ended, and its owner is spent |
| `LaneSettlement.CloseEndsEverything` | crates/easycon-controller/src/session.rs:5000-5183 | A close at any point of any run tells exactly the operations on the lane and the reports heard of on the way out, all of them the same; and whatever follows, every operation the lane was ever given has ended as soon as its own calls are done |
| `LaneSettlement.StepKeepsInv` | crates/easycon-controller/src/session.rs:4083-4490 | Every step of anybody keeps it that nothing can accept a write that is not in flight, and that whoever was told a result has let go of its owner |
| `LaneProgress.LaneIsNeverStuck` | crates/easycon-controller/src/session.rs:4134-4196 | At every point of every run a lane with a write in flight has a next step and can take it; nobody's steps, however many, add to the six it has left at most; and once it has taken as many as it had left it is back at its queue |
| `LaneRecord.StageStays` | crates/easycon-controller/src/session.rs:579-832 | Nobody but the lane can make a record accept a write that is not in flight, or take an acceptance from the lane other than by a strict failure |
| `LaneRecord.NoSetback` | crates/easycon-controller/src/session.rs:4134-4196 | No step of anybody but the lane adds to the steps a write has left |
| `LaneVerdicts.OneVerdictEach` | crates/easycon-controller/src/session.rs:4163-4490 | Over every run no operation is told two different verdicts, and none is told one while it is still queued or waiting |
| `LaneVerdicts.VerdictsAreTrue` | crates/easycon-controller/src/session.rs:4163-4294 | Success is told exactly to operations whose direct or last sequence report was accepted, cancellation only to operations somebody cancelled |
| `LaneQueue.StepKeepsQueue` | crates/easycon-controller/src/session.rs:2899-4294 | Commands, cancellations, passes of the dispatch loop, failures and lost streams all keep the queue folded, and a scheduled sequence alone in it |
| `LeasedLane.LeasedOperationEnds` | crates/easycon-controller/src/session.rs:3676-3704 | Every action of a lease the lane was given, off it again and with no call of its own under way, has ended, was told one thing only, and ended in success if and only if that was success and no strict failure was recorded, which is if and only if a gate of it was accepted and none was |
| `LeasedLane.DroppedGenerationSettles` | crates/easycon-controller/src/session.rs:3681-3704 | Once the lane has dropped a sealed generation's reports only those of ended operations stay; with no cleanup left and no call under way every action of it has ended, so the release is not kept waiting |
| `LeasedVerdicts.LeaseVerdictsAreTrue` | crates/easycon-controller/src/session.rs:3905-3970 | No action of a lease is told that it was cancelled or failed without a cause in the run: its cancel, the seal, a refused write by its cancel or not, a refused command, the loss or close of the lane |
| `LeasedVerdicts.LeaseCommandIsAnswered` | crates/easycon-controller/src/session.rs:2828-2975 | What a command of a lease is told at once, check by check; if nothing, it runs and its report is queued last |
| `LeasedVerdicts.SealedIsAsked` | crates/easycon-controller/src/session.rs:1364-1372 | A generation is sealed exactly from the first request on |
| `LeasedVerdicts.SeenCancelledLeaves` | crates/easycon-controller/src/session.rs:3905-3991 | A cancelled report the lane sees leaves the queue and its operation is told so if the generation is sealed, and otherwise has its cleanup in front |
| `LeasedProgress.LeasedWriteEnds` | crates/easycon-controller/src/session.rs:4083-4294 | A write of a lease has at most six steps left; its next step is there, can be taken and brings it nearer to its end, and nothing anybody else does takes it further away |
| `LeasedProgress.WrittenOnce` | crates/easycon-controller/src/session.rs:4083-4360 | However a write of an action ends, its report is off the queue for good |
| `LeasedProgress.RefusedIsCleanedUp` | crates/easycon-controller/src/session.rs:4308-4410 | A write refused while the lease goes on leaves the cleanup of its operation in front, and no other entry is lost |
| `LeasedLane.StepKeepsInv` | crates/easycon-controller/src/session.rs:3919-3994 | Commands, sealing, observed cancellations, dropped, written and refused reports, cleanups and drains all keep every leased action queued once or told once |
| `LaneObject.ControllerLane.RebuildPendingAfterNeutral` | crates/easycon-controller/src/session.rs:4071-4081 | The loop refolds every mutation in the queue over neutral, in place |
| `LaneObject.ControllerLane.ScheduleCleanup` | crates/easycon-controller/src/session.rs:4000-4069 | A paced neutral goes in front of the refolded queue |
| `LaneObject.ControllerLane.HandleDirect` | crates/easycon-controller/src/session.rs:2828-2930 | A direct action is settled by the first check it fails, or queued with its fold and its paced target |
| `LaneObject.PlanSequence` | crates/easycon-controller/src/session.rs:3052-3104 | The planning loop computes the plan, or reports that a target overflows |
| `LaneObject.ControllerLane.ScheduleSequence` | crates/easycon-controller/src/session.rs:3052-3105 | The planned reports are queued; after an overflow they are out again and a failure cleanup is in front |
| `LaneObject.ControllerLane.HandleSequence` | crates/easycon-controller/src/session.rs:2977-3032 | A sequence takes the lease and is scheduled, or waits for the queue to empty |
| `LaneObject.ControllerLane.ActivateWaitingSequence` | crates/easycon-controller/src/session.rs:3034-3050 | A waiting sequence is scheduled, or cleaned up if cancelled, once the queue is empty |
| `LaneObject.ControllerLane.ObserveCancellation` | crates/easycon-controller/src/session.rs:3948-3994 | The first cancelled operation leaves the queue with all its reports and a cleanup takes their place |
| `LaneObject.ControllerLane.DrainPending` | crates/easycon-controller/src/session.rs:5204-5214 | Everything queued and waiting is settled the same way and gone |
| `LaneObject.ControllerLane.FailPendingDisconnected` | crates/easycon-controller/src/session.rs:4747-4799 | A lost device fails the queue, strictly if the stream cannot be closed, and frees the lease of a sequence in it |
| `LaneObject.ControllerLane.SealAfterCleanupFailure` | crates/easycon-controller/src/session.rs:5199-5223 | A failed close fails everything strictly and breaks the lane for good |
| `LaneObject.ControllerLane.HandleReportWriteFailure` | crates/easycon-controller/src/session.rs:4308-4397 | A refused report goes with its operation, and a cleanup takes its place |
| `LaneObject.ControllerLane.HandleCleanupFailure` | crates/easycon-controller/src/session.rs:4427-4490 | An undelivered cleanup settles its operation, and the queue is refolded or failed with the device |
| `LaneObject.ControllerLane.RecordAcceptance` | crates/easycon-controller/src/session.rs:4163-4291 | An accepted report moves the last acceptance and settles its operation as its completion says |
| `LaneObject.ControllerLane.DispatchOnce` | crates/easycon-controller/src/session.rs:4083-4294 | One pass does what is specified, and writes only a due head after the interval |
| `LaneObject.ControllerLane.DispatchDueReports` | crates/easycon-controller/src/session.rs:4083-4294 | The loop is its passes, up to the one that stops it |
| `Pacing.ReportsArePaced` | crates/easycon-controller/src/session.rs:4119-4128 | Over every run each dispatched report, and the neutral of a close, starts at least the interval after every earlier acceptance |
| `Pacing.CloseIsLast` | crates/easycon-controller/src/session.rs:5071-5183 | After the neutral of its close the lane writes nothing |
| `LanePacing.LaneIsPaced` | crates/easycon-controller/src/session.rs:4083-4294 | Over every run of the lane itself, sequences, cleanups, refusals and losses included, each write starts at least the interval after every earlier acceptance |
| `LanePacing.RunPaces` | crates/easycon-controller/src/session.rs:4115-4128 | What a run of the lane writes is what its passes write in the pacing machine |
| `Pacing.ReleasePacedExactly` | crates/easycon-controller/src/session.rs:3751-3776 | A release neutral is spaced at every instant at which it may start if and only if nothing was accepted since its target was fixed, or the interval after the last acceptance is over by the first of those instants |
| `Pacing.AcceptanceBreaksPacing` | crates/easycon-controller/src/session.rs:3769-3797 | Right after an acceptance a pending release may start at once, and is then too early |
| `Amiibo.NewLimits` | crates/easycon-controller/src/amiibo.rs:31-45 | Limits exist exactly within 1 to 256 slots and 1 to 16384 bytes |
| `Amiibo.AcknowledgedExactly` | crates/easycon-controller/src/session.rs:3288-3331 | An exchange is acknowledged if and only if a frame of its generation and expected byte comes after late frames only, and it is not cancelled |
| `Amiibo.SavedExactly` | crates/easycon-controller/src/session.rs:3146-3236 | Whatever fails and is retried, a device that takes acknowledged chunks in order holds exactly the data after a successful save, and exactly the completed chunks after a failed one |
| `Amiibo.AttemptsAreBounded` | crates/easycon-controller/src/session.rs:3163-3222 | A chunk is tried at most once more than its retries |
| `Amiibo.GenerationsIncrease` | crates/easycon-controller/src/session.rs:3277-3281 | Exchanges that are sent have strictly increasing generations |
| `AmiiboProtocol.FirstAnswerDecides` | crates/easycon-controller/src/session.rs:3288-3331 | The first reply that is not a late frame decides an exchange, and how |
| `AmiiboProtocol.SaveGoesByItsRules` | crates/easycon-controller/src/session.rs:3146-3331 | Every exchange of a save is the one that must follow those before it, and the save ends where its rules end it: a chunk that ends in a timeout or a protocol error is reset and tried again as long as it has retries left |
| `AmiiboProtocol.GivenUpOnlyThen` | crates/easycon-controller/src/session.rs:3183-3222 | A save given up with a timeout or a protocol error has used up all retries of that chunk or failed in its reset |
| `AmiiboProtocol.SurvivedFailures` | crates/easycon-controller/src/session.rs:5489-5494 | An exchange that failed and was followed by another had ended in a timeout or a protocol error and is followed by the reset |
| `Amiibo.AmiiboLane.WaitForAck` | crates/easycon-controller/src/session.rs:3288-3331 | The frame loop passes over late frames and ends as specified |
| `Amiibo.AmiiboLane.ExchangeAck` | crates/easycon-controller/src/session.rs:3266-3332 | One exchange uses one generation unless cancelled before it begins, and is logged with its result |
| `Amiibo.AmiiboLane.SaveChunk` | crates/easycon-controller/src/session.rs:3163-3222 | The retry loop tries a chunk as `AmiiboProtocol.SaveGoesByItsRules` says |
| `Amiibo.AmiiboLane.HandleAmiiboSave` | crates/easycon-controller/src/session.rs:3146-3236 | The save counts the chunks acknowledged in one try and stops at the first it has to give up |
| `Close.CloseDrainsEverything` | crates/easycon-controller/src/session.rs:5000-5176 | Exactly the operations found or heard of are settled, strictly if the transport did not close and by cancellation if it did |
| `Close.CloseAnswersCallers` | crates/easycon-controller/src/session.rs:4851-4878 | Exactly the acquisitions and close callers heard of are answered |
| `Close.CloseAnswersReleases` | crates/easycon-controller/src/session.rs:4854-4875 | Every release begun or heard of is completed by the lane, as long as a generation has one record |
| `Close.OneNeutral` | crates/easycon-controller/src/session.rs:5071-5148 | At most one neutral is written, only on a connected lane, and when exactly |
| `CloseHearing.CloseHearsAndWrites` | crates/easycon-controller/src/session.rs:5000-5148 | Exactly what a close hears, in order, which release it settles, and whether it writes its neutral, told from the lane and what the outside does |
| `CloseHearing.CloseKeepsOrder` | crates/easycon-controller/src/session.rs:5038-5176 | What has a record is settled first, in the order it is found and as often; callers are answered in the order heard |
| `CloseHearing.CloseInventsNoRelease` | crates/easycon-controller/src/session.rs:4854-4875 | Only releases begun or asked for are completed |
| `Close.SortedOnce` | crates/easycon-controller/src/session.rs:5065-5066 | Sorting and deduplicating loses no operation and leaves them in strictly ascending order |
| `Close.ClosingLane.CollectCommand` | crates/easycon-controller/src/session.rs:4801-4879 | A command taken in during close goes on the list of its kind |
| `Close.ClosingLane.CollectCommands` | crates/easycon-controller/src/session.rs:5038-5052 | All of them do, in order |
| `Close.ClosingLane.SettleAutomationCleanup` | crates/easycon-controller/src/session.rs:4917-4998 | A release is completed after at most one neutral, with everything heard in its wait collected |
| `Close.ClosingLane.NeutralizeOnce` | crates/easycon-controller/src/session.rs:5073-5148 | The one neutral of a close is the release's, or the plain one if there is none |
| `Close.ClosingLane.SettleEverything` | crates/easycon-controller/src/session.rs:5149-5176 | All three lists are settled with one verdict |
| `Close.ClosingLane.CloseAll` | crates/easycon-controller/src/session.rs:5000-5183 | Close as it runs gives the specified result |
| `CancellationTree.ClosedReachesChildren` | crates/easycon-runtime/src/cancellation.rs:143-176 | With no call in flight a live child linked under a cancelled or deactivated node is cancelled or deactivated itself, whatever raced |
| `CancellationCauses.FinishedCancelCancels` | crates/easycon-runtime/src/cancellation.rs:253-286 | A cancel that is done has cancelled its node, whatever else went on, unless somebody had deactivated it |
| `CancellationCauses.FinishedDeactivateDeactivates` | crates/easycon-runtime/src/cancellation.rs:253-268 | A deactivation that is done has deactivated its node |
| `CancellationCauses.ClosedIsAsked` | crates/easycon-runtime/src/concurrency.rs:16-46 | A node is inactive only if it was deactivated, and cancelled only if it was cancelled or one above it was cancelled or deactivated |
| `CancellationCauses.HookRunsIfCancelled` | crates/easycon-runtime/src/cancellation.rs:212-251 | A hook runs only if its node was cancelled, and so only if that was asked for |
| `CancellationCauses.FinishedAdmissionLinks` | crates/easycon-runtime/src/cancellation.rs:143-176 | An admission that is done has linked its child, unless the parent is closed |
| `CancellationTree.CollectedHooksRunAfterTraversal` | crates/easycon-runtime/src/cancellation.rs:31-45 | A seal runs a hook only when its traversal is over and every child it took is closed |
| `CancellationOrder.ChildrenBeforeHooks` | crates/easycon-runtime/src/concurrency.rs:16-46 | A live child that a seal finds listed when it takes the children of a node is closed by the time the seal runs a hook, whatever happens in between |
| `CancellationOrder.AdmissionPrunes` | crates/easycon-runtime/src/cancellation.rs:150-159 | An admission first leaves exactly the live active children on the list of the parent, in order |
| `CancellationClaims.SealsTerminate` | crates/easycon-runtime/src/concurrency.rs:16-46 | All seals of a run together get past no more items than five for each request and link in it |
| `CancellationClaims.EachNodeClaimedOnce` | crates/easycon-runtime/src/concurrency.rs:16-46 | Over any run a node is claimed for cancellation, and for deactivation, once if it ends so and did not start so, and otherwise never |
| `CancellationTree.RunKeepsTree` | crates/easycon-runtime/src/cancellation.rs:143-176 | An open live child of a closed parent is always on the way of some seal |
| `CancellationHooks.HooksRunAtMostOnce` | crates/easycon-runtime/src/cancellation.rs:212-251 | A registered hook runs at most once in any run |
| `CancellationHooks.CancelledHookRuns` | crates/easycon-runtime/src/cancellation.rs:77-108 | With no call in flight the hook of a cancelled, never deactivated node has run exactly once, unless its guard was gone when it was looked at or the propagation holding it was dropped, and then it has not run |
| `CancellationProgress.NoDeadlock` | crates/easycon-runtime/src/cancellation.rs:143-286 | In every reachable state with a call in flight some call can make its next step |
| `CancellationProgress.ChildrenUnblock` | crates/easycon-runtime/src/cancellation.rs:143-176 | The call a seal waiting for the children of a node depends on can move, and holds a mutex of that node or of one further down the tree |
| `CancellationObject.UpgradedIsFilter` | crates/easycon-runtime/src/cancellation.rs:102-108 | What the list loops of a node keep is what the steps of the tree keep |
| `CancellationObject.CancellationInner.ClaimCancel` | crates/easycon-runtime/src/cancellation.rs:77-79 | Exactly the caller that finds the flag clear wins |
| `CancellationObject.CancellationInner.ClaimDeactivate` | crates/easycon-runtime/src/cancellation.rs:81-83 | Exactly the caller that finds the node active wins |
| `CancellationObject.CancellationInner.TakeActiveHooks` | crates/easycon-runtime/src/cancellation.rs:85-94 | The list is emptied and every entry is in exactly one of the two lists, in order, by its guard |
| `CancellationObject.CancellationInner.TakeDiscardedHooks` | crates/easycon-runtime/src/cancellation.rs:96-99 | All entries are discarded |
| `CancellationObject.CancellationInner.TakeLiveChildren` | crates/easycon-runtime/src/cancellation.rs:101-107 | The list is emptied and its live children are handed out in order |
| `CancellationObject.CancellationInner.PruneChildren` | crates/easycon-runtime/src/cancellation.rs:150-159 | Live active children stay listed, and every live one is held until the mutex is free |
| `CancellationObject.CancellationInner.TryChild` | crates/easycon-runtime/src/cancellation.rs:143-176 | A child is admitted exactly by an active, uncancelled node, and is then last on the pruned list; the list is pruned in any case |
| `CancellationObject.CancellationInner.RegisterHook` | crates/easycon-runtime/src/cancellation.rs:212-251 | A hook is run, dropped, or stored last behind the entries still guarded |
| `Clock.WakeOrderIsWoken` | crates/easycon-runtime/src/clock.rs:98-159 | Over every run a deadline is woken if and only if its target is not in the future, and the wake order lists exactly the woken ids, each once |
| `Clock.DistinctIdsExactly` | crates/easycon-runtime/src/clock.rs:185-200 | Ids are distinct if and only if there are at most 2^64 - 1 of them |
| `Clock.Confluence` | crates/easycon-runtime/src/clock.rs:98-129 | Advancing through any increasing list of instants gives the state of one jump to the last |
| `Clock.WakeOrderIsByTarget` | crates/easycon-runtime/src/clock.rs:143-159 | Two sleeping deadlines are woken in the order of target and then registration, however the run goes on |
| `Clock.RunKeepsInv` | crates/easycon-runtime/src/clock.rs:98-210 | Every operation keeps the wake order a rearrangement of the woken ids |
| `ClockTrace.DeadlineHistory` | crates/easycon-runtime/src/clock.rs:185-210 | Over any run a deadline keeps its target and the next id it was given, and its trace shows the last dispatch recorded under it |
| `ClockTrace.RefusalIsSingle` | crates/easycon-runtime/src/clock.rs:185-189 | A registration is refused only at the end of the ids, and the next one goes through |
| `ClockObject.VirtualClock.WakeDue` | crates/easycon-runtime/src/clock.rs:143-159 | The loop wakes exactly what is due and lists it by target and id |
| `ClockObject.VirtualClock.AdvanceTo` | crates/easycon-runtime/src/clock.rs:98-110 | Time never moves backwards; an attempt panics and changes nothing |
| `ClockObject.VirtualClock.AdvanceBy` | crates/easycon-runtime/src/clock.rs:116-129 | An advance by a duration is one to the sum, and panics without effect if that overflows |
| `ClockObject.VirtualClock.RegisterDeadline` | crates/easycon-runtime/src/clock.rs:185-201 | A deadline is registered under the next id and is woken at once if due; id 0 is refused and used up |
| `ClockObject.VirtualClock.RecordDispatch` | crates/easycon-runtime/src/clock.rs:202-210 | The first deadline of the id is marked, no other |
| `LaneObject.DispatchIsPaced` | crates/easycon-controller/src/session.rs:4115-4128 | A pass writes only a due head, no earlier than the interval after the last acceptance, and records the acceptance |
| `LaneObject.LoopStopsWhenNothingIsDue` | crates/easycon-controller/src/session.rs:4083-4128 | The dispatch loop is a run of passes, and as long as it is given turns it stops only when the queue is empty or its head is due later than the clock it last read |
| `LeaseObject.SealCancelsOnlyUndispatched` | crates/easycon-controller/src/session.rs:1450-1475 | Sealing cancels exactly the actions the backend never saw |
| `Pacing.UnpacedReleaseRun` | crates/easycon-controller/src/session.rs:3756-3776 | A run in which a release neutral starts with the acceptance before it |
| `Amiibo.HeaderRoundTrip` | crates/easycon-controller/src/amiibo.rs:121-133 | A save header decodes to its slot, offset and length if and only if the offset is below the protocol's maximum |
| `PartialWrite.RejectedMakesNoCall` | crates/easycon-controller/src/session.rs:4571-4576 | A write whose gate cannot be dispatched fails without a call and without a close |
| `PartialWrite.AcceptedYetFailed` | crates/easycon-controller/src/session.rs:4636-4643 | A write that fails on an accepted gate and leaves the stream open exists |
| `ReleaseRegistry.CompletionAfterOwnershipLoss` | crates/easycon-controller/src/session.rs:1165-1189 | A run in which a release is completed after ownership loss |

## Left out

- Automation reports in the queue machine: `LaneQueue` covers direct reports, sequences and cleanups without an automation lease. `LeasedLane` covers which reports of a lease are queued, taken out and settled, but not what they say or when they are due: once a generation is sealed they leave the queue without a refold.
- Lane behaviour in `Lease`: the lane may try any action it was ever sent at any time, which is more than the queue lets it do.
- LaneSettlement.EveryOperationEnds: the lane's thread is taken to live; what happens to a record when it dies is `SettlementObjects.JoinTakeoverEnds`. Neutral cleanups and the earlier reports of a sequence go through gates of their own that no record reserves, so their writes are one step, and so is a close, whose settling calls come at its end.
- LeasedLane.LeasedOperationEnds: the generation's gate is only the fact that it is sealed; its admissions and the one release are in `Lease`, and the two are not joined.
- Lease.NoReportAfterNeutral: the half about close says only that closing is the last thing the lane does; the drain itself is the subject of `Close`.
- CancellationTree.CollectedHooksRunAfterTraversal: that the list of the traversal is empty is how the step is defined; that every child it took is closed by then is what is proved.
- SettlementObjects.OperationObject.Cancel: operations without an owner, which move to cancelling at once, are not modelled.
- SettlementObjects.OperationObject.FinishClaim: a cleanup of the runtime's own that fails while the operation is finished is not modelled.
- LaneObject.ControllerLane.HandleDirect: actions of an automation lease are handled in `LeasedLane`, on values.
- LaneObject.ControllerLane.ObserveCancellation: sealed generations, deferred commands and the cancellation of the whole resource are not part of the queue machine.
- LaneObject.ControllerLane.HandleReportWriteFailure: the same for the report of an automation lease.
- LaneObject.ControllerLane.SealAfterCleanupFailure: the automation release it completes and the projection onto releases are in `ReleaseRegistry`.
- Amiibo.AmiiboLane.HandleAmiiboSave: the device's preparation and the final settling of the operation are not modelled.
- Close.ClosingLane.SettleAutomationCleanup: says that the release is completed, not with which outcome; that is `Release.CommittedStays` and `ReleaseRegistry`.
- Close.ClosingLane.SettleEverything: an operation without a settlement record that is not being cancelled gets the same verdict, where the code finishes it only while it is being cancelled.
- CancellationObject.CancellationInner.RegisterHook: the call by itself; its races are in `CancellationHooks`.
- Pacing.ReportsArePaced: requires that the last acceptance plus the interval fits in 64 bits, because the code saturates that sum.
- Close.CloseAnswersReleases: takes the one-record-per-generation fact as a condition on the commands, because the lane and the generation are separate machines.
- CancellationTree.ClosedReachesChildren: speaks of children whose token still lives, because a dropped one cannot be reached through its weak reference.
- Weak memory: acquire, release and acquire-release accesses are taken as sequentially consistent.
- The legacy paths for operations without a settlement record (connect, acknowledged commands, Amiibo selection) beyond their settling at close, and the branches for a settlement owner passed beside the record, which is never built.
- Connection handshake, baud fallback, and the cleanup reset after a failed or cancelled Amiibo save.
- `TaskLifecycleState`, task joining, and the supervision of the lane thread: a short state machine without races of its own.
- Events, snapshots, detail strings, error domains and timing telemetry: observers only.
- Panic containment, poisoned locks and forgotten panic payloads; the lane's death is modelled only as the ownership loss it causes.
- Real waiting, thread spawn and the clock's change hooks: readings of a monotone clock take their place.
- The write sequence counter and the acknowledgement generation counter panicking at 2^64.
- Serial ports, FFI, file identity and vision.
