/**
 * One logical write over a transport that takes bytes in pieces
 * (crates/easycon-controller/src/session.rs, `write_payload_with_cancellation` and
 * `settle_failed_write`).
 *
 * The transport is any function from the number of the call to its reply. Within a call the backend
 * may use the write's gate as it likes: reserve the full acceptance and publish it, in any order and
 * number. Nothing else touches the gate while the write runs.
 */
module PartialWrite {
  import opened Wrappers
  import opened WriteGate

  datatype BackendCall = Reserve(answer: bool) | PublishAt(acceptedAtNs: nat)

  datatype Answer = Taken(accepted: nat) | Error(error: nat, reusable: bool)

  datatype Reply = Reply(touches: seq<BackendCall>, answer: Answer)

  // How a failed close reports itself, were the stream to be closed.
  datatype Closing = Closes | CloseFails(failure: nat)

  // Why the loop ended. The three errors of its own have codes of their own.
  datatype Ending =
    | NotDispatchable
    | AllTaken
    | AcceptedAnyway
    | TransportFailed(error: nat, reusable: bool)
    | InvalidLength
    | Unsettled

  const GATE_ERROR: nat := 0
  const LENGTH_ERROR: nat := 1
  const UNSETTLED_ERROR: nat := 2

  function Touch(g: Gate, c: BackendCall): Gate {
    match c
    case Reserve(answer) => ReserveFullAcceptance(g, answer)
    case PublishAt(at) => Publish(g, at)
  }

  function TouchAll(g: Gate, calls: seq<BackendCall>): Gate
    decreases calls
  {
    if calls == [] then g else TouchAll(Touch(g, calls[0]), calls[1..])
  }

  datatype Progress = Progress(gate: Gate, written: nat, calls: nat, ending: Ending)

  // The loop from the state it is in on.
  function Loop(len: nat, gate: Gate, written: nat, calls: nat, transport: nat -> Reply): (p: Progress)
    requires written <= len
    ensures !p.ending.NotDispatchable?
    decreases len - written
  {
    if written == len then
      Progress(gate, written, calls, if IsFullAccepted(gate) then AllTaken else Unsettled)
    else
      var reply := transport(calls);
      var after := TouchAll(gate, reply.touches);
      match reply.answer
      case Error(error, reusable) =>
        Progress(after, written, calls + 1, if IsFullAccepted(after) then AcceptedAnyway else TransportFailed(error, reusable))
      case Taken(accepted) =>
        if accepted == 0 || accepted > len - written then Progress(after, written, calls + 1, InvalidLength)
        else Loop(len, after, written + accepted, calls + 1, transport)
  }

  // What is left when the write returns: the gate, how much the transport took in how many calls,
  // whether the stream was closed, and the error, if any.
  datatype Written = Written(gate: Gate, taken: nat, calls: nat, ending: Ending, closed: bool, error: Option<nat>)

  // `settle_failed_write`: a gate that cannot be settled non-full is left alone.
  function SettleFailed(p: Progress, error: nat, closeStream: bool, closing: Closing, earlier: Option<nat>): Written {
    if p.gate.phase != Outstanding && p.gate.phase != FullAcceptanceRejected then
      Written(p.gate, p.written, p.calls, p.ending, false, Some(error))
    else
      var settling := BeginNonFull(p.gate);
      if closeStream && closing.CloseFails? then
        var first := if earlier.Some? then earlier.value else closing.failure;
        Written(SettleNonFull(settling, CleanupFailed(first)), p.written, p.calls, p.ending, true, Some(closing.failure))
      else
        Written(SettleNonFull(settling, NotDeliveredStreamSettled(error)), p.written, p.calls, p.ending, closeStream, Some(error))
  }

  function Finish(p: Progress, closing: Closing, earlier: Option<nat>): Written {
    match p.ending
    case NotDispatchable => Written(p.gate, p.written, p.calls, p.ending, false, Some(GATE_ERROR))
    case AllTaken => Written(p.gate, p.written, p.calls, p.ending, false, None)
    case AcceptedAnyway => Written(p.gate, p.written, p.calls, p.ending, false, None)
    case TransportFailed(error, reusable) => SettleFailed(p, error, p.written != 0 || !reusable, closing, earlier)
    case InvalidLength => SettleFailed(p, LENGTH_ERROR, true, closing, earlier)
    case Unsettled => SettleFailed(p, UNSETTLED_ERROR, true, closing, earlier)
  }

  // The whole write. `earlier` is the cleanup failure already on record, if there is one.
  function Write(len: nat, gate: Gate, answer: bool, transport: nat -> Reply, closing: Closing,
                 earlier: Option<nat>): Written {
    var dispatched := MarkDispatched(gate, answer);
    if !Dispatches(gate, answer) then Finish(Progress(dispatched, 0, 0, NotDispatchable), closing, earlier)
    else Finish(Loop(len, dispatched, 0, 0, transport), closing, earlier)
  }

  // ---- What the backend can do to the gate -------------------------------------------------------------

  // Between dispatch and settlement.
  predicate InFlight(g: Gate) {
    WellFormed(g) && (g.phase in {Outstanding, FullAcceptedReserved, FullAcceptanceRejected} || g.outcome == Some(FullAccepted))
  }

  lemma {:induction false} TouchKeeps(g: Gate, calls: seq<BackendCall>)
    requires InFlight(g)
    ensures InFlight(TouchAll(g, calls))
    ensures IsFullAccepted(g) ==> IsFullAccepted(TouchAll(g, calls))
    decreases calls
  {
    if calls != [] { TouchKeeps(Touch(g, calls[0]), calls[1..]); }
  }

  // Every way the loop can end, and what is known then. Each call but the last took at least a byte.
  lemma {:induction false} LoopEnds(len: nat, gate: Gate, written: nat, calls: nat, transport: nat -> Reply)
    requires written <= len && InFlight(gate) && calls <= written && (calls == 0 <==> written == 0)
    ensures var p := Loop(len, gate, written, calls, transport);
            && InFlight(p.gate) && written <= p.written <= len && calls <= p.calls <= p.written + 1 && p.calls <= len
            && (p.ending.AllTaken? ==> p.written == len && IsFullAccepted(p.gate))
            && (p.ending.AcceptedAnyway? ==> IsFullAccepted(p.gate))
            && (p.ending.Unsettled? ==> p.written == len && !IsFullAccepted(p.gate))
            && (p.ending.TransportFailed? ==> !IsFullAccepted(p.gate) && (p.written == 0 <==> p.calls == 1))
            && !p.ending.NotDispatchable?
    decreases len - written
  {
    if written < len {
      var reply := transport(calls);
      TouchKeeps(gate, reply.touches);
      if reply.answer.Taken? && 0 < reply.answer.accepted <= len - written {
        LoopEnds(len, TouchAll(gate, reply.touches), written + reply.answer.accepted, calls + 1, transport);
      }
    }
  }

  predicate SettledNonFull(g: Gate) {
    g.phase == Settled && g.outcome != Some(FullAccepted)
  }

  // ---- Main results -----------------------------------------------------------------------------------------

  // A write that is not dispatchable reports an error and makes no call.
  lemma RejectedMakesNoCall(len: nat, gate: Gate, answer: bool, transport: nat -> Reply, closing: Closing,
                            earlier: Option<nat>)
    requires !Dispatches(gate, answer)
    ensures var w := Write(len, gate, answer, transport, closing, earlier);
            w.calls == 0 && w.taken == 0 && !w.closed && w.error == Some(GATE_ERROR) && w.gate == MarkDispatched(gate, answer)
  {
  }

  // The write ends after at most one call for each byte. Success means the gate has the full acceptance.
  lemma SuccessIsAccepted(len: nat, gate: Gate, answer: bool, transport: nat -> Reply, closing: Closing,
                          earlier: Option<nat>)
    requires WellFormed(gate)
    ensures var w := Write(len, gate, answer, transport, closing, earlier);
            && w.calls <= len && w.taken <= len
            && (w.error == None ==> IsFullAccepted(w.gate) && !w.closed)
            && (w.error == None && w.ending == AllTaken ==> w.taken == len)
  {
    if Dispatches(gate, answer) { LoopEnds(len, MarkDispatched(gate, answer), 0, 0, transport); }
  }

  // ---- Failure, read off what the transport does ------------------------------------------------------------

  // What the transport has taken before call `n`, if it took something each time.
  function TakenBefore(transport: nat -> Reply, n: nat): nat {
    if n == 0 then 0
    else TakenBefore(transport, n - 1) + if transport(n - 1).answer.Taken? then transport(n - 1).answer.accepted else 0
  }

  predicate ValidLength(len: nat, transport: nat -> Reply, n: nat) {
    transport(n).answer.Taken? && 0 < transport(n).answer.accepted && TakenBefore(transport, n + 1) <= len
  }

  // Every call before `n` takes a piece, and some bytes are left for it.
  predicate Reaches(len: nat, transport: nat -> Reply, n: nat) {
    TakenBefore(transport, n) < len && forall k: nat :: k < n ==> ValidLength(len, transport, k)
  }

  // The gate after the touches of the calls before `n`.
  function GateBefore(gate: Gate, transport: nat -> Reply, n: nat): Gate {
    if n == 0 then gate else TouchAll(GateBefore(gate, transport, n - 1), transport(n - 1).touches)
  }

  // Call `n` is made, returns a length that is none, and by then the backend has accepted the write.
  predicate InvalidAfterAcceptance(len: nat, gate: Gate, transport: nat -> Reply, n: nat) {
    && Reaches(len, transport, n)
    && transport(n).answer.Taken? && !ValidLength(len, transport, n)
    && IsFullAccepted(GateBefore(gate, transport, n + 1))
  }

  // A loop that has come to call `calls` ends in an invalid length exactly at a call like that, and with
  // the gate the calls up to it leave.
  lemma {:induction false} LoopTraces(len: nat, gate: Gate, calls: nat, transport: nat -> Reply)
    requires TakenBefore(transport, calls) <= len && forall k: nat :: k < calls ==> ValidLength(len, transport, k)
    ensures var p := Loop(len, GateBefore(gate, transport, calls), TakenBefore(transport, calls), calls, transport);
            p.ending == InvalidLength ==>
              && p.calls > 0 && Reaches(len, transport, p.calls - 1)
              && transport(p.calls - 1).answer.Taken? && !ValidLength(len, transport, p.calls - 1)
              && p.gate == GateBefore(gate, transport, p.calls)
    decreases len - TakenBefore(transport, calls)
  {
    if TakenBefore(transport, calls) < len && ValidLength(len, transport, calls) {
      LoopTraces(len, gate, calls + 1, transport);
    }
  }

  // And a transport with such a call brings the loop there.
  lemma {:induction false} LoopComesTo(len: nat, gate: Gate, calls: nat, transport: nat -> Reply, n: nat)
    requires calls <= n && Reaches(len, transport, n) && transport(n).answer.Taken? && !ValidLength(len, transport, n)
    requires TakenBefore(transport, calls) <= len
    ensures var p := Loop(len, GateBefore(gate, transport, calls), TakenBefore(transport, calls), calls, transport);
            p.ending == InvalidLength && p.gate == GateBefore(gate, transport, n + 1)
    decreases n - calls
  {
    TakenGrows(transport, calls, n);
    if calls < n {
      assert ValidLength(len, transport, calls);
      LoopComesTo(len, gate, calls + 1, transport, n);
    }
  }

  lemma {:induction false} TakenGrows(transport: nat -> Reply, m: nat, n: nat)
    requires m <= n
    ensures TakenBefore(transport, m) <= TakenBefore(transport, n)
  {
    if m < n { TakenGrows(transport, m, n - 1); }
  }

  // A dispatched write that fails settles its gate as not fully accepted, except for one kind of
  // transport: one that, having accepted the whole write, returns a length that is none. Nobody looks at
  // the gate on that path, so it stays accepted, and the stream open.
  lemma FailureSettles(len: nat, gate: Gate, answer: bool, transport: nat -> Reply, closing: Closing, earlier: Option<nat>)
    requires WellFormed(gate) && Dispatches(gate, answer)
    ensures var w := Write(len, gate, answer, transport, closing, earlier);
            w.error.Some? && !SettledNonFull(w.gate) <==>
              exists n: nat :: InvalidAfterAcceptance(len, MarkDispatched(gate, answer), transport, n)
  {
    var dispatched := MarkDispatched(gate, answer);
    var p := Loop(len, dispatched, 0, 0, transport);
    LoopEnds(len, dispatched, 0, 0, transport);
    LoopTraces(len, dispatched, 0, transport);
    if p.ending == InvalidLength && IsFullAccepted(p.gate) {
      assert InvalidAfterAcceptance(len, dispatched, transport, p.calls - 1);
    }
    if n: nat :| InvalidAfterAcceptance(len, dispatched, transport, n) {
      LoopComesTo(len, dispatched, 0, transport, n);
    }
  }

  // A failure that settles its gate has closed the stream first, unless the very first call failed on a
  // stream the backend vouches for; if that close failed, the gate and the error say so.
  lemma FailureCloses(len: nat, gate: Gate, answer: bool, transport: nat -> Reply, closing: Closing, earlier: Option<nat>)
    requires WellFormed(gate) && Dispatches(gate, answer)
    requires SettledNonFull(Write(len, gate, answer, transport, closing, earlier).gate)
    ensures var w := Write(len, gate, answer, transport, closing, earlier);
            && w.error.Some?
            && (w.closed <==> !(len > 0 && transport(0).answer.Error? && transport(0).answer.reusable))
            && (if w.closed && closing.CloseFails? then
                  && w.gate.outcome == Some(CleanupFailed(if earlier.Some? then earlier.value else closing.failure))
                  && w.error == Some(closing.failure)
                else w.gate.outcome == Some(NotDeliveredStreamSettled(w.error.value)))
  {
    var dispatched := MarkDispatched(gate, answer);
    LoopEnds(len, dispatched, 0, 0, transport);
    if len > 0 {
      var after := TouchAll(dispatched, transport(0).touches);
      TouchKeeps(dispatched, transport(0).touches);
      if ValidLength(len, transport, 0) {
        LoopEnds(len, after, transport(0).answer.accepted, 1, transport);
      }
    }
  }

  // A run in which a failed write leaves its gate accepted.
  lemma AcceptedYetFailed()
    ensures var transport := (n: nat) => Reply([Reserve(true), PublishAt(7)], Taken(0));
            var w := Write(8, Tracked(true, true, false), true, transport, Closes, None);
            w.error == Some(LENGTH_ERROR) && IsFullAccepted(w.gate) && !w.closed
  {
    var g := MarkDispatched(Tracked(true, true, false), true);
    var calls := [Reserve(true), PublishAt(7)];
    assert calls[1..] == [PublishAt(7)] && calls[1..][1..] == [];
    assert TouchAll(Touch(Touch(g, calls[0]), calls[1]), []) == Publish(ReserveFullAcceptance(g, true), 7);
    assert TouchAll(g, calls) == Publish(ReserveFullAcceptance(g, true), 7);
  }

  // ---- The loop as it runs -----------------------------------------------------------------------------------

  // The backend's part of one call.
  method PlayBackend(gate: WriteSettlement, calls: seq<BackendCall>)
    modifies gate
    ensures gate.View() == TouchAll(old(gate.View()), calls)
  {
    var i := 0;
    assert calls[0..] == calls;
    while i < |calls|
      invariant i <= |calls|
      invariant TouchAll(old(gate.View()), calls) == TouchAll(gate.View(), calls[i..])
      decreases |calls| - i
    {
      assert calls[i..][0] == calls[i] && calls[i..][1..] == calls[i + 1..];
      match calls[i] {
        case Reserve(answer) => var _ := gate.Reserve(answer);
        case PublishAt(at) => var _, _ := gate.PublishReserved(at);
      }
      i := i + 1;
    }
  }

  method SettleFailedWrite(gate: WriteSettlement, p: Progress, error: nat, closeStream: bool, closing: Closing,
                           earlier: Option<nat>)
    returns (w: Written)
    requires gate.View() == p.gate
    modifies gate
    ensures w == SettleFailed(p, error, closeStream, closing, earlier) && gate.View() == w.gate
  {
    var started := gate.StartNonFull();
    if !started {
      return Written(gate.View(), p.written, p.calls, p.ending, false, Some(error));
    }
    if closeStream && closing.CloseFails? {
      var first := if earlier.Some? then earlier.value else closing.failure;
      var _, _ := gate.Complete(CleanupFailed(first));
      return Written(gate.View(), p.written, p.calls, p.ending, true, Some(closing.failure));
    }
    var _, _ := gate.Complete(NotDeliveredStreamSettled(error));
    return Written(gate.View(), p.written, p.calls, p.ending, closeStream, Some(error));
  }

  // The loop: `sent` is what the transport took, piece by piece.
  method WriteBytes(bytes: seq<nat>, gate: WriteSettlement, transport: nat -> Reply) returns (p: Progress,
                    sent: seq<nat>)
    modifies gate
    ensures p == Loop(|bytes|, old(gate.View()), 0, 0, transport) && gate.View() == p.gate
    ensures p.written <= |bytes| && sent == bytes[..p.written]
  {
    var written, calls := 0, 0;
    sent := [];
    while written < |bytes|
      invariant written <= |bytes| && sent == bytes[..written]
      invariant Loop(|bytes|, old(gate.View()), 0, 0, transport) == Loop(|bytes|, gate.View(), written, calls, transport)
      decreases |bytes| - written
    {
      var reply := transport(calls);
      PlayBackend(gate, reply.touches);
      calls := calls + 1;
      if reply.answer.Error? {
        var accepted := gate.FullAcceptedOutcome();
        p := Progress(gate.View(), written, calls,
                      if accepted then AcceptedAnyway else TransportFailed(reply.answer.error, reply.answer.reusable));
        return;
      }
      var accepted := reply.answer.accepted;
      if accepted == 0 || accepted > |bytes| - written {
        p := Progress(gate.View(), written, calls, InvalidLength);
        return;
      }
      sent := sent + bytes[written..written + accepted];
      written := written + accepted;
    }
    var accepted := gate.FullAcceptedOutcome();
    p := Progress(gate.View(), written, calls, if accepted then AllTaken else Unsettled);
  }

  // The whole write. The transport has taken a prefix of the payload, whatever happened.
  method WritePayload(bytes: seq<nat>, gate: WriteSettlement, answer: bool, transport: nat -> Reply,
                      closing: Closing, earlier: Option<nat>)
    returns (w: Written, sent: seq<nat>)
    modifies gate
    ensures w == Write(|bytes|, old(gate.View()), answer, transport, closing, earlier)
    ensures gate.View() == w.gate
    ensures w.taken <= |bytes| && sent == bytes[..w.taken]
  {
    var dispatched := gate.Dispatch(answer);
    if !dispatched {
      w, sent := Written(gate.View(), 0, 0, NotDispatchable, false, Some(GATE_ERROR)), [];
      return;
    }
    var p: Progress;
    p, sent := WriteBytes(bytes, gate, transport);
    if p.ending.AllTaken? || p.ending.AcceptedAnyway? {
      w := Written(p.gate, p.written, p.calls, p.ending, false, None);
      return;
    }
    var error := match p.ending
      case TransportFailed(code, _) => code
      case InvalidLength => LENGTH_ERROR
      case _ => UNSETTLED_ERROR;
    var closeStream := p.ending.TransportFailed? ==> p.written != 0 || !p.ending.reusable;
    w := SettleFailedWrite(gate, p, error, closeStream, closing, earlier);
  }
}
