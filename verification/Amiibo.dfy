/**
 * Saving Amiibo data in acknowledged chunks: limits and headers
 * (crates/easycon-controller/src/amiibo.rs), the acknowledged exchange and the save with its retries
 * (crates/easycon-controller/src/session.rs).
 *
 * Whatever the transport, the clock and cancelling callers do is a script: a function from the number
 * of the exchange to everything that happens in it.
 */
module Amiibo {
  import opened Wrappers

  const CHUNK: nat := 20
  const PROTOCOL_MAX: nat := 16_384
  const READY: nat := 0xa5
  const SAVE: nat := 0x90
  const ACK: nat := 0xff
  const RESET_REPLY: nat := 0x80
  const RESET: seq<nat> := [0xa5, 0x81, 0xa5, 0x81, 0xa5, 0x81]

  datatype Limits = Limits(slotCount: nat, maximum: nat)

  function NewLimits(slotCount: nat, maximum: nat): (l: Option<Limits>)
    ensures l.Some? <==> 1 <= slotCount <= 256 && 1 <= maximum <= PROTOCOL_MAX
  {
    if slotCount == 0 || slotCount > 256 then None
    else if maximum == 0 || maximum > PROTOCOL_MAX then None
    else Some(Limits(slotCount, maximum))
  }

  // Where a chunk starts.
  function Offset(chunk: nat): nat {
    20 * chunk
  }

  // Each byte is what the cast to eight bits leaves.
  function SaveHeader(slot: nat, offset: nat, length: nat): seq<nat> {
    [READY, offset % 0x80, (offset / 0x80) % 0x100, length % 0x80, (length / 0x80) % 0x100, slot, SAVE]
  }

  datatype Header = Header(slot: nat, offset: nat, length: nat)

  // What a device reads in a save header: two numbers of two 7-bit digits.
  function DecodeHeader(h: seq<nat>): Option<Header> {
    if |h| == 7 && h[0] == READY && h[6] == SAVE && h[1] < 0x80 && h[2] < 0x80 && h[3] < 0x80 && h[4] < 0x80
    then Some(Header(h[5], h[1] + 0x80 * h[2], h[3] + 0x80 * h[4]))
    else None
  }

  // A header reads back as what was put in exactly below the protocol's maximum, which the limits keep
  // every offset under.
  lemma HeaderRoundTrip(slot: nat, offset: nat, length: nat)
    requires length <= CHUNK && offset < 0x8000
    ensures DecodeHeader(SaveHeader(slot, offset, length)) == Some(Header(slot, offset, length)) <==> offset < PROTOCOL_MAX
  {
  }

  // ---- One acknowledged exchange -------------------------------------------------------------------------

  datatype Kind = Timeout | WriteTimeout | Cancelled | Disconnected | Io | Protocol

  datatype Wait = Frame(generation: nat, byte: nat) | WaitFailed(kind: Kind)

  // `replies` run out as a timeout.
  datatype Script = Script(
    cancelledBefore: bool, writeError: Option<Kind>, cancelledAfter: bool, replies: seq<Wait>, cancelledAtEnd: bool)

  // The result of an exchange; None is success.
  function Await(replies: seq<Wait>, generation: nat, expected: nat, cancelled: bool): Option<Kind> {
    if replies == [] then Some(if cancelled then Cancelled else Timeout)
    else
      match replies[0]
      case WaitFailed(kind) => Some(if cancelled then Cancelled else kind)
      case Frame(g, byte) =>
        if g < generation then Await(replies[1..], generation, expected, cancelled)
        else if g == generation && byte == expected then (if cancelled then Some(Cancelled) else None)
        else Some(Protocol)
  }

  // An exchange is acknowledged exactly by a frame of its own generation and expected byte, with
  // nothing but late frames of earlier exchanges before it.
  lemma {:induction false} AcknowledgedExactly(replies: seq<Wait>, generation: nat, expected: nat, cancelled: bool)
    ensures Await(replies, generation, expected, cancelled) == None <==>
              && !cancelled
              && exists k: nat :: k < |replies| && replies[k] == Frame(generation, expected)
                   && forall j :: 0 <= j < k ==> replies[j].Frame? && replies[j].generation < generation
  {
    if replies != [] {
      var first := replies[0];
      AcknowledgedExactly(replies[1..], generation, expected, cancelled);
      if first.Frame? && first.generation < generation {
        if k: nat :| k < |replies[1..]| && replies[1..][k] == Frame(generation, expected)
                     && forall j :: 0 <= j < k ==> replies[1..][j].Frame? && replies[1..][j].generation < generation {
          assert replies[k + 1] == Frame(generation, expected);
          forall j | 0 <= j < k + 1 ensures replies[j].Frame? && replies[j].generation < generation {
            if j > 0 { assert replies[j] == replies[1..][j - 1]; }
          }
        }
        if k: nat :| k < |replies| && replies[k] == Frame(generation, expected)
                     && forall j :: 0 <= j < k ==> replies[j].Frame? && replies[j].generation < generation {
          assert replies[1..][k - 1] == Frame(generation, expected);
          forall j | 0 <= j < k - 1 ensures replies[1..][j].Frame? && replies[1..][j].generation < generation {
            assert replies[1..][j] == replies[j + 1];
          }
        }
      }
    }
  }

  datatype Purpose = HeaderOf(chunk: nat) | PayloadOf(chunk: nat) | ResetFor(chunk: nat)

  // One exchange of the log. One that was cancelled before it began sent nothing and used no generation.
  datatype Entry = Entry(purpose: Purpose, command: seq<nat>, generation: nat, sent: bool, result: Option<Kind>)

  datatype Link = Link(log: seq<Entry>, next: nat)

  function Exchange(s: Link, purpose: Purpose, command: seq<nat>, expected: nat, world: nat -> Script): (r: Link)
    ensures |r.log| == |s.log| + 1 && r.log[..|s.log|] == s.log
    ensures r.log[|s.log|].purpose == purpose && r.log[|s.log|].command == command
  {
    var script := world(|s.log|);
    if script.cancelledBefore then Link(s.log + [Entry(purpose, command, s.next, false, Some(Cancelled))], s.next)
    else
      var result :=
        if script.writeError.Some? then script.writeError
        else if script.cancelledAfter then Some(Cancelled)
        else Await(script.replies, s.next, expected, script.cancelledAtEnd);
      Link(s.log + [Entry(purpose, command, s.next, true, result)], s.next + 1)
  }

  function Outcome(s: Link): Option<Kind>
    requires s.log != []
  {
    s.log[|s.log| - 1].result
  }

  // ---- The save ---------------------------------------------------------------------------------------------

  predicate Retryable(k: Kind) {
    k == Timeout || k == Protocol
  }

  datatype Tried = Accepted(link: Link) | Gave(link: Link, kind: Kind)

  // Header, then, if that is acknowledged, payload.
  function Attempt(k: nat, header: seq<nat>, chunk: seq<nat>, s: Link, world: nat -> Script): (r: Link)
    ensures r.log != []
  {
    var headed := Exchange(s, HeaderOf(k), header, ACK, world);
    if Outcome(headed) == None then Exchange(headed, PayloadOf(k), chunk, ACK, world) else headed
  }

  // One attempt; and after a retryable error a reset, then again.
  function TryChunk(k: nat, header: seq<nat>, chunk: seq<nat>, retries: nat, max: nat, s: Link,
                    world: nat -> Script): Tried
    requires retries <= max
    decreases max - retries
  {
    var done := Attempt(k, header, chunk, s, world);
    if Outcome(done) == None then Accepted(done)
    else if Retryable(Outcome(done).value) && retries < max then
      var reset := Exchange(done, ResetFor(k), RESET, RESET_REPLY, world);
      if Outcome(reset) == None then TryChunk(k, header, chunk, retries + 1, max, reset, world)
      else Gave(reset, Outcome(reset).value)
    else Gave(done, Outcome(done).value)
  }

  datatype Saved = Saved(link: Link, completed: nat, error: Option<Kind>)

  function ChunkAt(data: seq<nat>, k: nat): (c: seq<nat>)
    requires Offset(k) < |data|
    ensures 0 < |c| <= CHUNK
  {
    data[Offset(k)..if |data| - Offset(k) > CHUNK then Offset(k + 1) else |data|]
  }

  // The tries of the chunk at a place in the data.
  function TryAt(data: seq<nat>, slot: nat, max: nat, k: nat, s: Link, world: nat -> Script): Tried
    requires Offset(k) < |data|
  {
    var chunk := ChunkAt(data, k);
    TryChunk(k, SaveHeader(slot, Offset(k), |chunk|), chunk, 0, max, s, world)
  }

  function SaveFrom(data: seq<nat>, slot: nat, max: nat, k: nat, s: Link, world: nat -> Script): Saved
    decreases |data| - Offset(k)
  {
    if Offset(k) >= |data| then Saved(s, k, None)
    else
      match TryAt(data, slot, max, k, s, world)
      case Accepted(link) => SaveFrom(data, slot, max, k + 1, link, world)
      case Gave(link, kind) => Saved(link, k, Some(kind))
  }

  // ---- A device that sees the acknowledged exchanges ---------------------------------------------------------

  // It takes chunks in order only; an exchange that was not acknowledged leaves it in a state only an
  // acknowledged reset leads out of.
  datatype Device = Idle(memory: seq<nat>) | Expecting(memory: seq<nat>, header: Header) | Confused(memory: seq<nat>)

  function Receive(d: Device, e: Entry, slot: nat): Device {
    if e.result.Some? then Confused(d.memory)
    else
      match d
      case Idle(memory) =>
        var header := DecodeHeader(e.command);
        if header.Some? && header.value.slot == slot && header.value.offset == |memory| then Expecting(memory, header.value)
        else Confused(memory)
      case Expecting(memory, header) =>
        if |e.command| == header.length then Idle(memory + e.command) else Confused(memory)
      case Confused(memory) => if e.command == RESET then Idle(memory) else d
  }

  function Replay(log: seq<Entry>, slot: nat): Device {
    if log == [] then Idle([]) else Receive(Replay(log[..|log| - 1], slot), log[|log| - 1], slot)
  }

  lemma {:induction false} ReplayExchange(s: Link, purpose: Purpose, command: seq<nat>, expected: nat,
                                          world: nat -> Script, slot: nat)
    ensures var r := Exchange(s, purpose, command, expected, world);
            Replay(r.log, slot) == Receive(Replay(s.log, slot), r.log[|s.log|], slot)
  {
  }

  // An attempt puts the chunk into the device if it succeeds, and confuses it if not.
  lemma {:induction false} AttemptReachesDevice(k: nat, slot: nat, chunk: seq<nat>, s: Link, world: nat -> Script,
                                                memory: seq<nat>)
    requires 0 < |chunk| <= CHUNK && |memory| == Offset(k) < PROTOCOL_MAX
    requires Replay(s.log, slot) == Idle(memory)
    ensures var done := Attempt(k, SaveHeader(slot, Offset(k), |chunk|), chunk, s, world);
            Replay(done.log, slot) == if Outcome(done) == None then Idle(memory + chunk) else Confused(memory)
  {
    var header := SaveHeader(slot, Offset(k), |chunk|);
    HeaderRoundTrip(slot, Offset(k), |chunk|);
    ReplayExchange(s, HeaderOf(k), header, ACK, world, slot);
    ReplayExchange(Exchange(s, HeaderOf(k), header, ACK, world), PayloadOf(k), chunk, ACK, world, slot);
  }

  // However often a chunk is tried, the device takes it once, and only if the try succeeds.
  lemma {:induction false} ChunkReachesDevice(k: nat, slot: nat, chunk: seq<nat>, retries: nat, max: nat, s: Link,
                                              world: nat -> Script, memory: seq<nat>)
    requires retries <= max && 0 < |chunk| <= CHUNK && |memory| == Offset(k) < PROTOCOL_MAX
    requires Replay(s.log, slot) == Idle(memory)
    ensures var t := TryChunk(k, SaveHeader(slot, Offset(k), |chunk|), chunk, retries, max, s, world);
            && (t.Accepted? ==> Replay(t.link.log, slot) == Idle(memory + chunk))
            && (t.Gave? ==> Replay(t.link.log, slot).memory == memory)
    decreases max - retries
  {
    AttemptReachesDevice(k, slot, chunk, s, world, memory);
    var done := Attempt(k, SaveHeader(slot, Offset(k), |chunk|), chunk, s, world);
    if Outcome(done).Some? && Retryable(Outcome(done).value) && retries < max {
      ReplayExchange(done, ResetFor(k), RESET, RESET_REPLY, world, slot);
      var reset := Exchange(done, ResetFor(k), RESET, RESET_REPLY, world);
      if Outcome(reset) == None {
        ChunkReachesDevice(k, slot, chunk, retries + 1, max, reset, world, memory);
      }
    }
  }

  // The data up to a chunk.
  function Before(data: seq<nat>, k: nat): seq<nat> {
    if Offset(k) < |data| then data[..Offset(k)] else data
  }

  lemma BeforeNext(data: seq<nat>, k: nat)
    requires Offset(k) < |data|
    ensures Before(data, k) + ChunkAt(data, k) == Before(data, k + 1)
  {
  }

  // The device after a chunk has been tried.
  lemma {:induction false} TriedChunk(data: seq<nat>, slot: nat, max: nat, k: nat, s: Link, world: nat -> Script)
    requires Offset(k) < |data| <= PROTOCOL_MAX
    requires Replay(s.log, slot) == Idle(Before(data, k))
    ensures var t := TryAt(data, slot, max, k, s, world);
            && (t.Accepted? ==> Replay(t.link.log, slot) == Idle(Before(data, k + 1)))
            && (t.Gave? ==> Replay(t.link.log, slot).memory == Before(data, k))
  {
    BeforeNext(data, k);
    ChunkReachesDevice(k, slot, ChunkAt(data, k), 0, max, s, world, Before(data, k));
  }

  predicate Delivered(data: seq<nat>, slot: nat, r: Saved) {
    if r.error == None then Replay(r.link.log, slot) == Idle(data)
    else Offset(r.completed) < |data| && Replay(r.link.log, slot).memory == Before(data, r.completed)
  }

  lemma NextChunk(data: seq<nat>, slot: nat, max: nat, k: nat, s: Link, world: nat -> Script)
    requires Offset(k) < |data| <= PROTOCOL_MAX
    requires Replay(s.log, slot) == Idle(Before(data, k))
    ensures var t := TryAt(data, slot, max, k, s, world);
            var r := SaveFrom(data, slot, max, k, s, world);
            if t.Accepted? then
              Replay(t.link.log, slot) == Idle(Before(data, k + 1)) && r == SaveFrom(data, slot, max, k + 1, t.link, world)
            else Delivered(data, slot, r)
  {
    TriedChunk(data, slot, max, k, s, world);
  }

  lemma {:induction false} SaveReachesDevice(data: seq<nat>, slot: nat, max: nat, k: nat, s: Link, world: nat -> Script)
    requires |data| <= PROTOCOL_MAX
    requires Replay(s.log, slot) == Idle(Before(data, k))
    ensures Delivered(data, slot, SaveFrom(data, slot, max, k, s, world))
    decreases |data| - Offset(k)
  {
    if Offset(k) >= |data| { return; }
    NextChunk(data, slot, max, k, s, world);
    var t := TryAt(data, slot, max, k, s, world);
    if t.Accepted? { SaveReachesDevice(data, slot, max, k + 1, t.link, world); }
  }

  // Whatever timeouts, protocol errors, resets and cancellations occur: if the save succeeds, the
  // acknowledged exchanges give a device exactly the data; if it fails, exactly the completed chunks.
  lemma {:induction false} SavedExactly(limits: Limits, data: seq<nat>, slot: nat, max: nat, next: nat,
                                        world: nat -> Script)
    requires NewLimits(limits.slotCount, limits.maximum) == Some(limits)
    requires slot < limits.slotCount && 0 < |data| <= limits.maximum
    ensures var r := SaveFrom(data, slot, max, 0, Link([], next), world);
            && (r.error == None ==> Replay(r.link.log, slot) == Idle(data))
            && (r.error.Some? ==> Offset(r.completed) < |data| && Replay(r.link.log, slot).memory == data[..Offset(r.completed)])
  {
    assert Before(data, 0) == [];
    SaveReachesDevice(data, slot, max, 0, Link([], next), world);
  }

  // ---- Attempts and generations ---------------------------------------------------------------------------------

  function Count(log: seq<Entry>, purpose: Purpose): nat {
    if log == [] then 0
    else Count(log[..|log| - 1], purpose) + if log[|log| - 1].purpose == purpose then 1 else 0
  }

  lemma {:induction false} CountExchange(s: Link, purpose: Purpose, command: seq<nat>, expected: nat,
                                         world: nat -> Script, p: Purpose)
    ensures Count(Exchange(s, purpose, command, expected, world).log, p)
         == Count(s.log, p) + if p == purpose then 1 else 0
  {
  }

  lemma CountAttempt(k: nat, header: seq<nat>, chunk: seq<nat>, s: Link, world: nat -> Script, j: nat)
    ensures Count(Attempt(k, header, chunk, s, world).log, HeaderOf(j)) == Count(s.log, HeaderOf(j)) + if j == k then 1 else 0
  {
    CountExchange(s, HeaderOf(k), header, ACK, world, HeaderOf(j));
    CountExchange(Exchange(s, HeaderOf(k), header, ACK, world), PayloadOf(k), chunk, ACK, world, HeaderOf(j));
  }

  lemma {:induction false} TriesOfChunk(k: nat, header: seq<nat>, chunk: seq<nat>, retries: nat, max: nat, s: Link,
                                        world: nat -> Script, j: nat)
    requires retries <= max
    ensures var t := TryChunk(k, header, chunk, retries, max, s, world);
            Count(t.link.log, HeaderOf(j)) <= Count(s.log, HeaderOf(j)) + if j == k then 1 + max - retries else 0
    decreases max - retries
  {
    CountAttempt(k, header, chunk, s, world, j);
    var done := Attempt(k, header, chunk, s, world);
    if Outcome(done).Some? && Retryable(Outcome(done).value) && retries < max {
      CountExchange(done, ResetFor(k), RESET, RESET_REPLY, world, HeaderOf(j));
      var reset := Exchange(done, ResetFor(k), RESET, RESET_REPLY, world);
      if Outcome(reset) == None {
        TriesOfChunk(k, header, chunk, retries + 1, max, reset, world, j);
      }
    }
  }

  lemma {:induction false} TriesFrom(data: seq<nat>, slot: nat, max: nat, k: nat, s: Link, world: nat -> Script, j: nat)
    requires j < k ==> Count(s.log, HeaderOf(j)) <= 1 + max
    requires j >= k ==> Count(s.log, HeaderOf(j)) == 0
    ensures Count(SaveFrom(data, slot, max, k, s, world).link.log, HeaderOf(j)) <= 1 + max
    decreases |data| - Offset(k)
  {
    if Offset(k) < |data| {
      var chunk := ChunkAt(data, k);
      TriesOfChunk(k, SaveHeader(slot, Offset(k), |chunk|), chunk, 0, max, s, world, j);
      var t := TryAt(data, slot, max, k, s, world);
      if t.Accepted? { TriesFrom(data, slot, max, k + 1, t.link, world, j); }
    }
  }

  // A chunk is tried once, and once more for each retry it is allowed.
  lemma {:induction false} AttemptsAreBounded(data: seq<nat>, slot: nat, max: nat, next: nat, world: nat -> Script,
                                              chunk: nat)
    ensures Count(SaveFrom(data, slot, max, 0, Link([], next), world).link.log, HeaderOf(chunk)) <= 1 + max
  {
    TriesFrom(data, slot, max, 0, Link([], next), world, chunk);
  }

  ghost predicate Generations(s: Link) {
    && (forall i :: 0 <= i < |s.log| && s.log[i].sent ==> s.log[i].generation < s.next)
    && (forall i, j :: 0 <= i < j < |s.log| && s.log[i].sent && s.log[j].sent ==> s.log[i].generation < s.log[j].generation)
  }

  lemma ExchangeKeepsGenerations(s: Link, purpose: Purpose, command: seq<nat>, expected: nat, world: nat -> Script)
    requires Generations(s)
    ensures Generations(Exchange(s, purpose, command, expected, world))
  {
    var r := Exchange(s, purpose, command, expected, world);
    assert forall i :: 0 <= i < |s.log| ==> r.log[i] == s.log[i];
  }

  lemma {:induction false} ChunkKeepsGenerations(k: nat, header: seq<nat>, chunk: seq<nat>, retries: nat, max: nat,
                                                 s: Link,
                                                 world: nat -> Script)
    requires retries <= max && Generations(s)
    ensures Generations(TryChunk(k, header, chunk, retries, max, s, world).link)
    decreases max - retries
  {
    ExchangeKeepsGenerations(s, HeaderOf(k), header, ACK, world);
    ExchangeKeepsGenerations(Exchange(s, HeaderOf(k), header, ACK, world), PayloadOf(k), chunk, ACK, world);
    var done := Attempt(k, header, chunk, s, world);
    if Outcome(done).Some? && Retryable(Outcome(done).value) && retries < max {
      ExchangeKeepsGenerations(done, ResetFor(k), RESET, RESET_REPLY, world);
      var reset := Exchange(done, ResetFor(k), RESET, RESET_REPLY, world);
      if Outcome(reset) == None {
        ChunkKeepsGenerations(k, header, chunk, retries + 1, max, reset, world);
      }
    }
  }

  // No two exchanges that were sent share a generation, so a late acknowledgement of one never counts
  // for another.
  lemma {:induction false} GenerationsIncrease(data: seq<nat>, slot: nat, max: nat, k: nat, s: Link,
                                               world: nat -> Script)
    requires Generations(s)
    ensures Generations(SaveFrom(data, slot, max, k, s, world).link)
    decreases |data| - Offset(k)
  {
    if Offset(k) < |data| {
      var chunk := ChunkAt(data, k);
      ChunkKeepsGenerations(k, SaveHeader(slot, Offset(k), |chunk|), chunk, 0, max, s, world);
      var t := TryAt(data, slot, max, k, s, world);
      if t.Accepted? { GenerationsIncrease(data, slot, max, k + 1, t.link, world); }
    }
  }

  // ---- The save as it runs ----------------------------------------------------------------------------------------

  class AmiiboLane {
    var nextAckGeneration: nat
    var log: seq<Entry>

    function View(): Link
      reads this
    {
      Link(log, nextAckGeneration)
    }

    constructor (next: nat)
      ensures View() == Link([], next)
    {
      nextAckGeneration, log := next, [];
    }

    // The frame loop: late frames of earlier generations are passed over.
    method WaitForAck(replies: seq<Wait>, generation: nat, expected: nat,
                      cancelled: bool) returns (result: Option<Kind>)
      ensures result == Await(replies, generation, expected, cancelled)
    {
      var i := 0;
      assert replies[0..] == replies;
      while i < |replies|
        invariant i <= |replies|
        invariant Await(replies, generation, expected, cancelled) == Await(replies[i..], generation, expected, cancelled)
      {
        assert replies[i..][0] == replies[i] && replies[i..][1..] == replies[i + 1..];
        match replies[i] {
          case WaitFailed(kind) =>
            return Some(if cancelled then Cancelled else kind);
          case Frame(g, byte) =>
            if g == generation && byte == expected {
              return if cancelled then Some(Cancelled) else None;
            }
            if g >= generation {
              return Some(Protocol);
            }
        }
        i := i + 1;
      }
      result := Some(if cancelled then Cancelled else Timeout);
    }

    method ExchangeAck(purpose: Purpose, command: seq<nat>, expected: nat,
                       world: nat -> Script) returns (result: Option<Kind>)
      modifies this
      ensures View() == Exchange(old(View()), purpose, command, expected, world)
      ensures result == Outcome(View())
    {
      var script := world(|log|);
      if script.cancelledBefore {
        log := log + [Entry(purpose, command, nextAckGeneration, false, Some(Cancelled))];
        return Some(Cancelled);
      }
      var generation := nextAckGeneration;
      nextAckGeneration := nextAckGeneration + 1;
      if script.writeError.Some? {
        result := script.writeError;
      } else if script.cancelledAfter {
        result := Some(Cancelled);
      } else {
        result := WaitForAck(script.replies, generation, expected, script.cancelledAtEnd);
      }
      log := log + [Entry(purpose, command, generation, true, result)];
    }

    // The retry loop of one chunk.
    method SaveChunk(k: nat, header: seq<nat>, chunk: seq<nat>, max: nat,
                     world: nat -> Script) returns (error: Option<Kind>)
      modifies this
      ensures var t := TryChunk(k, header, chunk, 0, max, old(View()), world);
              View() == t.link && error == if t.Accepted? then None else Some(t.kind)
    {
      var retries := 0;
      while true
        invariant retries <= max
        invariant TryChunk(k, header, chunk, 0, max, old(View()), world) == TryChunk(k, header, chunk, retries, max, View(), world)
        decreases max - retries
      {
        error := ExchangeAck(HeaderOf(k), header, ACK, world);
        if error == None {
          error := ExchangeAck(PayloadOf(k), chunk, ACK, world);
        }
        if error == None {
          return;
        }
        if !Retryable(error.value) || retries == max {
          return;
        }
        retries := retries + 1;
        error := ExchangeAck(ResetFor(k), RESET, RESET_REPLY, world);
        if error.Some? {
          return;
        }
      }
    }

    // `completed` counts the chunks whose header and payload were acknowledged in one try.
    method HandleAmiiboSave(slot: nat, data: seq<nat>, max: nat, world: nat -> Script)
      returns (completed: nat, error: Option<Kind>)
      modifies this
      ensures var r := SaveFrom(data, slot, max, 0, old(View()), world);
              View() == r.link && completed == r.completed && error == r.error
    {
      completed, error := 0, None;
      while Offset(completed) < |data|
        invariant SaveFrom(data, slot, max, 0, old(View()), world) == SaveFrom(data, slot, max, completed, View(), world)
        invariant error == None
        decreases |data| - Offset(completed)
      {
        var chunk := ChunkAt(data, completed);
        var header := SaveHeader(slot, Offset(completed), |chunk|);
        error := SaveChunk(completed, header, chunk, max, world);
        if error.Some? {
          return;
        }
        completed := completed + 1;
      }
    }
  }
}
