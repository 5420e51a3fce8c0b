/**
 * What an Amiibo save sends, exchange by exchange (crates/easycon-controller/src/session.rs): what follows each
 * exchange is determined by how it ended, and how it ends by what came back for it.
 */
module AmiiboProtocol {
  import opened Wrappers
  import opened Amiibo

  // ---- One exchange ---------------------------------------------------------------------------------------------

  // A frame of an exchange before this one.
  predicate Late(reply: Wait, generation: nat) {
    reply.Frame? && reply.generation < generation
  }

  // The first answer that is not late decides; if none comes the exchange times out. Cancellation replaces every
  // outcome but a wrong frame.
  lemma {:induction false} FirstAnswerDecides(replies: seq<Wait>, generation: nat, expected: nat, cancelled: bool, k: nat)
    requires k <= |replies| && forall j :: 0 <= j < k ==> Late(replies[j], generation)
    requires k < |replies| ==> !Late(replies[k], generation)
    ensures Await(replies, generation, expected, cancelled) ==
              if k == |replies| then Some(if cancelled then Cancelled else Timeout)
              else if replies[k].WaitFailed? then Some(if cancelled then Cancelled else replies[k].kind)
              else if replies[k] != Frame(generation, expected) then Some(Protocol)
              else if cancelled then Some(Cancelled) else None
  {
    if k > 0 {
      assert Late(replies[0], generation);
      FirstAnswerDecides(replies[1..], generation, expected, cancelled, k - 1);
    }
  }

  function ReplyOf(p: Purpose): nat {
    if p.ResetFor? then 0x80 else 0xff
  }

  // How one entry of the log ends.
  predicate Ends(e: Entry, script: Script) {
    if script.cancelledBefore then !e.sent && e.result == Some(Cancelled)
    else
      && e.sent
      && (script.writeError.Some? ==> e.result == script.writeError)
      && (script.writeError.None? && script.cancelledAfter ==> e.result == Some(Cancelled))
      && (script.writeError.None? && !script.cancelledAfter ==>
            e.result == Await(script.replies, e.generation, ReplyOf(e.purpose), script.cancelledAtEnd))
  }

  // ---- What follows ------------------------------------------------------------------------------------------------

  function ChunkOf(p: Purpose): nat {
    match p
    case HeaderOf(k) => k
    case PayloadOf(k) => k
    case ResetFor(k) => k
  }

  // What follows an exchange, given how often its chunk has been tried: after a try that failed a reset, if the
  // error says so and tries are left.
  function After(e: Entry, tries: nat, length: nat, max: nat): Option<Purpose> {
    var k := ChunkOf(e.purpose);
    if e.result.Some? then
      if !e.purpose.ResetFor? && (e.result.value == Timeout || e.result.value == Protocol) && tries <= max then Some(ResetFor(k))
      else None
    else if e.purpose.HeaderOf? then Some(PayloadOf(k))
    else if e.purpose.ResetFor? then Some(HeaderOf(k))
    else if 20 * (k + 1) < length then Some(HeaderOf(k + 1))
    else None
  }

  function Tries(log: seq<Entry>, n: nat): nat
    requires 0 < n <= |log|
  {
    Count(log[..n], HeaderOf(ChunkOf(log[n - 1].purpose)))
  }

  // What follows the first n exchanges.
  function Follows(log: seq<Entry>, n: nat, length: nat, max: nat): Option<Purpose>
    requires 0 < n <= |log|
  {
    After(log[n - 1], Tries(log, n), length, max)
  }

  // The bytes of an exchange.
  predicate Sends(p: Purpose, command: seq<nat>, data: seq<nat>, slot: nat) {
    match p
    case HeaderOf(k) =>
      20 * k < |data| && command == SaveHeader(slot, 20 * k, if |data| - 20 * k > 20 then 20 else |data| - 20 * k)
    case PayloadOf(k) =>
      20 * k < |data| && command == data[20 * k..if |data| - 20 * k > 20 then 20 * k + 20 else |data|]
    case ResetFor(_) => command == [0xa5, 0x81, 0xa5, 0x81, 0xa5, 0x81]
  }

  // What a save is made of.
  datatype Job = Job(data: seq<nat>, slot: nat, max: nat, world: nat -> Script)

  // What comes next; the header of the first chunk if nothing was sent yet.
  function Next(log: seq<Entry>, j: Job): Option<Purpose> {
    if log == [] then Some(HeaderOf(0)) else Follows(log, |log|, |j.data|, j.max)
  }

  // The exchange at a place of the log is the one that should be there, sends what it should, and ends as its
  // script says.
  ghost predicate RuledAt(log: seq<Entry>, n: nat, j: Job)
    requires n < |log|
  {
    && Next(log[..n], j) == Some(log[n].purpose)
    && Sends(log[n].purpose, log[n].command, j.data, j.slot) && Ends(log[n], j.world(n))
  }

  ghost predicate Ruled(log: seq<Entry>, j: Job) {
    forall n: nat :: n < |log| ==> RuledAt(log, n, j)
  }

  lemma RuledAtStays(log: seq<Entry>, log': seq<Entry>, n: nat, j: Job)
    requires n < |log| <= |log'| && log'[..|log|] == log && RuledAt(log, n, j)
    ensures RuledAt(log', n, j)
  {
    assert log'[n] == log[n] && log'[..n] == log[..n];
  }

  lemma ExchangeEnds(s: Link, purpose: Purpose, command: seq<nat>, world: nat -> Script)
    ensures var r := Exchange(s, purpose, command, ReplyOf(purpose), world); Ends(r.log[|s.log|], world(|s.log|))
  {
  }

  // One more exchange by the rules.
  lemma RuledExchange(s: Link, purpose: Purpose, command: seq<nat>, j: Job)
    requires Ruled(s.log, j) && Next(s.log, j) == Some(purpose) && Sends(purpose, command, j.data, j.slot)
    ensures Ruled(Exchange(s, purpose, command, ReplyOf(purpose), j.world).log, j)
  {
    var log := Exchange(s, purpose, command, ReplyOf(purpose), j.world).log;
    ExchangeEnds(s, purpose, command, j.world);
    assert log[..|s.log|] == s.log;
    assert RuledAt(log, |s.log|, j);
    forall n: nat | n < |log| ensures RuledAt(log, n, j) {
      if n < |s.log| { RuledAtStays(s.log, log, n, j); }
    }
  }

  // What follows the exchange just made.
  lemma AfterExchange(s: Link, purpose: Purpose, command: seq<nat>, j: Job)
    ensures var r := Exchange(s, purpose, command, ReplyOf(purpose), j.world);
            && r.log[|r.log| - 1].purpose == purpose && r.log[|r.log| - 1].result == Outcome(r)
            && Next(r.log, j) == After(r.log[|r.log| - 1], Count(r.log, HeaderOf(ChunkOf(purpose))), |j.data|, j.max)
  {
    var log := Exchange(s, purpose, command, ReplyOf(purpose), j.world).log;
    assert log[..|log|] == log;
  }

  // ---- One chunk ------------------------------------------------------------------------------------------------------

  function HeaderAt(k: nat, j: Job): seq<nat>
    requires Offset(k) < |j.data|
  {
    SaveHeader(j.slot, Offset(k), |ChunkAt(j.data, k)|)
  }

  function TryFor(k: nat, j: Job, retries: nat, s: Link): Tried
    requires Offset(k) < |j.data| && retries <= j.max
  {
    TryChunk(k, HeaderAt(k, j), ChunkAt(j.data, k), retries, j.max, s, j.world)
  }

  function AttemptFor(k: nat, j: Job, s: Link): (r: Link)
    requires Offset(k) < |j.data|
    ensures r.log != []
  {
    Attempt(k, HeaderAt(k, j), ChunkAt(j.data, k), s, j.world)
  }

  // A log whose last exchange was the header or the payload of a chunk, in its nth try.
  ghost predicate Tried(s: Link, k: nat, tries: nat, j: Job) {
    && Ruled(s.log, j) && s.log != [] && Count(s.log, HeaderOf(k)) == tries
    && Next(s.log, j) == After(s.log[|s.log| - 1], tries, |j.data|, j.max)
    && s.log[|s.log| - 1].purpose in {HeaderOf(k), PayloadOf(k)}
    && (Outcome(s) == None ==> s.log[|s.log| - 1].purpose == PayloadOf(k))
  }

  lemma RuledAttempt(s: Link, k: nat, j: Job)
    requires Offset(k) < |j.data| && Ruled(s.log, j) && Next(s.log, j) == Some(HeaderOf(k))
    ensures Tried(AttemptFor(k, j, s), k, Count(s.log, HeaderOf(k)) + 1, j)
  {
    var headed := Exchange(s, HeaderOf(k), HeaderAt(k, j), ACK, j.world);
    RuledExchange(s, HeaderOf(k), HeaderAt(k, j), j);
    AfterExchange(s, HeaderOf(k), HeaderAt(k, j), j);
    CountExchange(s, HeaderOf(k), HeaderAt(k, j), ACK, j.world, HeaderOf(k));
    if Outcome(headed) == None {
      RuledExchange(headed, PayloadOf(k), ChunkAt(j.data, k), j);
      AfterExchange(headed, PayloadOf(k), ChunkAt(j.data, k), j);
      CountExchange(headed, PayloadOf(k), ChunkAt(j.data, k), ACK, j.world, HeaderOf(k));
    }
  }

  // The reset after a try that failed.
  lemma RuledReset(s: Link, k: nat, tries: nat, j: Job)
    requires Tried(s, k, tries, j) && Next(s.log, j) == Some(ResetFor(k))
    ensures var r := Exchange(s, ResetFor(k), RESET, RESET_REPLY, j.world);
            && Ruled(r.log, j) && Count(r.log, HeaderOf(k)) == tries
            && Next(r.log, j) == if Outcome(r) == None then Some(HeaderOf(k)) else None
  {
    RuledExchange(s, ResetFor(k), RESET, j);
    AfterExchange(s, ResetFor(k), RESET, j);
    CountExchange(s, ResetFor(k), RESET, RESET_REPLY, j.world, HeaderOf(k));
  }

  // How the tries of a chunk end.
  ghost predicate ChunkOver(t: Amiibo.Tried, k: nat, j: Job) {
    && Ruled(t.link.log, j) && t.link.log != []
    && (t.Accepted? ==> t.link.log[|t.link.log| - 1].purpose == PayloadOf(k) && Outcome(t.link) == None)
    && (t.Gave? ==> Outcome(t.link) == Some(t.kind) && Next(t.link.log, j) == None)
  }

  // A reset that failed gives the chunk up.
  lemma GivenUpIsOver(s: Link, k: nat, j: Job)
    requires Ruled(s.log, j) && s.log != [] && Outcome(s).Some? && Next(s.log, j) == None
    ensures ChunkOver(Gave(s, Outcome(s).value), k, j)
  {
  }

  lemma AcceptedIsOver(s: Link, k: nat, j: Job)
    requires Ruled(s.log, j) && s.log != [] && Outcome(s) == None && s.log[|s.log| - 1].purpose == PayloadOf(k)
    ensures ChunkOver(Accepted(s), k, j)
  {
  }

  // A try after which the chunk is not tried again.
  lemma LastTry(s: Link, k: nat, retries: nat, j: Job) returns (t: Amiibo.Tried)
    requires retries <= j.max && Offset(k) < |j.data|
    requires var done := AttemptFor(k, j, s);
             Tried(done, k, retries + 1, j) && Next(done.log, j) != Some(ResetFor(k))
    ensures t == TryFor(k, j, retries, s) && ChunkOver(t, k, j)
  {
    var done := AttemptFor(k, j, s);
    TriedIs(s, k, retries, j);
    if Outcome(done) == None {
      AcceptedIsOver(done, k, j);
      t := Accepted(done);
    } else {
      GivenUpIsOver(done, k, j);
      t := Gave(done, Outcome(done).value);
    }
  }

  // A try followed by a reset: the chunk goes on as its next tries do, if the reset is acknowledged.
  lemma ResetThenRest(s: Link, k: nat, retries: nat, j: Job) returns (reset: Link)
    requires retries <= j.max && Offset(k) < |j.data|
    requires var done := AttemptFor(k, j, s);
             Tried(done, k, retries + 1, j) && Next(done.log, j) == Some(ResetFor(k))
    ensures retries < j.max && reset.log != []
    ensures Outcome(reset) == None ==>
              Ruled(reset.log, j) && Next(reset.log, j) == Some(HeaderOf(k)) && Count(reset.log, HeaderOf(k)) == retries + 1
    ensures (Outcome(reset) == None ==> ChunkOver(TryFor(k, j, retries + 1, reset), k, j)) ==> ChunkOver(TryFor(k, j, retries, s), k, j)
  {
    var done := AttemptFor(k, j, s);
    RuledReset(done, k, retries + 1, j);
    RetriedIs(s, k, retries, j);
    reset := Exchange(done, ResetFor(k), RESET, RESET_REPLY, j.world);
    if Outcome(reset).Some? { GivenUpIsOver(reset, k, j); }
  }

  // What must hold before a try of the chunk.
  ghost predicate Ready(s: Link, k: nat, retries: nat, j: Job) {
    Ruled(s.log, j) && Next(s.log, j) == Some(HeaderOf(k)) && Count(s.log, HeaderOf(k)) == retries
  }

  // One try: the chunk is over, or goes on as its next tries do.
  lemma TryThenRest(s: Link, k: nat, retries: nat, j: Job) returns (again: Option<Link>)
    requires retries <= j.max && Offset(k) < |j.data| && Ready(s, k, retries, j)
    ensures again.Some? ==> retries < j.max && Ready(again.value, k, retries + 1, j)
    ensures again.Some? ==> (ChunkOver(TryFor(k, j, retries + 1, again.value), k, j) ==> ChunkOver(TryFor(k, j, retries, s), k, j))
    ensures again.None? ==> ChunkOver(TryFor(k, j, retries, s), k, j)
  {
    RuledAttempt(s, k, j);
    if Next(AttemptFor(k, j, s).log, j) == Some(ResetFor(k)) {
      var reset := ResetThenRest(s, k, retries, j);
      again := if Outcome(reset) == None then Some(reset) else None;
    } else {
      var t := LastTry(s, k, retries, j);
      again := None;
    }
  }

  lemma {:induction false} RuledChunk(s: Link, k: nat, retries: nat, j: Job)
    requires retries <= j.max && Offset(k) < |j.data| && Ready(s, k, retries, j)
    ensures ChunkOver(TryFor(k, j, retries, s), k, j)
    decreases j.max - retries
  {
    var again := TryThenRest(s, k, retries, j);
    if again.Some? { RuledChunk(again.value, k, retries + 1, j); }
  }

  // The two ways on after a try, as the loop takes them.
  lemma RetriedIs(s: Link, k: nat, retries: nat, j: Job)
    requires retries <= j.max && Offset(k) < |j.data|
    requires var done := AttemptFor(k, j, s);
             Tried(done, k, retries + 1, j) && Next(done.log, j) == Some(ResetFor(k))
    ensures retries < j.max
    ensures var reset := Exchange(AttemptFor(k, j, s), ResetFor(k), RESET, RESET_REPLY, j.world);
            TryFor(k, j, retries, s) ==
              if Outcome(reset) == None then TryFor(k, j, retries + 1, reset) else Gave(reset, Outcome(reset).value)
  {
  }

  lemma TriedIs(s: Link, k: nat, retries: nat, j: Job)
    requires retries <= j.max && Offset(k) < |j.data|
    requires var done := AttemptFor(k, j, s);
             Tried(done, k, retries + 1, j) && Next(done.log, j) != Some(ResetFor(k))
    ensures var done := AttemptFor(k, j, s);
            && TryFor(k, j, retries, s) == (if Outcome(done) == None then Accepted(done) else Gave(done, Outcome(done).value))
            && (Outcome(done).Some? ==> Next(done.log, j) == None)
  {
  }

  // ---- The save --------------------------------------------------------------------------------------------------------

  // Exchanges of earlier chunks only.
  predicate Below(log: seq<Entry>, k: nat) {
    forall e :: e in log ==> ChunkOf(e.purpose) < k
  }

  lemma {:induction false} NotCounted(log: seq<Entry>, k: nat)
    requires Below(log, k)
    ensures Count(log, HeaderOf(k)) == 0
  {
    if log != [] {
      assert log[|log| - 1] in log;
      NotCounted(log[..|log| - 1], k);
    }
  }

  lemma BelowExchange(s: Link, purpose: Purpose, command: seq<nat>, expected: nat, world: nat -> Script, k: nat)
    requires Below(s.log, k) && ChunkOf(purpose) < k
    ensures Below(Exchange(s, purpose, command, expected, world).log, k)
  {
  }

  lemma {:induction false} EntriesOfChunk(k: nat, header: seq<nat>, chunk: seq<nat>, retries: nat, max: nat, s: Link,
                                          world: nat -> Script)
    requires retries <= max && Below(s.log, k + 1)
    ensures Below(TryChunk(k, header, chunk, retries, max, s, world).link.log, k + 1)
    decreases max - retries
  {
    var headed := Exchange(s, HeaderOf(k), header, ACK, world);
    BelowExchange(s, HeaderOf(k), header, ACK, world, k + 1);
    BelowExchange(headed, PayloadOf(k), chunk, ACK, world, k + 1);
    var done := Attempt(k, header, chunk, s, world);
    if Outcome(done).Some? && Retryable(Outcome(done).value) && retries < max {
      var reset := Exchange(done, ResetFor(k), RESET, RESET_REPLY, world);
      BelowExchange(done, ResetFor(k), RESET, RESET_REPLY, world, k + 1);
      if Outcome(reset) == None { EntriesOfChunk(k, header, chunk, retries + 1, max, reset, world); }
    }
  }

  // A save whose next chunk, if there is one, is k.
  ghost predicate Beginning(s: Link, k: nat, j: Job) {
    && Ruled(s.log, j) && Below(s.log, k)
    && (if s.log == [] then k == 0
        else k > 0 && s.log[|s.log| - 1].purpose == PayloadOf(k - 1) && Outcome(s) == None)
  }

  lemma BeginningNext(s: Link, k: nat, j: Job)
    requires Beginning(s, k, j)
    ensures Next(s.log, j) == if s.log == [] || 20 * k < |j.data| then Some(HeaderOf(k)) else None
  {
    assert s.log[..|s.log|] == s.log;
  }

  lemma NextBegins(s: Link, k: nat, j: Job) returns (t: Amiibo.Tried)
    requires Beginning(s, k, j) && Offset(k) < |j.data|
    ensures t == TryFor(k, j, 0, s) && ChunkOver(t, k, j) && (t.Accepted? ==> Beginning(t.link, k + 1, j))
  {
    BeginningNext(s, k, j);
    NotCounted(s.log, k);
    RuledChunk(s, k, 0, j);
    t := TryFor(k, j, 0, s);
    EntriesOfChunk(k, HeaderAt(k, j), ChunkAt(j.data, k), 0, j.max, s, j.world);
  }

  predicate Finished(r: Saved, j: Job) {
    if r.link.log == [] then j.data == [] && r.error == None
    else j.data != [] && r.error == Outcome(r.link) && Next(r.link.log, j) == None
  }

  ghost predicate Complete(r: Saved, j: Job) {
    Ruled(r.link.log, j) && Finished(r, j)
  }

  lemma GaveIsComplete(t: Amiibo.Tried, k: nat, j: Job)
    requires ChunkOver(t, k, j) && t.Gave? && j.data != []
    ensures Complete(Saved(t.link, k, Some(t.kind)), j)
  {
  }

  lemma FirstIsHeader(log: seq<Entry>, j: Job)
    requires Ruled(log, j) && log != []
    ensures log[0].purpose == HeaderOf(0) && j.data != []
  {
    assert RuledAt(log, 0, j) && log[..0] == [];
  }

  lemma EndIsComplete(k: nat, s: Link, j: Job)
    requires Beginning(s, k, j) && Offset(k) >= |j.data|
    ensures Complete(Saved(s, k, None), j)
  {
    BeginningNext(s, k, j);
    if s.log != [] { FirstIsHeader(s.log, j); }
  }

  lemma {:induction false} SaveEnds(k: nat, s: Link, j: Job)
    requires Offset(k) >= |j.data|
    ensures SaveFrom(j.data, j.slot, j.max, k, s, j.world) == Saved(s, k, None)
  {
  }

  lemma SaveNext(k: nat, s: Link, j: Job)
    requires Offset(k) < |j.data|
    ensures SaveFrom(j.data, j.slot, j.max, k, s, j.world) ==
              match TryFor(k, j, 0, s)
              case Accepted(link) => SaveFrom(j.data, j.slot, j.max, k + 1, link, j.world)
              case Gave(link, kind) => Saved(link, k, Some(kind))
  {
  }

  function SaveOn(k: nat, s: Link, j: Job): Saved {
    SaveFrom(j.data, j.slot, j.max, k, s, j.world)
  }

  // How the save goes on from a chunk, whatever its tries were.
  predicate GoesOn(whole: Saved, t: Amiibo.Tried, k: nat, rest: Saved) {
    whole == if t.Accepted? then rest else Saved(t.link, k, Some(t.kind))
  }

  lemma ChunkGoesOn(s: Link, k: nat, j: Job) returns (t: Amiibo.Tried)
    requires Beginning(s, k, j) && Offset(k) < |j.data|
    ensures GoesOn(SaveOn(k, s, j), t, k, SaveOn(k + 1, t.link, j))
    ensures ChunkOver(t, k, j) && (t.Accepted? ==> Beginning(t.link, k + 1, j))
  {
    t := NextBegins(s, k, j);
    SaveNext(k, s, j);
  }

  lemma PassedOn(whole: Saved, t: Amiibo.Tried, k: nat, rest: Saved, j: Job)
    requires GoesOn(whole, t, k, rest) && ChunkOver(t, k, j) && j.data != []
    requires t.Accepted? ==> Complete(rest, j)
    ensures Complete(whole, j)
  {
    if t.Gave? { GaveIsComplete(t, k, j); }
  }

  // If the rest of the save goes by the rules, all of it from this chunk on does.
  lemma ChunkThenRest(s: Link, k: nat, j: Job) returns (t: Amiibo.Tried)
    requires Beginning(s, k, j) && Offset(k) < |j.data|
    ensures t.Accepted? ==> Beginning(t.link, k + 1, j)
    ensures (t.Accepted? ==> Complete(SaveOn(k + 1, t.link, j), j)) ==> Complete(SaveOn(k, s, j), j)
  {
    t := ChunkGoesOn(s, k, j);
    var whole, rest := SaveOn(k, s, j), SaveOn(k + 1, t.link, j);
    if t.Accepted? ==> Complete(rest, j) { PassedOn(whole, t, k, rest, j); }
  }

  lemma {:induction false} ChunksAreRuled(k: nat, s: Link, j: Job)
    requires Beginning(s, k, j) && Offset(k) < |j.data|
    ensures Complete(SaveOn(k, s, j), j)
    decreases |j.data| - Offset(k), 0
  {
    var t := ChunkThenRest(s, k, j);
    if t.Accepted? { SaveIsRuled(k + 1, t.link, j); }
  }

  lemma {:induction false} SaveIsRuled(k: nat, s: Link, j: Job)
    requires Beginning(s, k, j)
    ensures Complete(SaveOn(k, s, j), j)
    decreases |j.data| - Offset(k), 1
  {
    if Offset(k) < |j.data| {
      ChunksAreRuled(k, s, j);
    } else {
      EndIsComplete(k, s, j);
      SaveEnds(k, s, j);
    }
  }

  lemma NothingSent(next: nat, j: Job)
    ensures Beginning(Link([], next), 0, j)
  {
  }

  // ---- Main results -----------------------------------------------------------------------------------------------------

  function SaveOf(data: seq<nat>, slot: nat, max: nat, next: nat, world: nat -> Script): Saved {
    SaveFrom(data, slot, max, 0, Link([], next), world)
  }

  // A save is its protocol, exchange by exchange. It begins with the header of the first chunk. An acknowledged
  // header is followed by its payload, an acknowledged payload by the next chunk's header, and an acknowledged
  // reset by the same chunk's header again; a header or payload that timed out or was answered wrongly is followed
  // by a reset, as long as the chunk has tries left; and nothing follows anything else. Each sends the bytes of
  // its chunk and ends as its script says; and the save ends as its last exchange does.
  lemma {:induction false} SaveGoesByItsRules(data: seq<nat>, slot: nat, max: nat, next: nat, world: nat -> Script)
    ensures var r := SaveOf(data, slot, max, next, world);
            var log := r.link.log;
            && (forall n: nat :: n < |log| ==> RuledAt(log, n, Job(data, slot, max, world)))
            && (log == [] <==> data == [])
            && (log != [] ==> Next(log, Job(data, slot, max, world)) == None && r.error == log[|log| - 1].result)
  {
    var j := Job(data, slot, max, world);
    NothingSent(next, j);
    SaveIsRuled(0, Link([], next), j);
  }

  // So a save given up for a timeout or a wrong answer had used all its tries of a chunk, or could not reset it.
  lemma {:induction false} GivenUpOnlyThen(data: seq<nat>, slot: nat, max: nat, next: nat, world: nat -> Script)
    requires var error := SaveOf(data, slot, max, next, world).error; error == Some(Timeout) || error == Some(Protocol)
    ensures var log := SaveOf(data, slot, max, next, world).link.log;
            && log != []
            && (log[|log| - 1].purpose.ResetFor?
                || Count(log, HeaderOf(ChunkOf(log[|log| - 1].purpose))) == 1 + max)
  {
    SaveGoesByItsRules(data, slot, max, next, world);
    var log := SaveOf(data, slot, max, next, world).link.log;
    if log != [] {
      assert log[..|log|] == log;
      AttemptsAreBounded(data, slot, max, next, world, ChunkOf(log[|log| - 1].purpose));
    }
  }

  // And nothing but a timeout or a wrong answer of a header or a payload is survived: after it comes a reset, and
  // after any other failure nothing.
  lemma {:induction false} SurvivedFailures(data: seq<nat>, slot: nat, max: nat, next: nat, world: nat -> Script, n: nat)
    requires var log := SaveOf(data, slot, max, next, world).link.log; n + 1 < |log| && log[n].result.Some?
    ensures var log := SaveOf(data, slot, max, next, world).link.log;
            && (log[n].result == Some(Timeout) || log[n].result == Some(Protocol)) && !log[n].purpose.ResetFor?
            && log[n + 1].purpose == ResetFor(ChunkOf(log[n].purpose))
  {
    SaveGoesByItsRules(data, slot, max, next, world);
    SurvivedAt(SaveOf(data, slot, max, next, world).link.log, n, Job(data, slot, max, world));
  }

  lemma SurvivedAt(log: seq<Entry>, n: nat, j: Job)
    requires n + 1 < |log| && log[n].result.Some? && RuledAt(log, n + 1, j)
    ensures (log[n].result == Some(Timeout) || log[n].result == Some(Protocol)) && !log[n].purpose.ResetFor?
    ensures log[n + 1].purpose == ResetFor(ChunkOf(log[n].purpose))
  {
    assert log[..n + 1][n] == log[n];
  }
}
