/**
 * What a closing lane waits for and hears meanwhile (crates/easycon-controller/src/session.rs, `close_lane`):
 * which release it settles, which commands it takes in, and when it writes its neutral.
 */
module CloseHearing {
  import opened Wrappers
  import opened Close

  // The first command that asks for the release of the lease the lane holds.
  function FirstRelease(owner: Option<nat>, commands: seq<Command>): Option<Cleanup> {
    if commands == [] then None
    else if commands[0].Releasing? && owner == Some(commands[0].generation)
    then Some(Cleanup(commands[0].generation, commands[0].release))
    else FirstRelease(owner, commands[1..])
  }

  lemma {:induction false} CollectFinds(c: Collected, owner: Option<nat>, commands: seq<Command>)
    ensures CollectAll(c, owner, commands).cleanup == if c.cleanup.Some? then c.cleanup else FirstRelease(owner, commands)
    decreases commands
  {
    if commands != [] { CollectFinds(Collect(c, owner, commands[0]), owner, commands[1..]); }
  }

  lemma CleanupHears(c: Collected, cleanup: Cleanup, l: Lane, w: World)
    ensures var n := SettleCleanup(c, cleanup, l.owner, l.connected, w);
            && n.collected.heard == c.heard + (if cleanup.generation in w.failed then [] else w.second)
            && n.neutrals == (if cleanup.generation !in w.failed && l.connected then 1 else 0)
  {
    CollectAllHears(c, l.owner, w.second);
  }

  lemma {:induction false} CollectAllHears(c: Collected, owner: Option<nat>, commands: seq<Command>)
    ensures CollectAll(c, owner, commands).heard == c.heard + commands
    decreases commands
  {
    if commands != [] {
      CollectAllHears(Collect(c, owner, commands[0]), owner, commands[1..]);
      assert c.heard + [commands[0]] + commands[1..] == c.heard + commands;
    }
  }

  // The release the close finds: the one begun, or else the first its queues ask for.
  function Begun(l: Lane): Option<Cleanup> {
    if l.cleanup.Some? then l.cleanup else FirstRelease(l.owner, l.deferred + l.queued)
  }

  // With none to settle a connected lane owes the device a neutral of its own, unless a release wrote one.
  predicate OwesNeutral(l: Lane) {
    Begun(l) == None && l.connected && !l.consumedRelease
  }

  // The one it settles; in the wait for its own neutral one may still be asked for.
  function ToSettle(l: Lane, w: World): Option<Cleanup> {
    if Begun(l).Some? then Begun(l) else if OwesNeutral(l) then FirstRelease(l.owner, w.first) else None
  }

  lemma DrainedFinds(l: Lane)
    ensures Drained(l).cleanup == Begun(l) && Drained(l).heard == l.deferred + l.queued
  {
    var start := Collected([], l.pending, [], [], [], l.cleanup, []);
    CollectFinds(start, l.owner, l.deferred + l.queued);
    DrainedAccounts(l);
  }

  lemma NeutralizeHears(c: Collected, l: Lane, w: World)
    requires c.cleanup == Begun(l)
    ensures var n := Neutralize(c, l, w);
            var settles := ToSettle(l, w);
            var writes := settles.None? || settles.value.generation !in w.failed;
            && n.collected.heard == c.heard + (if OwesNeutral(l) then w.first else [])
                                    + (if settles.Some? && writes then w.second else [])
            && n.neutrals == (if (settles.Some? || OwesNeutral(l)) && writes && l.connected then 1 else 0)
  {
    if c.cleanup.Some? {
      CleanupHears(c.(cleanup := None), c.cleanup.value, l, w);
      assert c.heard + [] == c.heard;
    } else if OwesNeutral(l) {
      CollectFinds(c, l.owner, w.first);
      CollectAllHears(c, l.owner, w.first);
      var waited := CollectAll(c, l.owner, w.first);
      if waited.cleanup.Some? { CleanupHears(waited.(cleanup := None), waited.cleanup.value, l, w); }
      assert waited.heard + [] == waited.heard;
    } else {
      assert c.heard + [] + [] == c.heard;
    }
  }

  // A close takes in everything that was sent to the lane before and while it waits, in order, and nothing
  // else; it waits exactly for the neutral it owes and for that of the release it settles, and writes one of
  // them, unless the lane is not connected or the release's generation has failed to clean up.
  lemma CloseHearsAndWrites(l: Lane, w: World)
    ensures var r := CloseLane(l, w);
            var settles := ToSettle(l, w);
            var writes := settles.None? || settles.value.generation !in w.failed;
            && r.heard == l.deferred + l.queued + (if OwesNeutral(l) then w.first else [])
                          + (if settles.Some? && writes then w.second else [])
            && r.neutrals == (if (settles.Some? || OwesNeutral(l)) && writes && l.connected then 1 else 0)
            && (settles.Some? ==> settles.value.release in r.releases)
  {
    DrainedFinds(l);
    var d := Drained(l);
    var c := d.(operations := SortedOnce(d.operations));
    NeutralizeHears(c, l, w);
    NeutralizeSettles(c, l, w);
  }

  lemma NeutralizeSettles(c: Collected, l: Lane, w: World)
    requires c.cleanup == Begun(l)
    ensures ToSettle(l, w).Some? ==> ToSettle(l, w).value.release in Neutralize(c, l, w).collected.releases
  {
    CollectFinds(c, l.owner, w.first);
  }

  // ---- No release is made up -----------------------------------------------------------------------------------------

  predicate Asked(commands: seq<Command>, release: nat) {
    exists c :: c in commands && c.Releasing? && c.release == release
  }

  ghost predicate OnlyAsked(c: Collected, begun: Option<Cleanup>) {
    && (forall x :: x in c.releases ==> Asked(c.heard, x) || (begun.Some? && begun.value.release == x))
    && (c.cleanup.Some? ==> c.cleanup == begun || Asked(c.heard, c.cleanup.value.release))
  }

  lemma CollectOnlyAsked(c: Collected, owner: Option<nat>, command: Command, begun: Option<Cleanup>)
    requires OnlyAsked(c, begun)
    ensures OnlyAsked(Collect(c, owner, command), begun)
  {
    var c' := Collect(c, owner, command);
    HeardGrows(c, owner, command);
    forall x | Asked(c.heard, x) ensures Asked(c'.heard, x) {
      var a :| a in c.heard && a.Releasing? && a.release == x;
      assert a in c'.heard;
    }
    if command.Releasing? { assert Asked(c'.heard, command.release); }
  }

  lemma {:induction false} CollectAllOnlyAsked(c: Collected, owner: Option<nat>, commands: seq<Command>, begun: Option<Cleanup>)
    requires OnlyAsked(c, begun)
    ensures OnlyAsked(CollectAll(c, owner, commands), begun)
    decreases commands
  {
    if commands != [] {
      CollectOnlyAsked(c, owner, commands[0], begun);
      CollectAllOnlyAsked(Collect(c, owner, commands[0]), owner, commands[1..], begun);
    }
  }

  lemma CleanupOnlyAsked(c: Collected, cleanup: Cleanup, l: Lane, w: World)
    requires OnlyAsked(c, l.cleanup) && c.cleanup == None
    requires Some(cleanup) == l.cleanup || Asked(c.heard, cleanup.release)
    ensures OnlyAsked(SettleCleanup(c, cleanup, l.owner, l.connected, w).collected, l.cleanup)
  {
    CollectAllOnlyAsked(c, l.owner, w.second, l.cleanup);
    CollectAllHears(c, l.owner, w.second);
    if a :| a in c.heard && a.Releasing? && a.release == cleanup.release { assert a in c.heard + w.second; }
  }

  // Only releases that were begun or asked for are completed.
  lemma CloseInventsNoRelease(l: Lane, w: World, release: nat)
    requires release in CloseLane(l, w).releases
    ensures (l.cleanup.Some? && l.cleanup.value.release == release) || Asked(CloseLane(l, w).heard, release)
  {
    var start := Collected([], l.pending, [], [], [], l.cleanup, []);
    CollectAllOnlyAsked(start, l.owner, l.deferred + l.queued, l.cleanup);
    var d := Drained(l);
    var c := d.(operations := SortedOnce(d.operations));
    assert OnlyAsked(c, l.cleanup);
    if c.cleanup.Some? {
      CleanupOnlyAsked(c.(cleanup := None), c.cleanup.value, l, w);
    } else if l.connected && !l.consumedRelease {
      CollectAllOnlyAsked(c, l.owner, w.first, l.cleanup);
      var waited := CollectAll(c, l.owner, w.first);
      if waited.cleanup.Some? { CleanupOnlyAsked(waited.(cleanup := None), waited.cleanup.value, l, w); }
    }
  }

  // ---- The order of what is settled and answered ---------------------------------------------------------------------

  datatype Kind = AReport | AnAcquisition | AClose

  function Named(c: Command, kind: Kind): seq<nat> {
    match (c, kind)
    case (Reporting(op), AReport) => [op]
    case (Acquiring(acquire), AnAcquisition) => [acquire]
    case (Closing(waiter), AClose) => [waiter]
    case _ => []
  }

  // What the commands of one kind name, in order.
  function Of(commands: seq<Command>, kind: Kind): seq<nat> {
    if commands == [] then [] else Named(commands[0], kind) + Of(commands[1..], kind)
  }

  function ListOf(c: Collected, kind: Kind): seq<nat> {
    match kind
    case AReport => c.records
    case AnAcquisition => c.acquires
    case AClose => c.waiters
  }

  // From `c` to `d` these commands were heard and put on their list, behind what was there.
  predicate Listed(c: Collected, d: Collected, commands: seq<Command>, kind: Kind) {
    d.heard == c.heard + commands && ListOf(d, kind) == ListOf(c, kind) + Of(commands, kind)
  }

  lemma {:induction false} CollectLists(c: Collected, owner: Option<nat>, commands: seq<Command>, kind: Kind)
    ensures Listed(c, CollectAll(c, owner, commands), commands, kind)
    decreases commands
  {
    if commands != [] {
      var d := Collect(c, owner, commands[0]);
      assert ListOf(d, kind) == ListOf(c, kind) + Named(commands[0], kind);
      CollectLists(d, owner, commands[1..], kind);
      assert c.heard + [commands[0]] + commands[1..] == c.heard + commands;
    }
  }

  lemma {:induction false} OfConcat(a: seq<Command>, b: seq<Command>, kind: Kind)
    ensures Of(a + b, kind) == Of(a, kind) + Of(b, kind)
  {
    if a == [] {
      assert [] + b == b;
    } else {
      assert (a + b)[1..] == a[1..] + b;
      OfConcat(a[1..], b, kind);
    }
  }

  lemma Associative<T>(a: seq<T>, b: seq<T>, c: seq<T>)
    ensures (a + b) + c == a + (b + c)
  {
  }

  lemma ListedOn(c: Collected, d: Collected, e: Collected, x: seq<Command>, y: seq<Command>, kind: Kind)
    requires Listed(c, d, x, kind) && Listed(d, e, y, kind)
    ensures Listed(c, e, x + y, kind)
  {
    OfConcat(x, y, kind);
    Associative(c.heard, x, y);
    Associative(ListOf(c, kind), Of(x, kind), Of(y, kind));
  }

  lemma CleanupLists(c: Collected, cleanup: Cleanup, l: Lane, w: World, kind: Kind) returns (more: seq<Command>)
    ensures Listed(c, SettleCleanup(c, cleanup, l.owner, l.connected, w).collected, more, kind)
  {
    more := if cleanup.generation in w.failed then [] else w.second;
    CollectLists(c, l.owner, w.second, kind);
  }

  lemma NeutralizeLists(c: Collected, l: Lane, w: World, kind: Kind) returns (more: seq<Command>)
    ensures Listed(c, Neutralize(c, l, w).collected, more, kind)
  {
    more := [];
    if c.cleanup.Some? {
      more := CleanupLists(c.(cleanup := None), c.cleanup.value, l, w, kind);
    } else if l.connected && !l.consumedRelease {
      CollectLists(c, l.owner, w.first, kind);
      var waited := CollectAll(c, l.owner, w.first);
      more := w.first;
      if waited.cleanup.Some? {
        var last := CleanupLists(waited.(cleanup := None), waited.cleanup.value, l, w, kind);
        ListedOn(c, waited, Neutralize(c, l, w).collected, w.first, last, kind);
        more := w.first + last;
      }
    }
  }

  // The lists of a close, as they are when it has neutralized.
  function Lists(l: Lane, w: World): Collected {
    var d := Drained(l);
    Neutralize(d.(operations := SortedOnce(d.operations)), l, w).collected
  }

  // The operations with a record, in the order they are found: the queue, the commands that were there, the one
  // waiting, and the commands heard later.
  function Recorded(l: Lane, heard: seq<Command>): seq<nat> {
    var n := |l.deferred + l.queued|;
    if n > |heard| then []
    else l.pending + Of(heard[..n], AReport) + (if l.waiting.Some? then [l.waiting.value] else []) + Of(heard[n..], AReport)
  }

  lemma {:induction false} DrainedLists(l: Lane, kind: Kind)
    ensures var d, there := Drained(l), l.deferred + l.queued;
            && d.heard == there
            && ListOf(d, kind) == if kind.AReport? then l.pending + Of(there, kind) + (if l.waiting.Some? then [l.waiting.value] else [])
                                  else Of(there, kind)
  {
    var start := Collected([], l.pending, [], [], [], l.cleanup, []);
    CollectLists(start, l.owner, l.deferred + l.queued, kind);
    assert [] + (l.deferred + l.queued) == l.deferred + l.queued;
  }

  lemma Split(there: seq<Command>, more: seq<Command>)
    ensures (there + more)[..|there|] == there && (there + more)[|there|..] == more
  {
  }

  lemma {:induction false} ListsAre(l: Lane, w: World, kind: Kind)
    ensures var c := Lists(l, w);
            if kind.AReport? then c.records == Recorded(l, c.heard) else ListOf(c, kind) == Of(c.heard, kind)
  {
    var d := Drained(l);
    DrainedLists(l, kind);
    var more := NeutralizeLists(d.(operations := SortedOnce(d.operations)), l, w, kind);
    Split(l.deferred + l.queued, more);
    OfConcat(l.deferred + l.queued, more, kind);
  }

  // What has a record is settled first, in the order found and as often as found; and callers are answered in
  // the order heard.
  lemma CloseKeepsOrder(l: Lane, w: World)
    ensures var r := CloseLane(l, w);
            && SettleAll(Recorded(l, r.heard), if w.closes then Cancellation else StrictFailure) <= r.settled
            && r.acquires == Of(r.heard, AnAcquisition) && r.waiters == Of(r.heard, AClose)
  {
    ListsAre(l, w, AReport);
    ListsAre(l, w, AnAcquisition);
    ListsAre(l, w, AClose);
    assert CloseLane(l, w).heard == Lists(l, w).heard;
  }
}
