/**
 * Closing the lane (crates/easycon-controller/src/session.rs, `close_lane`,
 * `collect_command_during_close`, `settle_automation_cleanup_during_close`): whatever is queued, or
 * arrives while the lane waits for its one paced neutral, is collected and settled on the way out.
 *
 * An operation with a settlement record and a legacy one are told apart by the list they are put on.
 */
module Close {
  import opened Wrappers

  // Operations, acquire records, release records and close waiters are ids.
  datatype Command =
    | Reporting(operation: nat)
    | Requesting(operation: nat)
    | Acquiring(acquire: nat)
    | Releasing(generation: nat, release: nat)
    | Closing(waiter: nat)
    | Wake

  datatype Cleanup = Cleanup(generation: nat, release: nat)

  datatype Lane = Lane(
    pending: seq<nat>,
    deferred: seq<Command>,
    queued: seq<Command>,
    waiting: Option<nat>,
    closeDeferred: seq<nat>,
    cleanup: Option<Cleanup>,
    owner: Option<nat>,
    consumedRelease: bool,
    connected: bool)

  // What the outside does meanwhile: commands that arrive in the wait for the plain neutral and in the
  // wait for the release's, generations with a recorded cleanup failure, and whether the transport closes.
  datatype World = World(first: seq<Command>, second: seq<Command>, failed: set<nat>, closes: bool)

  datatype Verdict = StrictFailure | Cancellation

  datatype Settled = Settled(operation: nat, verdict: Verdict)

  // What has been collected so far; `heard` is every command taken in, in order.
  datatype Collected = Collected(
    operations: seq<nat>,
    records: seq<nat>,
    waiters: seq<nat>,
    acquires: seq<nat>,
    releases: seq<nat>,
    cleanup: Option<Cleanup>,
    heard: seq<Command>)

  datatype Closed = Closed(
    settled: seq<Settled>,
    acquires: seq<nat>,
    releases: seq<nat>,
    waiters: seq<nat>,
    heard: seq<Command>,
    neutrals: nat)

  // `collect_command_during_close`.
  function Collect(c: Collected, owner: Option<nat>, command: Command): Collected {
    var heard := c.(heard := c.heard + [command]);
    match command
    case Reporting(op) => heard.(records := c.records + [op])
    case Requesting(op) => heard.(operations := c.operations + [op])
    case Acquiring(acquire) => heard.(acquires := c.acquires + [acquire])
    case Releasing(generation, release) =>
      if c.cleanup == None && owner == Some(generation) then heard.(cleanup := Some(Cleanup(generation, release)))
      else if c.cleanup == None || c.cleanup.value.generation != generation then heard.(releases := c.releases + [release])
      else heard
    case Closing(waiter) => heard.(waiters := c.waiters + [waiter])
    case Wake => heard
  }

  function CollectAll(c: Collected, owner: Option<nat>, commands: seq<Command>): Collected
    decreases commands
  {
    if commands == [] then c else CollectAll(Collect(c, owner, commands[0]), owner, commands[1..])
  }

  ghost predicate Ascending(s: seq<nat>) {
    forall i, j :: 0 <= i < j < |s| ==> s[i] < s[j]
  }

  // The library's sort and dedup.
  function Insert(x: nat, s: seq<nat>): (r: seq<nat>)
    ensures forall y :: y in r <==> y == x || y in s
    ensures Ascending(s) ==> Ascending(r)
  {
    if s == [] then [x]
    else if x < s[0] then
      AscendingRest(s);
      AscendingCons(x, s);
      [x] + s
    else if x == s[0] then s
    else
      AscendingRest(s);
      var rest := Insert(x, s[1..]);
      AscendingCons(s[0], rest);
      [s[0]] + rest
  }

  lemma AscendingRest(s: seq<nat>)
    requires s != []
    ensures Ascending(s) ==> Ascending(s[1..]) && forall y :: y in s[1..] ==> s[0] < y
  {
  }

  lemma AscendingCons(x: nat, s: seq<nat>)
    ensures Ascending(s) && (forall y :: y in s ==> x < y) ==> Ascending([x] + s)
  {
    if Ascending(s) && forall y :: y in s ==> x < y {
      forall i, j | 0 <= i < j < |[x] + s| ensures ([x] + s)[i] < ([x] + s)[j] {
        assert ([x] + s)[j] == s[j - 1] && s[j - 1] in s;
        if i > 0 { assert ([x] + s)[i] == s[i - 1]; }
      }
    }
  }

  function SortedOnce(s: seq<nat>): (r: seq<nat>)
    ensures forall y :: y in r <==> y in s
    ensures Ascending(r)
  {
    if s == [] then [] else Insert(s[0], SortedOnce(s[1..]))
  }

  function SettleAll(ops: seq<nat>, v: Verdict): (s: seq<Settled>)
    ensures |s| == |ops| && forall k :: 0 <= k < |s| ==> s[k] == Settled(ops[k], v)
  {
    if ops == [] then [] else [Settled(ops[0], v)] + SettleAll(ops[1..], v)
  }

  datatype Neutralized = Neutralized(collected: Collected, neutrals: nat)

  // The lease owner while the lane waits is the one it had, and none once the release is done.
  function SettleCleanup(c: Collected, cleanup: Cleanup, owner: Option<nat>, connected: bool, w: World): Neutralized {
    if cleanup.generation in w.failed then Neutralized(c.(releases := c.releases + [cleanup.release]), 0)
    else
      var after := CollectAll(c, owner, w.second);
      Neutralized(after.(releases := after.releases + [cleanup.release]), if connected then 1 else 0)
  }

  function Neutralize(c: Collected, l: Lane, w: World): Neutralized {
    if c.cleanup.Some? then SettleCleanup(c.(cleanup := None), c.cleanup.value, l.owner, l.connected, w)
    else if l.connected && !l.consumedRelease then
      var waited := CollectAll(c, l.owner, w.first);
      if waited.cleanup.Some? then SettleCleanup(waited.(cleanup := None), waited.cleanup.value, l.owner, l.connected, w)
      else Neutralized(waited, 1)
    else Neutralized(c, 0)
  }

  function Drained(l: Lane): Collected {
    var all := CollectAll(Collected([], l.pending, [], [], [], l.cleanup, []), l.owner, l.deferred + l.queued);
    if l.waiting.Some? then all.(records := all.records + [l.waiting.value]) else all
  }

  function CloseLane(l: Lane, w: World): Closed {
    var drained := Drained(l);
    var n := Neutralize(drained.(operations := SortedOnce(drained.operations)), l, w);
    var c := n.collected;
    var verdict := if w.closes then Cancellation else StrictFailure;
    Closed(SettleAll(c.records, verdict) + SettleAll(SortedOnce(c.operations), verdict) + SettleAll(SortedOnce(l.closeDeferred), verdict),
           c.acquires, c.releases, c.waiters, c.heard, n.neutrals)
  }

  // ---- Who was found, and who was settled ----------------------------------------------------------------

  predicate Names(commands: seq<Command>, op: nat) {
    Reporting(op) in commands || Requesting(op) in commands
  }

  // The lists account for everything heard, besides the operations `before`.
  ghost predicate Accounts(c: Collected, before: set<nat>) {
    && (forall op :: op in c.operations || op in c.records <==> op in before || Names(c.heard, op))
    && (forall a :: a in c.acquires <==> Acquiring(a) in c.heard)
    && (forall x :: x in c.waiters <==> Closing(x) in c.heard)
  }

  // Every release heard was answered, is the cleanup to come, or is the one being settled.
  ghost predicate Releases(c: Collected, owner: Option<nat>, record: nat -> nat, settling: Option<nat>) {
    && (forall g: nat, r: nat :: Releasing(g, r) in c.heard ==>
          r in c.releases || c.cleanup == Some(Cleanup(g, r)) || (settling == Some(g) && r == record(g)))
    && (c.cleanup.Some? ==> owner == Some(c.cleanup.value.generation)
                            && c.cleanup.value.release == record(c.cleanup.value.generation))
  }

  // A generation is released through one record only.
  ghost predicate OneRecordEach(commands: seq<Command>, record: nat -> nat) {
    forall g: nat, r: nat :: Releasing(g, r) in commands ==> r == record(g)
  }

  lemma HeardGrows(c: Collected, owner: Option<nat>, command: Command)
    ensures forall x :: x in Collect(c, owner, command).heard <==> x in c.heard || x == command
  {
  }

  lemma CollectAccounts(c: Collected, owner: Option<nat>, command: Command, before: set<nat>)
    requires Accounts(c, before)
    ensures Accounts(Collect(c, owner, command), before)
  {
    HeardGrows(c, owner, command);
  }

  lemma CollectReleases(c: Collected, owner: Option<nat>, command: Command, record: nat -> nat, settling: Option<nat>)
    requires Releases(c, owner, record, settling)
    requires command.Releasing? ==> command.release == record(command.generation)
    ensures Releases(Collect(c, owner, command), owner, record, settling)
  {
    HeardGrows(c, owner, command);
  }

  lemma {:induction false} CollectAllAccounts(c: Collected, owner: Option<nat>, commands: seq<Command>,
                                              before: set<nat>)
    requires Accounts(c, before)
    ensures Accounts(CollectAll(c, owner, commands), before)
    ensures CollectAll(c, owner, commands).heard == c.heard + commands
    decreases commands
  {
    if commands != [] {
      CollectAccounts(c, owner, commands[0], before);
      CollectAllAccounts(Collect(c, owner, commands[0]), owner, commands[1..], before);
      assert c.heard + [commands[0]] + commands[1..] == c.heard + commands;
    }
  }

  lemma {:induction false} CollectAllReleases(c: Collected, owner: Option<nat>, commands: seq<Command>,
                                              record: nat -> nat,
                                              settling: Option<nat>)
    requires Releases(c, owner, record, settling) && OneRecordEach(commands, record)
    ensures Releases(CollectAll(c, owner, commands), owner, record, settling)
    decreases commands
  {
    if commands != [] {
      assert commands[0] in commands;
      CollectReleases(c, owner, commands[0], record, settling);
      CollectAllReleases(Collect(c, owner, commands[0]), owner, commands[1..], record, settling);
    }
  }

  function Waiting(l: Lane): set<nat> {
    if l.waiting.Some? then {l.waiting.value} else {}
  }

  function Ids(s: seq<nat>): set<nat> {
    set x | x in s
  }

  lemma DrainedAccounts(l: Lane)
    ensures Accounts(Drained(l), Ids(l.pending) + Waiting(l))
    ensures Drained(l).heard == l.deferred + l.queued
  {
    var start := Collected([], l.pending, [], [], [], l.cleanup, []);
    CollectAllAccounts(start, l.owner, l.deferred + l.queued, Ids(l.pending));
    assert [] + (l.deferred + l.queued) == l.deferred + l.queued;
  }

  lemma NeutralizeAccounts(c: Collected, l: Lane, w: World, before: set<nat>)
    requires Accounts(c, before)
    ensures Accounts(Neutralize(c, l, w).collected, before)
    ensures c.heard <= Neutralize(c, l, w).collected.heard
  {
    if c.cleanup.Some? {
      SettleCleanupAccounts(c.(cleanup := None), c.cleanup.value, l, w, before);
    } else if l.connected && !l.consumedRelease {
      CollectAllAccounts(c, l.owner, w.first, before);
      var waited := CollectAll(c, l.owner, w.first);
      if waited.cleanup.Some? {
        SettleCleanupAccounts(waited.(cleanup := None), waited.cleanup.value, l, w, before);
      }
    }
  }

  lemma SettleCleanupAccounts(c: Collected, cleanup: Cleanup, l: Lane, w: World, before: set<nat>)
    requires Accounts(c, before)
    ensures var n := SettleCleanup(c, cleanup, l.owner, l.connected, w).collected;
            Accounts(n, before) && c.heard <= n.heard
  {
    CollectAllAccounts(c, l.owner, w.second, before);
  }

  lemma {:induction false} SettledHas(ops: seq<nat>, v: Verdict, s: Settled)
    ensures s in SettleAll(ops, v) <==> s.operation in ops && s.verdict == v
  {
    if ops != [] { SettledHas(ops[1..], v, s); }
  }

  // Close drains everything: on the way out exactly the operations found pending, waiting, deferred
  // for close, queued, or heard of in a wait have been settled, each by strict failure if the transport
  // did not close and by cancellation if it did.
  lemma CloseDrainsEverything(l: Lane, w: World, s: Settled)
    ensures var r := CloseLane(l, w);
            && l.deferred + l.queued <= r.heard
            && (s in r.settled <==>
                  && s.verdict == (if w.closes then Cancellation else StrictFailure)
                  && (s.operation in l.pending || l.waiting == Some(s.operation) || s.operation in l.closeDeferred
                      || Names(r.heard, s.operation)))
  {
    DrainedAccounts(l);
    var drained := Drained(l);
    var c0 := drained.(operations := SortedOnce(drained.operations));
    NeutralizeAccounts(c0, l, w, Ids(l.pending) + Waiting(l));
    var c := Neutralize(c0, l, w).collected;
    var v := if w.closes then Cancellation else StrictFailure;
    SettledHas(c.records, v, s);
    SettledHas(SortedOnce(c.operations), v, s);
    SettledHas(SortedOnce(l.closeDeferred), v, s);
  }

  // Exactly the acquisitions and close callers heard of are answered.
  lemma CloseAnswersCallers(l: Lane, w: World, x: nat)
    ensures var r := CloseLane(l, w);
            && (x in r.acquires <==> Acquiring(x) in r.heard)
            && (x in r.waiters <==> Closing(x) in r.heard)
  {
    DrainedAccounts(l);
    var drained := Drained(l);
    NeutralizeAccounts(drained.(operations := SortedOnce(drained.operations)), l, w, Ids(l.pending) + Waiting(l));
  }

  // A release the lane has begun belongs to the lease it holds.
  predicate CleanupOfOwner(l: Lane) {
    l.cleanup.Some? ==> l.owner == Some(l.cleanup.value.generation)
  }

  lemma SettleCleanupReleases(c: Collected, cleanup: Cleanup, l: Lane, w: World, record: nat -> nat)
    requires l.owner == Some(cleanup.generation) && cleanup.release == record(cleanup.generation)
    requires Releases(c, l.owner, record, Some(cleanup.generation)) && c.cleanup == None
    requires OneRecordEach(w.second, record)
    ensures var n := SettleCleanup(c, cleanup, l.owner, l.connected, w).collected;
            cleanup.release in n.releases && forall g: nat, r: nat :: Releasing(g, r) in n.heard ==> r in n.releases
  {
    CollectAllReleases(c, l.owner, w.second, record, Some(cleanup.generation));
  }

  lemma NeutralizeReleases(c: Collected, l: Lane, w: World, record: nat -> nat)
    requires Releases(c, l.owner, record, None)
    requires OneRecordEach(w.first, record) && OneRecordEach(w.second, record)
    ensures var n := Neutralize(c, l, w).collected;
            && (forall g: nat, r: nat :: Releasing(g, r) in n.heard ==> r in n.releases)
            && (c.cleanup.Some? ==> c.cleanup.value.release in n.releases)
  {
    if c.cleanup.Some? {
      SettleCleanupReleases(c.(cleanup := None), c.cleanup.value, l, w, record);
    } else if l.connected && !l.consumedRelease {
      CollectAllReleases(c, l.owner, w.first, record, None);
      var waited := CollectAll(c, l.owner, w.first);
      if waited.cleanup.Some? {
        SettleCleanupReleases(waited.(cleanup := None), waited.cleanup.value, l, w, record);
      }
    }
  }

  lemma {:induction false} CleanupStays(c: Collected, owner: Option<nat>, commands: seq<Command>)
    requires c.cleanup.Some?
    ensures CollectAll(c, owner, commands).cleanup == c.cleanup
    decreases commands
  {
    if commands != [] { CleanupStays(Collect(c, owner, commands[0]), owner, commands[1..]); }
  }

  // Every release the lane had begun or heard of is completed by the lane itself, as long as a
  // generation is released through one record: then a second command for the release being settled,
  // which nobody looks at, names the record that is completed anyway.
  lemma CloseAnswersReleases(l: Lane, w: World, record: nat -> nat)
    requires CleanupOfOwner(l) && (l.cleanup.Some? ==> l.cleanup.value.release == record(l.cleanup.value.generation))
    requires OneRecordEach(l.deferred + l.queued, record) && OneRecordEach(w.first, record) && OneRecordEach(w.second, record)
    ensures var r := CloseLane(l, w);
            && (forall g: nat, x: nat :: Releasing(g, x) in r.heard ==> x in r.releases)
            && (l.cleanup.Some? ==> l.cleanup.value.release in r.releases)
  {
    var start := Collected([], l.pending, [], [], [], l.cleanup, []);
    CollectAllReleases(start, l.owner, l.deferred + l.queued, record, None);
    var drained := Drained(l);
    var c := drained.(operations := SortedOnce(drained.operations));
    if l.cleanup.Some? { CleanupStays(start, l.owner, l.deferred + l.queued); }
    assert Releases(c, l.owner, record, None);
    NeutralizeReleases(c, l, w, record);
  }

  // At most one neutral is written in a close: the one of a release there was to settle, or else a
  // plain one if no release has taken its place; and none on a lane that is not connected.
  lemma OneNeutral(l: Lane, w: World)
    ensures var r := CloseLane(l, w);
            && r.neutrals <= 1
            && (r.neutrals == 1 ==> l.connected)
            && ((Drained(l).cleanup == None && l.connected && !l.consumedRelease
                 && CollectAll(Drained(l), l.owner, w.first).cleanup == None) ==> r.neutrals == 1)
            && (Drained(l).cleanup.Some? ==>
                  (r.neutrals == 1 <==> l.connected && Drained(l).cleanup.value.generation !in w.failed))
            && (Drained(l).cleanup == None && l.consumedRelease ==> r.neutrals == 0)
  {
    var d := Drained(l);
    SameCleanup(d, d.(operations := SortedOnce(d.operations)), l.owner, w.first);
  }

  lemma {:induction false} SameCleanup(a: Collected, b: Collected, owner: Option<nat>, commands: seq<Command>)
    requires a.cleanup == b.cleanup
    ensures CollectAll(a, owner, commands).cleanup == CollectAll(b, owner, commands).cleanup
    decreases commands
  {
    if commands != [] { SameCleanup(Collect(a, owner, commands[0]), Collect(b, owner, commands[0]), owner, commands[1..]); }
  }

  // ---- The close as it runs ---------------------------------------------------------------------------------

  class ClosingLane {
    var operations: seq<nat>
    var records: seq<nat>
    var waiters: seq<nat>
    var acquires: seq<nat>
    var releases: seq<nat>
    var cleanup: Option<Cleanup>
    var heard: seq<Command>
    var settled: seq<Settled>
    var neutrals: nat

    function View(): Collected
      reads this
    {
      Collected(operations, records, waiters, acquires, releases, cleanup, heard)
    }

    constructor (l: Lane)
      ensures View() == Collected([], l.pending, [], [], [], l.cleanup, [])
      ensures settled == [] && neutrals == 0
    {
      operations, records, waiters, acquires, releases := [], l.pending, [], [], [];
      cleanup, heard, settled, neutrals := l.cleanup, [], [], 0;
    }

    method CollectCommand(owner: Option<nat>, command: Command)
      modifies this
      ensures View() == Collect(old(View()), owner, command)
      ensures settled == old(settled) && neutrals == old(neutrals)
    {
      heard := heard + [command];
      match command
      case Reporting(op) => records := records + [op];
      case Requesting(op) => operations := operations + [op];
      case Acquiring(acquire) => acquires := acquires + [acquire];
      case Releasing(generation, release) =>
        if cleanup == None && owner == Some(generation) {
          cleanup := Some(Cleanup(generation, release));
        } else if cleanup == None || cleanup.value.generation != generation {
          releases := releases + [release];
        }
      case Closing(waiter) => waiters := waiters + [waiter];
      case Wake =>
    }

    method CollectCommands(owner: Option<nat>, commands: seq<Command>)
      modifies this
      ensures View() == CollectAll(old(View()), owner, commands)
      ensures settled == old(settled) && neutrals == old(neutrals)
    {
      var i := 0;
      assert commands[0..] == commands;
      while i < |commands|
        invariant i <= |commands| && settled == old(settled) && neutrals == old(neutrals)
        invariant CollectAll(old(View()), owner, commands) == CollectAll(View(), owner, commands[i..])
      {
        assert commands[i..][0] == commands[i] && commands[i..][1..] == commands[i + 1..];
        CollectCommand(owner, commands[i]);
        i := i + 1;
      }
    }

    method SettleAutomationCleanup(release: Cleanup, owner: Option<nat>, connected: bool, w: World)
      modifies this
      ensures var n := SettleCleanup(old(View()), release, owner, connected, w);
              View() == n.collected && neutrals == old(neutrals) + n.neutrals && settled == old(settled)
    {
      if release.generation in w.failed {
        releases := releases + [release.release];
        return;
      }
      CollectCommands(owner, w.second);
      if connected {
        neutrals := neutrals + 1;
      }
      releases := releases + [release.release];
    }

    method SettleOperations(ops: seq<nat>, verdict: Verdict)
      modifies `settled
      ensures settled == old(settled) + SettleAll(ops, verdict)
    {
      var i := 0;
      while i < |ops|
        invariant i <= |ops|
        invariant settled == old(settled) + SettleAll(ops, verdict)[..i]
      {
        settled := settled + [Settled(ops[i], verdict)];
        i := i + 1;
      }
    }

    method CloseAll(l: Lane, w: World) returns (r: Closed)
      requires View() == Collected([], l.pending, [], [], [], l.cleanup, []) && settled == [] && neutrals == 0
      modifies this
      ensures r == CloseLane(l, w)
    {
      DrainQueue(l);
      operations := SortedOnce(operations);
      ghost var n := Neutralize(View(), l, w);
      NeutralizeOnce(l, w);
      operations := SortedOnce(operations);
      SettleEverything(l.closeDeferred, if w.closes then Cancellation else StrictFailure);
      r := Closed(settled, acquires, releases, waiters, heard, neutrals);
      assert r.neutrals == n.neutrals && records == n.collected.records && operations == SortedOnce(n.collected.operations);
    }

    method DrainQueue(l: Lane)
      requires View() == Collected([], l.pending, [], [], [], l.cleanup, [])
      modifies this
      ensures View() == Drained(l)
      ensures settled == old(settled) && neutrals == old(neutrals)
    {
      CollectCommands(l.owner, l.deferred + l.queued);
      if l.waiting.Some? {
        records := records + [l.waiting.value];
      }
    }

    method SettleEverything(closeDeferred: seq<nat>, verdict: Verdict)
      requires settled == []
      modifies `settled
      ensures settled == SettleAll(records, verdict) + SettleAll(operations, verdict) + SettleAll(SortedOnce(closeDeferred), verdict)
    {
      assert [] + SettleAll(records, verdict) == SettleAll(records, verdict);
      SettleOperations(records, verdict);
      SettleOperations(operations, verdict);
      SettleOperations(SortedOnce(closeDeferred), verdict);
    }

    // The one place in a close where a neutral may be written.
    method NeutralizeOnce(l: Lane, w: World)
      modifies this
      ensures var n := Neutralize(old(View()), l, w);
              View() == n.collected && neutrals == old(neutrals) + n.neutrals && settled == old(settled)
    {
      if cleanup.Some? {
        var release := cleanup.value;
        cleanup := None;
        SettleAutomationCleanup(release, l.owner, l.connected, w);
      } else if l.connected && !l.consumedRelease {
        CollectCommands(l.owner, w.first);
        if cleanup.Some? {
          var release := cleanup.value;
          cleanup := None;
          SettleAutomationCleanup(release, l.owner, l.connected, w);
        } else {
          neutrals := neutrals + 1;
        }
      }
    }
  }
}
