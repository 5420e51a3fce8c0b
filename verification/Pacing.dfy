/**
 * The minimum interval between an accepted report and the next start of one, over whole runs of the
 * lane (crates/easycon-controller/src/session.rs): the dispatch loop, the neutral of an automation
 * release with its fixed target, and the one neutral of a close.
 *
 * Readings of the clock are parameters; a step whose readings go backwards does nothing.
 */
module Pacing {
  import opened Wrappers
  import opened Timing

  datatype Writer = Dispatch | ReleaseNeutral | CloseNeutral

  // One write of a report: when it started, and when the backend accepted it, if it did.
  datatype Entry = Entry(start: nat, accepted: Option<nat>, writer: Writer)

  // `release` is the target of a pending automation release, `acceptedSince` whether a report has been
  // accepted since that target was fixed.
  datatype State = State(
    clock: nat, last: Option<nat>, interval: nat, release: Option<nat>, acceptedSince: bool, closed: bool, log: seq<Entry>)

  datatype Step =
    | DispatchPass(now: nat, accepted: Option<nat>)
    | BeginRelease(now: nat)
    | DispatchRelease(now: nat, accepted: Option<nat>)
    | Close(now: nat, start: nat, accepted: Option<nat>)

  function Init(interval: nat): State {
    State(0, None, interval, None, false, false, [])
  }

  function Written(s: State, start: nat, accepted: Option<nat>, writer: Writer): State {
    s.(clock := if accepted.Some? then accepted.value else start,
       last := if accepted.Some? then accepted else s.last,
       acceptedSince := s.acceptedSince || accepted.Some?,
       log := s.log + [Entry(start, accepted, writer)])
  }

  predicate Forward(s: State, start: nat, accepted: Option<nat>) {
    s.clock <= start && (accepted.Some? ==> start <= accepted.value)
  }

  function Later(a: nat, b: nat): nat {
    if a > b then a else b
  }

  function Apply(s: State, step: Step): State {
    if s.closed then s
    else
      match step
      // `dispatch_due_reports` re-reads the last acceptance and postpones a report that is too early.
      case DispatchPass(now, accepted) =>
        if !Forward(s, now, accepted) then s
        else if Earliest(s.last, s.interval) > now then s.(clock := now)
        else Written(s, now, accepted, Dispatch)
      case BeginRelease(now) =>
        if now < s.clock || s.release.Some? then s
        else s.(clock := now, release := Some(PacedTarget(s.last, s.interval, now)), acceptedSince := false)
      // `dispatch_automation_cleanup` looks at its own target only.
      case DispatchRelease(now, accepted) =>
        if !Forward(s, now, accepted) || s.release == None || s.release.value > now then s
        else Written(s, now, accepted, ReleaseNeutral).(release := None)
      // `close_lane` computes its target once the queue is drained, and waits for it.
      case Close(now, start, accepted) =>
        var paced := PacedTarget(s.last, s.interval, now);
        var target := if s.release.Some? then Later(s.release.value, paced) else paced;
        if now < s.clock || start < target || !Forward(s, start, accepted) then s
        else Written(s, start, accepted, CloseNeutral).(release := None, closed := true)
  }

  function Run(s: State, steps: seq<Step>): State
    decreases steps
  {
    if steps == [] then s else Run(Apply(s, steps[0]), steps[1..])
  }

  function LastAccepted(log: seq<Entry>): Option<nat> {
    if log == [] then None
    else if log[|log| - 1].accepted.Some? then log[|log| - 1].accepted
    else LastAccepted(log[..|log| - 1])
  }

  ghost predicate Paced(log: seq<Entry>, k: nat, interval: nat)
    requires k < |log|
  {
    log[k].start >= Earliest(LastAccepted(log[..k]), interval)
  }

  ghost predicate LogInv(s: State) {
    && s.last == LastAccepted(s.log)
    && (forall k: nat :: k < |s.log| && s.log[k].writer != ReleaseNeutral ==> Paced(s.log, k, s.interval))
  }

  predicate Ascending(log: seq<Entry>) {
    log == [] ||
      var init, e := log[..|log| - 1], log[|log| - 1];
      && Ascending(init)
      && (e.accepted.Some? && LastAccepted(init).Some? ==> LastAccepted(init).value <= e.accepted.value)
  }

  // Acceptances never go back, and none lies in the future.
  ghost predicate TimeInv(s: State) {
    Ascending(s.log) && s.last == LastAccepted(s.log) && (s.last.Some? ==> s.last.value <= s.clock)
  }

  // Until something is accepted the release's target is paced; whatever is accepted after it was fixed
  // is accepted no earlier than that target.
  ghost predicate ReleaseInv(s: State) {
    s.release.Some? ==>
      if s.acceptedSince then s.last.Some? && s.release.value <= s.last.value
      else Earliest(s.last, s.interval) <= s.release.value <= Later(s.clock, Earliest(s.last, s.interval))
  }

  ghost predicate Inv(s: State) {
    LogInv(s) && TimeInv(s) && ReleaseInv(s)
  }

  lemma WrittenKeepsLog(s: State, start: nat, accepted: Option<nat>, writer: Writer)
    requires LogInv(s)
    requires writer != ReleaseNeutral ==> start >= Earliest(s.last, s.interval)
    ensures LogInv(Written(s, start, accepted, writer))
  {
    var log := Written(s, start, accepted, writer).log;
    assert log[..|log| - 1] == s.log;
    forall k: nat | k < |log| && log[k].writer != ReleaseNeutral ensures Paced(log, k, s.interval) {
      assert log[..k] == s.log[..k];
      if k < |s.log| {
        assert log[k] == s.log[k] && Paced(s.log, k, s.interval);
      } else {
        assert s.log[..k] == s.log;
      }
    }
  }

  lemma WrittenKeepsTime(s: State, start: nat, accepted: Option<nat>, writer: Writer)
    requires TimeInv(s) && Forward(s, start, accepted)
    ensures TimeInv(Written(s, start, accepted, writer))
  {
    var log := Written(s, start, accepted, writer).log;
    assert log[..|log| - 1] == s.log;
  }

  lemma WrittenKeepsRelease(s: State, start: nat, accepted: Option<nat>, writer: Writer)
    requires TimeInv(s) && ReleaseInv(s) && Forward(s, start, accepted)
    requires start >= Earliest(s.last, s.interval)
    ensures ReleaseInv(Written(s, start, accepted, writer))
  {
  }

  lemma PassKeepsInv(s: State, now: nat, accepted: Option<nat>)
    requires Inv(s) && !s.closed
    ensures Inv(Apply(s, DispatchPass(now, accepted)))
  {
    if Forward(s, now, accepted) {
      if Earliest(s.last, s.interval) <= now {
        WrittenKeepsLog(s, now, accepted, Dispatch);
        WrittenKeepsTime(s, now, accepted, Dispatch);
        WrittenKeepsRelease(s, now, accepted, Dispatch);
        assert Apply(s, DispatchPass(now, accepted)) == Written(s, now, accepted, Dispatch);
      } else {
        assert ReleaseInv(s.(clock := now));
      }
    }
  }

  lemma ReleaseKeepsInv(s: State, now: nat, accepted: Option<nat>)
    requires Inv(s) && !s.closed && Forward(s, now, accepted)
    ensures Inv(Written(s, now, accepted, ReleaseNeutral).(release := None))
  {
    WrittenKeepsLog(s, now, accepted, ReleaseNeutral);
    WrittenKeepsTime(s, now, accepted, ReleaseNeutral);
  }

  lemma CloseKeepsInv(s: State, start: nat, accepted: Option<nat>)
    requires Inv(s) && !s.closed && Forward(s, start, accepted) && start >= Earliest(s.last, s.interval)
    ensures Inv(Written(s, start, accepted, CloseNeutral).(release := None, closed := true))
  {
    WrittenKeepsLog(s, start, accepted, CloseNeutral);
    WrittenKeepsTime(s, start, accepted, CloseNeutral);
  }

  lemma StepKeepsInv(s: State, step: Step)
    requires Inv(s)
    ensures Inv(Apply(s, step))
  {
    if !s.closed {
      match step
      case DispatchPass(now, accepted) => PassKeepsInv(s, now, accepted);
      case BeginRelease(now) =>
      case DispatchRelease(now, accepted) => if Apply(s, step) != s { ReleaseKeepsInv(s, now, accepted); }
      case Close(now, start, accepted) => if Apply(s, step) != s { CloseKeepsInv(s, start, accepted); }
    }
  }

  lemma {:induction false} RunKeepsInv(s: State, steps: seq<Step>)
    requires Inv(s)
    ensures Inv(Run(s, steps))
    decreases steps
  {
    if steps != [] {
      StepKeepsInv(s, steps[0]);
      RunKeepsInv(Apply(s, steps[0]), steps[1..]);
    }
  }

  lemma {:induction false} AscendingPrefix(log: seq<Entry>, k: nat)
    requires Ascending(log) && k <= |log|
    ensures Ascending(log[..k])
  {
    if k < |log| {
      AscendingPrefix(log[..|log| - 1], k);
      assert log[..|log| - 1][..k] == log[..k];
    } else {
      assert log[..k] == log;
    }
  }

  // The last acceptance of a history is its latest.
  lemma {:induction false} LastIsLatest(log: seq<Entry>, j: nat)
    requires Ascending(log) && j < |log| && log[j].accepted.Some?
    ensures LastAccepted(log).Some? && log[j].accepted.value <= LastAccepted(log).value
  {
    if j < |log| - 1 { LastIsLatest(log[..|log| - 1], j); }
  }

  // Pacing over whole runs: every report the dispatch loop writes, and the neutral of a close, starts at
  // least the minimum interval after every acceptance before it, as long as that sum fits in 64 bits.
  lemma {:induction false} ReportsArePaced(interval: nat, steps: seq<Step>, j: nat, k: nat)
    requires var log := Run(Init(interval), steps).log;
             j < k < |log| && log[k].writer != ReleaseNeutral && log[j].accepted.Some?
             && LastAccepted(log[..k]).Some? && LastAccepted(log[..k]).value + interval <= U64_MAX
    ensures var log := Run(Init(interval), steps).log;
            log[k].start >= log[j].accepted.value + interval
  {
    RunKeepsInv(Init(interval), steps);
    RunKeepsInterval(Init(interval), steps);
    var s := Run(Init(interval), steps);
    assert Paced(s.log, k, s.interval);
    AscendingPrefix(s.log, k);
    LastIsLatest(s.log[..k], j);
  }

  lemma {:induction false} RunKeepsInterval(s: State, steps: seq<Step>)
    ensures Run(s, steps).interval == s.interval
    decreases steps
  {
    if steps != [] { RunKeepsInterval(Apply(s, steps[0]), steps[1..]); }
  }

  // After the neutral of its close the lane writes nothing any more.
  lemma {:induction false} CloseIsLast(interval: nat, steps: seq<Step>, k: nat)
    requires k < |Run(Init(interval), steps).log| && Run(Init(interval), steps).log[k].writer == CloseNeutral
    ensures k == |Run(Init(interval), steps).log| - 1
  {
    RunClosesLast(Init(interval), steps);
  }

  ghost predicate ClosesLast(s: State) {
    forall k :: 0 <= k < |s.log| && s.log[k].writer == CloseNeutral ==> s.closed && k == |s.log| - 1
  }

  lemma {:induction false} RunClosesLast(s: State, steps: seq<Step>)
    requires ClosesLast(s)
    ensures ClosesLast(Run(s, steps))
    decreases steps
  {
    if steps != [] { RunClosesLast(Apply(s, steps[0]), steps[1..]); }
  }

  // The instants at which the lane may dispatch a pending release: from its fixed target on.
  predicate MayStart(s: State, now: nat) {
    !s.closed && s.release.Some? && s.release.value <= now && s.clock <= now
  }

  // The entry a release's neutral starting then adds to the log.
  ghost predicate PacedAt(s: State, now: nat)
    requires MayStart(s, now)
  {
    Paced(Apply(s, DispatchRelease(now, None)).log, |s.log|, s.interval)
  }

  // The neutral of a release is paced at every instant at which the lane may dispatch it, if and only
  // if nothing was accepted since its target was fixed, or the interval after what was accepted is over
  // by the first of those instants already.
  lemma {:induction false} ReleasePacedExactly(interval: nat, steps: seq<Step>)
    requires var s := Run(Init(interval), steps); !s.closed && s.release.Some?
    ensures var s := Run(Init(interval), steps);
            (forall now: nat :: MayStart(s, now) ==> PacedAt(s, now)) <==>
              (!s.acceptedSince
               || (s.last.Some? && SaturatingAdd(s.last.value, interval) <= Later(s.clock, s.release.value)))
  {
    RunKeepsInv(Init(interval), steps);
    RunKeepsInterval(Init(interval), steps);
    var s := Run(Init(interval), steps);
    forall now: nat | MayStart(s, now) ensures PacedAt(s, now) <==> now >= Earliest(s.last, interval) {
      assert Apply(s, DispatchRelease(now, None)).log[..|s.log|] == s.log;
    }
    var first := Later(s.clock, s.release.value);
    assert MayStart(s, first);
  }

  // After something was accepted the fixed target protects nothing: it has passed already, so the
  // neutral may start at once, and with a positive interval it is then too early.
  lemma {:induction false} AcceptanceBreaksPacing(interval: nat, steps: seq<Step>)
    requires interval > 0
    requires var s := Run(Init(interval), steps);
             && !s.closed && s.release.Some? && s.acceptedSince
             && s.last.Some? && s.clock == s.last.value && s.last.value + interval <= U64_MAX
    ensures var s := Run(Init(interval), steps); MayStart(s, s.clock) && !PacedAt(s, s.clock)
  {
    RunKeepsInv(Init(interval), steps);
    RunKeepsInterval(Init(interval), steps);
    var s := Run(Init(interval), steps);
    assert Apply(s, DispatchRelease(s.clock, None)).log[..|s.log|] == s.log;
  }

  // Such a run: a report is accepted at 0, a release begins at 5 with target 10, a cancel cleanup left
  // in the queue is accepted at 10, and the release's neutral starts at 10 too.
  lemma UnpacedReleaseRun()
    ensures var steps := [DispatchPass(0, Some(0)), BeginRelease(5), DispatchPass(10, Some(10)), DispatchRelease(10, Some(11))];
            var log := Run(Init(10), steps).log;
            log == [Entry(0, Some(0), Dispatch), Entry(10, Some(10), Dispatch), Entry(10, Some(11), ReleaseNeutral)]
  {
    var a, b, c, d := DispatchPass(0, Some(0)), BeginRelease(5), DispatchPass(10, Some(10)), DispatchRelease(10, Some(11));
    var s0 := Init(10);
    var s1 := Apply(s0, a);
    var s2 := Apply(s1, b);
    var s3 := Apply(s2, c);
    var s4 := Apply(s3, d);
    assert s4.log == [Entry(0, Some(0), Dispatch), Entry(10, Some(10), Dispatch), Entry(10, Some(11), ReleaseNeutral)];
    assert [a, b, c, d][1..] == [b, c, d] && [b, c, d][1..] == [c, d] && [c, d][1..] == [d] && [d][1..] == [];
    assert Run(s3, [d]) == s4;
    assert Run(s2, [c, d]) == s4;
    assert Run(s1, [b, c, d]) == s4;
  }
}
