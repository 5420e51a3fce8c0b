/**
 * The registry that projects close, cleanup failure and stream settlement onto every release
 * record, and the race of its methods with each other and with the lane
 * (crates/easycon-controller/src/session.rs, `ReleaseInterruptRegistry`).
 *
 * A method is one critical section of the registry followed by calls on records outside the lock.
 * In `World` those calls wait in the method's `todo` until a later step makes them.
 */
module ReleaseRegistry {
  import opened Wrappers
  import R = Release

  datatype Projection = Proven(error: R.Error) | OwnershipLost

  // The error of the `closed_lane_error` value.
  const LANE_CLOSED: R.Error := 0

  datatype Action = ActComplete(outcome: R.Outcome) | ActRequestClose

  datatype Effect = Effect(record: nat, action: Action)

  datatype Registry = Registry(
    records: seq<nat>,
    retained: seq<nat>,
    closeRequested: bool,
    streamSettled: bool,
    projection: Option<Projection>)

  function Settled(): R.Outcome {
    R.NotDeliveredStreamSettled(LANE_CLOSED)
  }

  // `retain(|existing| existing.upgrade().is_some())`.
  function Live(records: seq<nat>, alive: set<nat>): (r: seq<nat>)
    ensures forall x :: x in r <==> x in records && x in alive
  {
    if records == [] then []
    else if records[0] in alive then [records[0]] + Live(records[1..], alive)
    else Live(records[1..], alive)
  }

  function ForAll(records: seq<nat>, action: Action): (r: seq<Effect>)
    ensures |r| == |records|
    ensures forall i :: 0 <= i < |records| ==> r[i] == Effect(records[i], action)
  {
    if records == [] then [] else [Effect(records[0], action)] + ForAll(records[1..], action)
  }

  // Each method: the registry after its critical section and the calls it still has to make.
  datatype Sectioned = Sectioned(registry: Registry, todo: seq<Effect>)

  function Track(g: Registry, alive: set<nat>, record: nat): Sectioned {
    var g' := g.(records := Live(g.records, alive) + [record]);
    if g.projection == Some(OwnershipLost) then Sectioned(g'.(retained := g.retained + [record]), [])
    else if g.projection.Some? then Sectioned(g', [Effect(record, ActComplete(R.CleanupFailure(g.projection.value.error)))])
    else if g.streamSettled then Sectioned(g', [Effect(record, ActComplete(Settled()))])
    else if g.closeRequested then Sectioned(g', [Effect(record, ActRequestClose)])
    else Sectioned(g', [])
  }

  function CleanupFailure(g: Registry, alive: set<nat>, error: R.Error): Sectioned {
    var p := if g.projection.None? then Proven(error) else g.projection.value;
    var g' := g.(projection := Some(p));
    if p.OwnershipLost? then Sectioned(g', [])
    else
      var live := Live(g.records, alive);
      Sectioned(g'.(records := live), ForAll(live, ActComplete(R.CleanupFailure(p.error))))
  }

  function OwnershipLoss(g: Registry, alive: set<nat>): Registry {
    if g.projection.Some? && g.projection.value.Proven? then g
    else
      var live := Live(g.records, alive);
      g.(projection := Some(OwnershipLost), streamSettled := false, records := live, retained := g.retained + live)
  }

  function RequestCloses(g: Registry, alive: set<nat>): Sectioned {
    var live := Live(g.records, alive);
    Sectioned(g.(closeRequested := true, records := live), ForAll(live, ActRequestClose))
  }

  function SettleStream(g: Registry, alive: set<nat>): Sectioned {
    if g.projection == Some(OwnershipLost) then Sectioned(g.(closeRequested := true), [])
    else
      var live := Live(g.records, alive);
      Sectioned(g.(closeRequested := true, streamSettled := true, records := live), ForAll(live, ActComplete(Settled())))
  }

  // ---- The interleaving ----------------------------------------------------------------------------

  // `tracked` remembers every record ever handed to `track`; `alive` those somebody still holds.
  datatype World = World(
    registry: Registry,
    phases: seq<R.Phase>,
    alive: set<nat>,
    tracked: set<nat>,
    calls: seq<seq<Effect>>)

  datatype Step =
    | NewRecord
    | DropRecord(record: nat)
    | DoTrack(record: nat)
    | DoCleanupFailure(error: R.Error)
    | DoOwnershipLoss
    | DoRequestCloses
    | DoSettleStream
    | CallStep(call: nat)
    | OnRecord(record: nat, step: R.Call)

  function Init(): World {
    World(Registry([], [], false, false, None), [], {}, {}, [])
  }

  function Entered(w: World, s: Sectioned): World {
    w.(registry := s.registry, calls := w.calls + [s.todo])
  }

  function PhaseAfter(p: R.Phase, a: Action): R.Phase {
    match a
    case ActComplete(o) => R.Complete(p, o)
    case ActRequestClose => R.RequestClose(p)
  }

  // A record still named by the registry's retained list or by a call cannot die.
  predicate Held(w: World, record: nat) {
    record in w.registry.retained || exists c :: 0 <= c < |w.calls| && exists k :: 0 <= k < |w.calls[c]| && w.calls[c][k].record == record
  }

  ghost predicate Enabled(w: World, s: Step) {
    match s
    case DropRecord(r) => !Held(w, r)
    case DoTrack(r) => r < |w.phases| && r in w.alive
    case CallStep(c) => c < |w.calls| && w.calls[c] != [] && w.calls[c][0].record < |w.phases|
    case OnRecord(r, _) => r < |w.phases|
    case _ => true
  }

  ghost function Apply(w: World, s: Step): World {
    if !Enabled(w, s) then w
    else match s
      case NewRecord => w.(phases := w.phases + [R.Undispatched(false)], alive := w.alive + {|w.phases|})
      case DropRecord(r) => w.(alive := w.alive - {r})
      case DoTrack(r) => Entered(w, Track(w.registry, w.alive, r)).(tracked := w.tracked + {r})
      case DoCleanupFailure(e) => Entered(w, CleanupFailure(w.registry, w.alive, e))
      case DoOwnershipLoss => w.(registry := OwnershipLoss(w.registry, w.alive))
      case DoRequestCloses => Entered(w, RequestCloses(w.registry, w.alive))
      case DoSettleStream => Entered(w, SettleStream(w.registry, w.alive))
      case CallStep(c) =>
        var e := w.calls[c][0];
        w.(phases := w.phases[e.record := PhaseAfter(w.phases[e.record], e.action)],
           calls := w.calls[c := w.calls[c][1..]])
      case OnRecord(r, call) => w.(phases := w.phases[r := R.Step(w.phases[r], call)])
  }

  ghost function Run(w: World, steps: seq<Step>): World
    decreases steps
  {
    if steps == [] then w else Run(Apply(w, steps[0]), steps[1..])
  }

  // ---- What every step keeps -------------------------------------------------------------------------

  predicate Waits(todo: seq<Effect>, record: nat) {
    exists k :: 0 <= k < |todo| && todo[k].record == record && todo[k].action.ActComplete?
  }

  // Some registry method is on its way to complete this record.
  predicate InFlight(w: World, record: nat) {
    exists c :: 0 <= c < |w.calls| && Waits(w.calls[c], record)
  }

  predicate MustSettle(g: Registry) {
    g.projection != Some(OwnershipLost) && (g.projection.Some? || g.streamSettled)
  }

  ghost predicate Inv(w: World) {
    && (forall r :: r in w.alive ==> r < |w.phases|)
    && (forall r :: r in w.tracked ==> r < |w.phases|)
    && (forall c, k :: 0 <= c < |w.calls| && 0 <= k < |w.calls[c]| ==> w.calls[c][k].record < |w.phases|)
    && (forall r :: r in w.registry.records ==> r < |w.phases|)
    && (forall r :: r in w.tracked && r in w.alive ==> r in w.registry.records)
    && (MustSettle(w.registry) ==>
          forall r :: r in w.tracked && r in w.alive ==> w.phases[r].Committed? || InFlight(w, r))
  }

  lemma {:induction false} WaitsForAll(records: seq<nat>, outcome: R.Outcome, record: nat)
    requires record in records
    ensures Waits(ForAll(records, ActComplete(outcome)), record)
  {
    var k :| 0 <= k < |records| && records[k] == record;
    assert ForAll(records, ActComplete(outcome))[k] == Effect(record, ActComplete(outcome));
  }

  lemma StillInFlight(w: World, w': World, record: nat)
    requires InFlight(w, record)
    requires |w.calls| <= |w'.calls| && forall c :: 0 <= c < |w.calls| ==> w'.calls[c] == w.calls[c]
    ensures InFlight(w', record)
  {
    var c :| 0 <= c < |w.calls| && Waits(w.calls[c], record);
    assert Waits(w'.calls[c], record);
  }

  // The methods that begin a call keep the promise to every live tracked record.
  lemma SectionKeepsInv(w: World, s: Step)
    requires Inv(w) && Enabled(w, s)
    requires s.DoTrack? || s.DoCleanupFailure? || s.DoRequestCloses? || s.DoSettleStream?
    ensures Inv(Apply(w, s))
  {
    var w' := Apply(w, s);
    var todo := w'.calls[|w.calls|];
    forall k | 0 <= k < |todo| ensures todo[k].record < |w'.phases| {
      if !s.DoTrack? {
        assert w'.registry.records[k] in w'.registry.records;
      }
    }
    forall c, k | 0 <= c < |w'.calls| && 0 <= k < |w'.calls[c]| ensures w'.calls[c][k].record < |w'.phases| {
      if c < |w.calls| { assert w'.calls[c] == w.calls[c]; }
    }
    if MustSettle(w'.registry) {
      forall r | r in w'.tracked && r in w'.alive ensures w'.phases[r].Committed? || InFlight(w', r) {
        if s.DoTrack? && r == s.record {
          assert todo[0].record == r && todo[0].action.ActComplete?;
          assert Waits(todo, r);
        } else if s.DoTrack? || s.DoRequestCloses? {
          if InFlight(w, r) { StillInFlight(w, w', r); }
        } else {
          assert r in w'.registry.records;
          if s.DoCleanupFailure? {
            WaitsForAll(w'.registry.records, R.CleanupFailure(w'.registry.projection.value.error), r);
          } else {
            WaitsForAll(w'.registry.records, Settled(), r);
          }
          assert Waits(todo, r);
        }
      }
    }
  }

  lemma CallStepKeepsInv(w: World, s: Step)
    requires Inv(w) && s.CallStep? && Enabled(w, s)
    ensures Inv(Apply(w, s))
  {
    var w' := Apply(w, s);
    var e := w.calls[s.call][0];
    forall c, k | 0 <= c < |w'.calls| && 0 <= k < |w'.calls[c]| ensures w'.calls[c][k].record < |w'.phases| {
      if c == s.call { assert w'.calls[c][k] == w.calls[c][k + 1]; }
    }
    if MustSettle(w'.registry) {
      forall r | r in w'.tracked && r in w'.alive ensures w'.phases[r].Committed? || InFlight(w', r) {
        if !w.phases[r].Committed? {
          var c :| 0 <= c < |w.calls| && Waits(w.calls[c], r);
          if c == s.call {
            var k :| 0 <= k < |w.calls[c]| && w.calls[c][k].record == r && w.calls[c][k].action.ActComplete?;
            if k > 0 {
              assert w'.calls[c][k - 1] == w.calls[c][k];
              assert Waits(w'.calls[c], r);
            }
          } else {
            assert Waits(w'.calls[c], r);
          }
        }
      }
    }
  }

  lemma OtherStepKeepsInv(w: World, s: Step)
    requires Inv(w) && Enabled(w, s)
    requires s.NewRecord? || s.DropRecord? || s.DoOwnershipLoss? || s.OnRecord?
    ensures Inv(Apply(w, s))
  {
    var w' := Apply(w, s);
    assert w'.calls == w.calls;
    if MustSettle(w'.registry) {
      forall r | r in w'.tracked && r in w'.alive ensures w'.phases[r].Committed? || InFlight(w', r) {
        if InFlight(w, r) { StillInFlight(w, w', r); }
      }
    }
  }

  lemma StepKeepsInv(w: World, s: Step)
    requires Inv(w)
    ensures Inv(Apply(w, s))
  {
    if Enabled(w, s) {
      if s.CallStep? { CallStepKeepsInv(w, s); }
      else if s.DoTrack? || s.DoCleanupFailure? || s.DoRequestCloses? || s.DoSettleStream? { SectionKeepsInv(w, s); }
      else { OtherStepKeepsInv(w, s); }
    }
  }

  lemma {:induction false} RunKeepsInv(w: World, steps: seq<Step>)
    requires Inv(w)
    ensures Inv(Run(w, steps))
    decreases steps
  {
    if steps != [] {
      StepKeepsInv(w, steps[0]);
      RunKeepsInv(Apply(w, steps[0]), steps[1..]);
    }
  }

  // No lost waiter: whatever the order of `track` with cleanup failure and stream settlement, once
  // no registry method is still at work every live tracked record is committed, unless the lane's
  // ownership was lost.
  lemma {:induction false} NoWaiterIsLost(steps: seq<Step>, record: nat)
    requires var w := Run(Init(), steps);
             && record in w.tracked && record in w.alive
             && MustSettle(w.registry)
             && !InFlight(w, record)
    ensures record < |Run(Init(), steps).phases| && Run(Init(), steps).phases[record].Committed?
  {
    RunKeepsInv(Init(), steps);
  }

  // ---- First projection wins, outcomes stay ------------------------------------------------------------

  ghost predicate OneError(w: World) {
    forall c, k :: 0 <= c < |w.calls| && 0 <= k < |w.calls[c]| ==> Projects(w.registry, w.calls[c][k].action)
  }

  // A cleanup failure handed to a record is the registry's first one.
  predicate Projects(g: Registry, a: Action) {
    a.ActComplete? && a.outcome.CleanupFailure? ==> g.projection == Some(Proven(a.outcome.cleanup))
  }

  lemma StepKeepsOneError(w: World, s: Step)
    requires OneError(w)
    ensures OneError(Apply(w, s))
  {
    var next := Apply(w, s);
    forall c, k | 0 <= c < |next.calls| && 0 <= k < |next.calls[c]| ensures Projects(next.registry, next.calls[c][k].action) {
      if c < |w.calls| {
        if s == CallStep(c) && Enabled(w, s) {
          assert next.calls[c][k] == w.calls[c][k + 1];
          assert Projects(w.registry, w.calls[c][k + 1].action);
        } else {
          assert next.calls[c] == w.calls[c];
          assert Projects(w.registry, w.calls[c][k].action);
        }
      } else {
        var p := w.registry.projection;
        if s.DoTrack? && p.Some? && p.value.Proven? {
          assert next.calls[c] == [Effect(s.record, ActComplete(R.CleanupFailure(p.value.error)))];
          assert p == Some(Proven(p.value.error));
        }
      }
    }
  }

  ghost predicate Stays(w: World, w': World) {
    && (w.registry.projection.Some? ==> w'.registry.projection == w.registry.projection)
    && |w.phases| <= |w'.phases|
    && (forall r :: 0 <= r < |w.phases| && w.phases[r].Committed? ==> w'.phases[r] == w.phases[r])
  }

  lemma StepStays(w: World, s: Step)
    ensures Stays(w, Apply(w, s))
  {
  }

  lemma {:induction false} ProjectionAndOutcomesStay(w: World, steps: seq<Step>)
    requires OneError(w)
    ensures OneError(Run(w, steps)) && Stays(w, Run(w, steps))
    decreases steps
  {
    if steps != [] {
      StepKeepsOneError(w, steps[0]);
      StepStays(w, steps[0]);
      ProjectionAndOutcomesStay(Apply(w, steps[0]), steps[1..]);
    }
  }

  // The cleanup failures that registry methods commit to records over a run, in order.
  ghost function GivenBy(w: World, s: Step): seq<R.Error> {
    if s.CallStep? && Enabled(w, s) then
      var e := w.calls[s.call][0];
      if !w.phases[e.record].Committed? && e.action.ActComplete? && e.action.outcome.CleanupFailure?
      then [e.action.outcome.cleanup] else []
    else []
  }

  ghost function Given(w: World, steps: seq<Step>): seq<R.Error>
    decreases steps
  {
    if steps == [] then [] else GivenBy(w, steps[0]) + Given(Apply(w, steps[0]), steps[1..])
  }

  // Some record ended with this cleanup failure.
  ghost predicate EndedWith(w: World, e: R.Error) {
    exists r :: 0 <= r < |w.phases| && w.phases[r].Committed? && w.phases[r].outcome == R.CleanupFailure(e)
  }

  lemma GivenIsCommitted(w: World, s: Step, e: R.Error)
    requires e in GivenBy(w, s)
    ensures EndedWith(Apply(w, s), e)
  {
    var r := w.calls[s.call][0].record;
    assert Apply(w, s).phases[r] == R.Complete(w.phases[r], R.CleanupFailure(e));
  }

  lemma EndedWithStays(w: World, w': World, e: R.Error)
    requires EndedWith(w, e) && Stays(w, w')
    ensures EndedWith(w', e)
  {
    var r :| 0 <= r < |w.phases| && w.phases[r].Committed? && w.phases[r].outcome == R.CleanupFailure(e);
    assert w'.phases[r] == w.phases[r];
  }

  lemma {:induction false} GivenIsFirst(w: World, steps: seq<Step>, e: R.Error)
    requires OneError(w) && e in Given(w, steps)
    ensures Run(w, steps).registry.projection == Some(Proven(e)) && EndedWith(Run(w, steps), e)
    decreases steps
  {
    var next := Apply(w, steps[0]);
    StepKeepsOneError(w, steps[0]);
    ProjectionAndOutcomesStay(next, steps[1..]);
    if e in GivenBy(w, steps[0]) {
      assert Projects(w.registry, w.calls[steps[0].call][0].action);
      StepStays(w, steps[0]);
      GivenIsCommitted(w, steps[0], e);
      EndedWithStays(next, Run(next, steps[1..]), e);
    } else {
      GivenIsFirst(next, steps[1..], e);
    }
  }

  // The first projection wins: every cleanup failure a registry method has committed, at whatever point of
  // the run, is the outcome of a record and is the one the registry recorded first; and neither that
  // projection nor a committed outcome changes through anything that follows.
  lemma {:induction false} FirstProjectionWins(before: seq<Step>, after: seq<Step>)
    ensures var w := Run(Init(), before);
            var w' := Run(w, after);
            && Stays(w, w') && OneError(w')
            && (forall e :: e in Given(Init(), before) ==> w'.registry.projection == Some(Proven(e)) && EndedWith(w', e))
  {
    var w := Run(Init(), before);
    ProjectionAndOutcomesStay(Init(), before);
    ProjectionAndOutcomesStay(w, after);
    forall e | e in Given(Init(), before)
      ensures Run(w, after).registry.projection == Some(Proven(e)) && EndedWith(Run(w, after), e) {
      GivenIsFirst(Init(), before, e);
      EndedWithStays(w, Run(w, after), e);
    }
  }

  // ---- Ownership loss ------------------------------------------------------------------------------------

  predicate RegistryStep(s: Step) {
    !s.OnRecord?
  }

  lemma {:induction false} LossFreezes(w: World, steps: seq<Step>, record: nat)
    requires w.registry.projection == Some(OwnershipLost)
    requires record < |w.phases| && !w.phases[record].Committed? && !InFlight(w, record)
    requires forall i :: 0 <= i < |steps| ==> RegistryStep(steps[i])
    ensures var w' := Run(w, steps);
            record < |w'.phases| && !w'.phases[record].Committed? && !InFlight(w', record)
    decreases steps
  {
    if steps != [] {
      var s := steps[0];
      var next := Apply(w, s);
      if Enabled(w, s) {
        if s.CallStep? {
          LossCallStep(w, s, record);
        } else {
          forall c | 0 <= c < |next.calls| ensures !Waits(next.calls[c], record) {
            if c < |w.calls| { assert next.calls[c] == w.calls[c]; }
          }
        }
      }
      LossFreezes(next, steps[1..], record);
    }
  }

  lemma LossCallStep(w: World, s: Step, record: nat)
    requires s.CallStep? && Enabled(w, s)
    requires record < |w.phases| && !w.phases[record].Committed? && !InFlight(w, record)
    ensures var next := Apply(w, s); !next.phases[record].Committed? && !InFlight(next, record)
  {
    var next := Apply(w, s);
    assert !Waits(w.calls[s.call], record);
    forall c | 0 <= c < |next.calls| ensures !Waits(next.calls[c], record) {
      if c == s.call {
        forall k | 0 <= k < |next.calls[c]| ensures !(next.calls[c][k].record == record && next.calls[c][k].action.ActComplete?) {
          assert next.calls[c][k] == w.calls[c][k + 1];
        }
      } else {
        assert !Waits(w.calls[c], record);
      }
    }
  }

  lemma {:induction false} InFlightCommits(w: World, c: nat, record: nat, n: nat) returns (steps: seq<Step>)
    requires c < |w.calls| && Waits(w.calls[c], record) && record < |w.phases|
    requires forall k :: 0 <= k < |w.calls[c]| ==> w.calls[c][k].record < |w.phases|
    requires n == |w.calls[c]|
    ensures forall i :: 0 <= i < |steps| ==> RegistryStep(steps[i])
    ensures record < |Run(w, steps).phases| && Run(w, steps).phases[record].Committed?
    decreases n
  {
    var s := CallStep(c);
    var next := Apply(w, s);
    var k :| 0 <= k < |w.calls[c]| && w.calls[c][k].record == record && w.calls[c][k].action.ActComplete?;
    if k == 0 {
      steps := [s];
      assert Run(w, steps) == Run(next, []);
    } else {
      assert next.calls[c] == w.calls[c][1..] && next.calls[c][k - 1] == w.calls[c][k];
      assert Waits(next.calls[c], record);
      var rest := InFlightCommits(next, c, record, n - 1);
      steps := [s] + rest;
      assert steps[1..] == rest;
    }
  }

  // After ownership loss the registry can still complete a record exactly when a method that took
  // its snapshot before the loss has not reached it yet. A method that starts later never does.
  lemma {:induction false} OwnershipLossSparesOnlyInFlight(before: seq<Step>, record: nat)
    requires var w := Run(Init(), before);
             w.registry.projection == Some(OwnershipLost) && record < |w.phases| && !w.phases[record].Committed?
    ensures var w := Run(Init(), before);
            (exists steps ::
              && (forall i :: 0 <= i < |steps| ==> RegistryStep(steps[i]))
              && record < |Run(w, steps).phases|
              && Run(w, steps).phases[record].Committed?)
            <==> InFlight(w, record)
  {
    var w := Run(Init(), before);
    RunKeepsInv(Init(), before);
    if InFlight(w, record) {
      var c :| 0 <= c < |w.calls| && Waits(w.calls[c], record);
      var steps := InFlightCommits(w, c, record, |w.calls[c]|);
    } else {
      forall steps | forall i :: 0 <= i < |steps| ==> RegistryStep(steps[i])
        ensures record < |Run(w, steps).phases| && !Run(w, steps).phases[record].Committed?
      {
        LossFreezes(w, steps, record);
      }
    }
  }

  lemma {:induction false} FirstStep(w: World, s: Step, rest: seq<Step>)
    ensures Run(w, [s] + rest) == Run(Apply(w, s), rest)
  {
    assert ([s] + rest)[1..] == rest;
  }

  ghost function Settling(): World {
    Apply(Apply(Apply(Init(), NewRecord), DoTrack(0)), DoSettleStream)
  }

  lemma SettlingIs()
    ensures var w := Settling();
            && w.registry.records == [0] && w.registry.projection == None
            && w.calls == [[], [Effect(0, ActComplete(Settled()))]]
            && |w.phases| == 1 && !w.phases[0].Committed?
            && Apply(Apply(w, DoOwnershipLoss), CallStep(1)).phases == [R.Committed(false, Settled())]
  {
    var w2 := Apply(Apply(Init(), NewRecord), DoTrack(0));
    assert w2.registry.records == [0];
    assert ForAll([0], ActComplete(Settled())) == [Effect(0, ActComplete(Settled()))];
  }

  // Such a run exists: stream settlement takes its snapshot, the loss is recorded, and the
  // settlement then completes the record all the same.
  lemma CompletionAfterOwnershipLoss()
    ensures var steps := [NewRecord] + ([DoTrack(0)] + ([DoSettleStream] + ([DoOwnershipLoss] + [])));
            var w := Run(Init(), steps);
            && w.registry.projection == Some(OwnershipLost)
            && |w.phases| == 1 && !w.phases[0].Committed?
            && Run(w, [CallStep(1)]).phases == [R.Committed(false, Settled())]
  {
    SettlingIs();
    FirstStep(Init(), NewRecord, [DoTrack(0)] + ([DoSettleStream] + ([DoOwnershipLoss] + [])));
    FirstStep(Apply(Init(), NewRecord), DoTrack(0), [DoSettleStream] + ([DoOwnershipLoss] + []));
    FirstStep(Apply(Apply(Init(), NewRecord), DoTrack(0)), DoSettleStream, [DoOwnershipLoss] + []);
    FirstStep(Settling(), DoOwnershipLoss, []);
    FirstStep(Apply(Settling(), DoOwnershipLoss), CallStep(1), []);
    assert [CallStep(1)] + [] == [CallStep(1)];
  }
}
