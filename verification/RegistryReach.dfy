/**
 * What the registry's methods owe a release: a close request reaches every release tracked before
 * or after it, a cleanup failure or a settled stream completes them all, and a lost lane keeps them.
 */
module RegistryReach {
  import opened Wrappers
  import R = Release
  import opened ReleaseRegistry

  predicate Lost(g: Registry) {
    g.projection == Some(OwnershipLost)
  }

  // Some call still has to reach this record.
  predicate Named(todo: seq<Effect>, record: nat) {
    exists k :: 0 <= k < |todo| && todo[k].record == record
  }

  predicate Reaching(w: World, record: nat) {
    exists c :: 0 <= c < |w.calls| && Named(w.calls[c], record)
  }

  // Close owns the release's answer: it was told of it, or it came too late to be asked.
  predicate AskedOf(p: R.Phase) {
    p.GateClaimed? || p.Committed? || R.Acquired(p)
  }

  predicate Reached(w: World, record: nat) {
    record < |w.phases| && (AskedOf(w.phases[record]) || Reaching(w, record))
  }

  lemma StillReaching(w: World, w': World, record: nat)
    requires Reaching(w, record)
    requires |w.calls| <= |w'.calls| && forall c :: 0 <= c < |w.calls| ==> w'.calls[c] == w.calls[c]
    ensures Reaching(w', record)
  {
    var c :| 0 <= c < |w.calls| && Named(w.calls[c], record);
    assert Named(w'.calls[c], record);
  }

  lemma AskedStays(p: R.Phase, call: R.Call)
    requires AskedOf(p)
    ensures AskedOf(R.Step(p, call))
  {
  }

  lemma EffectAsks(p: R.Phase, a: Action)
    ensures AskedOf(PhaseAfter(p, a))
  {
  }

  lemma {:induction false} NamedForAll(records: seq<nat>, action: Action, record: nat)
    requires record in records
    ensures Named(ForAll(records, action), record)
  {
    var k :| 0 <= k < |records| && records[k] == record;
    assert ForAll(records, action)[k] == Effect(record, action);
  }

  // The next section reaches the record, or leaves it as it was reached before.
  lemma {:induction false} SectionReaches(w: World, s: Step, record: nat)
    requires Inv(w) && Enabled(w, s)
    requires s.DoTrack? || s.DoCleanupFailure? || s.DoRequestCloses? || s.DoSettleStream?
    requires Reached(w, record)
          || (s.DoTrack? && s.record == record && w.registry.closeRequested && !Lost(w.registry))
          || ((s.DoRequestCloses? || (s.DoSettleStream? && !Lost(w.registry))) && record in w.tracked && record in w.alive)
    ensures Reached(Apply(w, s), record)
  {
    var w' := Apply(w, s);
    if Reached(w, record) {
      if Reaching(w, record) { StillReaching(w, w', record); }
    } else {
      var todo := w'.calls[|w.calls|];
      if s.DoTrack? {
        assert todo[0].record == record;
      } else {
        var live := Live(w.registry.records, w.alive);
        NamedForAll(live, if s.DoRequestCloses? then ActRequestClose else ActComplete(Settled()), record);
      }
      assert Named(todo, record);
    }
  }

  lemma CallReaches(w: World, s: Step, record: nat)
    requires Inv(w) && Enabled(w, s) && s.CallStep? && Reached(w, record)
    ensures Reached(Apply(w, s), record)
  {
    var w' := Apply(w, s);
    var e := w.calls[s.call][0];
    EffectAsks(w.phases[e.record], e.action);
    if e.record != record && !AskedOf(w.phases[record]) {
      var c :| 0 <= c < |w.calls| && Named(w.calls[c], record);
      if c == s.call {
        var k :| 0 <= k < |w.calls[c]| && w.calls[c][k].record == record;
        assert w'.calls[c][k - 1] == w.calls[c][k];
      }
      assert Named(w'.calls[c], record);
    }
  }

  lemma RestReaches(w: World, s: Step, record: nat)
    requires Inv(w) && Enabled(w, s) && Reached(w, record)
    requires s.NewRecord? || s.DropRecord? || s.DoOwnershipLoss? || s.OnRecord?
    ensures Reached(Apply(w, s), record)
  {
    var w' := Apply(w, s);
    if s.OnRecord? && s.record == record && AskedOf(w.phases[record]) { AskedStays(w.phases[record], s.step); }
    if Reaching(w, record) { StillReaching(w, w', record); }
  }

  ghost predicate CloseInv(w: World) {
    w.registry.closeRequested && !Lost(w.registry) ==> forall r :: r in w.tracked && r in w.alive ==> Reached(w, r)
  }

  // Loss is final, so a registry that is not lost now never was.
  lemma StillNotLost(w: World, s: Step)
    requires !Lost(Apply(w, s).registry)
    ensures !Lost(w.registry)
  {
  }

  lemma StepReaches(w: World, s: Step, r: nat)
    requires Inv(w) && CloseInv(w)
    requires var w' := Apply(w, s); w'.registry.closeRequested && !Lost(w'.registry) && r in w'.tracked && r in w'.alive
    ensures Reached(Apply(w, s), r)
  {
    StillNotLost(w, s);
    if Enabled(w, s) {
      if s.NewRecord? || s.DropRecord? || s.DoOwnershipLoss? || s.OnRecord? { RestReaches(w, s, r); }
      else if s.CallStep? { CallReaches(w, s, r); }
      else { SectionReaches(w, s, r); }
    }
  }

  predicate AsksClose(s: Step) {
    s.DoRequestCloses? || s.DoSettleStream?
  }

  // The flag is up exactly from the first request on.
  lemma {:induction false} RunReaches(w: World, steps: seq<Step>)
    requires Inv(w) && CloseInv(w)
    ensures var w' := Run(w, steps);
            && Inv(w') && CloseInv(w')
            && (w'.registry.closeRequested <==> w.registry.closeRequested || exists i :: 0 <= i < |steps| && AsksClose(steps[i]))
    decreases steps
  {
    if steps != [] {
      var next := Apply(w, steps[0]);
      StepKeepsInv(w, steps[0]);
      forall r | next.registry.closeRequested && !Lost(next.registry) && r in next.tracked && r in next.alive ensures Reached(next, r) {
        StepReaches(w, steps[0], r);
      }
      RunReaches(next, steps[1..]);
      assert next.registry.closeRequested == (w.registry.closeRequested || AsksClose(steps[0]));
      assert forall i :: 0 < i < |steps| ==> steps[i] == steps[1..][i - 1];
    }
  }

  // Close reaches everybody: once a method that asks for close has run, and no loss was projected,
  // every live release handed to the registry before it or after it has been asked, has been
  // claimed or committed before it could be, or is next in a call under way.
  lemma {:induction false} CloseReachesAll(steps: seq<Step>, record: nat)
    requires var w := Run(Init(), steps);
             && record in w.tracked && record in w.alive && w.registry.projection != Some(OwnershipLost)
             && exists i :: 0 <= i < |steps| && (steps[i].DoRequestCloses? || steps[i].DoSettleStream?)
    ensures var w := Run(Init(), steps);
            && record < |w.phases|
            && (w.phases[record].GateClaimed? || w.phases[record].Committed? || R.Acquired(w.phases[record])
                || exists c, k :: 0 <= c < |w.calls| && 0 <= k < |w.calls[c]| && w.calls[c][k].record == record)
  {
    RunReaches(Init(), steps);
    var w := Run(Init(), steps);
    var i :| 0 <= i < |steps| && (steps[i].DoRequestCloses? || steps[i].DoSettleStream?);
    assert AsksClose(steps[i]);
    assert Reached(w, record);
    if Reaching(w, record) {
      var c :| 0 <= c < |w.calls| && Named(w.calls[c], record);
      var k :| 0 <= k < |w.calls[c]| && w.calls[c][k].record == record;
    }
  }

  // ---- Completion and loss ---------------------------------------------------------------------------

  predicate Completes(s: Step) {
    s.DoCleanupFailure? || s.DoSettleStream?
  }

  predicate Ends(s: Step) {
    Completes(s) || s.DoOwnershipLoss?
  }

  lemma {:induction false} MustSettleExactly(w: World, steps: seq<Step>)
    ensures var g := Run(w, steps).registry;
            && (g.projection.None? && !g.streamSettled ==> forall i :: 0 <= i < |steps| ==> !Ends(steps[i]))
            && (w.registry.projection.Some? ==> g.projection == w.registry.projection)
            && (w.registry.streamSettled && !Lost(g) ==> g.streamSettled)
            && (w.registry.projection.Some? || w.registry.streamSettled ==> g.projection.Some? || g.streamSettled)
    decreases steps
  {
    if steps != [] {
      var next := Apply(w, steps[0]);
      MustSettleExactly(next, steps[1..]);
      forall i | 0 <= i < |steps| && Run(w, steps).registry.projection.None? && !Run(w, steps).registry.streamSettled
        ensures !Ends(steps[i]) {
        if i > 0 { assert steps[i] == steps[1..][i - 1]; }
      }
    }
  }

  // A cleanup failure or a settled stream, whenever it came, leaves no live release waiting.
  lemma {:induction false} FailureOrCloseCompletesAll(steps: seq<Step>, record: nat)
    requires var w := Run(Init(), steps);
             && record in w.tracked && record in w.alive && w.registry.projection != Some(OwnershipLost)
             && !InFlight(w, record)
             && exists i :: 0 <= i < |steps| && (steps[i].DoCleanupFailure? || steps[i].DoSettleStream?)
    ensures var w := Run(Init(), steps); record < |w.phases| && w.phases[record].Committed?
  {
    var i :| 0 <= i < |steps| && (steps[i].DoCleanupFailure? || steps[i].DoSettleStream?);
    assert Ends(steps[i]);
    MustSettleExactly(Init(), steps);
    NoWaiterIsLost(steps, record);
  }

  ghost predicate RetainInv(w: World) {
    && (forall r :: r in w.tracked && r in w.alive ==> r in w.registry.records)
    && (Lost(w.registry) ==> forall r :: r in w.tracked && r in w.alive ==> r in w.registry.retained)
  }

  lemma StepRetains(w: World, s: Step)
    requires RetainInv(w)
    requires forall r :: r in w.alive ==> r < |w.phases|
    requires forall r :: r in w.tracked ==> r < |w.phases|
    ensures RetainInv(Apply(w, s))
    ensures forall r :: r in w.registry.retained && r in w.alive ==> r in Apply(w, s).registry.retained && r in Apply(w, s).alive
  {
    var w' := Apply(w, s);
    forall r | r in w'.tracked && r in w'.alive ensures r in w'.registry.records {
      if s.DoTrack? && r == s.record { assert w'.registry.records[|w'.registry.records| - 1] == r; }
    }
    if s.DoTrack? && w'.registry.retained != w.registry.retained {
      assert w'.registry.retained[|w.registry.retained|] == s.record;
    }
  }

  lemma {:induction false} RunRetains(w: World, steps: seq<Step>)
    requires Inv(w) && RetainInv(w)
    ensures var w' := Run(w, steps);
            && Inv(w') && RetainInv(w')
            && (forall r :: r in w.registry.retained && r in w.alive ==> r in w'.alive)
    decreases steps
  {
    if steps != [] {
      var next := Apply(w, steps[0]);
      StepKeepsInv(w, steps[0]);
      StepRetains(w, steps[0]);
      RunRetains(next, steps[1..]);
    }
  }

  // A lost lane keeps its releases: once the loss was projected, a release handed to the registry and
  // not dropped before, or handed to it later, is never dropped.
  lemma {:induction false} LossKeepsReleases(before: seq<Step>, after: seq<Step>, record: nat)
    requires var w := Run(Init(), before);
             w.registry.projection == Some(OwnershipLost) && record in w.tracked && record in w.alive
    ensures record in Run(Run(Init(), before), after).alive
  {
    RunRetains(Init(), before);
    RunRetains(Run(Init(), before), after);
  }
}
