/**
 * What the clock's trace says of one deadline: the target it was registered with, and the last
 * dispatch recorded under its id.
 */
module ClockTrace {
  import opened Wrappers
  import opened Timing
  import opened Clock

  predicate Records(s: Step, id: nat) {
    s.RecordDispatch? && s.id == id
  }

  // The last of the dispatches recorded under this id, if there was one.
  ghost predicate LastRecorded(steps: seq<Step>, id: nat, at: Option<nat>) {
    if at.None? then forall i :: 0 <= i < |steps| ==> !Records(steps[i], id)
    else exists i :: 0 <= i < |steps| && steps[i] == RecordDispatch(id, at.value)
                     && forall j :: i < j < |steps| ==> !Records(steps[j], id)
  }

  // The deadline with this index is the first with its id.
  ghost predicate FirstOf(ds: seq<Deadline>, n: nat, id: nat) {
    n < |ds| && ds[n].id == id && forall k :: 0 <= k < n ==> ds[k].id != id
  }

  lemma {:induction false} DispatchedFirst(ds: seq<Deadline>, n: nat, id: nat, other: nat, at: nat)
    requires FirstOf(ds, n, id)
    ensures Dispatched(ds, other, at)[n].dispatchedAt == if other == id then Some(at) else ds[n].dispatchedAt
  {
    if n > 0 && ds[0].id != other {
      assert FirstOf(ds[1..], n - 1, id);
      DispatchedFirst(ds[1..], n - 1, id, other, at);
    }
  }

  lemma StepRecords(s: State, step: Step, n: nat, id: nat)
    requires FirstOf(s.deadlines, n, id)
    ensures var s' := Apply(s, step);
            && FirstOf(s'.deadlines, n, id)
            && s'.deadlines[n].target == s.deadlines[n].target
            && s'.deadlines[n].dispatchedAt == if Records(step, id) then Some(step.at) else s.deadlines[n].dispatchedAt
  {
    if step.RecordDispatch? { DispatchedFirst(s.deadlines, n, id, step.id, step.at); }
  }

  lemma LaterOnly(steps: seq<Step>, id: nat, at: Option<nat>)
    requires steps != [] && LastRecorded(steps[1..], id, at) && (at.Some? || !Records(steps[0], id))
    ensures LastRecorded(steps, id, at)
  {
    if at.Some? {
      var i :| 0 <= i < |steps[1..]| && steps[1..][i] == RecordDispatch(id, at.value)
               && forall j :: i < j < |steps[1..]| ==> !Records(steps[1..][j], id);
      assert steps[i + 1] == RecordDispatch(id, at.value);
      forall j | i + 1 < j < |steps| ensures !Records(steps[j], id) { assert steps[j] == steps[1..][j - 1]; }
    } else {
      forall i | 0 <= i < |steps| ensures !Records(steps[i], id) {
        if i > 0 { assert steps[i] == steps[1..][i - 1]; }
      }
    }
  }

  lemma OnlyFirst(steps: seq<Step>, id: nat)
    requires steps != [] && LastRecorded(steps[1..], id, None) && Records(steps[0], id)
    ensures LastRecorded(steps, id, Some(steps[0].at))
  {
    assert steps[0] == RecordDispatch(id, steps[0].at);
    forall j | 0 < j < |steps| ensures !Records(steps[j], id) { assert steps[j] == steps[1..][j - 1]; }
  }

  lemma {:induction false} RunRecords(s: State, steps: seq<Step>, n: nat, id: nat)
    requires FirstOf(s.deadlines, n, id)
    ensures var s' := Run(s, steps);
            && FirstOf(s'.deadlines, n, id)
            && s'.deadlines[n].target == s.deadlines[n].target
            && ((s'.deadlines[n].dispatchedAt.Some? && LastRecorded(steps, id, s'.deadlines[n].dispatchedAt))
                || (LastRecorded(steps, id, None) && s'.deadlines[n].dispatchedAt == s.deadlines[n].dispatchedAt))
    decreases steps
  {
    if steps != [] {
      var next := Apply(s, steps[0]);
      StepRecords(s, steps[0], n, id);
      RunRecords(next, steps[1..], n, id);
      var at := Run(next, steps[1..]).deadlines[n].dispatchedAt;
      assert Run(s, steps) == Run(next, steps[1..]);
      if at.Some? && LastRecorded(steps[1..], id, at) {
        LaterOnly(steps, id, at);
      } else if Records(steps[0], id) {
        OnlyFirst(steps, id);
        assert at == Some(steps[0].at);
      } else {
        LaterOnly(steps, id, None);
      }
    } else {
      assert LastRecorded(steps, id, None);
    }
  }

  // A deadline's history: registered while ids last, it keeps the target it was given and the id
  // that was next for good, and its trace shows the last dispatch recorded under that id since.
  lemma {:induction false} DeadlineHistory(now: nat, before: seq<Step>, target: nat, after: seq<Step>)
    requires |Run(Init(now), before).deadlines| < U64_MAX
    ensures var s := Run(Init(now), before);
            var s' := Run(Apply(s, Register(target)), after);
            var n := |s.deadlines|;
            && n < |s'.deadlines| && s'.deadlines[n].id == n + 1 && s'.deadlines[n].target == target
            && LastRecorded(after, n + 1, s'.deadlines[n].dispatchedAt)
  {
    var s := Run(Init(now), before);
    var n := |s.deadlines|;
    RunKeepsIds(Init(now), before);
    IdsStartOver(n);
    if n > 0 { IdsStartOver(n - 1); }
    forall k | 0 <= k < n ensures s.deadlines[k].id != n + 1 { IdsStartOver(k); }
    var s1 := Apply(s, Register(target));
    assert FirstOf(s1.deadlines, n, n + 1);
    RunRecords(s1, after, n, n + 1);
  }

  // Out of ids the clock refuses one registration and starts over: the next one goes through again.
  lemma RefusalIsSingle(s: State, t: nat, u: nat)
    requires Apply(s, Register(t)).deadlines == s.deadlines
    ensures s.next == 0
    ensures var s' := Apply(Apply(s, Register(t)), Register(u));
            s'.deadlines == s.deadlines + [Deadline(1, u, None, u <= s.now)]
  {
  }
}
