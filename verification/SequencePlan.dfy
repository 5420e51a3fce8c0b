/**
 * Precise sequences: their validation (crates/easycon-controller/src/sequence.rs) and the planning of
 * their reports (crates/easycon-controller/src/session.rs, `schedule_sequence`).
 */
module SequencePlan {
  import opened Wrappers
  import opened Timing
  import opened Report

  const MAX_STEPS: nat := 10_000
  const MAX_DURATION: nat := 86_400_000_000_000

  datatype SequenceStep = SequenceStep(offset: nat, action: Action)

  datatype Refusal = Empty | TooMany | Backwards | TooLong

  datatype Checked = Accepted(steps: seq<SequenceStep>) | Refused(why: Refusal)

  // Some neighbouring pair goes backwards: the window check of the constructor.
  predicate AnyWindowBackwards(steps: seq<SequenceStep>) {
    |steps| >= 2 && (steps[0].offset > steps[1].offset || AnyWindowBackwards(steps[1..]))
  }

  function NewSequence(steps: seq<SequenceStep>): Checked {
    if steps == [] then Refused(Empty)
    else if |steps| > MAX_STEPS then Refused(TooMany)
    else if AnyWindowBackwards(steps) then Refused(Backwards)
    else if steps[|steps| - 1].offset > MAX_DURATION then Refused(TooLong)
    else Accepted(steps)
  }

  ghost predicate Monotone(steps: seq<SequenceStep>) {
    forall i, j :: 0 <= i < j < |steps| ==> steps[i].offset <= steps[j].offset
  }

  lemma {:induction false} WindowsDecide(steps: seq<SequenceStep>)
    ensures AnyWindowBackwards(steps) <==> !Monotone(steps)
  {
    if |steps| >= 2 {
      var rest := steps[1..];
      WindowsDecide(rest);
      if Monotone(steps) {
        assert Monotone(rest);
        assert steps[0].offset <= steps[1].offset;
      }
      if steps[0].offset <= steps[1].offset && Monotone(rest) {
        forall i, j | 0 <= i < j < |steps| ensures steps[i].offset <= steps[j].offset {
          assert steps[j] == rest[j - 1];
          if i > 0 {
            assert steps[i] == rest[i - 1];
          } else if j > 1 {
            assert rest[0].offset <= rest[j - 1].offset;
          }
        }
      }
    }
  }

  // What a sequence that exists satisfies, whichever two steps are looked at.
  lemma SequenceIsValid(steps: seq<SequenceStep>)
    ensures NewSequence(steps) == Accepted(steps) <==>
              0 < |steps| <= MAX_STEPS && Monotone(steps) && forall s :: s in steps ==> s.offset <= MAX_DURATION
  {
    WindowsDecide(steps);
    if NewSequence(steps) == Accepted(steps) {
      forall s | s in steps ensures s.offset <= MAX_DURATION {
        var i :| 0 <= i < |steps| && steps[i] == s;
        if i < |steps| - 1 { assert steps[i].offset <= steps[|steps| - 1].offset; }
      }
    } else if steps != [] {
      assert steps[|steps| - 1] in steps;
    }
  }

  // ---- Groups of equal offset --------------------------------------------------------------------------

  // How many steps, from the first on, share its offset.
  function GroupSize(steps: seq<SequenceStep>): (n: nat)
    requires steps != []
    ensures 0 < n <= |steps|
    ensures forall k :: 0 <= k < n ==> steps[k].offset == steps[0].offset
    ensures n < |steps| ==> steps[n].offset != steps[0].offset
  {
    if |steps| == 1 || steps[1].offset != steps[0].offset then 1 else 1 + GroupSize(steps[1..])
  }

  // A run of steps that share an offset.
  datatype Group = Group(offset: nat, steps: seq<SequenceStep>)

  // `chunk_by` on equal offsets.
  function Groups(steps: seq<SequenceStep>): (g: seq<Group>)
    ensures |g| == 0 <==> steps == []
    decreases |steps|
  {
    if steps == [] then []
    else
      var n := GroupSize(steps);
      [Group(steps[0].offset, steps[..n])] + Groups(steps[n..])
  }

  function Flat(g: seq<Group>): seq<SequenceStep> {
    if g == [] then [] else g[0].steps + Flat(g[1..])
  }

  lemma {:induction false} GroupsNext(steps: seq<SequenceStep>)
    requires steps != []
    ensures var n, g := GroupSize(steps), Groups(steps);
            g[0] == Group(steps[0].offset, steps[..n]) && g[1..] == Groups(steps[n..])
  {
  }

  lemma {:induction false} GroupsFlat(steps: seq<SequenceStep>)
    ensures Flat(Groups(steps)) == steps
    decreases |steps|
  {
    if steps != [] {
      var n := GroupSize(steps);
      GroupsNext(steps);
      GroupsFlat(steps[n..]);
      assert Flat(Groups(steps)) == steps[..n] + steps[n..];
    }
  }

  lemma {:induction false} SuffixForward(steps: seq<SequenceStep>, n: nat)
    requires !AnyWindowBackwards(steps) && n <= |steps|
    ensures !AnyWindowBackwards(steps[n..])
  {
    if n > 0 {
      SuffixForward(steps[1..], n - 1);
      assert steps[1..][n - 1..] == steps[n..];
    }
  }

  lemma {:induction false} FirstIsLeast(steps: seq<SequenceStep>, k: nat)
    requires !AnyWindowBackwards(steps) && k < |steps|
    ensures steps[0].offset <= steps[k].offset
  {
    if k > 0 { FirstIsLeast(steps[1..], k - 1); }
  }

  lemma {:induction false} GroupsUniform(steps: seq<SequenceStep>, k: nat, s: SequenceStep)
    requires k < |Groups(steps)| && s in Groups(steps)[k].steps
    ensures s.offset == Groups(steps)[k].offset
    decreases |steps|
  {
    if k > 0 { GroupsUniform(steps[GroupSize(steps)..], k - 1, s); }
  }

  lemma {:induction false} GroupHead(steps: seq<SequenceStep>, k: nat)
    requires !AnyWindowBackwards(steps) && k < |Groups(steps)|
    ensures steps != [] && steps[0].offset <= Groups(steps)[k].offset
    decreases |steps|
  {
    if k > 0 {
      var n := GroupSize(steps);
      SuffixForward(steps, n);
      GroupHead(steps[n..], k - 1);
      FirstIsLeast(steps, n);
    }
  }

  lemma {:induction false} GroupsAscend(steps: seq<SequenceStep>, j: nat, k: nat)
    requires !AnyWindowBackwards(steps) && j < k < |Groups(steps)|
    ensures Groups(steps)[j].offset < Groups(steps)[k].offset
    decreases |steps|
  {
    var n := GroupSize(steps);
    SuffixForward(steps, n);
    if j > 0 {
      GroupsAscend(steps[n..], j - 1, k - 1);
    } else {
      GroupHead(steps[n..], k - 1);
      FirstIsLeast(steps, n);
    }
  }

  lemma {:induction false} LastGroup(steps: seq<SequenceStep>)
    requires steps != []
    ensures Groups(steps)[|Groups(steps)| - 1].offset == steps[|steps| - 1].offset
    decreases |steps|
  {
    var n := GroupSize(steps);
    var rest := steps[n..];
    if rest != [] {
      LastGroup(rest);
      assert rest[|rest| - 1] == steps[|steps| - 1];
    }
  }

  // ---- The plan ------------------------------------------------------------------------------------------

  datatype Planned = Planned(target: nat, due: nat, report: Report, final: bool)

  function Actions(steps: seq<SequenceStep>): (a: seq<Action>)
    ensures |a| == |steps| && forall k :: 0 <= k < |a| ==> a[k] == steps[k].action
  {
    if steps == [] then [] else [steps[0].action] + Actions(steps[1..])
  }

  // The reports of the groups still to plan; None if a target overflows.
  function Plan(groups: seq<Group>, origin: nat, report: Report, previous: Option<nat>, interval: nat)
    : Option<seq<Planned>>
  {
    if groups == [] then Some([])
    else
      var target := origin + groups[0].offset;
      if target > U64_MAX then None
      else
        var due := if previous.Some? && previous.value > target then previous.value else target;
        var next := Fold(report, Actions(groups[0].steps));
        var rest := Plan(groups[1..], origin, next, Some(SaturatingAdd(due, interval)), interval);
        if rest == None then None else Some([Planned(target, due, next, |groups| == 1)] + rest.value)
  }

  // The plan of a whole sequence, as `schedule_sequence` starts it.
  function PlanOf(steps: seq<SequenceStep>, origin: nat, desired: Report, last: Option<nat>, interval: nat)
    : Option<seq<Planned>>
  {
    Plan(Groups(steps), origin, desired, First(last, interval), interval)
  }

  // Start times that respect the targets and the minimum interval, from the earliest allowed start on.
  ghost predicate Feasible(groups: seq<Group>, origin: nat, previous: Option<nat>, interval: nat, dues: seq<nat>)
  {
    && |dues| == |groups|
    && (forall k :: 0 <= k < |groups| ==> dues[k] >= origin + groups[k].offset)
    && (previous.Some? && dues != [] ==> dues[0] >= previous.value)
    && (forall k :: 0 < k < |groups| ==> dues[k] >= SaturatingAdd(dues[k - 1], interval))
  }

  function Dues(plan: seq<Planned>): (d: seq<nat>)
    ensures |d| == |plan| && forall k :: 0 <= k < |d| ==> d[k] == plan[k].due
  {
    if plan == [] then [] else [plan[0].due] + Dues(plan[1..])
  }

  lemma {:induction false} PlanIsFeasible(groups: seq<Group>, origin: nat, report: Report, previous: Option<nat>,
                                          interval: nat)
    requires Plan(groups, origin, report, previous, interval).Some?
    ensures Feasible(groups, origin, previous, interval, Dues(Plan(groups, origin, report, previous, interval).value))
  {
    if groups != [] {
      var plan := Plan(groups, origin, report, previous, interval).value;
      var next := Fold(report, Actions(groups[0].steps));
      var after := Some(SaturatingAdd(plan[0].due, interval));
      PlanIsFeasible(groups[1..], origin, next, after, interval);
      var dues, rest := Dues(plan), Dues(plan[1..]);
      assert Feasible(groups[1..], origin, after, interval, rest);
      forall k | 0 <= k < |groups| ensures dues[k] >= origin + groups[k].offset {
        if k > 0 { assert rest[k - 1] >= origin + groups[1..][k - 1].offset; }
      }
      forall k | 0 < k < |groups| ensures dues[k] >= SaturatingAdd(dues[k - 1], interval) {
        if k > 1 { assert rest[k - 1] >= SaturatingAdd(rest[k - 2], interval); }
      }
    }
  }

  lemma {:induction false} PlanIsLeast(groups: seq<Group>, origin: nat, report: Report, previous: Option<nat>,
                                       interval: nat, bound: Option<nat>, dues: seq<nat>)
    requires Plan(groups, origin, report, previous, interval).Some?
    requires Feasible(groups, origin, bound, interval, dues)
    requires previous.Some? ==> bound.Some? && previous.value <= bound.value
    ensures var plan := Plan(groups, origin, report, previous, interval).value;
            |plan| == |groups| && forall k :: 0 <= k < |plan| ==> plan[k].due <= dues[k]
  {
    if groups != [] {
      var plan := Plan(groups, origin, report, previous, interval).value;
      var next := Fold(report, Actions(groups[0].steps));
      var after := SaturatingAdd(plan[0].due, interval);
      assert plan[0].due <= dues[0];
      forall k | 0 < k < |groups| - 1 ensures dues[1..][k] >= SaturatingAdd(dues[1..][k - 1], interval) {
        assert dues[k + 1] >= SaturatingAdd(dues[k], interval);
      }
      PlanIsLeast(groups[1..], origin, next, Some(after), interval, Some(SaturatingAdd(dues[0], interval)), dues[1..]);
      forall k | 0 <= k < |plan| ensures plan[k].due <= dues[k] {
        if k > 0 { assert plan[k] == plan[1..][k - 1] && dues[k] == dues[1..][k - 1]; }
      }
    }
  }

  // The plan is the least feasible schedule: no start is early, and any start times that respect the
  // targets, the spacing and the last acceptance are, one by one, no earlier.
  lemma {:induction false} LeastFeasibleSchedule(steps: seq<SequenceStep>, origin: nat, desired: Report,
                                                 last: Option<nat>, interval: nat, dues: seq<nat>)
    requires PlanOf(steps, origin, desired, last, interval).Some?
    ensures var plan := PlanOf(steps, origin, desired, last, interval).value;
            var first := First(last, interval);
            && |plan| == |Groups(steps)|
            && Feasible(Groups(steps), origin, first, interval, Dues(plan))
            && (Feasible(Groups(steps), origin, first, interval, dues) ==>
                  forall k :: 0 <= k < |plan| ==> plan[k].due <= dues[k])
  {
    var first := First(last, interval);
    PlanIsFeasible(Groups(steps), origin, desired, first, interval);
    if Feasible(Groups(steps), origin, first, interval, dues) {
      PlanIsLeast(Groups(steps), origin, desired, first, interval, first, dues);
    }
  }

  // As long as no sum saturates, feasible means spaced by the whole interval.
  lemma SpacedWithoutSaturation(steps: seq<SequenceStep>, origin: nat, desired: Report, last: Option<nat>,
                                interval: nat, k: nat)
    requires PlanOf(steps, origin, desired, last, interval).Some?
    requires var plan := PlanOf(steps, origin, desired, last, interval).value;
             k < |plan| && forall p :: p in plan ==> p.due + interval <= U64_MAX
    requires last.Some? ==> last.value + interval <= U64_MAX
    ensures var plan := PlanOf(steps, origin, desired, last, interval).value;
            && plan[k].due >= plan[k].target
            && (if k > 0 then plan[k].due >= plan[k - 1].due + interval
                else last.Some? ==> plan[0].due >= last.value + interval)
  {
    PlanTargets(Groups(steps), origin, desired, First(last, interval), interval);
    PlanIsFeasible(Groups(steps), origin, desired, First(last, interval), interval);
    SpacedDues(Groups(steps), origin, last, interval, PlanOf(steps, origin, desired, last, interval).value, k);
  }

  lemma {:induction false} SpacedDues(groups: seq<Group>, origin: nat, last: Option<nat>, interval: nat,
                                      plan: seq<Planned>, k: nat)
    requires Feasible(groups, origin, First(last, interval), interval, Dues(plan))
    requires k < |plan| && forall p :: p in plan ==> p.due + interval <= U64_MAX
    requires last.Some? ==> last.value + interval <= U64_MAX
    ensures if k > 0 then plan[k].due >= plan[k - 1].due + interval
            else last.Some? ==> plan[0].due >= last.value + interval
  {
    var dues := Dues(plan);
    if k > 0 {
      assert plan[k - 1] in plan;
      assert dues[k] >= SaturatingAdd(dues[k - 1], interval);
    }
  }

  lemma {:induction false} PlanTargets(groups: seq<Group>, origin: nat, report: Report, previous: Option<nat>,
                                       interval: nat)
    requires Plan(groups, origin, report, previous, interval).Some?
    ensures var plan := Plan(groups, origin, report, previous, interval).value;
            && |plan| == |groups|
            && (forall k :: 0 <= k < |plan| ==> plan[k].target == origin + groups[k].offset && plan[k].due >= plan[k].target)
            && (forall k :: 0 <= k < |plan| ==> (plan[k].final <==> k == |plan| - 1))
  {
    if groups != [] {
      var plan := Plan(groups, origin, report, previous, interval).value;
      PlanTargets(groups[1..], origin, Fold(report, Actions(groups[0].steps)), Some(SaturatingAdd(plan[0].due, interval)), interval);
      forall k | 0 < k < |plan|
        ensures plan[k].target == origin + groups[k].offset && plan[k].due >= plan[k].target
        ensures plan[k].final <==> k == |plan| - 1
      {
        assert plan[k] == plan[1..][k - 1] && groups[k] == groups[1..][k - 1];
      }
    }
  }

  lemma {:induction false} ActionsConcat(a: seq<SequenceStep>, b: seq<SequenceStep>)
    ensures Actions(a + b) == Actions(a) + Actions(b)
  {
  }

  function FlatActions(g: seq<Group>): seq<Action> {
    if g == [] then [] else Actions(g[0].steps) + FlatActions(g[1..])
  }

  lemma {:induction false} FlatActionsAre(g: seq<Group>)
    ensures FlatActions(g) == Actions(Flat(g))
  {
    if g != [] {
      FlatActionsAre(g[1..]);
      ActionsConcat(g[0].steps, Flat(g[1..]));
    }
  }

  lemma {:induction false} FoldGroup(report: Report, g: seq<Group>)
    requires g != []
    ensures Fold(report, FlatActions(g)) == Fold(Fold(report, Actions(g[0].steps)), FlatActions(g[1..]))
  {
    FoldConcat(report, Actions(g[0].steps), FlatActions(g[1..]));
  }

  lemma {:induction false} PlanFirst(groups: seq<Group>, origin: nat, report: Report, previous: Option<nat>,
                                     interval: nat)
    requires groups != [] && Plan(groups, origin, report, previous, interval).Some?
    ensures var plan := Plan(groups, origin, report, previous, interval).value;
            var next := Fold(report, Actions(groups[0].steps));
            && plan != [] && plan[0].report == next
            && Plan(groups[1..], origin, next, Some(SaturatingAdd(plan[0].due, interval)), interval) == Some(plan[1..])
  {
  }

  lemma {:induction false} FirstGroupOnly(groups: seq<Group>, report: Report)
    requires groups != []
    ensures Fold(report, FlatActions(groups[..1])) == Fold(report, Actions(groups[0].steps))
  {
    assert groups[..1][1..] == [];
    FoldGroup(report, groups[..1]);
  }

  lemma {:induction false} MoreGroups(groups: seq<Group>, report: Report, k: nat)
    requires 0 < k < |groups|
    ensures Fold(report, FlatActions(groups[..k + 1]))
         == Fold(Fold(report, Actions(groups[0].steps)), FlatActions(groups[1..][..k]))
  {
    FoldGroup(report, groups[..k + 1]);
    assert groups[..k + 1][1..] == groups[1..][..k];
  }

  lemma {:induction false} PlanReports(groups: seq<Group>, origin: nat, report: Report, previous: Option<nat>,
                                       interval: nat, k: nat)
    requires k < |groups|
    requires Plan(groups, origin, report, previous, interval).Some?
    ensures var plan := Plan(groups, origin, report, previous, interval).value;
            k < |plan| && plan[k].report == Fold(report, FlatActions(groups[..k + 1]))
  {
    var plan := Plan(groups, origin, report, previous, interval).value;
    PlanFirst(groups, origin, report, previous, interval);
    if k == 0 {
      FirstGroupOnly(groups, report);
    } else {
      MoreGroups(groups, report, k);
      PlanReports(groups[1..], origin, plan[0].report, Some(SaturatingAdd(plan[0].due, interval)), interval, k - 1);
      assert plan[k] == plan[1..][k - 1];
    }
  }

  lemma {:induction false} PlanOverflows(groups: seq<Group>, origin: nat, report: Report, previous: Option<nat>,
                                         interval: nat)
    ensures Plan(groups, origin, report, previous, interval) == None
       <==> exists k :: 0 <= k < |groups| && origin + groups[k].offset > U64_MAX
  {
    if groups != [] {
      var target := origin + groups[0].offset;
      var due := if previous.Some? && previous.value > target then previous.value else target;
      PlanOverflows(groups[1..], origin, Fold(report, Actions(groups[0].steps)), Some(SaturatingAdd(due, interval)), interval);
      if k :| 0 <= k < |groups[1..]| && origin + groups[1..][k].offset > U64_MAX {
        assert origin + groups[k + 1].offset > U64_MAX;
      }
      if k :| 0 < k < |groups| && origin + groups[k].offset > U64_MAX {
        assert origin + groups[1..][k - 1].offset > U64_MAX;
      }
    }
  }

  // How many steps have an offset no later than `offset`.
  function StepsUpTo(steps: seq<SequenceStep>, offset: nat): seq<SequenceStep> {
    if steps == [] || steps[0].offset > offset then [] else [steps[0]] + StepsUpTo(steps[1..], offset)
  }

  lemma {:induction false} FlatUpTo(steps: seq<SequenceStep>, k: nat)
    requires !AnyWindowBackwards(steps) && k < |Groups(steps)|
    ensures Flat(Groups(steps)[..k + 1]) == StepsUpTo(steps, Groups(steps)[k].offset)
    decreases |steps|
  {
    var n := GroupSize(steps);
    var rest := steps[n..];
    var g: seq<Group> := Groups(steps);
    SuffixForward(steps, n);
    assert g[..k + 1][0].steps == steps[..n];
    assert g[..k + 1][1..] == Groups(rest)[..k];
    GroupHead(steps, k);
    UpToHead(steps, n, g[k].offset);
    if k == 0 {
      if rest != [] { FirstIsLeast(steps, n); }
      assert StepsUpTo(rest, g[0].offset) == [];
    } else {
      FlatUpTo(rest, k - 1);
    }
  }

  lemma {:induction false} UpToHead(steps: seq<SequenceStep>, n: nat, offset: nat)
    requires n <= |steps| && forall i :: 0 <= i < n ==> steps[i].offset <= offset
    ensures StepsUpTo(steps, offset) == steps[..n] + StepsUpTo(steps[n..], offset)
  {
    if n > 0 {
      UpToHead(steps[1..], n - 1, offset);
      assert steps[1..][n - 1..] == steps[n..];
      assert steps[..n] == [steps[0]] + steps[1..][..n - 1];
    } else {
      assert steps[0..] == steps;
    }
  }

  function First(last: Option<nat>, interval: nat): Option<nat> {
    if last.Some? then Some(SaturatingAdd(last.value, interval)) else None
  }

  // The plan of a validated sequence fails exactly if the last target does not fit in 64 bits.
  lemma PlanFailsByOverflow(steps: seq<SequenceStep>, origin: nat, desired: Report, last: Option<nat>, interval: nat)
    requires NewSequence(steps) == Accepted(steps)
    ensures PlanOf(steps, origin, desired, last, interval) == None <==> origin + steps[|steps| - 1].offset > U64_MAX
  {
    var g := Groups(steps);
    LastGroup(steps);
    PlanOverflows(g, origin, desired, First(last, interval), interval);
    if k :| 0 <= k < |g| && origin + g[k].offset > U64_MAX {
      if k < |g| - 1 { GroupsAscend(steps, k, |g| - 1); }
    }
  }

  // Coalescing loses nothing: a validated sequence gets one report for each distinct offset, in order,
  // and exactly the last of them is marked final.
  lemma OneReportPerOffset(steps: seq<SequenceStep>, origin: nat, desired: Report, last: Option<nat>, interval: nat)
    requires NewSequence(steps) == Accepted(steps)
    requires PlanOf(steps, origin, desired, last, interval).Some?
    ensures var plan := PlanOf(steps, origin, desired, last, interval).value;
            && (forall k :: 0 <= k < |plan| ==> (plan[k].final <==> k == |plan| - 1))
            && (forall j, k :: 0 <= j < k < |plan| ==> plan[j].target < plan[k].target)
            && (forall s :: s in steps ==> exists p :: p in plan && p.target == origin + s.offset)
  {
    var plan := PlanOf(steps, origin, desired, last, interval).value;
    PlanTargets(Groups(steps), origin, desired, First(last, interval), interval);
    forall j, k | 0 <= j < k < |plan| ensures plan[j].target < plan[k].target {
      GroupsAscend(steps, j, k);
    }
    forall s | s in steps ensures exists p :: p in plan && p.target == origin + s.offset {
      GroupsFlat(steps);
      var k := FlatFinds(Groups(steps), s);
      GroupsUniform(steps, k, s);
      assert plan[k] in plan;
    }
  }

  lemma {:induction false} GroupReports(steps: seq<SequenceStep>, report: Report, k: nat)
    requires !AnyWindowBackwards(steps) && k < |Groups(steps)|
    ensures Fold(report, FlatActions(Groups(steps)[..k + 1])) == Fold(report, Actions(StepsUpTo(steps, Groups(steps)[k].offset)))
  {
    FlatActionsAre(Groups(steps)[..k + 1]);
    FlatUpTo(steps, k);
  }

  // A report of the plan is the fold of every step up to its offset.
  lemma {:induction false} CoalescedReports(steps: seq<SequenceStep>, origin: nat, desired: Report,
                                            last: Option<nat>, interval: nat, k: nat)
    requires NewSequence(steps) == Accepted(steps) && k < |Groups(steps)|
    requires PlanOf(steps, origin, desired, last, interval).Some?
    ensures var plan := PlanOf(steps, origin, desired, last, interval).value;
            var offset := Groups(steps)[k].offset;
            && |plan| == |Groups(steps)| && plan[k].target == origin + offset
            && plan[k].report == Fold(desired, Actions(StepsUpTo(steps, offset)))
  {
    PlanTargets(Groups(steps), origin, desired, First(last, interval), interval);
    PlanReports(Groups(steps), origin, desired, First(last, interval), interval, k);
    GroupReports(steps, desired, k);
  }

  lemma {:induction false} FlatFinds(g: seq<Group>, s: SequenceStep) returns (k: nat)
    requires s in Flat(g)
    ensures k < |g| && s in g[k].steps
  {
    if s in g[0].steps {
      k := 0;
    } else {
      var j := FlatFinds(g[1..], s);
      k := j + 1;
    }
  }
}
