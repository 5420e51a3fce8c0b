/**
 * Acquisition of the Automation lease: many completion records, many resolvers, one lane that
 * grants (crates/easycon-controller/src/session.rs, `AcquireRecord` and `acquire_automation_lease`).
 */
module Acquire {
  import opened Wrappers

  const U64_MAX: nat := 0xffff_ffff_ffff_ffff

  datatype Outcome = Granted(generation: nat) | Cancelled | Deadline | Closed | Failure(error: nat)

  datatype Status = Pending | Resolving(abandoned: bool) | Ready(outcome: Option<Outcome>) | Abandoned

  // ---- The record's critical sections ----------------------------------------------------------------

  function ReserveResolution(s: Status): Status {
    if s.Pending? then Resolving(false) else s
  }

  function PublishReserved(s: Status, outcome: Outcome): Status {
    match s
    case Resolving(false) => Ready(Some(outcome))
    case Resolving(true) => Abandoned
    case _ => s
  }

  // What publishing hands back to be dropped: the outcome nobody waits for any more.
  function DroppedByPublish(s: Status, outcome: Outcome): Option<Outcome> {
    if s == Resolving(true) then Some(outcome) else None
  }

  function Abandon(s: Status): Status {
    match s
    case Resolving(_) => Resolving(true)
    case _ => Abandoned
  }

  function DroppedByAbandon(s: Status): Option<Outcome> {
    if s.Ready? then s.outcome else None
  }

  class AcquireRecord {
    var status: Status

    constructor ()
      ensures status == Pending
    {
      status := Pending;
    }

    method Reserve() returns (reserved: bool)
      modifies this
      ensures status == ReserveResolution(old(status)) && reserved == old(status).Pending?
    {
      if !status.Pending? { return false; }
      status := Resolving(false);
      return true;
    }

    method Publish(outcome: Outcome) returns (published: bool, dropped: Option<Outcome>)
      modifies this
      ensures status == PublishReserved(old(status), outcome)
      ensures published == old(status).Resolving? && dropped == DroppedByPublish(old(status), outcome)
    {
      match status {
        case Resolving(abandoned) =>
          if abandoned {
            status := Abandoned;
            return true, Some(outcome);
          }
          status := Ready(Some(outcome));
          return true, None;
        case _ => return false, None;
      }
    }

    method AbandonFuture() returns (dropped: Option<Outcome>)
      modifies this
      ensures status == Abandon(old(status)) && dropped == DroppedByAbandon(old(status))
    {
      match status {
        case Ready(outcome) =>
          status := Abandoned;
          return outcome;
        case Resolving(_) =>
          status := Resolving(true);
          return None;
        case _ =>
          status := Abandoned;
          return None;
      }
    }

    // `poll` of a future that was neither completed nor dropped before.
    method TakeReady() returns (outcome: Option<Outcome>)
      requires status != Abandoned && status != Ready(None)
      modifies this
      ensures outcome == if old(status).Ready? then old(status).outcome else None
      ensures status == if old(status).Ready? then Ready(None) else old(status)
    {
      if !status.Ready? { return None; }
      outcome := status.outcome;
      status := Ready(None);
    }
  }

  // ---- One request, resolved by anybody --------------------------------------------------------------------

  datatype Future = Waiting | Completed | Dropped

  // A resolver that won the record holds its outcome, or, if it is the lane about to grant, has
  // still to make it.
  datatype Hand = Deciding | Holding(outcome: Outcome)

  // `granted` is the generation the lane's fallback made for this request, if it ever ran;
  // `delivered` what the future returned; `cleaned` the outcomes dropped unseen. A dropped lease
  // requests its own cleanup.
  datatype Request = Request(
    status: Status,
    future: Future,
    hands: seq<Hand>,
    granted: Option<nat>,
    delivered: seq<Outcome>,
    cleaned: seq<Outcome>)

  datatype RequestStep =
    | Reserve(signal: Option<Outcome>, fallback: Option<Outcome>)
    | Decide(generation: nat)
    | Publish(hand: nat)
    | Poll
    | DropFuture

  const Fresh := Request(Pending, Waiting, [], None, [], [])

  function Cleaned(q: Request, dropped: Option<Outcome>): seq<Outcome> {
    q.cleaned + (if dropped.Some? then [dropped.value] else [])
  }

  function OnRequest(q: Request, s: RequestStep): Request {
    match s
    // `resolve_with` up to winning the record: a visible signal beats the caller's fallback, and
    // without either the lane's grant is still to run.
    case Reserve(signal, fallback) =>
      var hand := if signal.Some? then Holding(signal.value) else if fallback.Some? then Holding(fallback.value) else Deciding;
      q.(status := ReserveResolution(q.status), hands := if q.status.Pending? then q.hands + [hand] else q.hands)
    case Decide(g) =>
      if |q.hands| == 1 && q.hands[0].Deciding? then q.(hands := [Holding(Granted(g))], granted := Some(g)) else q
    case Publish(i) =>
      if i >= |q.hands| || !q.hands[i].Holding? then q
      else
        var outcome := q.hands[i].outcome;
        q.(status := PublishReserved(q.status, outcome), hands := q.hands[..i] + q.hands[i + 1..],
           cleaned := Cleaned(q, DroppedByPublish(q.status, outcome)))
    case Poll =>
      if !q.future.Waiting? || !q.status.Ready? || q.status.outcome.None? then q
      else q.(status := Ready(None), future := Completed, delivered := q.delivered + [q.status.outcome.value])
    case DropFuture =>
      if !q.future.Waiting? then q
      else q.(status := Abandon(q.status), future := Dropped, cleaned := Cleaned(q, DroppedByAbandon(q.status)))
  }

  // Everywhere this request's outcome is: with its resolver, in the record, returned, or dropped.
  function Held(q: Request): seq<Outcome> {
    (if |q.hands| == 1 && q.hands[0].Holding? then [q.hands[0].outcome] else [])
    + (if q.status.Ready? && q.status.outcome.Some? then [q.status.outcome.value] else [])
    + q.delivered + q.cleaned
  }

  ghost predicate RequestInv(q: Request) {
    && |q.hands| == (if q.status.Resolving? then 1 else 0)
    && (q.status.Resolving? ==> (q.status.abandoned <==> q.future.Dropped?) && !q.future.Completed?)
    && (q.status.Pending? ==> q.future.Waiting?)
    && (q.status == Ready(None) <==> q.future.Completed?)
    && (q.status.Abandoned? ==> q.future.Dropped?)
    && (q.future.Dropped? ==> !q.status.Ready? && !q.status.Pending?)
    && |q.delivered| == (if q.future.Completed? then 1 else 0)
    && |Held(q)| <= 1
    && (q.status.Pending? || q.hands == [Deciding] ==> |Held(q)| == 0 && q.granted.None?)
    && (q.granted.Some? ==> Held(q) == [Granted(q.granted.value)])
    && (|Held(q)| == 1 && Held(q)[0].Granted? ==> q.granted == Some(Held(q)[0].generation))
  }

  lemma RequestStepKeepsInv(q: Request, s: RequestStep)
    requires RequestInv(q)
    requires s.Reserve? ==> !(s.signal.Some? && s.signal.value.Granted?) && !(s.fallback.Some? && s.fallback.value.Granted?)
    ensures RequestInv(OnRequest(q, s))
    ensures q.granted.Some? ==> OnRequest(q, s).granted == q.granted
    ensures !s.Decide? ==> OnRequest(q, s).granted == q.granted
    ensures Signals(s) && !s.Decide? ==> (OnRequest(q, s).hands == [Deciding] <==> q.hands == [Deciding])
  {
  }

  // ---- Many requests, one lane ---------------------------------------------------------------------------------

  datatype Owner = Nobody | Sequence(operation: nat) | Automation(generation: nat)

  // `granting` is the request the lane has won and not yet granted; `grants[g - 1]` the request
  // generation `g` was made for; `ended` the generations whose lane ownership is over.
  datatype World = World(
    requests: seq<Request>,
    owner: Owner,
    granting: Option<nat>,
    nextGeneration: nat,
    grants: seq<nat>,
    ended: set<nat>)

  datatype Step =
    | NewRequest
    | OnOne(request: nat, step: RequestStep)
    | LaneResolve(request: nat, signal: Option<Outcome>)
    | LaneGrant
    | LaneOwn(operation: nat)
    | LaneRelease

  function Init(): World {
    World([], Nobody, None, 1, [], {})
  }

  // A signal is what anybody can see without the lane: never a grant.
  predicate Signals(s: RequestStep) {
    s.Reserve? ==> s.fallback.Some? && !s.fallback.value.Granted? && !(s.signal.Some? && s.signal.value.Granted?)
  }

  function Apply(w: World, s: Step): World {
    match s
    case NewRequest => w.(requests := w.requests + [Fresh])
    case OnOne(r, step) =>
      if r < |w.requests| && Signals(step) && !step.Decide?
      then w.(requests := w.requests[r := OnRequest(w.requests[r], step)]) else w
    // The lane looks first: nobody may own it, and a non-zero generation must be left. It is one
    // thread, so until the grant is made it does nothing else.
    case LaneResolve(r, signal) =>
      if r < |w.requests| && w.granting.None? && w.owner.Nobody? && 0 < w.nextGeneration < U64_MAX
         && !(signal.Some? && signal.value.Granted?)
      then
        var q := OnRequest(w.requests[r], Reserve(signal, None));
        w.(requests := w.requests[r := q],
           granting := if w.requests[r].status.Pending? && signal.None? then Some(r) else None)
      else w
    case LaneGrant =>
      if w.granting.Some? && w.granting.value < |w.requests| then
        var r := w.granting.value;
        w.(requests := w.requests[r := OnRequest(w.requests[r], Decide(w.nextGeneration))],
           owner := Automation(w.nextGeneration), granting := None,
           nextGeneration := w.nextGeneration + 1, grants := w.grants + [r])
      else w
    case LaneOwn(op) => if w.granting.None? && w.owner.Nobody? then w.(owner := Sequence(op)) else w
    case LaneRelease =>
      if w.granting.Some? then w
      else w.(owner := Nobody, ended := if w.owner.Automation? then w.ended + {w.owner.generation} else w.ended)
  }

  function Run(w: World, steps: seq<Step>): World
    decreases steps
  {
    if steps == [] then w else Run(Apply(w, steps[0]), steps[1..])
  }

  ghost predicate RequestAt(w: World, r: nat)
    requires r < |w.requests|
  {
    var q := w.requests[r];
    && RequestInv(q)
    && (q.hands == [Deciding] <==> w.granting == Some(r))
    && (q.granted.Some? ==> 1 <= q.granted.value <= |w.grants| && w.grants[q.granted.value - 1] == r)
  }

  ghost predicate GrantAt(w: World, g: nat)
    requires 1 <= g <= |w.grants|
  {
    && w.grants[g - 1] < |w.requests|
    && w.requests[w.grants[g - 1]].granted == Some(g)
    && (g in w.ended <==> w.owner != Automation(g))
  }

  ghost predicate LaneInv(w: World) {
    && (w.granting.Some? ==> w.granting.value < |w.requests| && w.owner.Nobody? && w.nextGeneration < U64_MAX)
    && w.nextGeneration == |w.grants| + 1 <= U64_MAX
    && (w.owner.Automation? ==> 1 <= w.owner.generation <= |w.grants|)
    && (forall g :: g in w.ended ==> 1 <= g <= |w.grants|)
  }

  ghost predicate Inv(w: World) {
    && LaneInv(w)
    && (forall r: nat :: r < |w.requests| ==> RequestAt(w, r))
    && (forall g: nat :: 1 <= g <= |w.grants| ==> GrantAt(w, g))
  }

  // A step that changes one request leaves the others, and every grant, as they were.
  lemma ChangeOne(w: World, w': World, r: nat)
    requires Inv(w) && LaneInv(w') && r < |w.requests|
    requires |w'.requests| == |w.requests| && w'.requests == w.requests[r := w'.requests[r]]
    requires w'.grants == w.grants && w'.owner == w.owner && w'.ended == w.ended
    requires w'.requests[r].granted == w.requests[r].granted && RequestAt(w', r)
    requires forall k: nat :: k != r ==> (w'.granting == Some(k) <==> w.granting == Some(k))
    ensures Inv(w')
  {
    forall k: nat | k < |w'.requests| ensures RequestAt(w', k) { assert RequestAt(w, k); }
    forall g: nat | 1 <= g <= |w'.grants| ensures GrantAt(w', g) { assert GrantAt(w, g); }
  }

  lemma OnOneKeepsInv(w: World, r: nat, step: RequestStep)
    requires Inv(w) && r < |w.requests| && Signals(step) && !step.Decide?
    ensures Inv(w.(requests := w.requests[r := OnRequest(w.requests[r], step)]))
  {
    assert RequestAt(w, r);
    RequestStepKeepsInv(w.requests[r], step);
    ChangeOne(w, w.(requests := w.requests[r := OnRequest(w.requests[r], step)]), r);
  }

  // What a resolver's reservation does to its request: it decides if nobody decided before it.
  lemma ReserveDecides(w: World, r: nat, signal: Option<Outcome>)
    requires Inv(w) && r < |w.requests| && w.granting.None? && !(signal.Some? && signal.value.Granted?)
    ensures var q := OnRequest(w.requests[r], Reserve(signal, None));
            && RequestInv(q) && q.granted == w.requests[r].granted
            && (q.hands == [Deciding] <==> w.requests[r].status.Pending? && signal.None?)
            && (q.granted.Some? ==> 1 <= q.granted.value <= |w.grants| && w.grants[q.granted.value - 1] == r)
  {
    assert RequestAt(w, r);
    RequestStepKeepsInv(w.requests[r], Reserve(signal, None));
  }

  lemma LaneResolveKeepsInv(w: World, r: nat, signal: Option<Outcome>)
    requires Inv(w) && r < |w.requests| && w.granting.None? && w.owner.Nobody? && w.nextGeneration < U64_MAX
    requires !(signal.Some? && signal.value.Granted?)
    ensures Inv(Apply(w, LaneResolve(r, signal)))
  {
    ReserveDecides(w, r, signal);
    var won := w.requests[r].status.Pending? && signal.None?;
    var w' := w.(requests := w.requests[r := OnRequest(w.requests[r], Reserve(signal, None))],
                 granting := if won then Some(r) else None);
    assert RequestAt(w', r);
    ChangeOne(w, w', r);
  }

  lemma LaneGrantKeepsInv(w: World)
    requires Inv(w)
    ensures Inv(Apply(w, LaneGrant))
  {
    var w' := Apply(w, LaneGrant);
    if w.granting.Some? {
      var r := w.granting.value;
      assert RequestAt(w, r);
      RequestStepKeepsInv(w.requests[r], Decide(w.nextGeneration));
      forall k: nat | k < |w'.requests| ensures RequestAt(w', k) { assert RequestAt(w, k); }
      forall g: nat | 1 <= g <= |w'.grants| ensures GrantAt(w', g) {
        if g <= |w.grants| { assert GrantAt(w, g); }
      }
    }
  }

  lemma OtherStepKeepsInv(w: World, s: Step)
    requires Inv(w) && (s.NewRequest? || s.LaneOwn? || s.LaneRelease?)
    ensures Inv(Apply(w, s))
  {
    var w' := Apply(w, s);
    assert RequestInv(Fresh);
    forall k: nat | k < |w'.requests| ensures RequestAt(w', k) {
      if k < |w.requests| { assert RequestAt(w, k); }
    }
    forall g: nat | 1 <= g <= |w'.grants| ensures GrantAt(w', g) { assert GrantAt(w, g); }
  }

  lemma StepKeepsInv(w: World, s: Step)
    requires Inv(w)
    ensures Inv(Apply(w, s))
  {
    if s.OnOne? {
      if s.request < |w.requests| && Signals(s.step) && !s.step.Decide? { OnOneKeepsInv(w, s.request, s.step); }
    } else if s.LaneResolve? {
      if Apply(w, s) != w { LaneResolveKeepsInv(w, s.request, s.signal); }
    } else if s.LaneGrant? {
      LaneGrantKeepsInv(w);
    } else {
      OtherStepKeepsInv(w, s);
    }
  }

  lemma {:induction false} RunKeepsInv(w: World, steps: seq<Step>)
    requires Inv(w)
    ensures Inv(Run(w, steps))
    decreases steps
  {
    if steps != [] {
      StepKeepsInv(w, steps[0]);
      RunKeepsInv(Apply(w, steps[0]), steps[1..]);
    }
  }

  // ---- Main results ----------------------------------------------------------------------------------------------

  // Each future returns at most one outcome, and a grant made for it is in exactly one place: with
  // its resolver, in the record, returned to the caller, or dropped into its own cleanup.
  lemma {:induction false} GrantIsNeverLeaked(steps: seq<Step>, g: nat)
    requires 1 <= g <= |Run(Init(), steps).grants|
    ensures var w := Run(Init(), steps);
            var r := w.grants[g - 1];
            && r < |w.requests|
            && Held(w.requests[r]) == [Granted(g)]
            && (w.requests[r].future.Dropped? && w.requests[r].hands == [] ==> w.requests[r].cleaned == [Granted(g)])
            && (w.requests[r].future.Completed? ==> w.requests[r].delivered == [Granted(g)])
  {
    RunKeepsInv(Init(), steps);
    var w := Run(Init(), steps);
    assert GrantAt(w, g);
    assert RequestAt(w, w.grants[g - 1]);
  }

  // No request is granted twice, no generation is made twice, and no future is answered twice.
  lemma {:induction false} GrantedAndDeliveredOnce(steps: seq<Step>)
    ensures var w := Run(Init(), steps);
            && (forall i, j :: 0 <= i < j < |w.grants| ==> w.grants[i] != w.grants[j])
            && (forall r :: 0 <= r < |w.requests| ==> |w.requests[r].delivered| <= 1 && |Held(w.requests[r])| <= 1)
            && (forall r :: 0 <= r < |w.requests| && w.requests[r].status.Resolving? ==> |w.requests[r].hands| == 1)
  {
    RunKeepsInv(Init(), steps);
    var w := Run(Init(), steps);
    forall i, j | 0 <= i < j < |w.grants| ensures w.grants[i] != w.grants[j] {
      assert GrantAt(w, i + 1) && GrantAt(w, j + 1);
    }
    forall r: nat | r < |w.requests| ensures RequestInv(w.requests[r]) { assert RequestAt(w, r); }
  }

  // Generations are 1, 2, 3, ... in the order they are granted, they fit the counter, and every one
  // but the current owner's is over: the lane never has two owners.
  lemma {:induction false} OneOwnerAtATime(steps: seq<Step>)
    ensures var w := Run(Init(), steps);
            && w.nextGeneration == |w.grants| + 1 <= U64_MAX
            && (forall g :: 1 <= g <= |w.grants| && g !in w.ended ==> w.owner == Automation(g))
            && (w.granting.Some? ==> forall g :: 1 <= g <= |w.grants| ==> g in w.ended)
  {
    RunKeepsInv(Init(), steps);
    var w := Run(Init(), steps);
    forall g: nat | 1 <= g <= |w.grants| ensures g in w.ended <==> w.owner != Automation(g) { assert GrantAt(w, g); }
  }

  // The order of grants never changes: a later run only appends.
  lemma {:induction false} GrantsAppend(w: World, steps: seq<Step>)
    ensures w.grants <= Run(w, steps).grants && w.ended <= Run(w, steps).ended
    decreases steps
  {
    if steps != [] { GrantsAppend(Apply(w, steps[0]), steps[1..]); }
  }
}
