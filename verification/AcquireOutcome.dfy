/**
 * Which outcome an acquisition ends with: the first resolver that wins the record decides, a signal it
 * sees goes before its own outcome, and what it decided reaches the caller or is dropped with the future.
 */
module AcquireOutcome {
  import opened Wrappers
  import opened Acquire

  lemma HeldStays(q: Request, s: RequestStep)
    requires RequestInv(q) && |Held(q)| == 1
    ensures Held(OnRequest(q, s)) == Held(q)
  {
    if s.Publish? && s.hand < |q.hands| && q.hands[s.hand].Holding? {
      assert q.hands[..s.hand] + q.hands[s.hand + 1..] == [];
    }
  }

  lemma {:induction false} RunHolds(w: World, steps: seq<Step>, r: nat)
    requires Inv(w) && r < |w.requests| && |Held(w.requests[r])| == 1
    ensures var w' := Run(w, steps); Inv(w') && r < |w'.requests| && Held(w'.requests[r]) == Held(w.requests[r])
    decreases steps
  {
    if steps != [] {
      StepKeepsInv(w, steps[0]);
      StepHolds(w, steps[0], r);
      RunHolds(Apply(w, steps[0]), steps[1..], r);
    }
  }

  lemma StepHolds(w: World, s: Step, r: nat)
    requires Inv(w) && r < |w.requests| && |Held(w.requests[r])| == 1
    ensures r < |Apply(w, s).requests| && Held(Apply(w, s).requests[r]) == Held(w.requests[r])
  {
    assert RequestAt(w, r);
    if s.OnOne? { HeldStays(w.requests[r], s.step); }
    if s.LaneResolve? { HeldStays(w.requests[r], Reserve(s.signal, None)); }
    if s.LaneGrant? { HeldStays(w.requests[r], Decide(w.nextGeneration)); }
  }

  // The one outcome of a request, wherever it has got to by now.
  predicate EndsWith(q: Request, o: Outcome) {
    && Held(q) == [o]
    && (q.future.Completed? ==> q.delivered == [o])
    && (q.future.Dropped? && q.hands == [] ==> q.cleaned == [o])
    && (q.future.Waiting? && q.hands == [] ==> q.status == Ready(Some(o)))
  }

  lemma HeldEndsWith(q: Request, o: Outcome)
    requires RequestInv(q) && Held(q) == [o]
    ensures EndsWith(q, o)
  {
  }

  lemma ReservationHolds(q: Request, signal: Option<Outcome>, fallback: Option<Outcome>)
    requires RequestInv(q) && q.status.Pending? && (signal.Some? || fallback.Some?)
    ensures Held(OnRequest(q, Reserve(signal, fallback))) == [if signal.Some? then signal.value else fallback.value]
  {
  }

  // A resolver other than the lane that finds the record pending decides it for good: by the signal it
  // can see, or else by the outcome it came with.
  lemma {:induction false} FirstReservationDecides(before: seq<Step>, r: nat, signal: Option<Outcome>, fallback: Outcome, after: seq<Step>)
    requires var w := Run(Init(), before); r < |w.requests| && w.requests[r].status.Pending?
    requires !fallback.Granted? && !(signal.Some? && signal.value.Granted?)
    ensures var w := Apply(Run(Init(), before), OnOne(r, Reserve(signal, Some(fallback))));
            var w' := Run(w, after);
            && r < |w'.requests|
            && EndsWith(w'.requests[r], if signal.Some? then signal.value else fallback)
  {
    RunKeepsInv(Init(), before);
    var w := Run(Init(), before);
    assert RequestAt(w, r);
    ReservationHolds(w.requests[r], signal, Some(fallback));
    var w1 := Apply(w, OnOne(r, Reserve(signal, Some(fallback))));
    StepKeepsInv(w, OnOne(r, Reserve(signal, Some(fallback))));
    RunHolds(w1, after, r);
    assert RequestAt(Run(w1, after), r);
    HeldEndsWith(Run(w1, after).requests[r], if signal.Some? then signal.value else fallback);
  }

  // The lane decides in the same way, but only while nobody owns it and a generation is left: a signal
  // it sees is the outcome, and with none the grant it makes next is.
  lemma {:induction false} LaneDecides(before: seq<Step>, r: nat, signal: Option<Outcome>, after: seq<Step>)
    requires var w := Run(Init(), before);
             && r < |w.requests| && w.requests[r].status.Pending?
             && w.granting.None? && w.owner.Nobody? && w.nextGeneration < U64_MAX
    requires !(signal.Some? && signal.value.Granted?)
    ensures var w := Run(Init(), before);
            var w' := Run(Apply(w, LaneResolve(r, signal)), after);
            && r < |w'.requests|
            && (signal.Some? ==> EndsWith(w'.requests[r], signal.value))
            && (signal.None? ==> w'.granting == Some(r) || EndsWith(w'.requests[r], Granted(w.nextGeneration)))
  {
    RunKeepsInv(Init(), before);
    var w := Run(Init(), before);
    assert RequestAt(w, r);
    var w1 := Apply(w, LaneResolve(r, signal));
    StepKeepsInv(w, LaneResolve(r, signal));
    if signal.Some? {
      ReservationHolds(w.requests[r], signal, None);
      RunHolds(w1, after, r);
    } else {
      RunGrants(w1, after, r);
    }
    var q := Run(w1, after).requests[r];
    assert RequestAt(Run(w1, after), r);
    if |Held(q)| == 1 { HeldEndsWith(q, Held(q)[0]); }
  }

  lemma GrantHolds(w: World, r: nat)
    requires Inv(w) && w.granting == Some(r)
    ensures r < |w.requests| && Held(Apply(w, LaneGrant).requests[r]) == [Granted(w.nextGeneration)]
  {
    assert RequestAt(w, r);
  }

  // The generation it won the record for is the one it grants.
  lemma {:induction false} RunGrants(w: World, steps: seq<Step>, r: nat)
    requires Inv(w) && w.granting == Some(r)
    ensures var w' := Run(w, steps);
            && Inv(w') && r < |w'.requests|
            && ((w'.granting == Some(r) && w'.nextGeneration == w.nextGeneration) || Held(w'.requests[r]) == [Granted(w.nextGeneration)])
    decreases steps
  {
    if steps != [] {
      var next := Apply(w, steps[0]);
      StepKeepsInv(w, steps[0]);
      if steps[0].LaneGrant? {
        GrantHolds(w, r);
        RunHolds(next, steps[1..], r);
      } else {
        RunGrants(next, steps[1..], r);
      }
    }
  }

  // And the future gets it: a poll of the decided request returns the outcome once it is published, and if the
  // future is dropped instead the outcome is dropped with it.
  lemma {:induction false} DecidedIsDelivered(steps: seq<Step>, r: nat, o: Outcome)
    requires var w := Run(Init(), steps);
             r < |w.requests| && Held(w.requests[r]) == [o] && w.requests[r].hands == [] && w.requests[r].future.Waiting?
    ensures var w := Run(Init(), steps);
            var polled, dropped := Apply(w, OnOne(r, Poll)).requests[r], Apply(w, OnOne(r, DropFuture)).requests[r];
            && polled.future.Completed? && polled.delivered == [o] && polled.cleaned == []
            && dropped.future.Dropped? && dropped.delivered == [] && dropped.cleaned == [o]
  {
    RunKeepsInv(Init(), steps);
    assert RequestAt(Run(Init(), steps), r);
  }

  // The lane is owned by one at a time and given back: whoever holds it when it is released holds it no more,
  // a generation for good, and the free lane goes to whom it is given next.
  lemma {:induction false} ReleaseFrees(steps: seq<Step>, operation: nat)
    requires Run(Init(), steps).granting.None?
    ensures var w := Run(Init(), steps);
            var freed := Apply(w, LaneRelease);
            && freed.owner == Nobody && (forall g :: 1 <= g <= |w.grants| ==> g in freed.ended)
            && Apply(freed, LaneOwn(operation)).owner == Sequence(operation)
            && (w.owner != Nobody ==> Apply(w, LaneOwn(operation)).owner == w.owner)
  {
    OneOwnerAtATime(steps);
  }

  // Nobody decides anything else: a request nobody has resolved yet is pending, and one that is not
  // and holds no outcome is the one the lane is granting, or its future was dropped first.
  lemma {:induction false} UndecidedIsPending(steps: seq<Step>, r: nat)
    requires r < |Run(Init(), steps).requests| && Held(Run(Init(), steps).requests[r]) == []
    ensures var w := Run(Init(), steps);
            var q := w.requests[r];
            (q.status.Pending? && q.future.Waiting?) || w.granting == Some(r) || (q.future.Dropped? && q.hands == [])
  {
    RunKeepsInv(Init(), steps);
    assert RequestAt(Run(Init(), steps), r);
  }
}
