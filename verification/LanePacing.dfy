/**
 * The spacing of reports over runs of the whole lane (crates/easycon-controller/src/session.rs): every run of
 * `LaneQueue`, its sequences, cleanups, refusals and losses included, writes what a run of `Pacing` writes.
 */
module LanePacing {
  import opened Wrappers
  import opened Timing
  import R = Report
  import Q = LaneQueue
  import P = Pacing

  // What a pass writes, and when.
  function Wrote(w: Q.World, s: Q.Step): seq<P.Entry> {
    if s.DispatchPass? && Q.DispatchTurn(w.lane, s.turn).wrote
    then [P.Entry(s.turn.now, AcceptedAt(s.turn), P.Dispatch)] else []
  }

  function AcceptedAt(t: Q.Turn): Option<nat> {
    if t.write.Accepted? then Some(t.write.at) else None
  }

  function Log(w: Q.World, steps: seq<Q.Step>): seq<P.Entry>
    decreases steps
  {
    if steps == [] then [] else Wrote(w, steps[0]) + Log(Q.Apply(w, steps[0]), steps[1..])
  }

  // The clock after the writes of a run, and that it never went back between them.
  function Clock(log: seq<P.Entry>, start: nat): nat {
    if log == [] then start
    else if log[|log| - 1].accepted.Some? then log[|log| - 1].accepted.value
    else log[|log| - 1].start
  }

  predicate OnTime(clock: nat, e: P.Entry) {
    clock <= e.start && (e.accepted.Some? ==> e.start <= e.accepted.value)
  }

  predicate Monotone(w: Q.World, steps: seq<Q.Step>, clock: nat)
    decreases steps
  {
    steps == [] ||
      var wrote := Wrote(w, steps[0]);
      (wrote != [] ==> OnTime(clock, wrote[0])) && Monotone(Q.Apply(w, steps[0]), steps[1..], Clock(wrote, clock))
  }

  // The passes of the pacing machine that a step of the lane stands for.
  function Paces(w: Q.World, s: Q.Step): seq<P.Step> {
    if Wrote(w, s) == [] then [] else [P.DispatchPass(s.turn.now, AcceptedAt(s.turn))]
  }

  function PaceRun(w: Q.World, steps: seq<Q.Step>): seq<P.Step>
    decreases steps
  {
    if steps == [] then [] else Paces(w, steps[0]) + PaceRun(Q.Apply(w, steps[0]), steps[1..])
  }

  // The two agree on the last acceptance and on the interval.
  predicate Agree(l: Q.Lane, p: P.State) {
    !p.closed && p.last == l.last && p.interval == l.interval
  }

  // Only an accepted write moves the last acceptance, and nothing moves the interval.
  lemma OthersKeepLast(w: Q.World, s: Q.Step)
    requires !s.DispatchPass?
    ensures Q.Apply(w, s).lane.last == w.lane.last && Q.Apply(w, s).lane.interval == w.lane.interval
  {
  }

  lemma CleanupKeepsLast(l: Q.Lane, head: Q.Scheduled, w: Q.Write)
    requires w.Refused?
    ensures Q.CleanupRefused(l, head, w).lane.last == l.last && Q.CleanupRefused(l, head, w).lane.interval == l.interval
  {
  }

  lemma RefusedKeepsLast(l: Q.Lane, head: Q.Scheduled, t: Q.Turn)
    requires t.write.Refused?
    ensures Q.WriteRefused(l, head, t).lane.last == l.last && Q.WriteRefused(l, head, t).lane.interval == l.interval
  {
    var rest := l.(pending := Q.Without(l.pending, head.operation), desired := R.NEUTRAL,
                   connected := l.connected && !t.write.closed);
    CleanupKeepsLast(Q.Release(rest, head.operation), head, t.write);
  }

  lemma PassMovesLast(w: Q.World, t: Q.Turn)
    ensures var l := Q.Apply(w, Q.DispatchPass(t)).lane;
            && l.interval == w.lane.interval
            && l.last == (if Q.DispatchTurn(w.lane, t).wrote && t.write.Accepted? then Some(t.write.at) else w.lane.last)
  {
    var p := Q.DispatchTurn(w.lane, t);
    if p.wrote && t.write.Refused? {
      RefusedKeepsLast(w.lane.(pending := w.lane.pending[1..]), w.lane.pending[0], t);
    }
  }

  lemma StepMovesLast(w: Q.World, s: Q.Step)
    ensures var l := Q.Apply(w, s).lane;
            && l.interval == w.lane.interval
            && l.last == (if Wrote(w, s) != [] && s.turn.write.Accepted? then Some(s.turn.write.at) else w.lane.last)
  {
    if s.DispatchPass? { PassMovesLast(w, s.turn); } else { OthersKeepLast(w, s); }
  }

  // The lane writes only where its pacing test lets it.
  lemma WritesAreDue(w: Q.World, s: Q.Step)
    requires Wrote(w, s) != []
    ensures Earliest(w.lane.last, w.lane.interval) <= s.turn.now
  {
  }

  lemma {:induction false} StepPaces(w: Q.World, s: Q.Step, p: P.State)
    requires Agree(w.lane, p) && (Wrote(w, s) != [] ==> OnTime(p.clock, Wrote(w, s)[0]))
    ensures var p' := P.Run(p, Paces(w, s));
            Agree(Q.Apply(w, s).lane, p') && p'.log == p.log + Wrote(w, s) && p'.clock == Clock(Wrote(w, s), p.clock)
  {
    StepMovesLast(w, s);
    if Wrote(w, s) != [] {
      WritesAreDue(w, s);
      var step := P.DispatchPass(s.turn.now, AcceptedAt(s.turn));
      assert [step][1..] == [] && P.Run(p, [step]) == P.Apply(p, step);
    }
  }

  lemma {:induction false} RunConcat(p: P.State, a: seq<P.Step>, b: seq<P.Step>)
    ensures P.Run(p, a + b) == P.Run(P.Run(p, a), b)
    decreases a
  {
    if a == [] {
      assert [] + b == b;
    } else {
      assert (a + b)[1..] == a[1..] + b;
      RunConcat(P.Apply(p, a[0]), a[1..], b);
    }
  }

  lemma LogConcat(a: seq<P.Entry>, b: seq<P.Entry>, c: seq<P.Entry>)
    ensures (a + b) + c == a + (b + c)
  {
  }

  // One step, and what the rest of the run writes after it.
  lemma {:induction false} StepThenRest(p: P.State, paces: seq<P.Step>, rest: seq<P.Step>, wrote: seq<P.Entry>, log: seq<P.Entry>)
    requires P.Run(p, paces).log == p.log + wrote
    requires P.Run(P.Run(p, paces), rest).log == P.Run(p, paces).log + log
    ensures P.Run(p, paces + rest).log == p.log + (wrote + log)
  {
    RunConcat(p, paces, rest);
    LogConcat(p.log, wrote, log);
  }

  // A run of the lane writes what its passes write in the pacing machine.
  lemma {:induction false} RunPaces(w: Q.World, steps: seq<Q.Step>, p: P.State)
    requires Agree(w.lane, p) && Monotone(w, steps, p.clock)
    ensures P.Run(p, PaceRun(w, steps)).log == p.log + Log(w, steps)
    decreases steps
  {
    if steps != [] {
      var s, next := steps[0], Q.Apply(w, steps[0]);
      StepPaces(w, s, p);
      RunPaces(next, steps[1..], P.Run(p, Paces(w, s)));
      StepThenRest(p, Paces(w, s), PaceRun(next, steps[1..]), Wrote(w, s), Log(next, steps[1..]));
    }
  }

  lemma {:induction false} AllDispatches(w: Q.World, steps: seq<Q.Step>)
    ensures forall e :: e in Log(w, steps) ==> e.writer == P.Dispatch
    decreases steps
  {
    if steps != [] { AllDispatches(Q.Apply(w, steps[0]), steps[1..]); }
  }

  // Pacing over whole runs of the lane: under a clock that does not go back, whatever is commanded, cancelled,
  // refused, replaced by a cleanup or lost in between, each write starts at least the minimum interval after
  // every acceptance before it, as long as that sum fits in 64 bits.
  lemma {:induction false} LaneIsPaced(interval: nat, steps: seq<Q.Step>, j: nat, k: nat)
    requires Monotone(Q.Init(interval), steps, 0)
    requires var log := Log(Q.Init(interval), steps);
             j < k < |log| && log[j].accepted.Some?
             && P.LastAccepted(log[..k]).Some? && P.LastAccepted(log[..k]).value + interval <= U64_MAX
    ensures var log := Log(Q.Init(interval), steps); log[k].start >= log[j].accepted.value + interval
  {
    var log := Log(Q.Init(interval), steps);
    RunPaces(Q.Init(interval), steps, P.Init(interval));
    assert [] + log == log;
    AllDispatches(Q.Init(interval), steps);
    assert log[k] in log;
    P.ReportsArePaced(interval, PaceRun(Q.Init(interval), steps), j, k);
  }
}
