/**
 * What the lane makes of its stream (crates/easycon-controller/src/session.rs): whether it takes itself to
 * be connected, and whether a close failed for good, told from what happened to its writes.
 */
module LaneStream {
  import opened Wrappers
  import opened Timing
  import opened Report
  import opened SequencePlan
  import opened LaneQueue

  // `up`: a connection was made since the stream was last closed. `broken`: a close failed.
  datatype Stream = Stream(up: bool, broken: bool)

  // The head is due, the interval is over, and nobody has asked to cancel it.
  predicate Writes(l: Lane, t: Turn) {
    && l.pending != []
    && l.pending[0].due <= t.now
    && (IsCleanup(l.pending[0]) || l.pending[0].operation !in t.cancelled)
    && (l.last.Some? ==> SaturatingAdd(l.last.value, l.interval) <= t.now)
  }

  // A pass writes exactly then, and the loop goes on after a write or a head that is due and cancelled.
  lemma WritesExactly(l: Lane, t: Turn)
    ensures DispatchTurn(l, t).wrote <==> Writes(l, t)
    ensures DispatchTurn(l, t).goOn <==>
              || Writes(l, t)
              || (l.pending != [] && l.pending[0].due <= t.now && !IsCleanup(l.pending[0]) && l.pending[0].operation in t.cancelled)
  {
  }

  // A refused write closes the stream, or finds it closed; for a neutral this ends the connection for everybody.
  function AfterRefusal(st: Stream, cleanup: bool, write: Write): Stream
    requires write.Refused?
  {
    if write.unclosed || (cleanup && write.lost && !write.reclosed) then Stream(false, true)
    else if !cleanup then Stream(st.up && !write.closed, st.broken)
    else if write.lost || write.closed || !st.up then Stream(false, st.broken || !write.drained)
    else st
  }

  function StreamAfter(st: Stream, w: World, s: Step): Stream {
    match s
    case Connected => Stream(!st.broken, st.broken)
    case StreamLost(closeOk) => Stream(false, st.broken || !closeOk)
    case DispatchPass(t) =>
      if Writes(w.lane, t) && t.write.Refused? then AfterRefusal(st, IsCleanup(w.lane.pending[0]), t.write) else st
    case _ => st
  }

  function StreamOver(st: Stream, w: World, steps: seq<Step>): Stream
    decreases steps
  {
    if steps == [] then st else StreamOver(StreamAfter(st, w, steps[0]), Apply(w, steps[0]), steps[1..])
  }

  predicate Matches(l: Lane, st: Stream) {
    l.connected == st.up && l.broken == st.broken
  }

  lemma RefusalMatches(l: Lane, t: Turn, st: Stream)
    requires Matches(l, st) && Writes(l, t) && t.write.Refused?
    ensures Matches(DispatchTurn(l, t).lane, AfterRefusal(st, IsCleanup(l.pending[0]), t.write))
  {
  }

  lemma CommandMatches(w: World, s: Step, st: Stream)
    requires Matches(w.lane, st) && (s.DirectCommand? || s.SequenceCommand?)
    ensures Matches(Apply(w, s).lane, st)
  {
  }

  lemma PassMatches(l: Lane, t: Turn, st: Stream)
    requires Matches(l, st) && !(Writes(l, t) && t.write.Refused?)
    ensures Matches(DispatchTurn(l, t).lane, st)
  {
  }

  lemma StepMatches(w: World, s: Step, st: Stream)
    requires Matches(w.lane, st)
    ensures Matches(Apply(w, s).lane, StreamAfter(st, w, s))
  {
    match s
    case DirectCommand(_, _, _, _) => CommandMatches(w, s, st);
    case SequenceCommand(_, _, _, _) => CommandMatches(w, s, st);
    case DispatchPass(t) =>
      if Writes(w.lane, t) && t.write.Refused? { RefusalMatches(w.lane, t, st); } else { PassMatches(w.lane, t, st); }
    case _ =>
  }

  lemma {:induction false} RunMatches(w: World, steps: seq<Step>, st: Stream)
    requires Matches(w.lane, st)
    ensures Matches(Run(w, steps).lane, StreamOver(st, w, steps))
    decreases steps
  {
    if steps != [] {
      StepMatches(w, steps[0], st);
      RunMatches(Apply(w, steps[0]), steps[1..], StreamAfter(st, w, steps[0]));
    }
  }

  // The lane takes itself to be connected exactly if a connection was made and no close ended it since, and
  // to be broken exactly if some close failed.
  lemma {:induction false} StreamIsExact(interval: nat, steps: seq<Step>)
    ensures var st := StreamOver(Stream(false, false), Init(interval), steps);
            var l := Run(Init(interval), steps).lane;
            (l.connected <==> st.up) && (l.broken <==> st.broken)
  {
    RunMatches(Init(interval), steps, Stream(false, false));
  }

  // ---- A broken lane, and what it says of failures --------------------------------------------------------------

  predicate BrokenInv(w: World) {
    && (w.lane.broken ==> w.lane.pending == [] && w.lane.waiting == None && !w.lane.connected)
    && (forall s :: s in w.settled && s.verdict == StrictlyFailed ==> w.lane.broken)
  }

  lemma {:induction false} AllSettledAs(q: seq<Scheduled>, v: Verdict)
    ensures forall s :: s in AllSettled(q, v) ==> s.verdict == v
  {
    if q != [] { AllSettledAs(q[1..], v); }
  }

  // A drain that is not strict breaks nothing.
  lemma DrainBreaks(l: Lane, closeOk: bool)
    ensures var r := FailPending(l, closeOk);
            && (r.lane.broken <==> l.broken || !closeOk)
            && r.lane.pending == [] && r.lane.waiting == None && !r.lane.connected
            && forall s :: s in r.settled ==> s.verdict == if closeOk then Failed else StrictlyFailed
  {
    AllSettledAs(l.pending, if closeOk then Failed else StrictlyFailed);
  }

  lemma CleanupRefusedBreaks(l: Lane, head: Scheduled, write: Write)
    requires write.Refused? && !l.broken
    ensures var r := CleanupRefused(l, head, write);
            && (r.lane.broken ==> r.lane.pending == [] && r.lane.waiting == None && !r.lane.connected)
            && forall s :: s in r.settled && s.verdict == StrictlyFailed ==> r.lane.broken
  {
    DrainBreaks(l, write.drained);
  }

  lemma RefusedBreaks(l: Lane, t: Turn)
    requires t.write.Refused? && l.pending != [] && !l.broken
    ensures var r := WriteRefused(l.(pending := l.pending[1..]), l.pending[0], t);
            && (r.lane.broken ==> r.lane.pending == [] && r.lane.waiting == None && !r.lane.connected)
            && forall s :: s in r.settled && s.verdict == StrictlyFailed ==> r.lane.broken
  {
    var w, op := t.write, l.pending[0].operation;
    if !w.unclosed && IsCleanup(l.pending[0]) {
      var rest := l.(pending := Without(l.pending[1..], op), desired := NEUTRAL, connected := l.connected && !w.closed);
      CleanupRefusedBreaks(LaneQueue.Release(rest, op), l.pending[0], w);
    }
  }

  lemma PassBreaks(w: World, t: Turn)
    requires BrokenInv(w)
    ensures BrokenInv(Apply(w, DispatchPass(t)))
  {
    if Writes(w.lane, t) && t.write.Refused? { RefusedBreaks(w.lane, t); }
  }

  lemma StepKeepsBroken(w: World, s: Step)
    requires BrokenInv(w)
    ensures BrokenInv(Apply(w, s)) && (w.lane.broken ==> Apply(w, s).lane.broken)
  {
    match s
    case DispatchPass(t) => PassBreaks(w, t);
    case StreamLost(closeOk) => DrainBreaks(w.lane.(desired := NEUTRAL), closeOk);
    case _ =>
  }

  lemma {:induction false} RunKeepsBroken(w: World, steps: seq<Step>)
    requires BrokenInv(w)
    ensures BrokenInv(Run(w, steps)) && (w.lane.broken ==> Run(w, steps).lane.broken)
    decreases steps
  {
    if steps != [] {
      StepKeepsBroken(w, steps[0]);
      RunKeepsBroken(Apply(w, steps[0]), steps[1..]);
    }
  }

  // A close that failed is final: the lane holds nothing any more, never connects again, and whatever it is
  // given from then on is strictly failed; and without such a close nobody is strictly failed.
  lemma {:induction false} BrokenIsFinal(interval: nat, before: seq<Step>, after: seq<Step>, s: Step)
    ensures var w := Run(Init(interval), before);
            var w' := Run(w, after);
            && (w.lane.broken ==> w'.lane.broken && w'.lane.pending == [] && w'.lane.waiting == None && !w'.lane.connected)
            && (w.lane.broken && Enabled(w', s) && (s.DirectCommand? || s.SequenceCommand?) ==>
                  Apply(w', s).settled == w'.settled + [Settled(s.operation, StrictlyFailed)])
            && (forall v :: v in w.settled && v.verdict == StrictlyFailed ==> w.lane.broken)
  {
    RunKeepsBroken(Init(interval), before);
    RunKeepsBroken(Run(Init(interval), before), after);
  }

  // What a command is told at once, in the order the lane looks: strictly failed on a broken lane, cancelled if
  // it was, failed if it had started to end, without a connection or under somebody's lease. Otherwise it is
  // told nothing and is on the lane, and then a sequence has the lease.
  lemma {:induction false} CommandsAreAnswered(w: World, s: Step)
    requires Enabled(w, s) && (s.DirectCommand? || s.SequenceCommand?)
    ensures var w' := Apply(w, s);
            var l := w.lane;
            var refused := !s.found.started || !l.connected || l.owner.Some?;
            && (l.broken ==> w'.settled == w.settled + [Settled(s.operation, StrictlyFailed)])
            && (!l.broken && s.found.cancelled ==> w'.settled == w.settled + [Settled(s.operation, Cancelled)])
            && (!l.broken && !s.found.cancelled && refused ==> w'.settled == w.settled + [Settled(s.operation, Failed)])
            && (l.broken || s.found.cancelled || refused ==> w'.lane == l)
            && (!l.broken && !s.found.cancelled && !refused ==>
                  w'.settled == w.settled && Queued(w'.lane, s.operation)
                  && w'.lane.owner == if s.SequenceCommand? then Some(s.operation) else None)
  {
    if s.SequenceCommand? {
      var owned := w.lane.(owner := Some(s.operation));
      if w.lane.pending == [] { ScheduleKeeps(owned, Waiting(s.operation, s.steps, s.now), s.now, s.operation); }
    } else {
      var q := Apply(w, s).lane.pending;
      if q != w.lane.pending { assert q[|w.lane.pending|] in q; }
    }
  }
}
