/**
 * The virtual clock as an object (crates/easycon-runtime/src/clock.rs). Each method is one critical
 * section of the clock's mutex and is proved against `Clock.Apply`; a panic is the result `panicked`.
 * The change hooks, which only wake waiters, are not part of this model.
 */
module ClockObject {
  import opened Wrappers
  import opened Timing
  import opened Clock

  lemma {:induction false} NewlyAppend(ds: seq<Deadline>, t: nat, d: Deadline)
    ensures Newly(ds + [d], t) == Newly(ds, t) + if Wakes(d, t) then [Wake(d.target, d.id)] else []
  {
    if ds == [] {
      assert ds + [d] == [d];
    } else {
      assert (ds + [d])[1..] == ds[1..] + [d];
      NewlyAppend(ds[1..], t, d);
    }
  }

  // What the loop over the deadlines does to the next one.
  lemma {:induction false} NextDeadline(was: seq<Deadline>, t: nat, i: nat)
    requires i < |was|
    ensures var now := WakeAll(was[..i], t) + was[i..];
            var d := was[i];
            && |now| == |was| && now[i] == d
            && WakeAll(was[..i + 1], t) + was[i + 1..] == (if Wakes(d, t) then now[i := d.(woken := true)] else now)
            && Newly(was[..i + 1], t) == Newly(was[..i], t) + if Wakes(d, t) then [Wake(d.target, d.id)] else []
  {
    assert was[..i + 1] == was[..i] + [was[i]];
    NewlyAppend(was[..i], t, was[i]);
  }

  lemma {:induction false} DispatchedAt(ds: seq<Deadline>, id: nat, at: nat, k: nat)
    requires k <= |ds| && forall j :: 0 <= j < k ==> ds[j].id != id
    requires k < |ds| ==> ds[k].id == id
    ensures Dispatched(ds, id, at) == if k < |ds| then ds[k := ds[k].(dispatchedAt := Some(at))] else ds
  {
    if ds != [] && k > 0 {
      DispatchedAt(ds[1..], id, at, k - 1);
    }
  }

  class VirtualClock {
    var nowNs: nat
    var nextDeadline: nat
    var deadlines: seq<Deadline>
    var wakeOrder: seq<nat>

    function View(): State
      reads this
    {
      State(nowNs, nextDeadline, deadlines, wakeOrder)
    }

    constructor (now: nat)
      ensures View() == Init(now)
    {
      nowNs, nextDeadline, deadlines, wakeOrder := now, 1, [], [];
    }

    // The time is already set: marks what it wakes, and lists that by target and id.
    method WakeDue(target: nat)
      modifies `deadlines, `wakeOrder
      ensures deadlines == WakeAll(old(deadlines), target)
      ensures wakeOrder == old(wakeOrder) + Ids(Sort(Newly(old(deadlines), target)))
    {
      ghost var was := deadlines;
      var newlyWoken: seq<Wake> := [];
      var i := 0;
      while i < |deadlines|
        invariant i <= |was|
        invariant deadlines == WakeAll(was[..i], target) + was[i..]
        invariant newlyWoken == Newly(was[..i], target) && wakeOrder == old(wakeOrder)
      {
        NextDeadline(was, target, i);
        var d := deadlines[i];
        if !d.woken && d.target <= target {
          deadlines := deadlines[i := d.(woken := true)];
          newlyWoken := newlyWoken + [Wake(d.target, d.id)];
        }
        i := i + 1;
      }
      assert was[..i] == was;
      wakeOrder := wakeOrder + Ids(Sort(newlyWoken));
    }

    method AdvanceTo(target: nat) returns (panicked: bool)
      modifies this
      ensures panicked <==> target < old(nowNs)
      ensures View() == Apply(old(View()), Step.AdvanceTo(target))
    {
      if target < nowNs {
        panicked := true;
        return;
      }
      nowNs := target;
      WakeDue(target);
      panicked := false;
    }

    method AdvanceBy(delta: nat) returns (panicked: bool)
      modifies this
      ensures panicked <==> old(nowNs) + delta > U64_MAX
      ensures View() == if panicked then old(View()) else Apply(old(View()), Step.AdvanceTo(old(nowNs) + delta))
    {
      var target := nowNs + delta;
      if target > U64_MAX {
        panicked := true;
        return;
      }
      panicked := AdvanceTo(target);
    }

    // The counter moves on even when the id it gave is refused.
    method RegisterDeadline(target: nat) returns (id: nat, panicked: bool)
      modifies this
      ensures id == old(nextDeadline) && (panicked <==> id == 0)
      ensures View() == Apply(old(View()), Step.Register(target))
    {
      id := nextDeadline;
      nextDeadline := if nextDeadline == U64_MAX then 0 else nextDeadline + 1;
      if id == 0 {
        panicked := true;
        return;
      }
      var woken := target <= nowNs;
      deadlines := deadlines + [Deadline(id, target, None, woken)];
      if woken {
        wakeOrder := wakeOrder + [id];
      }
      panicked := false;
    }

    method RecordDispatch(id: nat, actual: nat)
      modifies `deadlines
      ensures View() == Apply(old(View()), Step.RecordDispatch(id, actual))
    {
      var i := 0;
      while i < |deadlines| && deadlines[i].id != id
        invariant i <= |deadlines|
        invariant forall j :: 0 <= j < i ==> deadlines[j].id != id
      {
        i := i + 1;
      }
      DispatchedAt(deadlines, id, actual, i);
      if i < |deadlines| {
        deadlines := deadlines[i := deadlines[i].(dispatchedAt := Some(actual))];
      }
    }
  }
}
