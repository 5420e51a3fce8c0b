/**
 * The mutable node of the cancellation tree (crates/easycon-runtime/src/cancellation.rs): its two
 * atomic flags and its two mutex-guarded lists. Each method is one atomic access or one critical
 * section, and is proved against the step of `CancellationTree` that stands for it.
 *
 * Weak references and lifetimes are ids; which of them can still be upgraded is a parameter, read
 * once per critical section.
 */
module CancellationObject {
  import T = CancellationTree

  // The children of a list that can be upgraded; with `onlyActive`, those that also are active.
  function Upgraded(children: seq<nat>, live: set<nat>, active: set<nat>, onlyActive: bool): (r: seq<nat>) {
    if children == [] then []
    else
      var rest := Upgraded(children[1..], live, active, onlyActive);
      if children[0] in live && (onlyActive ==> children[0] in active) then [children[0]] + rest else rest
  }

  function LiveNodes(w: T.World): set<nat> {
    set n: nat | n < |w.nodes| && w.nodes[n].live
  }

  function ActiveNodes(w: T.World): set<nat> {
    set n: nat | n < |w.nodes| && w.nodes[n].active
  }

  // What the loops over a list of children keep is what the tree's steps keep.
  lemma {:induction false} UpgradedIsFilter(w: T.World, children: seq<nat>, onlyActive: bool)
    ensures Upgraded(children, LiveNodes(w), ActiveNodes(w), onlyActive) == T.Filter(w, children, !onlyActive)
  {
    if children != [] { UpgradedIsFilter(w, children[1..], onlyActive); }
  }

  lemma {:induction false} UpgradedAppend(children: seq<nat>, live: set<nat>, active: set<nat>, onlyActive: bool,
                                          c: nat)
    ensures Upgraded(children + [c], live, active, onlyActive)
         == Upgraded(children, live, active, onlyActive) + Upgraded([c], live, active, onlyActive)
  {
    if children == [] {
      assert children + [c] == [c];
    } else {
      assert (children + [c])[1..] == children[1..] + [c];
      UpgradedAppend(children[1..], live, active, onlyActive, c);
    }
  }

  // The entry a loop over the hooks is at is the next it keeps, or gives up.
  lemma {:induction false} GuardedNext(entries: seq<nat>, i: nat, expired: set<nat>, alive: bool, done: seq<nat>)
    requires i < |entries|
    ensures done + T.Guarded(entries[i..], expired, alive)
         == (if entries[i] in expired <==> !alive then done + [entries[i]] else done) + T.Guarded(entries[i + 1..], expired, alive)
  {
    assert entries[i..][0] == entries[i] && entries[i..][1..] == entries[i + 1..];
  }

  lemma {:induction false} GuardedDone(entries: seq<nat>, expired: set<nat>, alive: bool, done: seq<nat>)
    ensures done + T.Guarded(entries[|entries|..], expired, alive) == done
  {
  }

  class CancellationInner {
    var active: bool
    var cancelled: bool
    var children: seq<nat>
    var hooks: seq<nat>

    constructor ()
      ensures active && !cancelled && children == [] && hooks == []
    {
      active, cancelled, children, hooks := true, false, [], [];
    }

    // One atomic swap: of all callers exactly the one that finds the flag clear wins.
    method ClaimCancel() returns (won: bool)
      modifies `cancelled
      ensures cancelled
      ensures won <==> !old(cancelled)
    {
      var before := cancelled;
      cancelled := true;
      won := !before;
    }

    method ClaimDeactivate() returns (won: bool)
      modifies `active
      ensures !active
      ensures won <==> old(active)
    {
      won := active;
      active := false;
    }

    // The list is emptied in one go and told apart afterwards: every entry ends up in exactly one of
    // the two vectors, in its old order.
    method TakeActiveHooks(expired: set<nat>, selected: seq<nat>, discarded: seq<nat>)
      returns (selected': seq<nat>, discarded': seq<nat>)
      modifies `hooks
      ensures hooks == []
      ensures selected' == selected + T.Guarded(old(hooks), expired, true)
      ensures discarded' == discarded + T.Guarded(old(hooks), expired, false)
    {
      var entries := hooks;
      hooks := [];
      selected', discarded' := selected, discarded;
      assert entries[0..] == entries;
      var i := 0;
      while i < |entries|
        invariant i <= |entries| && hooks == []
        invariant selected' + T.Guarded(entries[i..], expired, true) == selected + T.Guarded(entries, expired, true)
        invariant discarded' + T.Guarded(entries[i..], expired, false) == discarded + T.Guarded(entries, expired, false)
      {
        GuardedNext(entries, i, expired, true, selected');
        GuardedNext(entries, i, expired, false, discarded');
        if entries[i] in expired {
          discarded' := discarded' + [entries[i]];
        } else {
          selected' := selected' + [entries[i]];
        }
        i := i + 1;
      }
      GuardedDone(entries, expired, true, selected');
      GuardedDone(entries, expired, false, discarded');
    }

    method TakeDiscardedHooks(discarded: seq<nat>) returns (discarded': seq<nat>)
      modifies `hooks
      ensures hooks == []
      ensures discarded' == discarded + old(hooks)
    {
      discarded' := discarded + hooks;
      hooks := [];
    }

    method TakeLiveChildren(live: set<nat>) returns (taken: seq<nat>)
      modifies `children
      ensures children == []
      ensures taken == Upgraded(old(children), live, {}, false)
    {
      var entries := children;
      children, taken := [], [];
      var i := 0;
      while i < |entries|
        invariant i <= |entries| && children == []
        invariant taken == Upgraded(entries[..i], live, {}, false)
      {
        assert entries[..i + 1] == entries[..i] + [entries[i]];
        UpgradedAppend(entries[..i], live, {}, false, entries[i]);
        if entries[i] in live {
          taken := taken + [entries[i]];
        }
        i := i + 1;
      }
      assert entries[..i] == entries;
    }

    // The first thing `try_child` does under the children mutex. The upgraded references are kept
    // until the mutex is released, so that none of them is dropped under it.
    method PruneChildren(live: set<nat>, activeNodes: set<nat>) returns (retained: seq<nat>)
      modifies `children
      ensures children == Upgraded(old(children), live, activeNodes, true)
      ensures retained == Upgraded(old(children), live, activeNodes, false)
    {
      var entries := children;
      children, retained := [], [];
      var i := 0;
      while i < |entries|
        invariant i <= |entries|
        invariant children == Upgraded(entries[..i], live, activeNodes, true)
        invariant retained == Upgraded(entries[..i], live, activeNodes, false)
      {
        assert entries[..i + 1] == entries[..i] + [entries[i]];
        UpgradedAppend(entries[..i], live, activeNodes, true, entries[i]);
        UpgradedAppend(entries[..i], live, activeNodes, false, entries[i]);
        if entries[i] in live {
          if entries[i] in activeNodes {
            children := children + [entries[i]];
          }
          retained := retained + [entries[i]];
        }
        i := i + 1;
      }
      assert entries[..i] == entries;
    }

    method LinkChild(child: nat)
      modifies `children
      ensures children == old(children) + [child]
    {
      children := children + [child];
    }

    // `try_child` with nobody in between: the list is pruned in any case, and an open node has the child
    // last on it.
    method TryChild(child: nat, live: set<nat>, activeNodes: set<nat>) returns (admitted: bool)
      modifies `children
      ensures admitted <==> active && !cancelled
      ensures children == Upgraded(old(children), live, activeNodes, true) + if active && !cancelled then [child] else []
    {
      var retained := PruneChildren(live, activeNodes);
      admitted := active && !cancelled;
      if admitted {
        LinkChild(child);
      }
    }

    // `register_hook` with nobody in between. The hook is dropped on an inactive node and called on
    // a cancelled one without the list being looked at; on an open node the expired entries give
    // way and the hook comes last.
    method RegisterHook(hook: nat, expired: set<nat>) returns (run: bool)
      modifies `hooks
      ensures run <==> active && cancelled
      ensures hooks == if active && !cancelled then T.Guarded(old(hooks), expired, true) + [hook] else old(hooks)
    {
      if !active || cancelled {
        run := active;
        return;
      }
      var entries := hooks;
      hooks := [];
      assert entries[0..] == entries && [] + T.Guarded(entries, expired, true) == T.Guarded(entries, expired, true);
      var i := 0;
      while i < |entries|
        invariant i <= |entries|
        invariant hooks + T.Guarded(entries[i..], expired, true) == T.Guarded(entries, expired, true)
      {
        GuardedNext(entries, i, expired, true, hooks);
        if entries[i] !in expired {
          hooks := hooks + [entries[i]];
        }
        i := i + 1;
      }
      GuardedDone(entries, expired, true, hooks);
      hooks := hooks + [hook];
      run := false;
    }
  }
}
