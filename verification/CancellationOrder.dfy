/**
 * The order a seal keeps (crates/easycon-runtime/src/concurrency.rs): the children it finds on a node it closed
 * are closed before it runs any of its hooks; and what a node keeps of its children when it admits another.
 */
module CancellationOrder {
  import opened Wrappers
  import opened CancellationTree

  // Call `i` is over, or a seal that has not forgotten this child.
  predicate Remembers(w: World, i: nat, child: nat) {
    i < |w.calls| && (w.calls[i].Done? || (w.calls[i].Sealing? && child in w.calls[i].took))
  }

  lemma ItemRemembers(w: World, i: nat, child: nat)
    requires i < |w.calls| && w.calls[i].Sealing? && child in w.calls[i].took
    requires w.calls[i].agenda != [] && w.calls[i].agenda[0].node < |w.nodes|
    ensures Remembers(ItemStep(w, i), i, child)
  {
  }

  lemma OtherCallStays(w: World, s: Step, i: nat)
    requires i < |w.calls| && (s.Advance? ==> s.call != i) && (s.Abandon? ==> s.call != i)
    ensures i < |Apply(w, s).calls| && Apply(w, s).calls[i] == w.calls[i]
  {
    if s.Advance? && s.call < |w.calls| { OtherAdvanceStays(w, s.call, i); }
  }

  lemma OtherAdvanceStays(w: World, j: nat, i: nat)
    requires i < |w.calls| && j < |w.calls| && j != i
    ensures var w' := Apply(w, Advance(j)); i < |w'.calls| && w'.calls[i] == w.calls[i]
  {
  }

  lemma StepRemembers(w: World, s: Step, i: nat, child: nat)
    requires Remembers(w, i, child)
    ensures Remembers(Apply(w, s), i, child)
  {
    if s == Advance(i) {
      if w.calls[i].Sealing? && w.calls[i].agenda != [] && w.calls[i].agenda[0].node < |w.nodes| { ItemRemembers(w, i, child); }
    } else if s != Abandon(i) {
      OtherCallStays(w, s, i);
    }
  }

  lemma {:induction false} RunRemembers(w: World, steps: seq<Step>, i: nat, child: nat)
    requires Remembers(w, i, child)
    ensures Remembers(Run(w, steps), i, child)
    decreases steps
  {
    if steps != [] {
      StepRemembers(w, steps[0], i, child);
      RunRemembers(Apply(w, steps[0]), steps[1..], i, child);
    }
  }

  // The seal is about to take the children of `n`, and `child` is one of them.
  predicate Takes(w: World, i: nat, n: nat, child: nat) {
    && i < |w.calls| && w.calls[i].Sealing? && w.calls[i].agenda != [] && w.calls[i].agenda[0] == TakeChildren(n)
    && n < |w.nodes| && w.nodes[n].childrenLock.None?
    && child in w.nodes[n].children && child < |w.nodes| && w.nodes[child].live
  }

  lemma TakesIt(w: World, i: nat, n: nat, child: nat)
    requires Takes(w, i, n, child)
    ensures Remembers(Apply(w, Advance(i)), i, child) && Apply(w, Advance(i)).nodes[n].children == []
  {
  }

  predicate RunsHook(w: World, i: nat, hook: nat) {
    && i < |w.calls| && w.calls[i].Sealing?
    && hook < |w.hooks| && hook < |SealStep(w, i).hooks| && SealStep(w, i).hooks[hook].runs != w.hooks[hook].runs
  }

  lemma {:induction false} RunConcat(w: World, a: seq<Step>, b: seq<Step>)
    ensures Run(w, a + b) == Run(Run(w, a), b)
    decreases a
  {
    if a == [] {
      assert [] + b == b;
    } else {
      assert (a + b)[1..] == a[1..] + b;
      RunConcat(Apply(w, a[0]), a[1..], b);
    }
  }

  // Children first: a live child a seal finds when it takes the list of a node is closed when the seal runs a
  // hook, whatever happens in between.
  lemma {:induction false} ChildrenBeforeHooks(before: seq<Step>, i: nat, n: nat, child: nat, after: seq<Step>, hook: nat)
    requires Takes(Run(Init(), before), i, n, child)
    requires RunsHook(Run(Init(), before + ([Advance(i)] + after)), i, hook)
    ensures var w := Run(Init(), before + ([Advance(i)] + after)); child < |w.nodes| && Closed(w.nodes[child])
  {
    var w := Run(Init(), before);
    RunConcat(Init(), before, [Advance(i)] + after);
    assert ([Advance(i)] + after)[1..] == after;
    TakesIt(w, i, n, child);
    RunRemembers(Apply(w, Advance(i)), after, i, child);
    CollectedHooksRunAfterTraversal(before + ([Advance(i)] + after), i, hook, child);
  }

  // `x` stands before `y`.
  predicate Before(ids: seq<nat>, x: nat, y: nat) {
    ids != [] && ((ids[0] == x && y in ids[1..]) || Before(ids[1..], x, y))
  }

  predicate InOrder(ids: seq<nat>, kept: seq<nat>) {
    forall a, b :: 0 <= a < b < |kept| ==> Before(ids, kept[a], kept[b])
  }

  // An admission clears its parent's list first: what is left is every live active child of it, in order.
  lemma AdmissionPrunes(w: World, p: nat)
    requires p < |w.nodes| && w.nodes[p].live && w.nodes[p].childrenLock.None?
    ensures var kept := Apply(w, StartTryChild(p)).nodes[p].children;
            var was := w.nodes[p].children;
            && (forall c :: c in kept <==> c in was && c < |w.nodes| && w.nodes[c].live && w.nodes[c].active)
            && InOrder(was, kept)
  {
    var kept := Filter(w, w.nodes[p].children, false);
    assert Apply(w, StartTryChild(p)).nodes[p].children == kept;
    FilterKeepsOrder(w, w.nodes[p].children);
  }

  lemma {:induction false} FilterKeepsOrder(w: World, ids: seq<nat>)
    ensures InOrder(ids, Filter(w, ids, false))
  {
    if ids != [] {
      FilterKeepsOrder(w, ids[1..]);
      var kept, rest := Filter(w, ids, false), Filter(w, ids[1..], false);
      forall a, b | 0 <= a < b < |kept| ensures Before(ids, kept[a], kept[b]) {
        if kept == rest {
          assert Before(ids[1..], rest[a], rest[b]);
        } else {
          assert kept == [ids[0]] + rest;
          assert kept[b] == rest[b - 1] && rest[b - 1] in rest;
          if a > 0 { assert Before(ids[1..], rest[a - 1], rest[b - 1]); }
        }
      }
    }
  }
}
