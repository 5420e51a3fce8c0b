/**
 * No deadlock in the cancellation tree (crates/easycon-runtime/src/cancellation.rs): `try_child` may
 * cancel its child while it holds the parent's children mutex, and seals wait for the mutexes of the
 * nodes they take from; but a call that holds a node's children only ever waits further down the tree.
 */
module CancellationProgress {
  import opened Wrappers
  import opened CancellationTree

  // Who holds the mutexes of a node, and that its children are younger than it is.
  ghost predicate NodeLocks(w: World, n: nat)
    requires n < |w.nodes|
  {
    var node := w.nodes[n];
    && (node.childrenLock.Some? ==> HoldsChildren(w, node.childrenLock.value, n))
    && (node.hooksLock.Some? ==> HoldsHooks(w, node.hooksLock.value, n))
    && (forall c :: c in node.children ==> c > n)
  }

  predicate HoldsChildren(w: World, i: nat, n: nat) {
    && i < |w.calls|
    && ((w.calls[i].Admitting? && w.calls[i].parent == n) || (w.calls[i].Sealing? && w.calls[i].unlocks == Some(n)))
  }

  predicate HoldsHooks(w: World, i: nat, n: nat) {
    && i < |w.calls| && w.calls[i].Registering? && w.calls[i].node == n
    && (w.calls[i].at.HooksLocked? || w.calls[i].at.HooksActive? || w.calls[i].at.HooksOpen?)
  }

  // A call that holds the children of a node works on younger nodes only.
  predicate Downwards(c: Call) {
    match c
    case Sealing(agenda, _, _, unlocks) => unlocks.Some? ==> forall item :: item in agenda ==> item.node > unlocks.value
    case Admitting(parent, child, _) => child > parent
    case _ => true
  }

  ghost predicate LockInv(w: World) {
    && (forall n: nat :: n < |w.nodes| ==> NodeLocks(w, n))
    && (forall i: nat :: i < |w.calls| ==> Downwards(w.calls[i]))
  }

  // Seals and registrations in the places where nobody waits keep every lock that others hold.
  ghost predicate LocksStay(w: World, w': World, i: nat) {
    && i < |w.calls| == |w'.calls| && |w'.nodes| == |w.nodes|
    && w'.calls == w.calls[i := w'.calls[i]] && Downwards(w'.calls[i])
    && (forall n: nat :: n < |w.nodes| ==>
          && (w'.nodes[n].childrenLock == w.nodes[n].childrenLock || w'.nodes[n].childrenLock == None)
          && (w'.nodes[n].hooksLock == w.nodes[n].hooksLock || w'.nodes[n].hooksLock in {None, Some(i)})
          && (w'.nodes[n].childrenLock == Some(i) ==> HoldsChildren(w', i, n))
          && (w'.nodes[n].hooksLock == Some(i) ==> HoldsHooks(w', i, n))
          && (forall c :: c in w'.nodes[n].children ==> c in w.nodes[n].children || c > n))
  }

  lemma LocksStayKeeps(w: World, w': World, i: nat)
    requires LockInv(w) && LocksStay(w, w', i)
    ensures LockInv(w')
  {
    forall n: nat | n < |w'.nodes| ensures NodeLocks(w', n) { assert NodeLocks(w, n); }
  }

  // The locks a call has are those it should have.
  lemma OwnLocks(w: World, i: nat)
    requires LockInv(w)
    ensures forall n: nat :: n < |w.nodes| && w.nodes[n].childrenLock == Some(i) ==> HoldsChildren(w, i, n)
    ensures forall n: nat :: n < |w.nodes| && w.nodes[n].hooksLock == Some(i) ==> HoldsHooks(w, i, n)
  {
    forall n: nat | n < |w.nodes|
      ensures w.nodes[n].childrenLock == Some(i) ==> HoldsChildren(w, i, n)
      ensures w.nodes[n].hooksLock == Some(i) ==> HoldsHooks(w, i, n)
    {
      assert NodeLocks(w, n);
    }
  }

  lemma ItemKeepsLocks(w: World, i: nat)
    requires LockInv(w) && i < |w.calls| && w.calls[i].Sealing? && w.calls[i].agenda != []
    requires w.calls[i].agenda[0].node < |w.nodes|
    ensures LockInv(ItemStep(w, i))
  {
    var c := w.calls[i];
    var w' := ItemStep(w, i);
    if w' != w {
      var head := c.agenda[0];
      assert head in c.agenda && c.agenda == [head] + c.agenda[1..];
      assert NodeLocks(w, head.node);
      if head.TakeChildren? { ChecksBelow(w, head.node); }
      OwnLocks(w, i);
      assert Downwards(w'.calls[i]);
      LocksStayKeeps(w, w', i);
    }
  }

  lemma {:induction false} ChecksBelow(w: World, n: nat)
    requires n < |w.nodes| && NodeLocks(w, n)
    ensures forall item :: item in Checks(Filter(w, w.nodes[n].children, true)) ==> item.node > n
  {
    var live := Filter(w, w.nodes[n].children, true);
    forall item | item in Checks(live) ensures item.node > n {
      var k :| 0 <= k < |live| && Checks(live)[k] == item;
      assert live[k] in live;
    }
  }

  lemma SealKeepsLocks(w: World, i: nat)
    requires LockInv(w) && i < |w.calls| && w.calls[i].Sealing?
    ensures LockInv(SealStep(w, i))
  {
    var c := w.calls[i];
    var w' := SealStep(w, i);
    if c.agenda != [] {
      if c.agenda[0].node < |w.nodes| { ItemKeepsLocks(w, i); }
    } else {
      OwnLocks(w, i);
      LocksStayKeeps(w, w', i);
    }
  }

  // What an admission changes about mutexes and children.
  lemma AdmitTouchesCalls(w: World, i: nat)
    requires i < |w.calls| && w.calls[i].Admitting? && w.calls[i].parent < |w.nodes| && w.calls[i].child < |w.nodes|
    ensures var w', c := AdmitStep(w, i), w.calls[i];
            && |w'.nodes| == |w.nodes| && |w'.calls| == |w.calls| && w'.calls == w.calls[i := w'.calls[i]]
            && ((w'.calls[i].Admitting? && w'.calls[i].parent == c.parent && w'.calls[i].child == c.child)
                || w'.calls[i] == Sealing([Check(c.child)], [], [], Some(c.parent))
                || (w'.calls[i].Done? && w'.nodes[c.parent].childrenLock.None?))
  {
  }

  ghost predicate AdmitNode(c: Call, n: nat, node: Node, node': Node)
    requires c.Admitting?
  {
    && node'.hooksLock == node.hooksLock
    && (node'.childrenLock == node.childrenLock || node'.childrenLock.None?)
    && (node'.children == node.children || (n == c.parent && node'.children == node.children + [c.child]))
  }

  lemma AdmitTouchesNode(w: World, i: nat, n: nat)
    requires i < |w.calls| && w.calls[i].Admitting? && w.calls[i].parent < |w.nodes| && w.calls[i].child < |w.nodes|
    requires n < |w.nodes|
    ensures |AdmitStep(w, i).nodes| == |w.nodes| && AdmitNode(w.calls[i], n, w.nodes[n], AdmitStep(w, i).nodes[n])
  {
  }

  lemma AdmitLocksStay(w: World, i: nat)
    requires LockInv(w) && i < |w.calls| && w.calls[i].Admitting?
    requires w.calls[i].parent < |w.nodes| && w.calls[i].child < |w.nodes|
    ensures LocksStay(w, AdmitStep(w, i), i)
  {
    OwnLocks(w, i);
    AdmitTouchesCalls(w, i);
    forall n: nat | n < |w.nodes| ensures AdmitNode(w.calls[i], n, w.nodes[n], AdmitStep(w, i).nodes[n]) {
      AdmitTouchesNode(w, i, n);
    }
    assert Downwards(w.calls[i]);
  }

  lemma AdmitKeepsLocks(w: World, i: nat)
    requires LockInv(w) && i < |w.calls| && w.calls[i].Admitting?
    ensures LockInv(AdmitStep(w, i))
  {
    var c := w.calls[i];
    if c.parent < |w.nodes| && c.child < |w.nodes| {
      AdmitLocksStay(w, i);
      LocksStayKeeps(w, AdmitStep(w, i), i);
    }
  }

  // A registration only moves its node's hooks mutex.
  lemma RegisterTouchesCalls(w: World, i: nat)
    requires i < |w.calls| && w.calls[i].Registering? && w.calls[i].node < |w.nodes| && w.calls[i].hook < |w.hooks|
    ensures var w' := RegisterStep(w, i);
            |w'.calls| == |w.calls| && w'.calls == w.calls[i := w'.calls[i]] && Downwards(w'.calls[i])
  {
  }

  lemma RegisterTouchesNodes(w: World, i: nat)
    requires i < |w.calls| && w.calls[i].Registering? && w.calls[i].node < |w.nodes| && w.calls[i].hook < |w.hooks|
    ensures var w' := RegisterStep(w, i);
            |w'.nodes| == |w.nodes| && forall n: nat :: n < |w.nodes| && n != w.calls[i].node ==> w'.nodes[n] == w.nodes[n]
  {
  }

  lemma RegisterLocksStay(w: World, i: nat)
    requires LockInv(w) && i < |w.calls| && w.calls[i].Registering?
    requires w.calls[i].node < |w.nodes| && w.calls[i].hook < |w.hooks| && RegisterStep(w, i) != w
    ensures LocksStay(w, RegisterStep(w, i), i)
  {
    OwnLocks(w, i);
    RegisterTouchesCalls(w, i);
    RegisterTouchesNodes(w, i);
    RegisterIsSameTree(w, i);
  }

  lemma RegisterKeepsLocks(w: World, i: nat)
    requires LockInv(w) && i < |w.calls| && w.calls[i].Registering?
    ensures LockInv(RegisterStep(w, i))
  {
    var c := w.calls[i];
    if c.node < |w.nodes| && c.hook < |w.hooks| && RegisterStep(w, i) != w {
      RegisterLocksStay(w, i);
      LocksStayKeeps(w, RegisterStep(w, i), i);
    }
  }

  // A step that begins something leaves the mutexes that are held, and gives no node new children.
  lemma StartTouches(w: World, s: Step)
    requires !s.Advance? && !s.Abandon?
    ensures var w' := Apply(w, s);
            && |w.nodes| <= |w'.nodes| && |w.calls| <= |w'.calls|
            && (forall k: nat :: k < |w.calls| ==> w'.calls[k] == w.calls[k])
            && (forall k: nat :: |w.calls| <= k < |w'.calls| ==> Downwards(w'.calls[k]))
  {
  }

  lemma StartTouchesNode(w: World, s: Step, n: nat)
    requires LockInv(w) && !s.Advance? && !s.Abandon? && n < |Apply(w, s).nodes|
    ensures NodeLocks(Apply(w, s), n)
  {
    if n < |w.nodes| { assert NodeLocks(w, n); }
  }

  lemma StartKeepsLocks(w: World, s: Step)
    requires LockInv(w) && !s.Advance? && !s.Abandon?
    ensures LockInv(Apply(w, s))
  {
    var w' := Apply(w, s);
    StartTouches(w, s);
    forall n: nat | n < |w'.nodes| ensures NodeLocks(w', n) { StartTouchesNode(w, s, n); }
    forall i: nat | i < |w'.calls| ensures Downwards(w'.calls[i]) {
      if i < |w.calls| { assert Downwards(w.calls[i]); }
    }
  }

  lemma AbandonKeepsLocks(w: World, i: nat)
    requires LockInv(w)
    ensures LockInv(Apply(w, Abandon(i)))
  {
    var w' := Apply(w, Abandon(i));
    if w' != w {
      OwnLocks(w, i);
      LocksStayKeeps(w, w', i);
    }
  }

  lemma StepKeepsLocks(w: World, s: Step)
    requires LockInv(w)
    ensures LockInv(Apply(w, s))
  {
    if s.Abandon? {
      AbandonKeepsLocks(w, s.call);
    } else if !s.Advance? {
      StartKeepsLocks(w, s);
    } else if s.call < |w.calls| {
      AdvanceKeepsLocks(w, s.call);
    } else {
      assert Apply(w, s) == w;
    }
  }

  lemma AdvanceKeepsLocks(w: World, i: nat)
    requires LockInv(w) && i < |w.calls|
    ensures LockInv(Apply(w, Advance(i)))
  {
    match w.calls[i]
    case Sealing(_, _, _, _) => SealKeepsLocks(w, i);
    case Admitting(_, _, _) => AdmitKeepsLocks(w, i);
    case Registering(_, _, _) => RegisterKeepsLocks(w, i);
    case Done =>
  }

  lemma {:induction false} RunKeepsLocks(w: World, steps: seq<Step>)
    requires LockInv(w)
    ensures LockInv(Run(w, steps))
    decreases steps
  {
    if steps != [] {
      StepKeepsLocks(w, steps[0]);
      RunKeepsLocks(Apply(w, steps[0]), steps[1..]);
    }
  }

  // ---- Progress ----------------------------------------------------------------------------------------------

  predicate Moves(w: World, i: nat) {
    Apply(w, Advance(i)) != w
  }

  // What a call can be waiting for.
  predicate WaitsForChildren(w: World, i: nat, n: nat) {
    && i < |w.calls| && w.calls[i].Sealing? && w.calls[i].agenda != [] && w.calls[i].agenda[0] == TakeChildren(n)
    && n < |w.nodes| && w.nodes[n].childrenLock.Some?
  }

  predicate WaitsForHooks(w: World, i: nat, n: nat) {
    && i < |w.calls| && n < |w.nodes| && w.nodes[n].hooksLock.Some?
    && ((w.calls[i].Sealing? && w.calls[i].agenda != [] && w.calls[i].agenda[0] in {TakeHooks(n), DiscardHooks(n)})
        || (w.calls[i].Registering? && w.calls[i].node == n && w.calls[i].at.EnterOpen?))
  }

  // A call in flight moves unless it waits for a mutex somebody holds.
  lemma MovesOrWaits(w: World, i: nat)
    requires TreeInv(w) && i < |w.calls| && !w.calls[i].Done?
    ensures Moves(w, i) || (exists n: nat :: WaitsForChildren(w, i, n)) || (exists n: nat :: WaitsForHooks(w, i, n))
  {
    assert CallInv(w, i);
    var c := w.calls[i];
    match c
    case Sealing(_, _, _, _) => SealMovesOrWaits(w, i);
    case Admitting(_, _, _) => assert AdmitStep(w, i).calls[i] != c;
    case Registering(_, _, _) =>
      if c.at.EnterOpen? && w.nodes[c.node].hooksLock.Some? {
        assert WaitsForHooks(w, i, c.node);
      } else {
        RegisterMoves(w, i);
      }
  }

  lemma SealMovesOrWaits(w: World, i: nat)
    requires i < |w.calls| && w.calls[i].Sealing? && CallInv(w, i)
    ensures Moves(w, i) || (exists n: nat :: WaitsForChildren(w, i, n)) || (exists n: nat :: WaitsForHooks(w, i, n))
  {
    var c := w.calls[i];
    if c.agenda == [] {
      assert SealStep(w, i).calls[i] != c;
    } else {
      var n := c.agenda[0].node;
      if c.agenda[0].TakeChildren? && w.nodes[n].childrenLock.Some? {
        assert WaitsForChildren(w, i, n);
      } else if (c.agenda[0].TakeHooks? || c.agenda[0].DiscardHooks?) && w.nodes[n].hooksLock.Some? {
        assert WaitsForHooks(w, i, n);
      } else {
        ItemChangesAgenda(w, i);
      }
    }
  }

  lemma ItemChangesAgenda(w: World, i: nat)
    requires i < |w.calls| && w.calls[i].Sealing? && w.calls[i].agenda != [] && w.calls[i].agenda[0].node < |w.nodes|
    requires w.calls[i].agenda[0].TakeChildren? ==> w.nodes[w.calls[i].agenda[0].node].childrenLock.None?
    requires (w.calls[i].agenda[0].TakeHooks? || w.calls[i].agenda[0].DiscardHooks?) ==>
               w.nodes[w.calls[i].agenda[0].node].hooksLock.None?
    ensures ItemStep(w, i).calls[i] != w.calls[i]
  {
    var c := w.calls[i];
    var c' := ItemStep(w, i).calls[i];
    if c.agenda[0].TakeChildren? {
      var live := Filter(w, w.nodes[c.agenda[0].node].children, true);
      if live == [] {
        assert |c'.agenda| == |c.agenda| - 1;
      } else {
        assert c'.agenda[0] == Check(live[0]);
      }
    }
  }

  lemma RegisterMoves(w: World, j: nat)
    requires j < |w.calls| && w.calls[j].Registering? && w.calls[j].node < |w.nodes| && w.calls[j].hook < |w.hooks|
    requires w.calls[j].at.EnterOpen? ==> w.nodes[w.calls[j].node].hooksLock.None?
    ensures Moves(w, j)
  {
    assert RegisterStep(w, j).calls[j] != w.calls[j];
    assert Apply(w, Advance(j)) == RegisterStep(w, j);
  }

  // The holder of a hooks mutex never waits.
  lemma HooksHolderMoves(w: World, i: nat, n: nat)
    requires TreeInv(w) && LockInv(w) && WaitsForHooks(w, i, n)
    ensures Moves(w, w.nodes[n].hooksLock.value)
  {
    var j := w.nodes[n].hooksLock.value;
    assert HoldsHooks(w, j, n) by { assert NodeLocks(w, n); }
    assert w.calls[j].node < |w.nodes| && w.calls[j].hook < |w.hooks| by { assert CallInv(w, j); }
    RegisterMoves(w, j);
  }

  // The call that lets a seal waiting for a node's children go on: it can move, and it holds a mutex of
  // that node or of one further down the tree.
  lemma {:induction false} ChildrenUnblock(w: World, i: nat, n: nat) returns (k: nat, m: nat)
    requires TreeInv(w) && LockInv(w) && WaitsForChildren(w, i, n)
    ensures Moves(w, k)
    ensures m >= n && (HoldsChildren(w, k, m) || HoldsHooks(w, k, m))
    decreases |w.nodes| - n
  {
    assert NodeLocks(w, n);
    var j := w.nodes[n].childrenLock.value;
    MovesOrWaits(w, j);
    if Moves(w, j) {
      k, m := j, n;
    } else if d: nat :| WaitsForChildren(w, j, d) {
      assert Downwards(w.calls[j]);
      assert TakeChildren(d) in w.calls[j].agenda;
      k, m := ChildrenUnblock(w, j, d);
    } else {
      var d: nat :| WaitsForHooks(w, j, d);
      assert Downwards(w.calls[j]);
      assert w.calls[j].agenda[0] in w.calls[j].agenda;
      assert NodeLocks(w, d);
      HooksHolderMoves(w, j, d);
      k, m := w.nodes[d].hooksLock.value, d;
    }
  }

  // Admission, registration and both seals never block each other for good: in every reachable state
  // with a call in flight, some call can make its next step.
  lemma NoDeadlock(steps: seq<Step>, i: nat) returns (k: nat)
    requires i < |Run(Init(), steps).calls| && !Run(Init(), steps).calls[i].Done?
    ensures Moves(Run(Init(), steps), k)
  {
    var w := Run(Init(), steps);
    RunKeepsTree(Init(), steps);
    RunKeepsLocks(Init(), steps);
    MovesOrWaits(w, i);
    if Moves(w, i) {
      k := i;
    } else if n: nat :| WaitsForChildren(w, i, n) {
      var m;
      k, m := ChildrenUnblock(w, i, n);
    } else {
      var n: nat :| WaitsForHooks(w, i, n);
      HooksHolderMoves(w, i, n);
      k := w.nodes[n].hooksLock.value;
    }
  }
}
