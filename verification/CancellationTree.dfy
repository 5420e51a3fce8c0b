/**
 * The cancellation tree under concurrent admission, cancellation, deactivation and hook
 * registration (crates/easycon-runtime/src/cancellation.rs and concurrency.rs).
 *
 * Flags are atomic, the two lists of a node have a mutex each, and a child holds no reference to
 * its parent. A step of `World` is one atomic access or one short critical section; `try_child`
 * keeps its parent's children mutex, and `register_hook` its node's hooks mutex, over many steps.
 */
module CancellationTree {
  import opened Wrappers

  // `parent` is where the child was linked, if it was; the code keeps no such pointer.
  datatype Node = Node(
    parent: Option<nat>,
    live: bool,
    active: bool,
    cancelled: bool,
    children: seq<nat>,
    childrenLock: Option<nat>,
    hooks: seq<nat>,
    hooksLock: Option<nat>)

  const FreshNode := Node(None, true, true, false, [], None, [], None)

  // A hook that is dropped unrun: its guard was gone, its node was not active, or the propagation that
  // held it was never carried out.
  datatype Drop = GuardGone | NodeInactive | Unpropagated

  // Where a hook is: with the call registering it, on its node, with a seal that selected it, run,
  // or dropped.
  datatype HookPlace = InCall(call: nat) | Stored(node: nat) | Collected(seal: nat) | Ran | Dropped(why: Drop)

  datatype Hook = Hook(node: nat, place: HookPlace, runs: nat)

  // What a seal still has to do, in order. The recursion over children is this list.
  datatype Item =
    | Check(node: nat)
    | Claim(node: nat)
    | Deactivate(node: nat)
    | TakeHooks(node: nat)
    | DiscardHooks(node: nat)
    | TakeChildren(node: nat)

  datatype AdmitPc = Locked | SawActive(active: bool) | Open | Linked | SawActiveAgain(stillActive: bool)

  datatype RegisterPc = Enter | EnterActive | EnterOpen | HooksLocked | HooksActive | HooksOpen

  datatype Call =
    | Sealing(agenda: seq<Item>, collected: seq<nat>, took: seq<nat>, unlocks: Option<nat>)
    | Admitting(parent: nat, child: nat, pc: AdmitPc)
    | Registering(node: nat, hook: nat, at: RegisterPc)
    | Done

  datatype World = World(nodes: seq<Node>, calls: seq<Call>, hooks: seq<Hook>, expired: set<nat>)

  datatype Step =
    | NewRoot
    | DropToken(node: nat)
    | DropGuard(hook: nat)
    | StartCancel(node: nat)
    | StartDeactivate(node: nat)
    | StartTryChild(parent: nat)
    | StartRegister(node: nat)
    | Abandon(call: nat)
    | Advance(call: nat)

  function Init(): World {
    World([], [], [], {})
  }

  predicate Closed(n: Node) {
    n.cancelled || !n.active
  }

  // Nobody else may take a token that a call in flight still names.
  predicate Names(c: Call, n: nat) {
    match c
    case Sealing(agenda, _, _, unlocks) => unlocks == Some(n) || exists k :: 0 <= k < |agenda| && agenda[k].node == n
    case Admitting(p, ch, _) => p == n || ch == n
    case Registering(m, _, _) => m == n
    case Done => false
  }

  function Filter(w: World, ids: seq<nat>, keepInactive: bool): (r: seq<nat>)
    ensures |r| <= |ids|
    ensures forall x :: x in r <==> x in ids && x < |w.nodes| && w.nodes[x].live && (keepInactive || w.nodes[x].active)
  {
    if ids == [] then []
    else
      var rest := Filter(w, ids[1..], keepInactive);
      if ids[0] < |w.nodes| && w.nodes[ids[0]].live && (keepInactive || w.nodes[ids[0]].active)
      then [ids[0]] + rest else rest
  }

  function Checks(ids: seq<nat>): (r: seq<Item>)
    ensures |r| == |ids|
    ensures forall k :: 0 <= k < |ids| ==> r[k] == Check(ids[k])
  {
    if ids == [] then [] else [Check(ids[0])] + Checks(ids[1..])
  }

  // The hooks of a list whose guard is still held, or no longer is.
  function Guarded(hooks: seq<nat>, expired: set<nat>, alive: bool): (r: seq<nat>)
    ensures forall h :: h in r <==> h in hooks && (h in expired <==> !alive)
    ensures NoDuplicates(hooks) ==> NoDuplicates(r)
  {
    if hooks == [] then []
    else
      var rest := Guarded(hooks[1..], expired, alive);
      if hooks[0] in expired <==> !alive then [hooks[0]] + rest else rest
  }

  ghost predicate NoDuplicates(ids: seq<nat>) {
    forall i, j :: 0 <= i < j < |ids| ==> ids[i] != ids[j]
  }

  function Move(hooks: seq<Hook>, ids: seq<nat>, place: HookPlace): (r: seq<Hook>)
    ensures |r| == |hooks|
    ensures forall h :: 0 <= h < |hooks| ==> r[h] == if h in ids then hooks[h].(place := place) else hooks[h]
  {
    seq(|hooks|, h requires 0 <= h < |hooks| => if h in ids then hooks[h].(place := place) else hooks[h])
  }

  function RunOne(hooks: seq<Hook>, h: nat): seq<Hook> {
    if h < |hooks| then hooks[h := hooks[h].(place := Ran, runs := hooks[h].runs + 1)] else hooks
  }

  function SetNode(w: World, n: nat, node: Node): World
    requires n < |w.nodes|
  {
    w.(nodes := w.nodes[n := node])
  }

  function SetCall(w: World, i: nat, c: Call): World
    requires i < |w.calls|
  {
    w.(calls := w.calls[i := c])
  }

  function Unlock(w: World, n: Option<nat>): World {
    if n.Some? && n.value < |w.nodes| then SetNode(w, n.value, w.nodes[n.value].(childrenLock := None)) else w
  }

  // The cancellation of a child inside an admission is propagated on the spot.
  predicate Abandons(c: Call) {
    c.Sealing? && c.agenda == [] && c.unlocks.None?
  }

  function Apply(w: World, s: Step): World {
    match s
    case NewRoot => w.(nodes := w.nodes + [FreshNode])
    case DropToken(n) =>
      if n < |w.nodes| && (forall i :: 0 <= i < |w.calls| ==> !Names(w.calls[i], n))
      then SetNode(w, n, w.nodes[n].(live := false)) else w
    case DropGuard(h) => w.(expired := w.expired + {h})
    case StartCancel(n) =>
      if n < |w.nodes| && w.nodes[n].live then w.(calls := w.calls + [Sealing([Check(n)], [], [], None)]) else w
    case StartDeactivate(n) =>
      if n < |w.nodes| && w.nodes[n].live then w.(calls := w.calls + [Sealing([Deactivate(n)], [], [], None)]) else w
    // The child exists before the lock; the prune is the first thing done under it.
    case StartTryChild(p) =>
      if p < |w.nodes| && w.nodes[p].live && w.nodes[p].childrenLock.None? then
        var pruned := w.nodes[p].(children := Filter(w, w.nodes[p].children, false), childrenLock := Some(|w.calls|));
        SetNode(w, p, pruned).(nodes := SetNode(w, p, pruned).nodes + [FreshNode],
                               calls := w.calls + [Admitting(p, |w.nodes|, Locked)])
      else w
    case StartRegister(n) =>
      if n < |w.nodes| && w.nodes[n].live
      then w.(calls := w.calls + [Registering(n, |w.hooks|, Enter)], hooks := w.hooks + [Hook(n, InCall(|w.calls|), 0)])
      else w
    // A deferred propagation may be dropped after its traversal, and its hooks with it.
    case Abandon(i) =>
      if i < |w.calls| && Abandons(w.calls[i])
      then SetCall(w, i, Done).(hooks := Move(w.hooks, w.calls[i].collected, Dropped(Unpropagated))) else w
    case Advance(i) =>
      if i >= |w.calls| then w
      else match w.calls[i]
        case Sealing(_, _, _, _) => SealStep(w, i)
        case Admitting(_, _, _) => AdmitStep(w, i)
        case Registering(_, _, _) => RegisterStep(w, i)
        case Done => w
  }

  // ---- The seal: one item, or, once the traversal is over, one collected hook ------------------------

  function SealStep(w: World, i: nat): World
    requires i < |w.calls| && w.calls[i].Sealing?
  {
    var c := w.calls[i];
    if c.agenda != [] then (if c.agenda[0].node < |w.nodes| then ItemStep(w, i) else w)
    else if c.collected != [] then
      SetCall(w, i, c.(collected := c.collected[1..])).(hooks := RunOne(w.hooks, c.collected[0]))
    else Unlock(SetCall(w, i, Done), c.unlocks)
  }

  function ItemStep(w: World, i: nat): World
    requires i < |w.calls| && w.calls[i].Sealing? && w.calls[i].agenda != [] && w.calls[i].agenda[0].node < |w.nodes|
  {
    var c := w.calls[i];
    var n := c.agenda[0].node;
    var node := w.nodes[n];
    var rest := c.agenda[1..];
    match c.agenda[0]
    case Check(_) => SetCall(w, i, c.(agenda := if node.active then [Claim(n)] + rest else rest))
    case Claim(_) =>
      if node.cancelled then SetCall(w, i, c.(agenda := rest))
      else SetCall(SetNode(w, n, node.(cancelled := true)), i, c.(agenda := [TakeHooks(n), TakeChildren(n)] + rest))
    case Deactivate(_) =>
      if !node.active then SetCall(w, i, c.(agenda := rest))
      else SetCall(SetNode(w, n, node.(active := false)), i, c.(agenda := [DiscardHooks(n), TakeChildren(n)] + rest))
    case TakeHooks(_) =>
      if node.hooksLock.Some? then w
      else
        var kept := Guarded(node.hooks, w.expired, true);
        var gone := Guarded(node.hooks, w.expired, false);
        SetCall(SetNode(w, n, node.(hooks := [])), i, c.(agenda := rest, collected := c.collected + kept))
          .(hooks := Move(Move(w.hooks, kept, Collected(i)), gone, Dropped(GuardGone)))
    case DiscardHooks(_) =>
      if node.hooksLock.Some? then w
      else SetCall(SetNode(w, n, node.(hooks := [])), i, c.(agenda := rest))
             .(hooks := Move(w.hooks, node.hooks, Dropped(NodeInactive)))
    case TakeChildren(_) =>
      if node.childrenLock.Some? then w
      else
        var live := Filter(w, node.children, true);
        SetCall(SetNode(w, n, node.(children := [])), i, c.(agenda := Checks(live) + rest, took := c.took + live))
  }

  // ---- `try_child` under the children mutex -------------------------------------------------------------

  function AdmitStep(w: World, i: nat): World
    requires i < |w.calls| && w.calls[i].Admitting?
  {
    var c := w.calls[i];
    if c.parent >= |w.nodes| || c.child >= |w.nodes| then w
    else
      var p := w.nodes[c.parent];
      match c.pc
      case Locked => SetCall(w, i, c.(pc := SawActive(p.active)))
      case SawActive(a) =>
        if a && !p.cancelled then SetCall(w, i, c.(pc := Open)) else Unlock(SetCall(w, i, Done), Some(c.parent))
      case Open =>
        SetCall(SetNode(SetNode(w, c.parent, p.(children := p.children + [c.child])),
                        c.child, w.nodes[c.child].(parent := Some(c.parent))), i, c.(pc := Linked))
      case Linked => SetCall(w, i, c.(pc := SawActiveAgain(p.active)))
      case SawActiveAgain(a) =>
        if a && !p.cancelled then Unlock(SetCall(w, i, Done), Some(c.parent))
        else SetCall(w, i, Sealing([Check(c.child)], [], [], Some(c.parent)))
  }

  // ---- `register_hook` -----------------------------------------------------------------------------------

  function RegisterStep(w: World, i: nat): World
    requires i < |w.calls| && w.calls[i].Registering?
  {
    var c := w.calls[i];
    if c.node >= |w.nodes| || c.hook >= |w.hooks| then w
    else
      var n := w.nodes[c.node];
      var unlocked := SetNode(w, c.node, n.(hooksLock := None));
      match c.at
      case Enter => if n.active then SetCall(w, i, c.(at := EnterActive)) else DropHook(SetCall(w, i, Done), c.hook)
      case EnterActive =>
        if n.cancelled then SetCall(w, i, Done).(hooks := RunOne(w.hooks, c.hook)) else SetCall(w, i, c.(at := EnterOpen))
      case EnterOpen =>
        if n.hooksLock.Some? then w
        else
          var gone := Guarded(n.hooks, w.expired, false);
          SetCall(SetNode(w, c.node, n.(hooks := Guarded(n.hooks, w.expired, true), hooksLock := Some(i))),
                  i, c.(at := HooksLocked))
            .(hooks := Move(w.hooks, gone, Dropped(GuardGone)))
      case HooksLocked =>
        if n.active then SetCall(w, i, c.(at := HooksActive)) else DropHook(SetCall(unlocked, i, Done), c.hook)
      case HooksActive =>
        if n.cancelled then SetCall(unlocked, i, Done).(hooks := RunOne(w.hooks, c.hook))
        else SetCall(w, i, c.(at := HooksOpen))
      case HooksOpen =>
        SetCall(SetNode(w, c.node, n.(hooks := n.hooks + [c.hook], hooksLock := None)), i, Done)
          .(hooks := Move(w.hooks, [c.hook], Stored(c.node)))
  }

  function DropHook(w: World, h: nat): World {
    w.(hooks := Move(w.hooks, [h], Dropped(NodeInactive)))
  }

  function Run(w: World, steps: seq<Step>): World
    decreases steps
  {
    if steps == [] then w else Run(Apply(w, steps[0]), steps[1..])
  }

  // ---- What every step keeps about the tree ------------------------------------------------------------------

  predicate Has(c: Call, item: Item) {
    c.Sealing? && item in c.agenda
  }

  ghost predicate Somebody(w: World, item: Item) {
    exists i: nat :: i < |w.calls| && Has(w.calls[i], item)
  }

  // Some seal is on its way to this child.
  ghost predicate Pending(w: World, n: nat) {
    Somebody(w, Check(n)) || Somebody(w, Claim(n))
  }

  // A live linked child of a closed parent that is still open is known to a seal: one is on its way
  // to it, or it is still listed by a parent whose closer has not taken the list yet.
  ghost predicate LinkedInv(w: World, n: nat)
    requires n < |w.nodes|
  {
    var node := w.nodes[n];
    && (node.parent.Some? ==> node.parent.value < |w.nodes| && node.parent.value != n)
    && (node.parent.Some? && node.live && !Closed(node) ==>
          || Pending(w, n)
          || (n in w.nodes[node.parent.value].children && Waits(w, node.parent.value)))
  }

  // If the node is closed, whoever closed it still has to take its children.
  ghost predicate Waits(w: World, p: nat)
    requires p < |w.nodes|
  {
    Closed(w.nodes[p]) ==> Somebody(w, TakeChildren(p))
  }

  ghost predicate ItemsExist(w: World, c: Call) {
    c.Sealing? ==>
      && (forall k :: 0 <= k < |c.agenda| ==> c.agenda[k].node < |w.nodes|)
      && (forall x :: x in c.took ==> x < |w.nodes|)
      && (c.unlocks.Some? ==> c.unlocks.value < |w.nodes|)
  }

  ghost predicate CallInv(w: World, i: nat)
    requires i < |w.calls|
  {
    var c := w.calls[i];
    && ItemsExist(w, c)
    && (c.Sealing? && c.unlocks.Some? ==> w.nodes[c.unlocks.value].childrenLock == Some(i))
    && (c.Admitting? ==> c.parent < |w.nodes| && c.child < |w.nodes| && c.parent != c.child)
    && (c.Admitting? ==> w.nodes[c.parent].childrenLock == Some(i))
    && (c.Admitting? && c.pc == SawActive(true) && !w.nodes[c.parent].active ==> Somebody(w, TakeChildren(c.parent)))
    && (c.Admitting? && c.pc.Open? ==> Waits(w, c.parent))
    && (c.Registering? ==> c.node < |w.nodes| && c.hook < |w.hooks|)
  }

  // Every child a seal has taken is closed, gone, or still on its list.
  ghost predicate TookInv(w: World, i: nat)
    requires i < |w.calls|
  {
    var c := w.calls[i];
    c.Sealing? ==> forall x :: x in c.took && x < |w.nodes| ==>
      Closed(w.nodes[x]) || Check(x) in c.agenda || Claim(x) in c.agenda
  }

  ghost predicate TreeInv(w: World) {
    && (forall n: nat :: n < |w.nodes| ==> LinkedInv(w, n))
    && (forall i: nat :: i < |w.calls| ==> CallInv(w, i))
    && (forall i: nat :: i < |w.calls| ==> TookInv(w, i))
  }

  // A step that changes one call's agenda loses only what that call had and no longer has.
  lemma SomebodyStays(w: World, w': World, i: nat, item: Item)
    requires i < |w.calls| == |w'.calls| && w'.calls == w.calls[i := w'.calls[i]]
    requires Somebody(w, item)
    requires Has(w.calls[i], item) ==> Has(w'.calls[i], item)
    ensures Somebody(w', item)
  {
    var k: nat :| k < |w.calls| && Has(w.calls[k], item);
    assert Has(w'.calls[k], item);
  }

  // The part of a world the tree's invariant reads.
  ghost predicate SameTree(w: World, w': World) {
    && |w'.nodes| == |w.nodes| && |w'.calls| == |w.calls| && |w'.hooks| >= |w.hooks|
    && (forall n: nat :: n < |w.nodes| ==>
          w'.nodes[n] == w.nodes[n].(hooks := w'.nodes[n].hooks, hooksLock := w'.nodes[n].hooksLock))
    && (forall i: nat :: i < |w.calls| ==> SameCall(w.calls[i], w'.calls[i]))
  }

  ghost predicate SameCall(c: Call, c': Call) {
    || c' == c
    || (c.Sealing? && c'.Sealing? && c'.agenda == c.agenda && c'.took == c.took && c'.unlocks == c.unlocks)
    || (c.Registering? && c'.Registering? && c'.node == c.node && c'.hook == c.hook)
    || (c.Registering? && c'.Done?)
  }

  lemma SameTreeKeepsInv(w: World, w': World)
    requires TreeInv(w) && SameTree(w, w')
    ensures TreeInv(w')
  {
    forall item | Somebody(w, item) ensures Somebody(w', item) {
      var k: nat :| k < |w.calls| && Has(w.calls[k], item);
      assert SameCall(w.calls[k], w'.calls[k]);
      assert Has(w'.calls[k], item);
    }
    forall n: nat | n < |w'.nodes| ensures LinkedInv(w', n) { assert LinkedInv(w, n); }
    forall i: nat | i < |w'.calls| ensures CallInv(w', i) && TookInv(w', i) {
      assert CallInv(w, i) && TookInv(w, i) && SameCall(w.calls[i], w'.calls[i]);
    }
  }

  // What every item but taking the children does: at most one node's flags move, a node that gets
  // closed has its children left to take, and only the item just done is gone from the list.
  ghost predicate FlagStep(w: World, w': World, i: nat) {
    && i < |w.calls| == |w'.calls| && w.calls[i].Sealing? && w.calls[i].agenda != []
    && w'.calls == w.calls[i := w'.calls[i]] && w'.calls[i].Sealing?
    && w'.calls[i].took == w.calls[i].took && w'.calls[i].unlocks == w.calls[i].unlocks
    && (forall item :: item in w.calls[i].agenda && item != w.calls[i].agenda[0] ==> item in w'.calls[i].agenda)
    && (forall item :: item in w'.calls[i].agenda ==> item.node < |w.nodes|)
    && |w'.nodes| == |w.nodes| && |w'.hooks| == |w.hooks|
    && (forall m: nat :: m < |w.nodes| ==> NodeMoves(w.nodes[m], w'.nodes[m]))
    && (forall m: nat :: m < |w.nodes| && Closed(w'.nodes[m]) && !Closed(w.nodes[m]) ==> TakeChildren(m) in w'.calls[i].agenda)
    && (forall m: nat :: m < |w.nodes| && !w'.nodes[m].active && w.nodes[m].active ==> TakeChildren(m) in w'.calls[i].agenda)
  }

  ghost predicate NodeMoves(n: Node, n': Node) {
    && n'.parent == n.parent && n'.live == n.live && n'.children == n.children && n'.childrenLock == n.childrenLock
    && (n.cancelled ==> n'.cancelled) && (!n.active ==> !n'.active)
  }

  lemma FlagStepKeepsTree(w: World, w': World, i: nat)
    requires TreeInv(w) && FlagStep(w, w', i)
    requires !w.calls[i].agenda[0].TakeChildren?
    requires var head := w.calls[i].agenda[0];
             (head.Check? || head.Claim?) && head.node < |w.nodes| ==>
               Closed(w'.nodes[head.node]) || Claim(head.node) in w'.calls[i].agenda
    ensures TreeInv(w')
  {
    var head := w.calls[i].agenda[0];
    forall item | Somebody(w, item) && item != head ensures Somebody(w', item) {
      SomebodyStays(w, w', i, item);
    }
    assert CallInv(w, i) && TookInv(w, i);
    assert head in w.calls[i].agenda;
    forall item | item in w'.calls[i].agenda ensures Somebody(w', item) { assert Has(w'.calls[i], item); }
    forall m: nat | m < |w'.nodes| ensures LinkedInv(w', m) {
      assert LinkedInv(w, m) && NodeMoves(w.nodes[m], w'.nodes[m]);
    }
    forall k: nat | k < |w'.calls| ensures CallInv(w', k) {
      assert CallInv(w, k);
      if w.calls[k].Admitting? { assert NodeMoves(w.nodes[w.calls[k].parent], w'.nodes[w.calls[k].parent]); }
    }
    forall k: nat | k < |w'.calls| ensures TookInv(w', k) { assert TookInv(w, k); }
  }

  predicate TakesChildren(w: World, i: nat) {
    && i < |w.calls| && w.calls[i].Sealing? && w.calls[i].agenda != []
    && w.calls[i].agenda[0].TakeChildren? && w.calls[i].agenda[0].node < |w.nodes|
    && w.nodes[w.calls[i].agenda[0].node].childrenLock.None?
  }

  // Taking a node's children puts each live one on the list, and takes nothing else off it.
  lemma TakenIs(w: World, i: nat)
    requires TakesChildren(w, i)
    ensures var w', c := ItemStep(w, i), w.calls[i];
            var n := c.agenda[0].node;
            && |w'.calls| == |w.calls| && w'.calls == w.calls[i := w'.calls[i]] && w'.nodes == w.nodes[n := w.nodes[n].(children := [])]
            && w'.calls[i].Sealing? && |w'.hooks| == |w.hooks| && w'.calls[i].unlocks == c.unlocks
            && (forall item :: item in c.agenda && item != TakeChildren(n) ==> item in w'.calls[i].agenda)
            && (forall x :: x in w.nodes[n].children && x < |w.nodes| && w.nodes[x].live ==> Check(x) in w'.calls[i].agenda)
            && (forall x :: x in w'.calls[i].took ==> x in c.took || (x < |w.nodes| && Check(x) in w'.calls[i].agenda))
            && (forall item :: item in w'.calls[i].agenda ==> item in c.agenda || item.node < |w.nodes|)
  {
    var w', c := ItemStep(w, i), w.calls[i];
    var live := Filter(w, w.nodes[c.agenda[0].node].children, true);
    assert w'.calls[i].agenda == Checks(live) + c.agenda[1..];
    assert c.agenda == [c.agenda[0]] + c.agenda[1..];
    forall x | x in live ensures Check(x) in w'.calls[i].agenda {
      var j :| 0 <= j < |live| && live[j] == x;
      assert w'.calls[i].agenda[j] == Check(x);
    }
    forall item | item in Checks(live) ensures item.node < |w.nodes| {
      var j :| 0 <= j < |live| && Checks(live)[j] == item;
      assert live[j] in live;
    }
  }

  lemma TakenSomebody(w: World, i: nat, item: Item)
    requires TakesChildren(w, i) && Somebody(w, item) && item != TakeChildren(w.calls[i].agenda[0].node)
    ensures Somebody(ItemStep(w, i), item)
  {
    TakenIs(w, i);
    SomebodyStays(w, ItemStep(w, i), i, item);
  }

  lemma TakenLinks(w: World, i: nat)
    requires TreeInv(w) && TakesChildren(w, i)
    ensures forall m: nat :: m < |ItemStep(w, i).nodes| ==> LinkedInv(ItemStep(w, i), m)
  {
    var w' := ItemStep(w, i);
    var n := w.calls[i].agenda[0].node;
    TakenIs(w, i);
    forall item | Somebody(w, item) && item != TakeChildren(n) ensures Somebody(w', item) { TakenSomebody(w, i, item); }
    forall m: nat | m < |w'.nodes| ensures LinkedInv(w', m) {
      assert LinkedInv(w, m);
      if Check(m) in w'.calls[i].agenda { assert Has(w'.calls[i], Check(m)); }
    }
  }

  lemma TakenCalls(w: World, i: nat)
    requires TreeInv(w) && TakesChildren(w, i)
    ensures forall k: nat :: k < |ItemStep(w, i).calls| ==> CallInv(ItemStep(w, i), k) && TookInv(ItemStep(w, i), k)
  {
    var w' := ItemStep(w, i);
    var n := w.calls[i].agenda[0].node;
    TakenIs(w, i);
    assert CallInv(w, i) && TookInv(w, i);
    forall item | Somebody(w, item) && item != TakeChildren(n) ensures Somebody(w', item) { TakenSomebody(w, i, item); }
    forall k: nat | k < |w'.calls| ensures CallInv(w', k) && TookInv(w', k) {
      assert CallInv(w, k) && TookInv(w, k);
      if k == i {
        forall j | 0 <= j < |w'.calls[i].agenda| ensures w'.calls[i].agenda[j].node < |w'.nodes| {
          assert w'.calls[i].agenda[j] in w'.calls[i].agenda;
        }
      }
    }
  }

  lemma TakeChildrenKeepsTree(w: World, i: nat)
    requires TreeInv(w) && TakesChildren(w, i)
    ensures TreeInv(ItemStep(w, i))
  {
    TakenLinks(w, i);
    TakenCalls(w, i);
  }

  // An item that looks at a node, or closes it.
  lemma FlagItemIsFlagStep(w: World, i: nat)
    requires i < |w.calls| && w.calls[i].Sealing? && w.calls[i].agenda != [] && w.calls[i].agenda[0].node < |w.nodes|
    requires forall k :: 0 <= k < |w.calls[i].agenda| ==> w.calls[i].agenda[k].node < |w.nodes|
    requires w.calls[i].agenda[0].Check? || w.calls[i].agenda[0].Claim? || w.calls[i].agenda[0].Deactivate?
    ensures FlagStep(w, ItemStep(w, i), i)
  {
    assert w.calls[i].agenda == [w.calls[i].agenda[0]] + w.calls[i].agenda[1..];
  }

  // One that takes a node's hooks.
  lemma HooksItemTouches(w: World, i: nat)
    requires i < |w.calls| && w.calls[i].Sealing? && w.calls[i].agenda != [] && w.calls[i].agenda[0].node < |w.nodes|
    requires (w.calls[i].agenda[0].TakeHooks? || w.calls[i].agenda[0].DiscardHooks?) && ItemStep(w, i) != w
    ensures var w', n := ItemStep(w, i), w.calls[i].agenda[0].node;
            && |w'.calls| == |w.calls| && w'.calls == w.calls[i := w'.calls[i]] && |w'.hooks| == |w.hooks|
            && w'.calls[i].Sealing? && w'.calls[i].agenda == w.calls[i].agenda[1..]
            && w'.calls[i].took == w.calls[i].took && w'.calls[i].unlocks == w.calls[i].unlocks
            && w'.nodes == w.nodes[n := w.nodes[n].(hooks := [])]
  {
  }

  lemma HooksItemIsFlagStep(w: World, i: nat)
    requires i < |w.calls| && w.calls[i].Sealing? && w.calls[i].agenda != [] && w.calls[i].agenda[0].node < |w.nodes|
    requires forall k :: 0 <= k < |w.calls[i].agenda| ==> w.calls[i].agenda[k].node < |w.nodes|
    requires (w.calls[i].agenda[0].TakeHooks? || w.calls[i].agenda[0].DiscardHooks?) && ItemStep(w, i) != w
    ensures FlagStep(w, ItemStep(w, i), i)
  {
    HooksItemTouches(w, i);
    assert w.calls[i].agenda == [w.calls[i].agenda[0]] + w.calls[i].agenda[1..];
  }

  lemma ItemIsFlagStep(w: World, i: nat)
    requires i < |w.calls| && w.calls[i].Sealing? && w.calls[i].agenda != [] && w.calls[i].agenda[0].node < |w.nodes|
    requires forall k :: 0 <= k < |w.calls[i].agenda| ==> w.calls[i].agenda[k].node < |w.nodes|
    requires !w.calls[i].agenda[0].TakeChildren? && ItemStep(w, i) != w
    ensures FlagStep(w, ItemStep(w, i), i)
  {
    if w.calls[i].agenda[0].TakeHooks? || w.calls[i].agenda[0].DiscardHooks? { HooksItemIsFlagStep(w, i); }
    else { FlagItemIsFlagStep(w, i); }
  }

  // One item of one seal.
  lemma ItemKeepsTree(w: World, i: nat)
    requires TreeInv(w)
    requires i < |w.calls| && w.calls[i].Sealing? && w.calls[i].agenda != [] && w.calls[i].agenda[0].node < |w.nodes|
    ensures TreeInv(ItemStep(w, i))
  {
    assert CallInv(w, i);
    var w' := ItemStep(w, i);
    if w' != w {
      if w.calls[i].agenda[0].TakeChildren? {
        TakeChildrenKeepsTree(w, i);
      } else {
        ItemIsFlagStep(w, i);
        FlagStepKeepsTree(w, w', i);
      }
    }
  }

  // A call that ends without an agenda gives back the lock it held.
  lemma EndKeepsTree(w: World, w': World, i: nat)
    requires TreeInv(w) && i < |w.calls|
    requires (w.calls[i].Sealing? && w.calls[i].agenda == []) || w.calls[i].Admitting?
    requires |w'.nodes| == |w.nodes| && |w'.hooks| == |w.hooks|
    requires w'.calls == w.calls[i := Done]
    requires forall n: nat :: n < |w.nodes| ==> w'.nodes[n] == w.nodes[n].(childrenLock := w'.nodes[n].childrenLock)
    requires forall n: nat :: n < |w.nodes| ==> w'.nodes[n].childrenLock == w.nodes[n].childrenLock || w.nodes[n].childrenLock == Some(i)
    ensures TreeInv(w')
  {
    forall item | Somebody(w, item) ensures Somebody(w', item) { SomebodyStays(w, w', i, item); }
    forall n: nat | n < |w'.nodes| ensures LinkedInv(w', n) { assert LinkedInv(w, n); }
    forall k: nat | k < |w'.calls| ensures CallInv(w', k) { assert CallInv(w, k); }
    forall k: nat | k < |w'.calls| ensures TookInv(w', k) { assert TookInv(w, k); }
  }

  lemma SealStepKeepsTree(w: World, i: nat)
    requires TreeInv(w) && i < |w.calls| && w.calls[i].Sealing?
    ensures TreeInv(SealStep(w, i))
  {
    var c := w.calls[i];
    assert CallInv(w, i);
    if c.agenda != [] {
      if c.agenda[0].node < |w.nodes| { ItemKeepsTree(w, i); }
    } else if c.collected != [] {
      SameTreeKeepsInv(w, SealStep(w, i));
    } else {
      EndKeepsTree(w, SealStep(w, i), i);
    }
  }

  // The one step that links a child: its parent, if closed by now, still has its children to give.
  lemma LinkKeepsTree(w: World, i: nat)
    requires TreeInv(w) && i < |w.calls| && w.calls[i].Admitting? && w.calls[i].pc.Open?
    ensures TreeInv(AdmitStep(w, i))
  {
    var w' := AdmitStep(w, i);
    var c := w.calls[i];
    assert CallInv(w, i);
    forall item | Somebody(w, item) ensures Somebody(w', item) { SomebodyStays(w, w', i, item); }
    assert c.child in w'.nodes[c.parent].children;
    forall n: nat | n < |w'.nodes| ensures LinkedInv(w', n) { assert LinkedInv(w, n); }
    forall k: nat | k < |w'.calls| ensures CallInv(w', k) { assert CallInv(w, k); }
    forall k: nat | k < |w'.calls| ensures TookInv(w', k) { assert TookInv(w, k); }
  }

  // The steps of an admission that only look, and the one that turns it into a seal of the child.
  lemma LookKeepsTree(w: World, w': World, i: nat, c': Call)
    requires TreeInv(w) && i < |w.calls| && w.calls[i].Admitting?
    requires w' == SetCall(w, i, c')
    requires (c'.Admitting? && c'.parent == w.calls[i].parent && c'.child == w.calls[i].child && CallInv(w', i))
          || c' == Sealing([Check(w.calls[i].child)], [], [], Some(w.calls[i].parent))
    ensures TreeInv(w')
  {
    assert CallInv(w, i);
    forall item | Somebody(w, item) ensures Somebody(w', item) { SomebodyStays(w, w', i, item); }
    forall n: nat | n < |w'.nodes| ensures LinkedInv(w', n) { assert LinkedInv(w, n); }
    forall k: nat | k < |w'.calls| ensures CallInv(w', k) { assert CallInv(w, k); }
    forall k: nat | k < |w'.calls| ensures TookInv(w', k) { assert TookInv(w, k); }
  }

  lemma AdmitStepKeepsTree(w: World, i: nat)
    requires TreeInv(w) && i < |w.calls| && w.calls[i].Admitting?
    ensures TreeInv(AdmitStep(w, i))
  {
    var w' := AdmitStep(w, i);
    var c := w.calls[i];
    assert CallInv(w, i);
    if c.pc.Open? {
      LinkKeepsTree(w, i);
    } else if w'.calls[i].Done? {
      EndKeepsTree(w, w', i);
    } else {
      forall item | Somebody(w, item) ensures Somebody(w', item) { SomebodyStays(w, w', i, item); }
      LookKeepsTree(w, w', i, w'.calls[i]);
    }
  }

  // What such a step leaves as it was: a prune only drops children that are gone or inactive.
  ghost predicate StartedMore(w: World, w': World) {
    && |w.nodes| <= |w'.nodes| && |w.calls| <= |w'.calls| && |w.hooks| <= |w'.hooks|
    && (forall k: nat :: k < |w.calls| ==> w'.calls[k] == w.calls[k])
    && (forall n: nat :: n < |w.nodes| ==> OnlyPruned(w, w.nodes[n], w'.nodes[n]))
    && (forall n: nat :: |w.nodes| <= n < |w'.nodes| ==> w'.nodes[n].parent.None?)
  }

  ghost predicate OnlyPruned(w: World, n: Node, n': Node) {
    && n'.parent == n.parent && n'.active == n.active && n'.cancelled == n.cancelled && (n'.live ==> n.live)
    && (n.childrenLock.Some? ==> n'.childrenLock == n.childrenLock)
    && (forall x :: x in n.children && x < |w.nodes| && w.nodes[x].live && w.nodes[x].active ==> x in n'.children)
  }

  lemma StartIsMore(w: World, s: Step)
    requires !s.Advance? && !s.Abandon?
    ensures StartedMore(w, Apply(w, s))
  {
  }

  lemma MoreKeepsTree(w: World, w': World)
    requires TreeInv(w) && StartedMore(w, w')
    requires forall k: nat :: |w.calls| <= k < |w'.calls| ==> CallInv(w', k) && TookInv(w', k)
    ensures TreeInv(w')
  {
    forall item | Somebody(w, item) ensures Somebody(w', item) {
      var k: nat :| k < |w.calls| && Has(w.calls[k], item);
      assert Has(w'.calls[k], item);
    }
    forall n: nat | n < |w'.nodes| ensures LinkedInv(w', n) {
      if n < |w.nodes| { assert LinkedInv(w, n) && OnlyPruned(w, w.nodes[n], w'.nodes[n]); }
    }
    forall k: nat | k < |w.calls| ensures CallInv(w', k) && TookInv(w', k) {
      assert CallInv(w, k) && TookInv(w, k);
    }
  }

  // Steps that add a node or a call, or only let a token or a guard go.
  lemma StartKeepsTree(w: World, s: Step)
    requires TreeInv(w) && !s.Advance? && !s.Abandon?
    ensures TreeInv(Apply(w, s))
  {
    StartIsMore(w, s);
    MoreKeepsTree(w, Apply(w, s));
  }

  // A registration moves hooks only.
  lemma RegisterIsSameTree(w: World, i: nat)
    requires i < |w.calls| && w.calls[i].Registering? && w.calls[i].node < |w.nodes| && w.calls[i].hook < |w.hooks|
    ensures SameTree(w, RegisterStep(w, i))
  {
    var c := w.calls[i];
    var w' := RegisterStep(w, i);
    assert w'.calls == w.calls[i := w'.calls[i]];
    assert w'.nodes == w.nodes[c.node := w'.nodes[c.node]];
    assert SameCall(w.calls[i], w'.calls[i]);
  }

  lemma RegisterStepKeepsTree(w: World, i: nat)
    requires TreeInv(w) && i < |w.calls| && w.calls[i].Registering?
    ensures TreeInv(RegisterStep(w, i))
  {
    assert CallInv(w, i);
    RegisterIsSameTree(w, i);
    SameTreeKeepsInv(w, RegisterStep(w, i));
  }

  lemma AdvanceKeepsTree(w: World, i: nat)
    requires TreeInv(w) && i < |w.calls|
    ensures TreeInv(Apply(w, Advance(i)))
  {
    match w.calls[i]
    case Sealing(_, _, _, _) => SealStepKeepsTree(w, i);
    case Admitting(_, _, _) => AdmitStepKeepsTree(w, i);
    case Registering(_, _, _) => RegisterStepKeepsTree(w, i);
    case Done =>
  }

  lemma StepKeepsTree(w: World, s: Step)
    requires TreeInv(w)
    ensures TreeInv(Apply(w, s))
  {
    if s.Abandon? {
      if Apply(w, s) != w { EndKeepsTree(w, Apply(w, s), s.call); }
    } else if !s.Advance? {
      StartKeepsTree(w, s);
    } else if s.call < |w.calls| {
      AdvanceKeepsTree(w, s.call);
    } else {
      assert Apply(w, s) == w;
    }
  }

  lemma {:induction false} RunKeepsTree(w: World, steps: seq<Step>)
    requires TreeInv(w)
    ensures TreeInv(Run(w, steps))
    decreases steps
  {
    if steps != [] {
      StepKeepsTree(w, steps[0]);
      RunKeepsTree(Apply(w, steps[0]), steps[1..]);
    }
  }

  // The tree race: whatever the interleaving of child admission with cancellation and deactivation
  // at any depth, with no call in flight a live child linked under a cancelled or deactivated node
  // is itself cancelled or deactivated.
  lemma {:induction false} ClosedReachesChildren(steps: seq<Step>, child: nat)
    requires var w := Run(Init(), steps);
             && (forall i :: 0 <= i < |w.calls| ==> w.calls[i].Done?)
             && child < |w.nodes| && w.nodes[child].live && w.nodes[child].parent.Some?
    ensures var w := Run(Init(), steps);
            && w.nodes[child].parent.value < |w.nodes|
            && (Closed(w.nodes[w.nodes[child].parent.value]) ==> Closed(w.nodes[child]))
  {
    RunKeepsTree(Init(), steps);
    assert LinkedInv(Run(Init(), steps), child);
  }

  // A seal runs a collected hook only when its traversal is over, and by then every child it took
  // from a node it closed is closed too.
  lemma {:induction false} CollectedHooksRunAfterTraversal(steps: seq<Step>, i: nat, hook: nat, child: nat)
    requires var w := Run(Init(), steps);
             && i < |w.calls| && w.calls[i].Sealing? && hook < |w.hooks|
             && hook < |SealStep(w, i).hooks| && SealStep(w, i).hooks[hook].runs != w.hooks[hook].runs
             && child in w.calls[i].took
    ensures var w := Run(Init(), steps);
            w.calls[i].agenda == [] && child < |w.nodes| && Closed(w.nodes[child])
  {
    RunKeepsTree(Init(), steps);
    assert TookInv(Run(Init(), steps), i) && CallInv(Run(Init(), steps), i);
  }
}
