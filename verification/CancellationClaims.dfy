/**
 * The recursive seals of the cancellation tree come to an end, and claim each node at most once
 * (crates/easycon-runtime/src/concurrency.rs, `seal_cancelled_tree` and `seal_deactivated_tree`).
 */
module CancellationClaims {
  import opened Wrappers
  import opened CancellationTree

  // ---- The recursion terminates ------------------------------------------------------------------------------

  function Weight(item: Item): nat {
    match item
    case Check(_) => 5
    case Claim(_) => 4
    case Deactivate(_) => 4
    case TakeHooks(_) => 2
    case DiscardHooks(_) => 2
    case TakeChildren(_) => 1
  }

  function AgendaWeight(agenda: seq<Item>): nat {
    if agenda == [] then 0 else Weight(agenda[0]) + AgendaWeight(agenda[1..])
  }

  function CallsWeight(calls: seq<Call>): nat {
    if calls == [] then 0
    else (if calls[0].Sealing? then AgendaWeight(calls[0].agenda) else 0) + CallsWeight(calls[1..])
  }

  function LinksWeight(nodes: seq<Node>): nat {
    if nodes == [] then 0 else 5 * |nodes[0].children| + LinksWeight(nodes[1..])
  }

  // What all seals together can still do: the work listed, and one check for every link not taken.
  function Potential(w: World): nat {
    CallsWeight(w.calls) + LinksWeight(w.nodes)
  }

  function CallWeight(c: Call): nat {
    if c.Sealing? then AgendaWeight(c.agenda) else 0
  }

  lemma {:induction false} CallsWeightUpdate(calls: seq<Call>, i: nat, c: Call)
    requires i < |calls|
    ensures CallsWeight(calls[i := c]) == CallsWeight(calls) - CallWeight(calls[i]) + CallWeight(c)
  {
    if i == 0 {
      assert calls[i := c][1..] == calls[1..];
    } else {
      assert calls[i := c][1..] == calls[1..][i - 1 := c];
      CallsWeightUpdate(calls[1..], i - 1, c);
    }
  }

  lemma {:induction false} LinksWeightUpdate(nodes: seq<Node>, i: nat, n: Node)
    requires i < |nodes|
    ensures LinksWeight(nodes[i := n]) == LinksWeight(nodes) - 5 * |nodes[i].children| + 5 * |n.children|
  {
    if i == 0 {
      assert nodes[i := n][1..] == nodes[1..];
    } else {
      assert nodes[i := n][1..] == nodes[1..][i - 1 := n];
      LinksWeightUpdate(nodes[1..], i - 1, n);
    }
  }

  lemma {:induction false} AgendaWeightConcat(a: seq<Item>, b: seq<Item>)
    ensures AgendaWeight(a + b) == AgendaWeight(a) + AgendaWeight(b)
  {
    if a == [] {
      assert a + b == b;
    } else {
      assert (a + b)[1..] == a[1..] + b;
      AgendaWeightConcat(a[1..], b);
    }
  }

  lemma {:induction false} ChecksWeight(ids: seq<nat>)
    ensures AgendaWeight(Checks(ids)) == 5 * |ids|
  {
    if ids != [] { ChecksWeight(ids[1..]); }
  }

  // The weight of an agenda whose first item gave way to others.
  lemma {:induction false} AgendaChange(agenda: seq<Item>, first: seq<Item>)
    requires agenda != []
    ensures AgendaWeight(first + agenda[1..]) == AgendaWeight(agenda) - Weight(agenda[0]) + AgendaWeight(first)
  {
    AgendaWeightConcat(first, agenda[1..]);
  }

  lemma OneItemWeight(item: Item)
    ensures AgendaWeight([item]) == Weight(item)
  {
    assert [item][1..] == [];
  }

  lemma TwoItemsWeight(a: Item, b: Item)
    ensures AgendaWeight([a, b]) == Weight(a) + Weight(b)
  {
    OneItemWeight(b);
    assert [a, b][1..] == [b];
  }

  // What an item does to the weight of its agenda and to the links of its node.
  lemma ItemWeight(w: World, i: nat)
    requires i < |w.calls| && w.calls[i].Sealing? && w.calls[i].agenda != [] && w.calls[i].agenda[0].node < |w.nodes|
    requires ItemStep(w, i) != w
    ensures var c, c' := w.calls[i], ItemStep(w, i).calls[i];
            var n := c.agenda[0].node;
            c'.Sealing? &&
            AgendaWeight(c'.agenda) + 5 * |ItemStep(w, i).nodes[n].children| < AgendaWeight(c.agenda) + 5 * |w.nodes[n].children|
  {
    var c := w.calls[i];
    var n := c.agenda[0].node;
    assert AgendaWeight(c.agenda) == Weight(c.agenda[0]) + AgendaWeight(c.agenda[1..]);
    match c.agenda[0]
    case Check(_) =>
      OneItemWeight(Claim(n));
      AgendaChange(c.agenda, [Claim(n)]);
    case Claim(_) =>
      TwoItemsWeight(TakeHooks(n), TakeChildren(n));
      AgendaChange(c.agenda, [TakeHooks(n), TakeChildren(n)]);
    case Deactivate(_) =>
      TwoItemsWeight(DiscardHooks(n), TakeChildren(n));
      AgendaChange(c.agenda, [DiscardHooks(n), TakeChildren(n)]);
    case TakeChildren(_) =>
      var live := Filter(w, w.nodes[n].children, true);
      ChecksWeight(live);
      AgendaChange(c.agenda, Checks(live));
    case _ =>
  }

  // Every item a seal gets past uses the potential up, whatever it finds.
  lemma ItemUsesPotential(w: World, i: nat)
    requires i < |w.calls| && w.calls[i].Sealing? && w.calls[i].agenda != [] && w.calls[i].agenda[0].node < |w.nodes|
    ensures var w' := ItemStep(w, i); w' == w || Potential(w') < Potential(w)
  {
    var w' := ItemStep(w, i);
    if w' != w {
      var n := w.calls[i].agenda[0].node;
      ItemWeight(w, i);
      ItemTouches(w, i);
      CallsWeightUpdate(w.calls, i, w'.calls[i]);
      LinksWeightUpdate(w.nodes, n, w'.nodes[n]);
    }
  }

  lemma ItemTouches(w: World, i: nat)
    requires i < |w.calls| && w.calls[i].Sealing? && w.calls[i].agenda != [] && w.calls[i].agenda[0].node < |w.nodes|
    ensures var w', n := ItemStep(w, i), w.calls[i].agenda[0].node;
            && |w'.nodes| == |w.nodes| && |w'.calls| == |w.calls|
            && w'.calls == w.calls[i := w'.calls[i]] && w'.nodes == w.nodes[n := w'.nodes[n]]
  {
  }

  // A seal gets past an item, and by that one only: a blocked one leaves the world as it is.
  predicate IsSealMove(w: World, s: Step) {
    s.Advance? && s.call < |w.calls| && w.calls[s.call].Sealing? && w.calls[s.call].agenda != [] && Apply(w, s) != w
  }

  // Only a new request, or an admission linking or cancelling its child, gives the seals more to do.
  predicate IsRequest(w: World, s: Step) {
    || s.StartCancel? || s.StartDeactivate?
    || (s.Advance? && s.call < |w.calls| && w.calls[s.call].Admitting?
        && (w.calls[s.call].pc.Open? || w.calls[s.call].pc.SawActiveAgain?))
  }

  function SealMoves(w: World, steps: seq<Step>): nat
    decreases steps
  {
    if steps == [] then 0 else (if IsSealMove(w, steps[0]) then 1 else 0) + SealMoves(Apply(w, steps[0]), steps[1..])
  }

  function Requests(w: World, steps: seq<Step>): nat
    decreases steps
  {
    if steps == [] then 0 else (if IsRequest(w, steps[0]) then 1 else 0) + Requests(Apply(w, steps[0]), steps[1..])
  }

  lemma {:induction false} CallsWeightAppend(calls: seq<Call>, c: Call)
    ensures CallsWeight(calls + [c]) == CallsWeight(calls) + CallWeight(c)
  {
    if calls == [] {
      assert calls + [c] == [c];
    } else {
      assert (calls + [c])[1..] == calls[1..] + [c];
      CallsWeightAppend(calls[1..], c);
    }
  }

  lemma {:induction false} LinksWeightAppend(nodes: seq<Node>, n: Node)
    ensures LinksWeight(nodes + [n]) == LinksWeight(nodes) + 5 * |n.children|
  {
    if nodes == [] {
      assert nodes + [n] == [n];
    } else {
      assert (nodes + [n])[1..] == nodes[1..] + [n];
      LinksWeightAppend(nodes[1..], n);
    }
  }

  lemma StartPotential(w: World, s: Step)
    requires !s.Advance?
    ensures Potential(Apply(w, s)) <= Potential(w) + if IsRequest(w, s) then 5 else 0
  {
    var w' := Apply(w, s);
    match s
    case NewRoot => LinksWeightAppend(w.nodes, FreshNode);
    case DropToken(n) => if n < |w.nodes| { LinksWeightUpdate(w.nodes, n, w.nodes[n].(live := false)); }
    case StartCancel(n) =>
      OneItemWeight(Check(n));
      CallsWeightAppend(w.calls, Sealing([Check(n)], [], [], None));
    case StartDeactivate(n) =>
      OneItemWeight(Deactivate(n));
      CallsWeightAppend(w.calls, Sealing([Deactivate(n)], [], [], None));
    case StartTryChild(p) =>
      if w' != w {
        var pruned := w'.nodes[p];
        LinksWeightUpdate(w.nodes, p, pruned);
        LinksWeightAppend(w.nodes[p := pruned], FreshNode);
        assert w'.nodes == w.nodes[p := pruned] + [FreshNode];
        CallsWeightAppend(w.calls, Admitting(p, |w.nodes|, Locked));
      }
    case StartRegister(n) => CallsWeightAppend(w.calls, Registering(n, |w.hooks|, Enter));
    case DropGuard(_) =>
    case Abandon(i) => if w' != w { CallsWeightUpdate(w.calls, i, Done); }
  }

  lemma UnlockPotential(w: World, n: Option<nat>)
    ensures Potential(Unlock(w, n)) == Potential(w)
  {
    if n.Some? && n.value < |w.nodes| {
      LinksWeightUpdate(w.nodes, n.value, w.nodes[n.value].(childrenLock := None));
    }
  }

  // Linking puts one more child on the parent's list.
  lemma LinkPotential(w: World, i: nat)
    requires i < |w.calls| && w.calls[i].Admitting? && w.calls[i].pc.Open?
    requires w.calls[i].parent < |w.nodes| && w.calls[i].child < |w.nodes|
    ensures Potential(AdmitStep(w, i)) <= Potential(w) + 5
  {
    var c := w.calls[i];
    var p := w.nodes[c.parent];
    var linked := p.(children := p.children + [c.child]);
    var nodes := w.nodes[c.parent := linked];
    CallsWeightUpdate(w.calls, i, AdmitStep(w, i).calls[i]);
    LinksWeightUpdate(w.nodes, c.parent, linked);
    LinksWeightUpdate(nodes, c.child, w.nodes[c.child].(parent := Some(c.parent)));
  }

  lemma AdmitPotential(w: World, i: nat)
    requires i < |w.calls| && w.calls[i].Admitting?
    ensures Potential(AdmitStep(w, i)) <= Potential(w) + if IsRequest(w, Advance(i)) then 5 else 0
  {
    var c := w.calls[i];
    if c.parent < |w.nodes| && c.child < |w.nodes| {
      if c.pc.Open? {
        LinkPotential(w, i);
      } else {
        CallsWeightUpdate(w.calls, i, AdmitStep(w, i).calls[i]);
        UnlockPotential(SetCall(w, i, Done), Some(c.parent));
        OneItemWeight(Check(c.child));
      }
    }
  }

  lemma RegisterTouches(w: World, i: nat)
    requires i < |w.calls| && w.calls[i].Registering? && w.calls[i].node < |w.nodes| && w.calls[i].hook < |w.hooks|
    ensures var w', n := RegisterStep(w, i), w.calls[i].node;
            && |w'.nodes| == |w.nodes| && |w'.calls| == |w.calls|
            && w'.calls == w.calls[i := w'.calls[i]] && w'.nodes == w.nodes[n := w'.nodes[n]]
            && !w'.calls[i].Sealing? && w'.nodes[n].children == w.nodes[n].children
  {
  }

  lemma RegisterPotential(w: World, i: nat)
    requires i < |w.calls| && w.calls[i].Registering?
    ensures Potential(RegisterStep(w, i)) == Potential(w)
  {
    var c := w.calls[i];
    if c.node < |w.nodes| && c.hook < |w.hooks| {
      var w' := RegisterStep(w, i);
      RegisterTouches(w, i);
      CallsWeightUpdate(w.calls, i, w'.calls[i]);
      LinksWeightUpdate(w.nodes, c.node, w'.nodes[c.node]);
    }
  }

  lemma SealPotential(w: World, i: nat)
    requires i < |w.calls| && w.calls[i].Sealing?
    ensures Potential(SealStep(w, i)) + (if IsSealMove(w, Advance(i)) then 1 else 0) <= Potential(w)
  {
    var c := w.calls[i];
    if c.agenda != [] {
      if c.agenda[0].node < |w.nodes| { ItemUsesPotential(w, i); }
    } else {
      CallsWeightUpdate(w.calls, i, SealStep(w, i).calls[i]);
      UnlockPotential(SetCall(w, i, Done), c.unlocks);
    }
  }

  // The recursive seals come to an end: over any run, all of them together get past no more items
  // than five for each cancel, deactivate, link and late cancel of a child that the run contains.
  lemma {:induction false} SealsTerminate(w: World, steps: seq<Step>)
    ensures SealMoves(w, steps) + Potential(Run(w, steps)) <= Potential(w) + 5 * Requests(w, steps)
    decreases steps
  {
    if steps != [] {
      var s := steps[0];
      if !s.Advance? {
        StartPotential(w, s);
      } else if s.call < |w.calls| {
        match w.calls[s.call]
        case Sealing(_, _, _, _) => SealPotential(w, s.call);
        case Admitting(_, _, _) => AdmitPotential(w, s.call);
        case Registering(_, _, _) => RegisterPotential(w, s.call);
        case Done =>
      }
      SealsTerminate(Apply(w, s), steps[1..]);
    }
  }

  // ---- Each node is claimed at most once ------------------------------------------------------------------------

  // A seal finds the cancelled flag clear and sets it; it alone goes on to the hooks and children.
  predicate WinsCancel(w: World, s: Step, n: nat) {
    && s.Advance? && s.call < |w.calls| && w.calls[s.call].Sealing? && n < |w.nodes|
    && w.calls[s.call].agenda != [] && w.calls[s.call].agenda[0] == Claim(n) && !w.nodes[n].cancelled
  }

  predicate WinsDeactivate(w: World, s: Step, n: nat) {
    && s.Advance? && s.call < |w.calls| && w.calls[s.call].Sealing? && n < |w.nodes|
    && w.calls[s.call].agenda != [] && w.calls[s.call].agenda[0] == Deactivate(n) && w.nodes[n].active
  }

  function CancelWins(w: World, steps: seq<Step>, n: nat): nat
    decreases steps
  {
    if steps == [] then 0 else (if WinsCancel(w, steps[0], n) then 1 else 0) + CancelWins(Apply(w, steps[0]), steps[1..], n)
  }

  function DeactivateWins(w: World, steps: seq<Step>, n: nat): nat
    decreases steps
  {
    if steps == [] then 0
    else (if WinsDeactivate(w, steps[0], n) then 1 else 0) + DeactivateWins(Apply(w, steps[0]), steps[1..], n)
  }

  lemma ItemMovesFlags(w: World, i: nat, n: nat)
    requires n < |w.nodes|
    requires i < |w.calls| && w.calls[i].Sealing? && w.calls[i].agenda != [] && w.calls[i].agenda[0].node < |w.nodes|
    ensures n < |ItemStep(w, i).nodes|
    ensures ItemStep(w, i).nodes[n].cancelled <==> w.nodes[n].cancelled || w.calls[i].agenda[0] == Claim(n)
    ensures !ItemStep(w, i).nodes[n].active <==> !w.nodes[n].active || w.calls[i].agenda[0] == Deactivate(n)
  {
    var head := w.calls[i].agenda[0];
    assert head == Claim(head.node) || head == Deactivate(head.node) || !(head.Claim? || head.Deactivate?);
  }

  lemma RegisterLeavesFlags(w: World, i: nat, n: nat)
    requires n < |w.nodes| && i < |w.calls| && w.calls[i].Registering?
    ensures n < |RegisterStep(w, i).nodes|
    ensures RegisterStep(w, i).nodes[n].cancelled == w.nodes[n].cancelled && RegisterStep(w, i).nodes[n].active == w.nodes[n].active
  {
  }

  lemma AdmitLeavesFlags(w: World, i: nat, n: nat)
    requires n < |w.nodes| && i < |w.calls| && w.calls[i].Admitting?
    ensures n < |AdmitStep(w, i).nodes|
    ensures AdmitStep(w, i).nodes[n].cancelled == w.nodes[n].cancelled && AdmitStep(w, i).nodes[n].active == w.nodes[n].active
  {
  }

  lemma OthersLeaveFlags(w: World, s: Step, n: nat)
    requires n < |w.nodes|
    requires !(s.Advance? && s.call < |w.calls| && w.calls[s.call].Sealing?)
    ensures n < |Apply(w, s).nodes|
    ensures Apply(w, s).nodes[n].cancelled == w.nodes[n].cancelled && Apply(w, s).nodes[n].active == w.nodes[n].active
  {
    if s.Advance? {
      if s.call < |w.calls| && w.calls[s.call].Registering? { RegisterLeavesFlags(w, s.call, n); }
      if s.call < |w.calls| && w.calls[s.call].Admitting? { AdmitLeavesFlags(w, s.call, n); }
    } else if !s.Abandon? {
      StartIsMore(w, s);
      assert OnlyPruned(w, w.nodes[n], Apply(w, s).nodes[n]);
    }
  }

  // The flags move one way, and exactly when a seal wins the node.
  lemma FlagsMoveByClaims(w: World, s: Step, n: nat)
    requires n < |w.nodes|
    ensures n < |Apply(w, s).nodes|
    ensures Apply(w, s).nodes[n].cancelled <==> w.nodes[n].cancelled || WinsCancel(w, s, n)
    ensures !Apply(w, s).nodes[n].active <==> !w.nodes[n].active || WinsDeactivate(w, s, n)
  {
    if s.Advance? && s.call < |w.calls| && w.calls[s.call].Sealing? {
      var c := w.calls[s.call];
      if c.agenda != [] {
        if c.agenda[0].node < |w.nodes| { ItemMovesFlags(w, s.call, n); }
      } else {
        SealEndLeavesFlags(w, s.call, n);
      }
    } else {
      OthersLeaveFlags(w, s, n);
    }
  }

  lemma SealEndLeavesFlags(w: World, i: nat, n: nat)
    requires n < |w.nodes| && i < |w.calls| && w.calls[i].Sealing? && w.calls[i].agenda == []
    ensures n < |SealStep(w, i).nodes|
    ensures SealStep(w, i).nodes[n].cancelled == w.nodes[n].cancelled && SealStep(w, i).nodes[n].active == w.nodes[n].active
  {
  }

  // Over any run a node ends up cancelled exactly if it started so or one seal claimed it, and no
  // second seal ever does. The same goes for deactivation.
  lemma {:induction false} EachNodeClaimedOnce(w: World, steps: seq<Step>, n: nat)
    requires n < |w.nodes|
    ensures n < |Run(w, steps).nodes|
    ensures w.nodes[n].cancelled ==> Run(w, steps).nodes[n].cancelled
    ensures !w.nodes[n].active ==> !Run(w, steps).nodes[n].active
    ensures CancelWins(w, steps, n) == (if Run(w, steps).nodes[n].cancelled && !w.nodes[n].cancelled then 1 else 0)
    ensures DeactivateWins(w, steps, n) == (if !Run(w, steps).nodes[n].active && w.nodes[n].active then 1 else 0)
    decreases steps
  {
    if steps == [] {
      assert Run(w, steps) == w;
    } else {
      FlagsMoveByClaims(w, steps[0], n);
      EachNodeClaimedOnce(Apply(w, steps[0]), steps[1..], n);
    }
  }
}
