/**
 * What is behind a closed node (crates/easycon-runtime/src/cancellation.rs and concurrency.rs): over every run,
 * a cancel that is done has cancelled its node, a deactivation has deactivated it, and nothing is closed without
 * one of the two having been asked for, of it or of somebody above it.
 */
module CancellationCauses {
  import opened Wrappers
  import opened CancellationTree
  import H = CancellationHooks

  // ---- What a finished call leaves behind ----------------------------------------------------------------------

  // The call has its node cancelled or inactive, or is still on the way to it.
  predicate OnItsWay(w: World, i: nat, n: nat) {
    && i < |w.calls| && n < |w.nodes|
    && (w.calls[i].Sealing? || w.calls[i].Done?)
    && (w.nodes[n].cancelled || !w.nodes[n].active
        || (w.calls[i].Sealing? && w.calls[i].agenda != [] && w.calls[i].agenda[0] in {Check(n), Claim(n)}))
  }

  predicate WillDeactivate(w: World, i: nat, n: nat) {
    && i < |w.calls| && n < |w.nodes|
    && (w.calls[i].Sealing? || w.calls[i].Done?)
    && (!w.nodes[n].active || (w.calls[i].Sealing? && w.calls[i].agenda != [] && w.calls[i].agenda[0] == Deactivate(n)))
  }

  // Flags move one way, and a call that is not advanced stays as it is.
  predicate Kept(w: World, w': World, n: nat)
    requires n < |w.nodes|
  {
    && n < |w'.nodes|
    && (w.nodes[n].cancelled ==> w'.nodes[n].cancelled) && (!w.nodes[n].active ==> !w'.nodes[n].active)
  }

  lemma SealKeeps(w: World, i: nat, n: nat)
    requires i < |w.calls| && w.calls[i].Sealing? && n < |w.nodes|
    ensures Kept(w, SealStep(w, i), n)
    ensures |SealStep(w, i).calls| == |w.calls| && SealStep(w, i).calls == w.calls[i := SealStep(w, i).calls[i]]
    ensures SealStep(w, i).calls[i].Sealing? || SealStep(w, i).calls[i].Done?
  {
  }

  lemma AdmitKeeps(w: World, i: nat, n: nat)
    requires i < |w.calls| && w.calls[i].Admitting? && n < |w.nodes|
    ensures Kept(w, AdmitStep(w, i), n)
    ensures |AdmitStep(w, i).calls| == |w.calls| && AdmitStep(w, i).calls == w.calls[i := AdmitStep(w, i).calls[i]]
  {
  }

  lemma RegisterKeeps(w: World, i: nat, n: nat)
    requires i < |w.calls| && w.calls[i].Registering? && n < |w.nodes|
    ensures Kept(w, RegisterStep(w, i), n)
    ensures |RegisterStep(w, i).calls| == |w.calls| && RegisterStep(w, i).calls == w.calls[i := RegisterStep(w, i).calls[i]]
  {
  }

  lemma StartKeeps(w: World, s: Step, n: nat)
    requires !s.Advance? && !s.Abandon? && n < |w.nodes|
    ensures Kept(w, Apply(w, s), n)
    ensures |w.calls| <= |Apply(w, s).calls| && forall k: nat :: k < |w.calls| ==> Apply(w, s).calls[k] == w.calls[k]
  {
    StartIsMore(w, s);
    assert OnlyPruned(w, w.nodes[n], Apply(w, s).nodes[n]);
  }

  lemma StepKeepsOthers(w: World, s: Step, i: nat, n: nat)
    requires i < |w.calls| && n < |w.nodes| && (s.Advance? || s.Abandon? ==> s.call != i)
    ensures Kept(w, Apply(w, s), n) && i < |Apply(w, s).calls| && Apply(w, s).calls[i] == w.calls[i]
  {
    if s.Advance? {
      if s.call < |w.calls| {
        match w.calls[s.call]
        case Sealing(_, _, _, _) => SealKeeps(w, s.call, n);
        case Admitting(_, _, _) => AdmitKeeps(w, s.call, n);
        case Registering(_, _, _) => RegisterKeeps(w, s.call, n);
        case Done =>
      }
    } else if !s.Abandon? {
      StartKeeps(w, s, n);
    }
  }

  // The head of a cancel's list: it is looked at, and then claimed.
  lemma OwnStepGoesOn(w: World, i: nat, n: nat)
    requires i < |w.calls| && w.calls[i].Sealing?
    ensures OnItsWay(w, i, n) ==> OnItsWay(SealStep(w, i), i, n)
    ensures WillDeactivate(w, i, n) ==> WillDeactivate(SealStep(w, i), i, n)
  {
    if n < |w.nodes| { SealKeeps(w, i, n); }
  }

  lemma StepGoesOn(w: World, s: Step, i: nat, n: nat)
    ensures OnItsWay(w, i, n) ==> OnItsWay(Apply(w, s), i, n)
    ensures WillDeactivate(w, i, n) ==> WillDeactivate(Apply(w, s), i, n)
  {
    if OnItsWay(w, i, n) || WillDeactivate(w, i, n) {
      if (s.Advance? || s.Abandon?) && s.call == i {
        if s.Advance? && w.calls[i].Sealing? { OwnStepGoesOn(w, i, n); }
      } else {
        StepKeepsOthers(w, s, i, n);
      }
    }
  }

  lemma {:induction false} RunGoesOn(w: World, steps: seq<Step>, i: nat, n: nat)
    ensures OnItsWay(w, i, n) ==> OnItsWay(Run(w, steps), i, n)
    ensures WillDeactivate(w, i, n) ==> WillDeactivate(Run(w, steps), i, n)
    decreases steps
  {
    if steps != [] {
      StepGoesOn(w, steps[0], i, n);
      RunGoesOn(Apply(w, steps[0]), steps[1..], i, n);
    }
  }

  // ---- Why a node is closed -------------------------------------------------------------------------------------

  // A cancel or a deactivation was asked for, of the node or of one it hangs under.
  predicate ClosingAsked(w: World, done: seq<Step>, n: nat) {
    || StartCancel(n) in done || StartDeactivate(n) in done
    || (n < |w.nodes| && w.nodes[n].parent.Some? && w.nodes[n].parent.value < n
        && ClosingAsked(w, done, w.nodes[n].parent.value))
  }

  predicate CancelAsked(w: World, done: seq<Step>, n: nat) {
    || StartCancel(n) in done
    || (n < |w.nodes| && w.nodes[n].parent.Some? && w.nodes[n].parent.value < n
        && ClosingAsked(w, done, w.nodes[n].parent.value))
  }

  ghost predicate ItemAsked(w: World, done: seq<Step>, item: Item) {
    match item
    case Check(m) => CancelAsked(w, done, m)
    case Claim(m) => CancelAsked(w, done, m)
    case Deactivate(m) => StartDeactivate(m) in done
    case TakeHooks(m) => m < |w.nodes| && w.nodes[m].cancelled
    case DiscardHooks(m) => m < |w.nodes| && !w.nodes[m].active
    case TakeChildren(m) => m < |w.nodes| && Closed(w.nodes[m])
  }

  ghost predicate NodeAsked(w: World, done: seq<Step>, n: nat)
    requires n < |w.nodes|
  {
    var node := w.nodes[n];
    && (!node.active ==> StartDeactivate(n) in done)
    && (node.cancelled ==> CancelAsked(w, done, n))
    && (node.parent.Some? ==> node.parent.value < n)
    && (forall x :: x in node.children ==> x < |w.nodes| && w.nodes[x].parent == Some(n))
  }

  ghost predicate CallAsked(w: World, done: seq<Step>, i: nat)
    requires i < |w.calls|
  {
    match w.calls[i]
    case Sealing(agenda, _, _, _) => forall item :: item in agenda ==> ItemAsked(w, done, item)
    case Admitting(p, ch, pc) =>
      && p < ch < |w.nodes|
      && w.nodes[ch].parent == (if pc.Linked? || pc.SawActiveAgain? then Some(p) else None)
      && (pc == SawActiveAgain(false) ==> !w.nodes[p].active)
      && (forall j: nat :: j < |w.calls| && j != i && w.calls[j].Admitting? ==> w.calls[j].child != ch)
    case _ => true
  }

  ghost predicate AskedInv(w: World, done: seq<Step>) {
    && (forall n: nat :: n < |w.nodes| ==> NodeAsked(w, done, n))
    && (forall i: nat :: i < |w.calls| ==> CallAsked(w, done, i))
  }

  // A node keeps its parent, and gets one at most once.
  predicate MoreLinked(w: World, w': World) {
    && |w.nodes| <= |w'.nodes|
    && forall n: nat :: n < |w.nodes| ==>
         && (w.nodes[n].parent.Some? ==> w'.nodes[n].parent == w.nodes[n].parent)
         && (w.nodes[n].cancelled ==> w'.nodes[n].cancelled) && (!w.nodes[n].active ==> !w'.nodes[n].active)
  }

  lemma {:induction false} AskedStays(w: World, w': World, done: seq<Step>, s: Step, n: nat)
    requires MoreLinked(w, w')
    ensures ClosingAsked(w, done, n) ==> ClosingAsked(w', done + [s], n)
    ensures CancelAsked(w, done, n) ==> CancelAsked(w', done + [s], n)
    decreases n
  {
    if n < |w.nodes| && w.nodes[n].parent.Some? && w.nodes[n].parent.value < n {
      AskedStays(w, w', done, s, w.nodes[n].parent.value);
    }
  }

  lemma ItemsStay(w: World, w': World, done: seq<Step>, s: Step, agenda: seq<Item>)
    requires MoreLinked(w, w') && forall item :: item in agenda ==> ItemAsked(w, done, item)
    ensures forall item :: item in agenda ==> ItemAsked(w', done + [s], item)
  {
    forall item | item in agenda ensures ItemAsked(w', done + [s], item) { AskedStays(w, w', done, s, item.node); }
  }

  // Nodes that only ever get more closed, and lose children, keep their reasons.
  lemma NodesStay(w: World, w': World, done: seq<Step>, s: Step, n: nat)
    requires MoreLinked(w, w') && n < |w.nodes| && NodeAsked(w, done, n)
    requires w'.nodes[n].parent == w.nodes[n].parent && w'.nodes[n].active == w.nodes[n].active
    requires w'.nodes[n].cancelled == w.nodes[n].cancelled
    requires forall x :: x in w'.nodes[n].children ==> x in w.nodes[n].children
    ensures NodeAsked(w', done + [s], n)
  {
    AskedStays(w, w', done, s, n);
  }

  // ---- A seal -----------------------------------------------------------------------------------------------------

  predicate Sealable(w: World, i: nat) {
    i < |w.calls| && w.calls[i].Sealing? && w.calls[i].agenda != [] && w.calls[i].agenda[0].node < |w.nodes|
  }

  // What an item leaves in the list, and does to its node.
  lemma ItemTouches(w: World, i: nat)
    requires Sealable(w, i)
    ensures var w', n := ItemStep(w, i), w.calls[i].agenda[0].node;
            && |w'.nodes| == |w.nodes| && |w'.calls| == |w.calls| && w'.calls == w.calls[i := w'.calls[i]]
            && w'.calls[i].Sealing?
            && (forall m: nat :: m < |w.nodes| && m != n ==> w'.nodes[m] == w.nodes[m])
            && w'.nodes[n].parent == w.nodes[n].parent && w'.nodes[n].children <= w.nodes[n].children
            && (w.nodes[n].cancelled ==> w'.nodes[n].cancelled) && (!w.nodes[n].active ==> !w'.nodes[n].active)
            && (w'.nodes[n].cancelled != w.nodes[n].cancelled ==> w.calls[i].agenda[0].Claim?)
            && (w'.nodes[n].active != w.nodes[n].active ==> w.calls[i].agenda[0].Deactivate?)
  {
  }

  lemma ItemAgenda(w: World, i: nat)
    requires Sealable(w, i)
    ensures var w', head := ItemStep(w, i), w.calls[i].agenda[0];
            && |w'.calls| == |w.calls| && |w'.nodes| == |w.nodes| && w'.calls[i].Sealing?
            && forall item :: item in w'.calls[i].agenda ==>
                 || item in w.calls[i].agenda
                 || (item == Claim(head.node) && head.Check?)
                 || (item == TakeHooks(head.node) && w'.nodes[head.node].cancelled)
                 || (item == DiscardHooks(head.node) && !w'.nodes[head.node].active)
                 || (item == TakeChildren(head.node) && Closed(w'.nodes[head.node]))
                 || (item.Check? && item.node in w.nodes[head.node].children && head.TakeChildren?)
  {
    var c := w.calls[i];
    var head := c.agenda[0];
    assert c.agenda == [head] + c.agenda[1..];
    if head.TakeChildren? && w.nodes[head.node].childrenLock.None? {
      var live := Filter(w, w.nodes[head.node].children, true);
      assert ItemStep(w, i).calls[i].agenda == Checks(live) + c.agenda[1..];
      forall item | item in Checks(live) ensures item.Check? && item.node in w.nodes[head.node].children {
        var j :| 0 <= j < |live| && Checks(live)[j] == item;
        assert live[j] in live;
      }
    }
  }

  // A child of a closed node is cancelled because of it.
  lemma ChildAsked(w: World, done: seq<Step>, p: nat, x: nat)
    requires AskedInv(w, done) && p < |w.nodes| && Closed(w.nodes[p]) && x < |w.nodes| && w.nodes[x].parent == Some(p)
    ensures CancelAsked(w, done, x)
  {
    assert NodeAsked(w, done, p) && NodeAsked(w, done, x);
    if w.nodes[p].cancelled { CancelCloses(w, done, p); }
  }

  lemma {:induction false} CancelCloses(w: World, done: seq<Step>, n: nat)
    requires CancelAsked(w, done, n)
    ensures ClosingAsked(w, done, n)
  {
  }

  lemma ItemCalls(w: World, done: seq<Step>, i: nat, s: Step)
    requires AskedInv(w, done) && Sealable(w, i)
    ensures var w' := ItemStep(w, i); forall item :: item in w'.calls[i].agenda ==> ItemAsked(w', done + [s], item)
  {
    var w', head := ItemStep(w, i), w.calls[i].agenda[0];
    ItemTouches(w, i);
    ItemAgenda(w, i);
    assert CallAsked(w, done, i) && NodeAsked(w, done, head.node) && head in w.calls[i].agenda;
    ItemsStay(w, w', done, s, w.calls[i].agenda);
    forall item | item in w'.calls[i].agenda && item !in w.calls[i].agenda ensures ItemAsked(w', done + [s], item) {
      if item.Claim? { assert ItemAsked(w, done, head); AskedStays(w, w', done, s, head.node); }
      if item.Check? {
        assert ItemAsked(w, done, head);
        ChildAsked(w, done, head.node, item.node);
        AskedStays(w, w', done, s, item.node);
      }
    }
  }

  lemma ItemNodes(w: World, done: seq<Step>, i: nat, s: Step)
    requires AskedInv(w, done) && Sealable(w, i)
    ensures var w' := ItemStep(w, i); forall n: nat :: n < |w'.nodes| ==> NodeAsked(w', done + [s], n)
  {
    var w', head := ItemStep(w, i), w.calls[i].agenda[0];
    ItemTouches(w, i);
    assert CallAsked(w, done, i) && head in w.calls[i].agenda && ItemAsked(w, done, head);
    forall n: nat | n < |w'.nodes| ensures NodeAsked(w', done + [s], n) {
      assert NodeAsked(w, done, n);
      AskedStays(w, w', done, s, n);
    }
  }

  // A call other than the one that moved.
  lemma CallStays(w: World, w': World, done: seq<Step>, s: Step, i: nat, k: nat)
    requires AskedInv(w, done) && MoreLinked(w, w') && |w'.calls| == |w.calls| && i < |w.calls|
    requires w'.calls == w.calls[i := w'.calls[i]] && k < |w.calls| && k != i
    requires forall n: nat :: n < |w.nodes| && w'.nodes[n].parent != w.nodes[n].parent ==> w.calls[i].Admitting? && w.calls[i].child == n
    requires w'.calls[i].Admitting? ==> w.calls[i].Admitting? && w'.calls[i].child == w.calls[i].child
    ensures CallAsked(w', done + [s], k)
  {
    assert CallAsked(w, done, k);
    match w.calls[k]
    case Sealing(agenda, _, _, _) => ItemsStay(w, w', done, s, agenda);
    case _ =>
  }

  lemma ItemKeepsAsked(w: World, done: seq<Step>, i: nat, s: Step)
    requires AskedInv(w, done) && Sealable(w, i)
    ensures AskedInv(ItemStep(w, i), done + [s])
  {
    var w' := ItemStep(w, i);
    ItemTouches(w, i);
    ItemCalls(w, done, i, s);
    ItemNodes(w, done, i, s);
    forall k: nat | k < |w'.calls| ensures CallAsked(w', done + [s], k) {
      if k != i { CallStays(w, w', done, s, i, k); }
    }
  }

  // A call that ends, or takes a hook along, changes no node's flags, parent or children.
  lemma QuietKeepsAsked(w: World, w': World, done: seq<Step>, i: nat, s: Step)
    requires AskedInv(w, done) && i < |w.calls| == |w'.calls| && |w'.nodes| == |w.nodes|
    requires w'.calls == w.calls[i := w'.calls[i]] && !w'.calls[i].Admitting?
    requires w'.calls[i].Sealing? ==> w.calls[i].Sealing? && w'.calls[i].agenda == w.calls[i].agenda
    requires forall n: nat :: n < |w.nodes| ==>
               && w'.nodes[n].parent == w.nodes[n].parent && w'.nodes[n].active == w.nodes[n].active
               && w'.nodes[n].cancelled == w.nodes[n].cancelled && w'.nodes[n].children == w.nodes[n].children
    ensures AskedInv(w', done + [s])
  {
    forall n: nat | n < |w'.nodes| ensures NodeAsked(w', done + [s], n) {
      assert NodeAsked(w, done, n);
      NodesStay(w, w', done, s, n);
    }
    forall k: nat | k < |w'.calls| ensures CallAsked(w', done + [s], k) {
      if k != i { CallStays(w, w', done, s, i, k); }
      else if w'.calls[k].Sealing? {
        assert CallAsked(w, done, k);
        ItemsStay(w, w', done, s, w'.calls[k].agenda);
      }
    }
  }

  lemma SealKeepsAsked(w: World, done: seq<Step>, i: nat, s: Step)
    requires AskedInv(w, done) && i < |w.calls| && w.calls[i].Sealing?
    ensures AskedInv(SealStep(w, i), done + [s])
  {
    if Sealable(w, i) { ItemKeepsAsked(w, done, i, s); }
    else if w.calls[i].agenda != [] { NothingHappens(w, done, s); }
    else { QuietKeepsAsked(w, SealStep(w, i), done, i, s); }
  }

  lemma NothingHappens(w: World, done: seq<Step>, s: Step)
    requires AskedInv(w, done)
    ensures AskedInv(w, done + [s])
  {
    forall n: nat | n < |w.nodes| ensures NodeAsked(w, done + [s], n) {
      assert NodeAsked(w, done, n);
      NodesStay(w, w, done, s, n);
    }
    forall k: nat | k < |w.calls| ensures CallAsked(w, done + [s], k) {
      assert CallAsked(w, done, k);
      if w.calls[k].Sealing? { ItemsStay(w, w, done, s, w.calls[k].agenda); }
    }
  }

  // ---- An admission ------------------------------------------------------------------------------------------------

  lemma AdmitTouches(w: World, i: nat)
    requires i < |w.calls| && w.calls[i].Admitting? && w.calls[i].parent < w.calls[i].child < |w.nodes|
    requires w.nodes[w.calls[i].child].parent == (if w.calls[i].pc.Linked? || w.calls[i].pc.SawActiveAgain? then Some(w.calls[i].parent) else None)
    ensures var w', c := AdmitStep(w, i), w.calls[i];
            && |w'.nodes| == |w.nodes| && |w'.calls| == |w.calls| && w'.calls == w.calls[i := w'.calls[i]]
            && MoreLinked(w, w')
            && (forall n: nat :: n < |w.nodes| ==>
                  && w'.nodes[n].active == w.nodes[n].active && w'.nodes[n].cancelled == w.nodes[n].cancelled
                  && (n != c.child ==> w'.nodes[n].parent == w.nodes[n].parent)
                  && (n != c.parent ==> w'.nodes[n].children == w.nodes[n].children))
  {
  }

  lemma AdmitLinks(w: World, i: nat)
    requires i < |w.calls| && w.calls[i].Admitting? && w.calls[i].parent < w.calls[i].child < |w.nodes|
    ensures var w', c := AdmitStep(w, i), w.calls[i];
            && |w'.nodes| == |w.nodes|
            && (c.pc.Open? ==> w'.nodes[c.child].parent == Some(c.parent)
                               && w'.nodes[c.parent].children == w.nodes[c.parent].children + [c.child])
            && (!c.pc.Open? ==> w'.nodes[c.child].parent == w.nodes[c.child].parent
                                && w'.nodes[c.parent].children == w.nodes[c.parent].children)
  {
  }

  lemma AdmitNodes(w: World, done: seq<Step>, i: nat, s: Step)
    requires AskedInv(w, done) && i < |w.calls| && w.calls[i].Admitting?
    ensures var w' := AdmitStep(w, i); forall n: nat :: n < |w'.nodes| ==> NodeAsked(w', done + [s], n)
  {
    var w', c := AdmitStep(w, i), w.calls[i];
    assert CallAsked(w, done, i);
    AdmitTouches(w, i);
    AdmitLinks(w, i);
    forall n: nat | n < |w'.nodes| ensures NodeAsked(w', done + [s], n) {
      assert NodeAsked(w, done, n);
      AskedStays(w, w', done, s, n);
      forall x | x in w'.nodes[n].children ensures x < |w'.nodes| && w'.nodes[x].parent == Some(n) {
        assert x in w.nodes[n].children || (n == c.parent && x == c.child && c.pc.Open?);
      }
    }
  }

  lemma AdmitCall(w: World, done: seq<Step>, i: nat, s: Step)
    requires AskedInv(w, done) && i < |w.calls| && w.calls[i].Admitting?
    ensures CallAsked(AdmitStep(w, i), done + [s], i)
  {
    var w', c := AdmitStep(w, i), w.calls[i];
    assert CallAsked(w, done, i) && NodeAsked(w, done, c.parent);
    AdmitTouches(w, i);
    AdmitLinks(w, i);
    if w'.calls[i].Sealing? {
      assert w'.calls[i].agenda == [Check(c.child)];
      ChildAsked(w, done, c.parent, c.child);
      AskedStays(w, w', done, s, c.child);
    }
  }

  lemma AdmitKeepsAsked(w: World, done: seq<Step>, i: nat, s: Step)
    requires AskedInv(w, done) && i < |w.calls| && w.calls[i].Admitting?
    ensures AskedInv(AdmitStep(w, i), done + [s])
  {
    var w' := AdmitStep(w, i);
    assert CallAsked(w, done, i);
    AdmitTouches(w, i);
    AdmitNodes(w, done, i, s);
    AdmitCall(w, done, i, s);
    AdmitStaysAdmitting(w, i);
    forall k: nat | k < |w'.calls| ensures CallAsked(w', done + [s], k) {
      if k != i { CallStays(w, w', done, s, i, k); }
    }
  }

  lemma AdmitStaysAdmitting(w: World, i: nat)
    requires i < |w.calls| && w.calls[i].Admitting?
    ensures |AdmitStep(w, i).calls| == |w.calls|
    ensures AdmitStep(w, i).calls[i].Admitting? ==> AdmitStep(w, i).calls[i].child == w.calls[i].child
  {
  }

  // ---- The other steps ------------------------------------------------------------------------------------------------

  lemma RegisterKeepsAsked(w: World, done: seq<Step>, i: nat, s: Step)
    requires AskedInv(w, done) && i < |w.calls| && w.calls[i].Registering?
    ensures AskedInv(RegisterStep(w, i), done + [s])
  {
    if w.calls[i].node < |w.nodes| && w.calls[i].hook < |w.hooks| {
      RegisterIsSameTree(w, i);
      RegisterCallMoves(w, i);
      QuietKeepsAsked(w, RegisterStep(w, i), done, i, s);
    } else {
      NothingHappens(w, done, s);
    }
  }

  lemma RegisterCallMoves(w: World, i: nat)
    requires i < |w.calls| && w.calls[i].Registering?
    ensures |RegisterStep(w, i).calls| == |w.calls| && RegisterStep(w, i).calls == w.calls[i := RegisterStep(w, i).calls[i]]
    ensures RegisterStep(w, i).calls[i].Registering? || RegisterStep(w, i).calls[i].Done?
  {
  }

  // What a step that begins something adds.
  lemma StartAdds(w: World, s: Step)
    requires !s.Advance? && !s.Abandon?
    ensures var w' := Apply(w, s);
            && |w.nodes| <= |w'.nodes| && |w.calls| <= |w'.calls| <= |w.calls| + 1
            && (forall n: nat :: |w.nodes| <= n < |w'.nodes| ==> w'.nodes[n] == FreshNode)
            && (forall n: nat :: n < |w.nodes| ==> forall x :: x in w'.nodes[n].children ==> x in w.nodes[n].children)
            && (|w'.calls| > |w.calls| ==>
                  || (s.StartCancel? && w'.calls[|w.calls|] == Sealing([Check(s.node)], [], [], None))
                  || (s.StartDeactivate? && w'.calls[|w.calls|] == Sealing([Deactivate(s.node)], [], [], None))
                  || (s.StartTryChild? && s.parent < |w.nodes| && |w'.nodes| == |w.nodes| + 1
                      && w'.calls[|w.calls|] == Admitting(s.parent, |w.nodes|, Locked))
                  || w'.calls[|w.calls|].Registering?)
  {
  }

  lemma StartKeepsAsked(w: World, done: seq<Step>, s: Step)
    requires AskedInv(w, done) && !s.Advance? && !s.Abandon?
    ensures AskedInv(Apply(w, s), done + [s])
  {
    var w' := Apply(w, s);
    StartIsMore(w, s);
    StartAdds(w, s);
    assert forall n: nat :: n < |w.nodes| ==> OnlyPruned(w, w.nodes[n], w'.nodes[n]);
    forall n: nat | n < |w'.nodes| ensures NodeAsked(w', done + [s], n) {
      if n < |w.nodes| {
        assert NodeAsked(w, done, n);
        NodesStay(w, w', done, s, n);
      }
    }
    forall k: nat | k < |w.calls| ensures CallAsked(w', done + [s], k) {
      assert CallAsked(w, done, k);
      if w.calls[k].Sealing? { ItemsStay(w, w', done, s, w.calls[k].agenda); }
    }
    if |w'.calls| > |w.calls| { StartedAsked(w, done, s); }
  }

  lemma StartedAsked(w: World, done: seq<Step>, s: Step)
    requires AskedInv(w, done) && !s.Advance? && !s.Abandon? && |Apply(w, s).calls| > |w.calls|
    ensures CallAsked(Apply(w, s), done + [s], |w.calls|)
  {
    var w' := Apply(w, s);
    StartAdds(w, s);
    StartIsMore(w, s);
    assert s in done + [s];
    if w'.calls[|w.calls|].Admitting? {
      forall j: nat | j < |w'.calls| && j != |w.calls| && w'.calls[j].Admitting? ensures w'.calls[j].child != |w.nodes| {
        assert CallAsked(w, done, j);
      }
    }
  }

  lemma StepKeepsAsked(w: World, done: seq<Step>, s: Step)
    requires AskedInv(w, done)
    ensures AskedInv(Apply(w, s), done + [s])
  {
    if s.Advance? {
      if s.call < |w.calls| {
        match w.calls[s.call]
        case Sealing(_, _, _, _) => SealKeepsAsked(w, done, s.call, s);
        case Admitting(_, _, _) => AdmitKeepsAsked(w, done, s.call, s);
        case Registering(_, _, _) => RegisterKeepsAsked(w, done, s.call, s);
        case Done => NothingHappens(w, done, s);
      } else {
        NothingHappens(w, done, s);
      }
    } else if s.Abandon? {
      if s.call < |w.calls| && Abandons(w.calls[s.call]) { QuietKeepsAsked(w, Apply(w, s), done, s.call, s); }
      else { NothingHappens(w, done, s); }
    } else {
      StartKeepsAsked(w, done, s);
    }
  }

  lemma {:induction false} RunKeepsAsked(w: World, done: seq<Step>, steps: seq<Step>)
    requires AskedInv(w, done)
    ensures AskedInv(Run(w, steps), done + steps)
    decreases steps
  {
    if steps == [] {
      assert done + steps == done;
    } else {
      StepKeepsAsked(w, done, steps[0]);
      RunKeepsAsked(Apply(w, steps[0]), done + [steps[0]], steps[1..]);
      assert done + [steps[0]] + steps[1..] == done + steps;
    }
  }

  lemma {:induction false} RunConcat(w: World, a: seq<Step>, b: seq<Step>)
    ensures Run(w, a + b) == Run(Run(w, a), b)
    decreases a
  {
    if a == [] {
      assert [] + b == b;
    } else {
      assert (a + b)[1..] == a[1..] + b;
      RunConcat(Apply(w, a[0]), a[1..], b);
    }
  }

  // ---- Hooks that run ---------------------------------------------------------------------------------------------------

  ghost predicate RunAsked(w: World, h: nat)
    requires h < |w.hooks|
  {
    var hook := w.hooks[h];
    hook.place.Collected? || hook.place.Ran? || hook.runs > 0 ==> hook.node < |w.nodes| && w.nodes[hook.node].cancelled
  }

  ghost predicate RunInv(w: World) {
    forall h: nat :: h < |w.hooks| ==> RunAsked(w, h)
  }

  // Steps that move no hook to where it runs, and take no cancellation back.
  lemma HooksMoveOff(w: World, w': World)
    requires RunInv(w) && |w.hooks| <= |w'.hooks| && MoreLinked(w, w')
    requires forall h: nat :: h < |w.hooks| ==>
               w'.hooks[h].node == w.hooks[h].node && w'.hooks[h].runs == w.hooks[h].runs
               && (w'.hooks[h].place.Collected? || w'.hooks[h].place.Ran? ==> w'.hooks[h].place == w.hooks[h].place)
    requires forall h: nat :: |w.hooks| <= h < |w'.hooks| ==> w'.hooks[h].runs == 0 && w'.hooks[h].place.InCall?
    ensures RunInv(w')
  {
    forall h: nat | h < |w'.hooks| ensures RunAsked(w', h) {
      if h < |w.hooks| { assert RunAsked(w, h); }
    }
  }

  predicate SameHookOr(w: World, w': World, h: nat) {
    |w'.hooks| == |w.hooks| && forall k: nat :: k < |w.hooks| && k != h ==> w'.hooks[k] == w.hooks[k]
  }

  // One hook runs, of a node that is cancelled.
  lemma OneRuns(w: World, w': World, h: nat)
    requires RunInv(w) && h < |w.hooks| && MoreLinked(w, w') && SameHookOr(w, w', h)
    requires w'.hooks[h].node == w.hooks[h].node < |w.nodes| && w.nodes[w.hooks[h].node].cancelled
    ensures RunInv(w')
  {
    forall k: nat | k < |w'.hooks| ensures RunAsked(w', k) { assert RunAsked(w, k); }
  }

  lemma TakeHooksRuns(w: World, done: seq<Step>, i: nat)
    requires RunInv(w) && H.HookInv(w) && AskedInv(w, done) && Sealable(w, i) && w.calls[i].agenda[0].TakeHooks?
    ensures RunInv(ItemStep(w, i))
  {
    var w', n := ItemStep(w, i), w.calls[i].agenda[0].node;
    assert CallAsked(w, done, i) && w.calls[i].agenda[0] in w.calls[i].agenda;
    assert H.NodeHooksInv(w, n);
    forall h: nat | h < |w'.hooks| ensures RunAsked(w', h) { assert RunAsked(w, h); }
  }

  lemma OtherItemHooks(w: World, i: nat)
    requires Sealable(w, i) && !w.calls[i].agenda[0].TakeHooks?
    ensures var w' := ItemStep(w, i);
            |w'.hooks| == |w.hooks| && forall h: nat :: h < |w.hooks| ==>
              w'.hooks[h] == w.hooks[h] || w'.hooks[h] == w.hooks[h].(place := Dropped(NodeInactive))
  {
  }

  lemma SealRuns(w: World, done: seq<Step>, i: nat)
    requires RunInv(w) && H.HookInv(w) && AskedInv(w, done) && i < |w.calls| && w.calls[i].Sealing?
    ensures RunInv(SealStep(w, i))
  {
    var c := w.calls[i];
    if Sealable(w, i) {
      if c.agenda[0].TakeHooks? { TakeHooksRuns(w, done, i); }
      else {
        ItemTouches(w, i);
        OtherItemHooks(w, i);
        HooksMoveOff(w, ItemStep(w, i));
      }
    } else if c.agenda == [] && c.collected != [] {
      assert H.CallHooksInv(w, i) && c.collected[0] in c.collected;
      assert RunAsked(w, c.collected[0]);
      OneRuns(w, SealStep(w, i), c.collected[0]);
    } else {
      HooksMoveOff(w, SealStep(w, i));
    }
  }

  lemma RegisterHooks(w: World, i: nat)
    requires i < |w.calls| && w.calls[i].Registering? && w.calls[i].node < |w.nodes| && w.calls[i].hook < |w.hooks|
    ensures var w', c := RegisterStep(w, i), w.calls[i];
            && |w'.hooks| == |w.hooks|
            && (forall h: nat :: h < |w.hooks| && h != c.hook ==>
                  w'.hooks[h] == w.hooks[h] || w'.hooks[h] == w.hooks[h].(place := Dropped(GuardGone)))
            && w'.hooks[c.hook].node == w.hooks[c.hook].node
            && (w'.hooks[c.hook].runs != w.hooks[c.hook].runs || w'.hooks[c.hook].place.Ran? || w'.hooks[c.hook].place.Collected? ==>
                  w'.hooks[c.hook] == w.hooks[c.hook] || w.nodes[c.node].cancelled)
  {
  }

  lemma RegisterRuns(w: World, i: nat)
    requires RunInv(w) && H.HookInv(w) && i < |w.calls| && w.calls[i].Registering?
    ensures RunInv(RegisterStep(w, i))
  {
    var c, w' := w.calls[i], RegisterStep(w, i);
    assert H.CallHooksInv(w, i);
    RegisterHooks(w, i);
    RegisterIsSameTree(w, i);
    forall h: nat | h < |w'.hooks| ensures RunAsked(w', h) { assert RunAsked(w, h); }
  }

  lemma StartHooks(w: World, s: Step)
    requires !s.Advance? && !s.Abandon?
    ensures var w' := Apply(w, s);
            && |w.hooks| <= |w'.hooks| && (forall h: nat :: h < |w.hooks| ==> w'.hooks[h] == w.hooks[h])
            && (forall h: nat :: |w.hooks| <= h < |w'.hooks| ==> w'.hooks[h].runs == 0 && w'.hooks[h].place.InCall?)
  {
  }

  lemma StepKeepsRuns(w: World, done: seq<Step>, s: Step)
    requires RunInv(w) && H.HookInv(w) && AskedInv(w, done)
    ensures RunInv(Apply(w, s))
  {
    if s.Advance? {
      if s.call < |w.calls| {
        match w.calls[s.call]
        case Sealing(_, _, _, _) => SealRuns(w, done, s.call);
        case Admitting(_, _, _) => AdmitRuns(w, done, s.call);
        case Registering(_, _, _) => RegisterRuns(w, s.call);
        case Done =>
      }
    } else if s.Abandon? {
      HooksMoveOff(w, Apply(w, s));
    } else {
      StartIsMore(w, s);
      StartHooks(w, s);
      assert forall n: nat :: n < |w.nodes| ==> OnlyPruned(w, w.nodes[n], Apply(w, s).nodes[n]);
      HooksMoveOff(w, Apply(w, s));
    }
  }

  lemma AdmitRuns(w: World, done: seq<Step>, i: nat)
    requires RunInv(w) && AskedInv(w, done) && i < |w.calls| && w.calls[i].Admitting?
    ensures RunInv(AdmitStep(w, i))
  {
    assert CallAsked(w, done, i);
    AdmitTouches(w, i);
    H.AdmitStepLeavesCalls(w, i);
    HooksMoveOff(w, AdmitStep(w, i));
  }

  lemma {:induction false} RunKeepsRuns(w: World, done: seq<Step>, steps: seq<Step>)
    requires RunInv(w) && H.HookInv(w) && AskedInv(w, done)
    ensures RunInv(Run(w, steps))
    decreases steps
  {
    if steps != [] {
      StepKeepsRuns(w, done, steps[0]);
      H.StepKeepsHooks(w, steps[0]);
      StepKeepsAsked(w, done, steps[0]);
      RunKeepsRuns(Apply(w, steps[0]), done + [steps[0]], steps[1..]);
    }
  }

  // ---- Admission ----------------------------------------------------------------------------------------------------------

  // A child on its way under its parent: linked, or its admission still to come, or the parent closed.
  predicate WillLink(w: World, i: nat, p: nat, child: nat) {
    && i < |w.calls| && p < |w.nodes| && child < |w.nodes|
    && (w.nodes[child].parent == Some(p) || Closed(w.nodes[p])
        || (w.calls[i].Admitting? && w.calls[i].parent == p && w.calls[i].child == child && !w.calls[i].pc.Linked?
            && !w.calls[i].pc.SawActiveAgain? && (w.calls[i].pc.SawActive? ==> w.calls[i].pc.active)))
  }

  lemma AdmitGoesOn(w: World, i: nat, p: nat, child: nat)
    requires i < |w.calls| && w.calls[i].Admitting? && WillLink(w, i, p, child) && MoreLinked(w, AdmitStep(w, i))
    ensures WillLink(AdmitStep(w, i), i, p, child)
  {
  }

  lemma StepIsMore(w: World, done: seq<Step>, s: Step)
    requires AskedInv(w, done)
    ensures MoreLinked(w, Apply(w, s))
  {
    if s.Advance? {
      if s.call < |w.calls| {
        match w.calls[s.call]
        case Sealing(_, _, _, _) => if Sealable(w, s.call) { ItemTouches(w, s.call); }
        case Admitting(_, _, _) =>
          assert CallAsked(w, done, s.call);
          AdmitTouches(w, s.call);
        case Registering(_, _, _) =>
          if w.calls[s.call].node < |w.nodes| && w.calls[s.call].hook < |w.hooks| { RegisterIsSameTree(w, s.call); }
        case Done =>
      }
    } else if !s.Abandon? {
      StartIsMore(w, s);
      assert forall n: nat :: n < |w.nodes| ==> OnlyPruned(w, w.nodes[n], Apply(w, s).nodes[n]);
    }
  }

  lemma StepLinks(w: World, done: seq<Step>, s: Step, i: nat, p: nat, child: nat)
    requires AskedInv(w, done) && WillLink(w, i, p, child)
    ensures WillLink(Apply(w, s), i, p, child)
  {
    StepIsMore(w, done, s);
    if s.Advance? && s.call == i && w.calls[i].Admitting? { AdmitGoesOn(w, i, p, child); }
    else if (s.Advance? || s.Abandon?) && s.call == i {
      if s.Advance? && w.calls[i].Sealing? { SealKeeps(w, i, p); }
      if s.Advance? && w.calls[i].Registering? { RegisterKeeps(w, i, p); }
    } else { StepKeepsOthers(w, s, i, p); }
  }

  lemma {:induction false} RunLinks(w: World, done: seq<Step>, steps: seq<Step>, i: nat, p: nat, child: nat)
    requires AskedInv(w, done) && WillLink(w, i, p, child)
    ensures WillLink(Run(w, steps), i, p, child)
    decreases steps
  {
    if steps != [] {
      StepLinks(w, done, steps[0], i, p, child);
      StepKeepsAsked(w, done, steps[0]);
      RunLinks(Apply(w, steps[0]), done + [steps[0]], steps[1..], i, p, child);
    }
  }

  // ---- Main results -----------------------------------------------------------------------------------------------------

  // A node is closed only if somebody asked for it: it is inactive only if it was itself deactivated, and
  // cancelled only if it was cancelled, or something it hangs under, at any height, was cancelled or deactivated.
  lemma {:induction false} ClosedIsAsked(steps: seq<Step>, n: nat)
    requires n < |Run(Init(), steps).nodes|
    ensures var w := Run(Init(), steps);
            && (!w.nodes[n].active ==> StartDeactivate(n) in steps)
            && (w.nodes[n].cancelled ==> CancelAsked(w, steps, n))
  {
    RunKeepsAsked(Init(), [], steps);
    assert [] + steps == steps;
    assert NodeAsked(Run(Init(), steps), steps, n);
  }

  lemma StartedCancel(w: World, n: nat)
    requires n < |w.nodes| && w.nodes[n].live
    ensures OnItsWay(Apply(w, StartCancel(n)), |w.calls|, n)
  {
  }

  // A cancel that is done has done it: whatever else goes on meanwhile, its node is cancelled, or it was
  // inactive, and then somebody had deactivated it.
  lemma {:induction false} FinishedCancelCancels(before: seq<Step>, rest: seq<Step>, n: nat)
    requires var w := Run(Init(), before); n < |w.nodes| && w.nodes[n].live
    requires var i, w' := |Run(Init(), before).calls|, Run(Init(), before + [StartCancel(n)] + rest);
             i < |w'.calls| && w'.calls[i].Done?
    ensures var w' := Run(Init(), before + [StartCancel(n)] + rest);
            && n < |w'.nodes|
            && (w'.nodes[n].cancelled || (!w'.nodes[n].active && StartDeactivate(n) in before + [StartCancel(n)] + rest))
  {
    var w := Run(Init(), before);
    var steps := before + [StartCancel(n)] + rest;
    RunConcat(Init(), before, [StartCancel(n)] + rest);
    assert before + ([StartCancel(n)] + rest) == steps;
    assert ([StartCancel(n)] + rest)[1..] == rest;
    StartedCancel(w, n);
    RunGoesOn(Apply(w, StartCancel(n)), rest, |w.calls|, n);
    ClosedIsAsked(steps, n);
  }

  lemma StartedDeactivate(w: World, n: nat)
    requires n < |w.nodes| && w.nodes[n].live
    ensures WillDeactivate(Apply(w, StartDeactivate(n)), |w.calls|, n)
  {
  }

  // And a deactivation has deactivated its node.
  lemma {:induction false} FinishedDeactivateDeactivates(before: seq<Step>, rest: seq<Step>, n: nat)
    requires var w := Run(Init(), before); n < |w.nodes| && w.nodes[n].live
    requires var i, w' := |Run(Init(), before).calls|, Run(Init(), before + [StartDeactivate(n)] + rest);
             i < |w'.calls| && w'.calls[i].Done?
    ensures var w' := Run(Init(), before + [StartDeactivate(n)] + rest); n < |w'.nodes| && !w'.nodes[n].active
  {
    var w := Run(Init(), before);
    RunConcat(Init(), before, [StartDeactivate(n)] + rest);
    assert before + ([StartDeactivate(n)] + rest) == before + [StartDeactivate(n)] + rest;
    assert ([StartDeactivate(n)] + rest)[1..] == rest;
    StartedDeactivate(w, n);
    RunGoesOn(Apply(w, StartDeactivate(n)), rest, |w.calls|, n);
  }

  // A hook runs only if its node was cancelled, and so only if that was asked for.
  lemma {:induction false} HookRunsIfCancelled(steps: seq<Step>, h: nat)
    requires var w := Run(Init(), steps); h < |w.hooks| && w.hooks[h].runs > 0
    ensures var w := Run(Init(), steps);
            && w.hooks[h].node < |w.nodes| && w.nodes[w.hooks[h].node].cancelled && CancelAsked(w, steps, w.hooks[h].node)
  {
    RunKeepsRuns(Init(), [], steps);
    assert RunAsked(Run(Init(), steps), h);
    ClosedIsAsked(steps, Run(Init(), steps).hooks[h].node);
  }

  lemma StartedAdmission(w: World, p: nat)
    requires p < |w.nodes| && w.nodes[p].live && w.nodes[p].childrenLock.None?
    ensures WillLink(Apply(w, StartTryChild(p)), |w.calls|, p, |w.nodes|)
  {
  }

  // An admission that is done has linked the child it was begun for, unless the parent is closed.
  lemma {:induction false} FinishedAdmissionLinks(before: seq<Step>, rest: seq<Step>, p: nat)
    requires var w := Run(Init(), before); p < |w.nodes| && w.nodes[p].live && w.nodes[p].childrenLock.None?
    requires var i, w' := |Run(Init(), before).calls|, Run(Init(), before + [StartTryChild(p)] + rest);
             i < |w'.calls| && w'.calls[i].Done?
    ensures var child, w' := |Run(Init(), before).nodes|, Run(Init(), before + [StartTryChild(p)] + rest);
            child < |w'.nodes| && p < |w'.nodes| && (w'.nodes[child].parent == Some(p) || Closed(w'.nodes[p]))
  {
    var w := Run(Init(), before);
    RunConcat(Init(), before, [StartTryChild(p)] + rest);
    assert before + ([StartTryChild(p)] + rest) == before + [StartTryChild(p)] + rest;
    assert ([StartTryChild(p)] + rest)[1..] == rest;
    StartedAdmission(w, p);
    RunKeepsAsked(Init(), [], before);
    StepKeepsAsked(w, [] + before, StartTryChild(p));
    RunLinks(Apply(w, StartTryChild(p)), [] + before + [StartTryChild(p)], rest, |w.calls|, p, |w.nodes|);
  }
}
