/**
 * What becomes of a cancellation hook: run at most once, and exactly once when its node is
 * cancelled, was never deactivated, and its guard was still held when it was looked at.
 */
module CancellationHooks {
  import opened Wrappers
  import opened CancellationTree

  // Somebody who closed the node has still to take its hooks.
  ghost predicate HookWaits(w: World, n: nat) {
    Somebody(w, TakeHooks(n)) || Somebody(w, DiscardHooks(n))
  }

  ghost predicate PlaceInv(w: World, h: nat)
    requires h < |w.hooks|
  {
    var hook := w.hooks[h];
    && hook.node < |w.nodes|
    && hook.runs == (if hook.place.Ran? then 1 else 0)
    && match hook.place
       case InCall(i) => i < |w.calls| && w.calls[i].Registering? && w.calls[i].hook == h && w.calls[i].node == hook.node
       case Stored(n) => n == hook.node && h in w.nodes[n].hooks
       case Collected(i) => i < |w.calls| && w.calls[i].Sealing? && h in w.calls[i].collected
       case Ran => true
       case Dropped(GuardGone) => h in w.expired
       case Dropped(NodeInactive) => !w.nodes[hook.node].active
       case Dropped(Unpropagated) => true
  }

  ghost predicate NodeHooksInv(w: World, n: nat)
    requires n < |w.nodes|
  {
    && (forall h :: h in w.nodes[n].hooks ==> h < |w.hooks| && w.hooks[h].place == Stored(n) && w.hooks[h].node == n)
    && NoDuplicates(w.nodes[n].hooks)
    && (Closed(w.nodes[n]) && w.nodes[n].hooks != [] ==> HookWaits(w, n))
  }

  ghost predicate CallHooksInv(w: World, i: nat)
    requires i < |w.calls|
  {
    match w.calls[i]
    case Sealing(agenda, collected, _, _) =>
      && (forall h :: h in collected ==> h < |w.hooks| && w.hooks[h].place == Collected(i))
      && NoDuplicates(collected)
      && (forall item :: item in agenda && item.DiscardHooks? ==> item.node < |w.nodes| && !w.nodes[item.node].active)
    case Registering(n, h, pc) =>
      && n < |w.nodes| && h < |w.hooks| && w.hooks[h].place == InCall(i) && w.hooks[h].node == n
      && (pc.HooksLocked? || pc.HooksActive? || pc.HooksOpen? ==> w.nodes[n].hooksLock == Some(i))
      && (pc.HooksActive? && !w.nodes[n].active ==> HookWaits(w, n))
      && (pc.HooksOpen? && Closed(w.nodes[n]) ==> HookWaits(w, n))
    case _ => true
  }

  ghost predicate HookInv(w: World) {
    && (forall h: nat :: h < |w.hooks| ==> PlaceInv(w, h))
    && (forall n: nat :: n < |w.nodes| ==> NodeHooksInv(w, n))
    && (forall i: nat :: i < |w.calls| ==> CallHooksInv(w, i))
  }

  // Steps that leave every hook where it is: flags move one way, agendas lose no pending take, and
  // a node that gets closed has its hooks left to take.
  ghost predicate HooksStay(w: World, w': World) {
    && |w.nodes| <= |w'.nodes| && |w.calls| <= |w'.calls| && w'.hooks == w.hooks && w.expired <= w'.expired
    && (forall n: nat :: n < |w.nodes| ==>
          && w'.nodes[n].hooks == w.nodes[n].hooks && w'.nodes[n].hooksLock == w.nodes[n].hooksLock
          && (!w.nodes[n].active ==> !w'.nodes[n].active)
          && (w'.nodes[n].active != w.nodes[n].active || w'.nodes[n].cancelled != w.nodes[n].cancelled ==> HookWaits(w', n)))
    && (forall n: nat :: |w.nodes| <= n < |w'.nodes| ==> w'.nodes[n].hooks == [])
    && (forall i: nat :: i < |w.calls| ==> HookCallStays(w, w', i))
    && (forall i: nat :: |w.calls| <= i < |w'.calls| ==> !w'.calls[i].Registering? && CallHooksInv(w', i))
    && (forall n: nat :: n < |w.nodes| && HookWaits(w, n) ==> HookWaits(w', n))
  }

  ghost predicate HookCallStays(w: World, w': World, i: nat)
    requires i < |w.calls| <= |w'.calls|
  {
    || w'.calls[i] == w.calls[i]
    || (w.calls[i].Sealing? && w'.calls[i].Sealing? && w'.calls[i].collected == w.calls[i].collected && CallHooksInv(w', i))
    || (w.calls[i].Sealing? && w.calls[i].collected == [] && w'.calls[i].Done?)
    || (w.calls[i].Admitting? && !w'.calls[i].Registering? && CallHooksInv(w', i))
  }

  lemma StayKeepsHooks(w: World, w': World)
    requires HookInv(w) && HooksStay(w, w')
    ensures HookInv(w')
  {
    forall h: nat | h < |w'.hooks| ensures PlaceInv(w', h) {
      assert PlaceInv(w, h);
      var place := w.hooks[h].place;
      if place.InCall? { assert HookCallStays(w, w', place.call); }
      if place.Collected? { assert HookCallStays(w, w', place.seal); }
    }
    forall n: nat | n < |w'.nodes| ensures NodeHooksInv(w', n) {
      if n < |w.nodes| { assert NodeHooksInv(w, n); }
    }
    forall i: nat | i < |w'.calls| ensures CallHooksInv(w', i) {
      if i < |w.calls| { assert CallHooksInv(w, i) && HookCallStays(w, w', i); }
    }
  }

  lemma WaitsStay(w: World, w': World, i: nat, n: nat)
    requires i < |w.calls| == |w'.calls| && w'.calls == w.calls[i := w'.calls[i]]
    requires HookWaits(w, n)
    requires Has(w.calls[i], TakeHooks(n)) ==> Has(w'.calls[i], TakeHooks(n))
    requires Has(w.calls[i], DiscardHooks(n)) ==> Has(w'.calls[i], DiscardHooks(n))
    ensures HookWaits(w', n)
  {
    if Somebody(w, TakeHooks(n)) { SomebodyStays(w, w', i, TakeHooks(n)); }
    else { SomebodyStays(w, w', i, DiscardHooks(n)); }
  }

  predicate Plain(w: World, i: nat) {
    && i < |w.calls| && w.calls[i].Sealing? && w.calls[i].agenda != [] && w.calls[i].agenda[0].node < |w.nodes|
    && !w.calls[i].agenda[0].TakeHooks? && !w.calls[i].agenda[0].DiscardHooks?
  }

  // What such an item does to the list: the rest of it stays, and nobody is to discard the hooks of
  // a node that is still active.
  lemma PlainItemAgenda(w: World, i: nat)
    requires Plain(w, i)
    ensures var c' := ItemStep(w, i).calls[i];
            var n := w.calls[i].agenda[0].node;
            && |ItemStep(w, i).calls| == |w.calls| && |ItemStep(w, i).nodes| == |w.nodes|
            && c'.Sealing? && c'.collected == w.calls[i].collected
            && (forall item :: item in w.calls[i].agenda && (item.TakeHooks? || item.DiscardHooks?) ==> item in c'.agenda)
            && (forall item :: item in c'.agenda && item.DiscardHooks? ==>
                  item in w.calls[i].agenda || (item.node == n && !ItemStep(w, i).nodes[n].active))
            && (ItemStep(w, i).nodes[n].cancelled != w.nodes[n].cancelled ==> TakeHooks(n) in c'.agenda)
            && (ItemStep(w, i).nodes[n].active != w.nodes[n].active ==> DiscardHooks(n) in c'.agenda)
  {
    var c := w.calls[i];
    assert c.agenda == [c.agenda[0]] + c.agenda[1..];
  }

  lemma PlainItemTouches(w: World, i: nat)
    requires Plain(w, i)
    ensures var w', n := ItemStep(w, i), w.calls[i].agenda[0].node;
            && |w'.calls| == |w.calls| && |w'.nodes| == |w.nodes|
            && w'.calls == w.calls[i := w'.calls[i]] && w'.hooks == w.hooks && w'.expired == w.expired
            && (forall k: nat :: k < |w.nodes| && k != n ==> w'.nodes[k] == w.nodes[k])
            && w'.nodes[n].hooks == w.nodes[n].hooks && w'.nodes[n].hooksLock == w.nodes[n].hooksLock
            && (!w.nodes[n].active ==> !w'.nodes[n].active)
  {
  }

  lemma PlainItemWaits(w: World, i: nat)
    requires Plain(w, i)
    ensures forall k: nat :: k < |w.nodes| && HookWaits(w, k) ==> HookWaits(ItemStep(w, i), k)
    ensures var w', n := ItemStep(w, i), w.calls[i].agenda[0].node;
            w'.nodes[n].active != w.nodes[n].active || w'.nodes[n].cancelled != w.nodes[n].cancelled ==> HookWaits(w', n)
  {
    var w' := ItemStep(w, i);
    var n, c' := w.calls[i].agenda[0].node, w'.calls[i];
    PlainItemAgenda(w, i);
    PlainItemTouches(w, i);
    forall k: nat | k < |w.nodes| && HookWaits(w, k) ensures HookWaits(w', k) { WaitsStay(w, w', i, k); }
    if TakeHooks(n) in c'.agenda { assert Has(c', TakeHooks(n)); }
    if DiscardHooks(n) in c'.agenda { assert Has(c', DiscardHooks(n)); }
  }

  lemma PlainItemCall(w: World, i: nat)
    requires HookInv(w) && Plain(w, i)
    ensures |ItemStep(w, i).calls| == |w.calls| && HookCallStays(w, ItemStep(w, i), i)
  {
    assert CallHooksInv(w, i);
    PlainItemAgenda(w, i);
    PlainItemTouches(w, i);
  }

  lemma PlainItemStays(w: World, i: nat)
    requires HookInv(w) && Plain(w, i)
    ensures HooksStay(w, ItemStep(w, i))
  {
    PlainItemTouches(w, i);
    PlainItemWaits(w, i);
    PlainItemCall(w, i);
  }

  // The items that move no hook.
  lemma PlainItemKeepsHooks(w: World, i: nat)
    requires HookInv(w) && Plain(w, i)
    ensures HookInv(ItemStep(w, i))
  {
    PlainItemStays(w, i);
    StayKeepsHooks(w, ItemStep(w, i));
  }

  predicate Takes(w: World, i: nat) {
    && i < |w.calls| && w.calls[i].Sealing? && w.calls[i].agenda != [] && w.calls[i].agenda[0].node < |w.nodes|
    && w.calls[i].agenda[0].TakeHooks? && w.nodes[w.calls[i].agenda[0].node].hooksLock.None?
  }

  // Selecting a node's hooks: those still guarded go with the seal, the others are dropped.
  lemma TakeHooksPlaces(w: World, i: nat)
    requires HookInv(w) && Takes(w, i)
    ensures forall h: nat :: h < |ItemStep(w, i).hooks| ==> PlaceInv(ItemStep(w, i), h)
  {
    var w' := ItemStep(w, i);
    assert NodeHooksInv(w, w.calls[i].agenda[0].node);
    forall h: nat | h < |w'.hooks| ensures PlaceInv(w', h) { assert PlaceInv(w, h); }
  }

  lemma TakeHooksNodes(w: World, i: nat)
    requires HookInv(w) && Takes(w, i)
    ensures forall k: nat :: k < |ItemStep(w, i).nodes| ==> NodeHooksInv(ItemStep(w, i), k)
  {
    var w' := ItemStep(w, i);
    var n := w.calls[i].agenda[0].node;
    assert w.calls[i].agenda == [w.calls[i].agenda[0]] + w.calls[i].agenda[1..];
    forall k: nat | k < |w.nodes| && k != n && HookWaits(w, k) ensures HookWaits(w', k) { WaitsStay(w, w', i, k); }
    forall k: nat | k < |w'.nodes| ensures NodeHooksInv(w', k) { assert NodeHooksInv(w, k) && NodeHooksInv(w, n); }
  }

  lemma TakeHooksOtherCall(w: World, i: nat, k: nat)
    requires HookInv(w) && Takes(w, i) && k < |w.calls| && k != i
    ensures CallHooksInv(ItemStep(w, i), k)
  {
    var w' := ItemStep(w, i);
    var n := w.calls[i].agenda[0].node;
    assert w.calls[i].agenda == [w.calls[i].agenda[0]] + w.calls[i].agenda[1..];
    assert NodeHooksInv(w, n) && CallHooksInv(w, k);
    if w.calls[k].Registering? && w.calls[k].node != n && HookWaits(w, w.calls[k].node) {
      WaitsStay(w, w', i, w.calls[k].node);
    }
  }

  lemma ConcatDistinct(a: seq<nat>, b: seq<nat>)
    requires NoDuplicates(a) && NoDuplicates(b) && forall x :: x in a ==> x !in b
    ensures NoDuplicates(a + b)
  {
    forall i, j | 0 <= i < j < |a + b| ensures (a + b)[i] != (a + b)[j] {
      if i < |a| <= j { assert (a + b)[i] in a && (a + b)[j] in b; }
    }
  }

  lemma TakeHooksOwnCall(w: World, i: nat)
    requires HookInv(w) && Takes(w, i)
    ensures CallHooksInv(ItemStep(w, i), i)
  {
    var c := w.calls[i];
    var n := c.agenda[0].node;
    var kept := Guarded(w.nodes[n].hooks, w.expired, true);
    assert c.agenda == [c.agenda[0]] + c.agenda[1..];
    assert NodeHooksInv(w, n) && CallHooksInv(w, i);
    ConcatDistinct(c.collected, kept);
  }

  lemma TakeHooksCalls(w: World, i: nat)
    requires HookInv(w) && Takes(w, i)
    ensures forall k: nat :: k < |ItemStep(w, i).calls| ==> CallHooksInv(ItemStep(w, i), k)
  {
    var w' := ItemStep(w, i);
    assert |w'.calls| == |w.calls|;
    forall k: nat | k < |w'.calls| ensures CallHooksInv(w', k) {
      if k == i { TakeHooksOwnCall(w, i); } else { TakeHooksOtherCall(w, i, k); }
    }
  }

  lemma TakeHooksKeepsHooks(w: World, i: nat)
    requires HookInv(w) && Takes(w, i)
    ensures HookInv(ItemStep(w, i))
  {
    TakeHooksPlaces(w, i);
    TakeHooksNodes(w, i);
    TakeHooksCalls(w, i);
  }

  predicate Discards(w: World, i: nat) {
    && i < |w.calls| && w.calls[i].Sealing? && w.calls[i].agenda != [] && w.calls[i].agenda[0].node < |w.nodes|
    && w.calls[i].agenda[0].DiscardHooks? && w.nodes[w.calls[i].agenda[0].node].hooksLock.None?
  }

  // A deactivated node lets go of its hooks.
  lemma DiscardPlaces(w: World, i: nat)
    requires HookInv(w) && Discards(w, i)
    ensures forall h: nat :: h < |ItemStep(w, i).hooks| ==> PlaceInv(ItemStep(w, i), h)
  {
    var w' := ItemStep(w, i);
    assert w.calls[i].agenda[0] in w.calls[i].agenda;
    assert NodeHooksInv(w, w.calls[i].agenda[0].node) && CallHooksInv(w, i);
    forall h: nat | h < |w'.hooks| ensures PlaceInv(w', h) { assert PlaceInv(w, h); }
  }

  lemma DiscardNodes(w: World, i: nat)
    requires HookInv(w) && Discards(w, i)
    ensures forall k: nat :: k < |ItemStep(w, i).nodes| ==> NodeHooksInv(ItemStep(w, i), k)
  {
    var w' := ItemStep(w, i);
    var n := w.calls[i].agenda[0].node;
    assert w.calls[i].agenda == [w.calls[i].agenda[0]] + w.calls[i].agenda[1..];
    forall k: nat | k < |w.nodes| && k != n && HookWaits(w, k) ensures HookWaits(w', k) { WaitsStay(w, w', i, k); }
    forall k: nat | k < |w'.nodes| ensures NodeHooksInv(w', k) { assert NodeHooksInv(w, k) && NodeHooksInv(w, n); }
  }

  lemma DiscardCalls(w: World, i: nat)
    requires HookInv(w) && Discards(w, i)
    ensures forall k: nat :: k < |ItemStep(w, i).calls| ==> CallHooksInv(ItemStep(w, i), k)
  {
    var w' := ItemStep(w, i);
    var n := w.calls[i].agenda[0].node;
    assert w.calls[i].agenda == [w.calls[i].agenda[0]] + w.calls[i].agenda[1..];
    assert NodeHooksInv(w, n) && CallHooksInv(w, i);
    forall k: nat | k < |w.nodes| && k != n && HookWaits(w, k) ensures HookWaits(w', k) { WaitsStay(w, w', i, k); }
    forall k: nat | k < |w'.calls| ensures CallHooksInv(w', k) {
      assert CallHooksInv(w, k);
      if w.calls[k].Registering? {
        var at := w.calls[k].at;
        assert w.calls[k].node != n || !(at.HooksLocked? || at.HooksActive? || at.HooksOpen?);
      }
    }
  }

  lemma DiscardHooksKeepsHooks(w: World, i: nat)
    requires HookInv(w) && Discards(w, i)
    ensures HookInv(ItemStep(w, i))
  {
    DiscardPlaces(w, i);
    DiscardNodes(w, i);
    DiscardCalls(w, i);
  }

  // One collected hook is run by the seal that holds it.
  lemma RunHookKeepsHooks(w: World, i: nat)
    requires HookInv(w)
    requires i < |w.calls| && w.calls[i].Sealing? && w.calls[i].agenda == [] && w.calls[i].collected != []
    ensures HookInv(SealStep(w, i))
  {
    var w' := SealStep(w, i);
    var c := w.calls[i];
    var ran := c.collected[0];
    assert CallHooksInv(w, i);
    assert c.collected == [ran] + c.collected[1..];
    assert ran in c.collected;
    assert PlaceInv(w, ran);
    forall h | h in c.collected[1..] ensures h != ran && h in c.collected {
      var j :| 0 <= j < |c.collected[1..]| && c.collected[1..][j] == h;
      assert c.collected[j + 1] == h;
    }
    forall k: nat | k < |w.nodes| && HookWaits(w, k) ensures HookWaits(w', k) { WaitsStay(w, w', i, k); }
    forall h: nat | h < |w'.hooks| ensures PlaceInv(w', h) { assert PlaceInv(w, h); }
    forall k: nat | k < |w'.nodes| ensures NodeHooksInv(w', k) { assert NodeHooksInv(w, k); }
    forall k: nat | k < |w'.calls| ensures CallHooksInv(w', k) { assert CallHooksInv(w, k); }
  }

  lemma SealStepKeepsHooks(w: World, i: nat)
    requires HookInv(w) && i < |w.calls| && w.calls[i].Sealing?
    ensures HookInv(SealStep(w, i))
  {
    var c := w.calls[i];
    var w' := SealStep(w, i);
    if c.agenda != [] {
      if c.agenda[0].node < |w.nodes| {
        if Plain(w, i) { PlainItemKeepsHooks(w, i); }
        else if w.nodes[c.agenda[0].node].hooksLock.None? {
          if c.agenda[0].TakeHooks? { TakeHooksKeepsHooks(w, i); } else { DiscardHooksKeepsHooks(w, i); }
        }
      }
    } else if c.collected != [] {
      RunHookKeepsHooks(w, i);
    } else {
      forall k: nat | k < |w.nodes| && HookWaits(w, k) ensures HookWaits(w', k) { WaitsStay(w, w', i, k); }
      assert HookCallStays(w, w', i);
      StayKeepsHooks(w, w');
    }
  }

  // What an admission does to the hooks: nothing, whatever it does to the tree.
  lemma AdmitStepLeavesCalls(w: World, i: nat)
    requires i < |w.calls| && w.calls[i].Admitting?
    ensures var w' := AdmitStep(w, i);
            && |w'.calls| == |w.calls| && w'.calls == w.calls[i := w'.calls[i]] && w'.hooks == w.hooks && w'.expired == w.expired
            && !w'.calls[i].Registering? && CallHooksInv(w', i)
  {
  }

  ghost predicate SameHooks(w: World, w': World) {
    && |w'.nodes| == |w.nodes|
    && forall n: nat :: n < |w.nodes| ==>
         && w'.nodes[n].hooks == w.nodes[n].hooks && w'.nodes[n].hooksLock == w.nodes[n].hooksLock
         && w'.nodes[n].active == w.nodes[n].active && w'.nodes[n].cancelled == w.nodes[n].cancelled
  }

  lemma LinkLeavesNodes(w: World, i: nat)
    requires i < |w.calls| && w.calls[i].Admitting? && w.calls[i].pc.Open?
    ensures SameHooks(w, AdmitStep(w, i))
  {
  }

  lemma AdmitStepLeavesNodes(w: World, i: nat)
    requires i < |w.calls| && w.calls[i].Admitting?
    ensures SameHooks(w, AdmitStep(w, i))
  {
    if w.calls[i].pc.Open? { LinkLeavesNodes(w, i); }
  }

  lemma AdmitStepKeepsHooks(w: World, i: nat)
    requires HookInv(w) && i < |w.calls| && w.calls[i].Admitting?
    ensures HookInv(AdmitStep(w, i))
  {
    var w' := AdmitStep(w, i);
    AdmitStepLeavesCalls(w, i);
    AdmitStepLeavesNodes(w, i);
    forall k: nat | k < |w.nodes| && HookWaits(w, k) ensures HookWaits(w', k) { WaitsStay(w, w', i, k); }
    assert HookCallStays(w, w', i);
    assert HooksStay(w, w');
    StayKeepsHooks(w, w');
  }

  lemma MoreWaits(w: World, w': World, n: nat)
    requires |w.calls| <= |w'.calls| && (forall k: nat :: k < |w.calls| ==> w'.calls[k] == w.calls[k]) && HookWaits(w, n)
    ensures HookWaits(w', n)
  {
    forall item | Somebody(w, item) ensures Somebody(w', item) {
      var j: nat :| j < |w.calls| && Has(w.calls[j], item);
      assert Has(w'.calls[j], item);
    }
  }

  // A new registration brings its hook with it.
  lemma StartRegisterKeepsHooks(w: World, n: nat)
    requires HookInv(w) && n < |w.nodes| && w.nodes[n].live
    ensures HookInv(Apply(w, StartRegister(n)))
  {
    var w' := Apply(w, StartRegister(n));
    assert forall k: nat :: k < |w.calls| ==> w'.calls[k] == w.calls[k];
    assert forall h: nat :: h < |w.hooks| ==> w'.hooks[h] == w.hooks[h];
    forall k: nat | k < |w.nodes| && HookWaits(w, k) ensures HookWaits(w', k) { MoreWaits(w, w', k); }
    forall h: nat | h < |w'.hooks| ensures PlaceInv(w', h) {
      if h < |w.hooks| { assert PlaceInv(w, h); }
    }
    forall k: nat | k < |w'.nodes| ensures NodeHooksInv(w', k) { assert NodeHooksInv(w, k); }
    forall k: nat | k < |w'.calls| ensures CallHooksInv(w', k) {
      if k < |w.calls| { assert CallHooksInv(w, k); }
    }
  }

  // The other steps that begin something leave the hooks alone.
  lemma StartStays(w: World, s: Step)
    requires !s.Advance? && !s.Abandon? && !s.StartRegister?
    ensures var w' := Apply(w, s);
            && |w.nodes| <= |w'.nodes| && |w.calls| <= |w'.calls| && w'.hooks == w.hooks && w.expired <= w'.expired
            && (forall n: nat :: n < |w.nodes| ==>
                  && w'.nodes[n].hooks == w.nodes[n].hooks && w'.nodes[n].hooksLock == w.nodes[n].hooksLock
                  && w'.nodes[n].active == w.nodes[n].active && w'.nodes[n].cancelled == w.nodes[n].cancelled)
            && (forall n: nat :: |w.nodes| <= n < |w'.nodes| ==> w'.nodes[n].hooks == [])
            && (forall k: nat :: k < |w.calls| ==> w'.calls[k] == w.calls[k])
            && (forall k: nat :: |w.calls| <= k < |w'.calls| ==> !w'.calls[k].Registering? && CallHooksInv(w', k))
  {
  }

  lemma StartKeepsHooks(w: World, s: Step)
    requires HookInv(w) && !s.Advance? && !s.Abandon?
    ensures HookInv(Apply(w, s))
  {
    var w' := Apply(w, s);
    if s.StartRegister? {
      if s.node < |w.nodes| && w.nodes[s.node].live { StartRegisterKeepsHooks(w, s.node); }
    } else {
      StartStays(w, s);
      forall k: nat | k < |w.nodes| && HookWaits(w, k) ensures HookWaits(w', k) { MoreWaits(w, w', k); }
      StayKeepsHooks(w, w');
    }
  }

  // ---- Registration ----------------------------------------------------------------------------------

  // A registration in its next place, with what it should know there.
  lemma LookingKeepsHooks(w: World, i: nat, c': Call)
    requires HookInv(w) && i < |w.calls| && w.calls[i].Registering?
    requires c'.Registering? && c'.node == w.calls[i].node && c'.hook == w.calls[i].hook
    requires CallHooksInv(SetCall(w, i, c'), i)
    ensures HookInv(SetCall(w, i, c'))
  {
    var w' := SetCall(w, i, c');
    forall k: nat | k < |w.nodes| && HookWaits(w, k) ensures HookWaits(w', k) { WaitsStay(w, w', i, k); }
    forall h: nat | h < |w'.hooks| ensures PlaceInv(w', h) { assert PlaceInv(w, h); }
    forall k: nat | k < |w'.nodes| ensures NodeHooksInv(w', k) { assert NodeHooksInv(w, k); }
    forall k: nat | k < |w'.calls| ensures CallHooksInv(w', k) { assert CallHooksInv(w, k); }
  }

  // A registration that only looks at a flag.
  lemma LookKeepsHooks(w: World, i: nat)
    requires HookInv(w) && i < |w.calls| && w.calls[i].Registering?
    requires RegisterStep(w, i).calls[i].Registering? && !w.calls[i].at.EnterOpen?
    ensures HookInv(RegisterStep(w, i))
  {
    var c := w.calls[i];
    var c' := RegisterStep(w, i).calls[i];
    assert CallHooksInv(w, i);
    assert RegisterStep(w, i) == SetCall(w, i, c') && c'.node == c.node && c'.hook == c.hook;
    forall k: nat | k < |w.nodes| && HookWaits(w, k) ensures HookWaits(SetCall(w, i, c'), k) {
      WaitsStay(w, SetCall(w, i, c'), i, k);
    }
    LookingKeepsHooks(w, i, c');
  }

  // Taking the hooks mutex drops the entries whose guard is gone.
  function LockedBy(w: World, i: nat): World
    requires i < |w.calls| && w.calls[i].Registering? && w.calls[i].node < |w.nodes|
  {
    var c := w.calls[i];
    var n := w.nodes[c.node];
    SetCall(SetNode(w, c.node, n.(hooks := Guarded(n.hooks, w.expired, true), hooksLock := Some(i))), i, c.(at := HooksLocked))
      .(hooks := Move(w.hooks, Guarded(n.hooks, w.expired, false), Dropped(GuardGone)))
  }

  lemma LockWaits(w: World, i: nat, k: nat)
    requires i < |w.calls| && w.calls[i].Registering? && w.calls[i].node < |w.nodes| && k < |w.nodes| && HookWaits(w, k)
    ensures HookWaits(LockedBy(w, i), k)
  {
    WaitsStay(w, LockedBy(w, i), i, k);
  }

  lemma LockPlaces(w: World, i: nat)
    requires HookInv(w) && i < |w.calls| && w.calls[i].Registering? && w.calls[i].node < |w.nodes|
    ensures forall h: nat :: h < |w.hooks| ==> PlaceInv(LockedBy(w, i), h)
  {
    assert NodeHooksInv(w, w.calls[i].node);
    forall h: nat | h < |w.hooks| ensures PlaceInv(LockedBy(w, i), h) { assert PlaceInv(w, h); }
  }

  lemma LockNodes(w: World, i: nat)
    requires HookInv(w) && i < |w.calls| && w.calls[i].Registering? && w.calls[i].node < |w.nodes|
    ensures forall k: nat :: k < |w.nodes| ==> NodeHooksInv(LockedBy(w, i), k)
  {
    forall k: nat | k < |w.nodes| ensures NodeHooksInv(LockedBy(w, i), k) {
      assert NodeHooksInv(w, k) && NodeHooksInv(w, w.calls[i].node);
      if HookWaits(w, k) { LockWaits(w, i, k); }
    }
  }

  lemma LockCalls(w: World, i: nat)
    requires HookInv(w) && i < |w.calls| && w.calls[i].Registering? && w.calls[i].node < |w.nodes|
    requires w.nodes[w.calls[i].node].hooksLock.None?
    ensures forall k: nat :: k < |w.calls| ==> CallHooksInv(LockedBy(w, i), k)
  {
    assert CallHooksInv(w, i) && NodeHooksInv(w, w.calls[i].node);
    forall k: nat | k < |w.calls| ensures CallHooksInv(LockedBy(w, i), k) {
      assert CallHooksInv(w, k);
      if w.calls[k].Registering? && HookWaits(w, w.calls[k].node) { LockWaits(w, i, w.calls[k].node); }
    }
  }

  lemma LockKeepsHooks(w: World, i: nat)
    requires HookInv(w) && i < |w.calls| && w.calls[i].Registering? && w.calls[i].at.EnterOpen?
    ensures HookInv(RegisterStep(w, i))
  {
    assert CallHooksInv(w, i);
    if w.nodes[w.calls[i].node].hooksLock.None? {
      assert RegisterStep(w, i) == LockedBy(w, i);
      LockPlaces(w, i);
      LockNodes(w, i);
      LockCalls(w, i);
    }
  }

  predicate Ends(w: World, i: nat) {
    i < |w.calls| && w.calls[i].Registering? && !w.calls[i].at.HooksOpen? && !w.calls[i].at.EnterOpen?
    && RegisterStep(w, i).calls == w.calls[i := Done]
  }

  // A registration that ends without storing the hook: it was run here and now, or dropped by an
  // inactive node.
  lemma EndRegisterTouches(w: World, i: nat)
    requires HookInv(w) && Ends(w, i)
    ensures var w', c := RegisterStep(w, i), w.calls[i];
            && |w'.nodes| == |w.nodes| && |w'.hooks| == |w.hooks| && c.hook < |w.hooks| && c.node < |w.nodes|
            && w'.expired == w.expired
            && (forall k: nat :: k < |w.nodes| ==> w'.nodes[k] == w.nodes[k].(hooksLock := w'.nodes[k].hooksLock))
            && (forall k: nat :: k < |w.nodes| && w.nodes[k].hooksLock != Some(i) ==> w'.nodes[k] == w.nodes[k])
            && (w'.hooks[c.hook].place.Ran? || (w'.hooks[c.hook].place == Dropped(NodeInactive) && !w.nodes[c.node].active))
            && w'.hooks[c.hook].runs == (if w'.hooks[c.hook].place.Ran? then 1 else 0)
            && w'.hooks[c.hook].node == w.hooks[c.hook].node
            && (forall h: nat :: h < |w.hooks| && h != c.hook ==> w'.hooks[h] == w.hooks[h])
  {
    assert CallHooksInv(w, i) && PlaceInv(w, w.calls[i].hook);
    assert RegisterStep(w, i).calls[i] == Done;
  }

  lemma EndRegisterKeepsHooks(w: World, i: nat)
    requires HookInv(w) && Ends(w, i)
    ensures HookInv(RegisterStep(w, i))
  {
    var w' := RegisterStep(w, i);
    EndRegisterTouches(w, i);
    assert CallHooksInv(w, i);
    forall k: nat | k < |w.nodes| && HookWaits(w, k) ensures HookWaits(w', k) { WaitsStay(w, w', i, k); }
    forall h: nat | h < |w'.hooks| ensures PlaceInv(w', h) { assert PlaceInv(w, h); }
    forall k: nat | k < |w'.nodes| ensures NodeHooksInv(w', k) { assert NodeHooksInv(w, k); }
    forall k: nat | k < |w'.calls| ensures CallHooksInv(w', k) { assert CallHooksInv(w, k); }
  }

  // A registration that stores its hook: if the node is closed by now, its closer still comes for it.
  function StoredBy(w: World, i: nat): World
    requires i < |w.calls| && w.calls[i].Registering? && w.calls[i].node < |w.nodes|
  {
    var c := w.calls[i];
    var n := w.nodes[c.node];
    SetCall(SetNode(w, c.node, n.(hooks := n.hooks + [c.hook], hooksLock := None)), i, Done)
      .(hooks := Move(w.hooks, [c.hook], Stored(c.node)))
  }

  predicate Storing(w: World, i: nat) {
    i < |w.calls| && w.calls[i].Registering? && w.calls[i].at.HooksOpen? && w.calls[i].node < |w.nodes|
  }

  lemma StoreWaits(w: World, i: nat, k: nat)
    requires Storing(w, i) && k < |w.nodes| && HookWaits(w, k)
    ensures HookWaits(StoredBy(w, i), k)
  {
    WaitsStay(w, StoredBy(w, i), i, k);
  }

  lemma StorePlaces(w: World, i: nat)
    requires HookInv(w) && Storing(w, i)
    ensures forall h: nat :: h < |w.hooks| ==> PlaceInv(StoredBy(w, i), h)
  {
    var w' := StoredBy(w, i);
    assert CallHooksInv(w, i);
    assert w'.nodes[w.calls[i].node].hooks[|w.nodes[w.calls[i].node].hooks|] == w.calls[i].hook;
    forall h: nat | h < |w.hooks| ensures PlaceInv(w', h) { assert PlaceInv(w, h); }
  }

  lemma StoreNodes(w: World, i: nat)
    requires HookInv(w) && Storing(w, i)
    ensures forall k: nat :: k < |w.nodes| ==> NodeHooksInv(StoredBy(w, i), k)
  {
    assert CallHooksInv(w, i);
    forall k: nat | k < |w.nodes| ensures NodeHooksInv(StoredBy(w, i), k) {
      assert NodeHooksInv(w, k);
      if HookWaits(w, k) { StoreWaits(w, i, k); }
      if k == w.calls[i].node { ConcatDistinct(w.nodes[k].hooks, [w.calls[i].hook]); }
    }
  }

  lemma StoreCalls(w: World, i: nat)
    requires HookInv(w) && Storing(w, i)
    ensures forall k: nat :: k < |w.calls| ==> CallHooksInv(StoredBy(w, i), k)
  {
    assert CallHooksInv(w, i);
    forall k: nat | k < |w.calls| ensures CallHooksInv(StoredBy(w, i), k) {
      assert CallHooksInv(w, k);
      if w.calls[k].Registering? && HookWaits(w, w.calls[k].node) { StoreWaits(w, i, w.calls[k].node); }
    }
  }

  lemma StoreKeepsHooks(w: World, i: nat)
    requires HookInv(w) && i < |w.calls| && w.calls[i].Registering? && w.calls[i].at.HooksOpen?
    ensures HookInv(RegisterStep(w, i))
  {
    assert CallHooksInv(w, i);
    assert RegisterStep(w, i) == StoredBy(w, i);
    StorePlaces(w, i);
    StoreNodes(w, i);
    StoreCalls(w, i);
  }

  // A seal given up after its traversal lets go of the hooks it had collected, and of nothing else.
  lemma AbandonKeepsHooks(w: World, i: nat)
    requires HookInv(w) && i < |w.calls| && Abandons(w.calls[i])
    ensures HookInv(Apply(w, Abandon(i)))
  {
    var w' := Apply(w, Abandon(i));
    assert CallHooksInv(w, i);
    forall k: nat | k < |w.nodes| && HookWaits(w, k) ensures HookWaits(w', k) { WaitsStay(w, w', i, k); }
    forall h: nat | h < |w'.hooks| ensures PlaceInv(w', h) { assert PlaceInv(w, h); }
    forall k: nat | k < |w'.nodes| ensures NodeHooksInv(w', k) { assert NodeHooksInv(w, k); }
    forall k: nat | k < |w'.calls| ensures CallHooksInv(w', k) { assert CallHooksInv(w, k); }
  }

  lemma StepKeepsHooks(w: World, s: Step)
    requires HookInv(w)
    ensures HookInv(Apply(w, s))
  {
    if s.Abandon? {
      if s.call < |w.calls| && Abandons(w.calls[s.call]) { AbandonKeepsHooks(w, s.call); }
    } else if !s.Advance? {
      StartKeepsHooks(w, s);
    } else if s.call < |w.calls| {
      var i := s.call;
      match w.calls[i]
      case Sealing(_, _, _, _) => SealStepKeepsHooks(w, i);
      case Admitting(_, _, _) => AdmitStepKeepsHooks(w, i);
      case Registering(_, _, at) =>
        assert CallHooksInv(w, i);
        if at.EnterOpen? { LockKeepsHooks(w, i); }
        else if at.HooksOpen? { StoreKeepsHooks(w, i); }
        else if RegisterStep(w, i).calls[i].Registering? { LookKeepsHooks(w, i); }
        else { EndRegisterKeepsHooks(w, i); }
      case Done =>
    }
  }

  lemma {:induction false} RunKeepsHooks(w: World, steps: seq<Step>)
    requires HookInv(w)
    ensures HookInv(Run(w, steps))
    decreases steps
  {
    if steps != [] {
      StepKeepsHooks(w, steps[0]);
      RunKeepsHooks(Apply(w, steps[0]), steps[1..]);
    }
  }

  // ---- Main results -----------------------------------------------------------------------------------

  // In any run every hook runs at most once.
  lemma {:induction false} HooksRunAtMostOnce(steps: seq<Step>, h: nat)
    requires h < |Run(Init(), steps).hooks|
    ensures Run(Init(), steps).hooks[h].runs <= 1
  {
    RunKeepsHooks(Init(), steps);
    assert PlaceInv(Run(Init(), steps), h);
  }

  // This step gives up a seal that holds the hook.
  predicate GivesUp(w: World, s: Step, h: nat) {
    s.Abandon? && s.call < |w.calls| && Abandons(w.calls[s.call]) && h in w.calls[s.call].collected
  }

  predicate GivenUp(w: World, steps: seq<Step>, h: nat)
    decreases steps
  {
    steps != [] && (GivesUp(w, steps[0], h) || GivenUp(Apply(w, steps[0]), steps[1..], h))
  }

  predicate Unrun(w: World, h: nat) {
    h < |w.hooks| && w.hooks[h].place == Dropped(Unpropagated)
  }

  lemma SealGivesUpNone(w: World, i: nat, h: nat)
    requires HookInv(w) && i < |w.calls| && w.calls[i].Sealing?
    ensures Unrun(SealStep(w, i), h) <==> Unrun(w, h)
  {
    var c := w.calls[i];
    assert CallHooksInv(w, i);
    if c.agenda != [] && c.agenda[0].node < |w.nodes| { assert NodeHooksInv(w, c.agenda[0].node); }
    if c.agenda == [] && c.collected != [] { assert c.collected[0] in c.collected; }
  }

  lemma RegisterGivesUpNone(w: World, i: nat, h: nat)
    requires HookInv(w) && i < |w.calls| && w.calls[i].Registering?
    ensures Unrun(RegisterStep(w, i), h) <==> Unrun(w, h)
  {
    assert CallHooksInv(w, i) && NodeHooksInv(w, w.calls[i].node);
  }

  // A hook is left unrun by the step that gives up the seal holding it, and by no other.
  lemma StepGivesUp(w: World, s: Step, h: nat)
    requires HookInv(w)
    ensures Unrun(Apply(w, s), h) <==> Unrun(w, h) || GivesUp(w, s, h)
  {
    if s.Abandon? {
      if s.call < |w.calls| { assert CallHooksInv(w, s.call); }
    } else if s.Advance? {
      if s.call < |w.calls| {
        match w.calls[s.call]
        case Sealing(_, _, _, _) => SealGivesUpNone(w, s.call, h);
        case Admitting(_, _, _) => AdmitStepLeavesCalls(w, s.call);
        case Registering(_, _, _) => RegisterGivesUpNone(w, s.call, h);
        case Done =>
      }
    } else if !s.StartRegister? {
      StartStays(w, s);
    }
  }

  lemma {:induction false} RunGivesUp(w: World, steps: seq<Step>, h: nat)
    requires HookInv(w)
    ensures Unrun(Run(w, steps), h) <==> Unrun(w, h) || GivenUp(w, steps, h)
    decreases steps
  {
    if steps != [] {
      StepKeepsHooks(w, steps[0]);
      StepGivesUp(w, steps[0], h);
      RunGivesUp(Apply(w, steps[0]), steps[1..], h);
    }
  }

  // With no call in flight, a hook of a node that was cancelled and never deactivated has run exactly
  // once, unless somebody looked at it after its guard was dropped, or the cancellation that had
  // collected it was given up before it got there.
  lemma {:induction false} CancelledHookRuns(steps: seq<Step>, h: nat)
    requires var w := Run(Init(), steps);
             && (forall i :: 0 <= i < |w.calls| ==> w.calls[i].Done?)
             && h < |w.hooks| && w.hooks[h].node < |w.nodes|
             && w.nodes[w.hooks[h].node].cancelled && w.nodes[w.hooks[h].node].active
    ensures var w := Run(Init(), steps);
            && (w.hooks[h].place == Dropped(GuardGone) ==> h in w.expired)
            && w.hooks[h].runs ==
               (if w.hooks[h].place == Dropped(GuardGone) || GivenUp(Init(), steps, h) then 0 else 1)
  {
    RunKeepsHooks(Init(), steps);
    RunGivesUp(Init(), steps, h);
    var w := Run(Init(), steps);
    assert PlaceInv(w, h);
    assert NodeHooksInv(w, w.hooks[h].node);
  }
}
