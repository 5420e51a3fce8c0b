/**
 * The manually advanced clock (crates/easycon-runtime/src/clock.rs): every state change is made
 * under one mutex, so a run is a list of whole operations.
 */
module Clock {
  import opened Wrappers
  import opened Timing

  datatype Deadline = Deadline(id: nat, target: nat, dispatchedAt: Option<nat>, woken: bool)

  datatype State = State(now: nat, next: nat, deadlines: seq<Deadline>, wakeOrder: seq<nat>)

  // A deadline about to wake: the tuple the wake-ups of one advance are sorted by.
  datatype Wake = Wake(target: nat, id: nat)

  // An advance by a duration is one to the sum, unless the sum overflows.
  datatype Step =
    | AdvanceTo(target: nat)
    | Register(target: nat)
    | RecordDispatch(id: nat, at: nat)

  predicate Before(a: Wake, b: Wake) {
    a.target < b.target || (a.target == b.target && a.id <= b.id)
  }

  ghost predicate Ordered(s: seq<Wake>) {
    forall i, j :: 0 <= i < j < |s| ==> Before(s[i], s[j])
  }

  function Insert(x: Wake, s: seq<Wake>): (r: seq<Wake>)
    ensures multiset(r) == multiset(s) + multiset{x}
    ensures |r| == |s| + 1
  {
    if s == [] then [x]
    else if Before(x, s[0]) then [x] + s
    else
      assert s == [s[0]] + s[1..];
      [s[0]] + Insert(x, s[1..])
  }

  // The library's sort: the tuples are totally ordered, so what an unstable sort returns is fixed.
  function Sort(s: seq<Wake>): (r: seq<Wake>)
    ensures multiset(r) == multiset(s)
    ensures |r| == |s|
  {
    if s == [] then []
    else
      assert s == [s[0]] + s[1..];
      Insert(s[0], Sort(s[1..]))
  }

  predicate Wakes(d: Deadline, t: nat) {
    !d.woken && d.target <= t
  }

  function Newly(ds: seq<Deadline>, t: nat): seq<Wake> {
    if ds == [] then []
    else (if Wakes(ds[0], t) then [Wake(ds[0].target, ds[0].id)] else []) + Newly(ds[1..], t)
  }

  function WakeAll(ds: seq<Deadline>, t: nat): (r: seq<Deadline>)
    ensures |r| == |ds|
    ensures forall k :: 0 <= k < |ds| ==> r[k] == if Wakes(ds[k], t) then ds[k].(woken := true) else ds[k]
  {
    if ds == [] then []
    else [if Wakes(ds[0], t) then ds[0].(woken := true) else ds[0]] + WakeAll(ds[1..], t)
  }

  function Ids(s: seq<Wake>): (r: seq<nat>)
    ensures |r| == |s|
    ensures forall k :: 0 <= k < |s| ==> r[k] == s[k].id
  {
    if s == [] then [] else [s[0].id] + Ids(s[1..])
  }

  function AdvanceState(s: State, t: nat): State {
    s.(now := t, deadlines := WakeAll(s.deadlines, t), wakeOrder := s.wakeOrder + Ids(Sort(Newly(s.deadlines, t))))
  }

  function Dispatched(ds: seq<Deadline>, id: nat, at: nat): (r: seq<Deadline>)
    ensures |r| == |ds|
    ensures forall k :: 0 <= k < |ds| ==> r[k] == ds[k].(dispatchedAt := r[k].dispatchedAt)
  {
    if ds == [] then []
    else if ds[0].id == id then [ds[0].(dispatchedAt := Some(at))] + ds[1..]
    else [ds[0]] + Dispatched(ds[1..], id, at)
  }

  // The operations that panic leave the clock as it was, except that an exhausted id is used up.
  function Apply(s: State, step: Step): State {
    match step
    case AdvanceTo(t) => if t < s.now then s else AdvanceState(s, t)
    case Register(t) => RegisterState(s, t)
    case RecordDispatch(id, at) => s.(deadlines := Dispatched(s.deadlines, id, at))
  }

  function RegisterState(s: State, t: nat): State {
    var next := if s.next == U64_MAX then 0 else s.next + 1;
    if s.next == 0 then s.(next := next)
    else State(s.now, next, s.deadlines + [Deadline(s.next, t, None, t <= s.now)],
               if t <= s.now then s.wakeOrder + [s.next] else s.wakeOrder)
  }

  function Run(s: State, steps: seq<Step>): State
    decreases steps
  {
    if steps == [] then s else Run(Apply(s, steps[0]), steps[1..])
  }

  function Init(now: nat): State {
    State(now, 1, [], [])
  }

  // ---- Sorting -----------------------------------------------------------------------------------------

  lemma {:induction false} InsertHas(x: Wake, s: seq<Wake>, w: Wake)
    requires w in Insert(x, s)
    ensures w in s || w == x
  {
    assert w in multiset(Insert(x, s));
  }

  lemma {:induction false} InsertOrdered(x: Wake, s: seq<Wake>)
    requires Ordered(s)
    ensures Ordered(Insert(x, s))
  {
    if s != [] && !Before(x, s[0]) {
      InsertOrdered(x, s[1..]);
      var r := Insert(x, s[1..]);
      forall k | 0 <= k < |r| ensures Before(s[0], r[k]) {
        InsertHas(x, s[1..], r[k]);
      }
    }
  }

  lemma {:induction false} SortOrdered(s: seq<Wake>)
    ensures Ordered(Sort(s))
  {
    if s != [] {
      SortOrdered(s[1..]);
      InsertOrdered(s[0], Sort(s[1..]));
    }
  }

  lemma FirstIn(s: seq<Wake>)
    requires s != []
    ensures multiset(s) == multiset{s[0]} + multiset(s[1..])
  {
    assert s == [s[0]] + s[1..];
  }

  lemma SameFirst(a: seq<Wake>, b: seq<Wake>)
    requires Ordered(a) && Ordered(b) && a != [] && b != []
    requires a[0] in b && b[0] in a
    ensures a[0] == b[0]
  {
  }

  // An ordered list is fixed by what it holds.
  lemma {:induction false} OrderedUnique(a: seq<Wake>, b: seq<Wake>)
    requires Ordered(a) && Ordered(b) && multiset(a) == multiset(b)
    ensures a == b
  {
    assert |a| == |multiset(a)| == |multiset(b)| == |b|;
    if a != [] {
      assert a[0] in b && b[0] in a by { assert a[0] in multiset(b) && b[0] in multiset(a); }
      SameFirst(a, b);
      SameRest(a, b);
      OrderedUnique(a[1..], b[1..]);
      assert a == [a[0]] + a[1..] && b == [b[0]] + b[1..];
    }
  }

  lemma SameRest(a: seq<Wake>, b: seq<Wake>)
    requires a != [] && b != [] && multiset(a) == multiset(b) && a[0] == b[0]
    ensures multiset(a[1..]) == multiset(b[1..])
  {
    FirstIn(a);
    FirstIn(b);
    assert multiset(a[1..]) == multiset(a) - multiset{a[0]};
    assert multiset(b[1..]) == multiset(b) - multiset{b[0]};
  }

  // ---- What every operation keeps --------------------------------------------------------------------------

  function WokenIds(ds: seq<Deadline>): multiset<nat> {
    if ds == [] then multiset{} else (if ds[0].woken then multiset{ds[0].id} else multiset{}) + WokenIds(ds[1..])
  }

  // Ids run through 1 .. 2^64 - 1 and start over; the call that would hand out 0 panics instead.
  function IdAt(k: nat): nat {
    if k == 0 then 1 else if IdAt(k - 1) == U64_MAX then 1 else IdAt(k - 1) + 1
  }

  ghost predicate IdInv(s: State) {
    var n := |s.deadlines|;
    && (forall k :: 0 <= k < n ==> s.deadlines[k].id == IdAt(k))
    && (s.next == IdAt(n) || (s.next == 0 && n > 0 && IdAt(n - 1) == U64_MAX))
  }

  ghost predicate WokenInv(s: State) {
    forall k :: 0 <= k < |s.deadlines| ==> (s.deadlines[k].woken <==> s.deadlines[k].target <= s.now)
  }

  ghost predicate OrderInv(s: State) {
    multiset(s.wakeOrder) == WokenIds(s.deadlines)
  }

  ghost predicate Inv(s: State) {
    WokenInv(s) && OrderInv(s)
  }

  lemma {:induction false} WokenIdsAppend(ds: seq<Deadline>, d: Deadline)
    ensures WokenIds(ds + [d]) == WokenIds(ds) + if d.woken then multiset{d.id} else multiset{}
  {
    if ds == [] {
      assert ds + [d] == [d];
    } else {
      assert (ds + [d])[1..] == ds[1..] + [d];
      WokenIdsAppend(ds[1..], d);
    }
  }

  lemma {:induction false} WokenIdsSame(ds: seq<Deadline>, es: seq<Deadline>)
    requires |ds| == |es| && forall k :: 0 <= k < |ds| ==> ds[k].id == es[k].id && ds[k].woken == es[k].woken
    ensures WokenIds(ds) == WokenIds(es)
  {
    if ds != [] { WokenIdsSame(ds[1..], es[1..]); }
  }

  lemma {:induction false} IdsFirst(x: Wake, s: seq<Wake>)
    ensures multiset(Ids([x] + s)) == multiset{x.id} + multiset(Ids(s))
  {
    assert ([x] + s)[1..] == s;
    assert Ids([x] + s) == [x.id] + Ids(s);
  }

  lemma {:induction false} InsertIds(x: Wake, s: seq<Wake>)
    ensures multiset(Ids(Insert(x, s))) == multiset{x.id} + multiset(Ids(s))
  {
    if s == [] || Before(x, s[0]) {
      IdsFirst(x, s);
      assert Insert(x, s) == [x] + s;
    } else {
      InsertIds(x, s[1..]);
      IdsFirst(s[0], s[1..]);
      IdsFirst(s[0], Insert(x, s[1..]));
      assert Insert(x, s) == [s[0]] + Insert(x, s[1..]);
      assert s == [s[0]] + s[1..];
    }
  }

  lemma {:induction false} IdsSplit(s: seq<Wake>)
    requires s != []
    ensures multiset(Ids(s)) == multiset{s[0].id} + multiset(Ids(s[1..]))
  {
    IdsFirst(s[0], s[1..]);
    assert s == [s[0]] + s[1..];
  }

  // Sorting loses no wake-up and invents none.
  lemma {:induction false} SortIds(s: seq<Wake>)
    ensures multiset(Ids(Sort(s))) == multiset(Ids(s))
  {
    if s != [] {
      SortIds(s[1..]);
      InsertIds(s[0], Sort(s[1..]));
      IdsSplit(s);
    }
  }

  lemma {:induction false} WakeFirst(ds: seq<Deadline>, t: nat)
    requires ds != []
    ensures var woken := if ds[0].woken || Wakes(ds[0], t) then multiset{ds[0].id} else multiset{};
            WokenIds(WakeAll(ds, t)) == woken + WokenIds(WakeAll(ds[1..], t))
  {
    var d := if Wakes(ds[0], t) then ds[0].(woken := true) else ds[0];
    assert WakeAll(ds, t) == [d] + WakeAll(ds[1..], t);
    assert ([d] + WakeAll(ds[1..], t))[1..] == WakeAll(ds[1..], t);
  }

  lemma {:induction false} NewlyFirst(ds: seq<Deadline>, t: nat)
    requires ds != []
    ensures multiset(Ids(Newly(ds, t)))
         == (if Wakes(ds[0], t) then multiset{ds[0].id} else multiset{}) + multiset(Ids(Newly(ds[1..], t)))
  {
    var rest := Newly(ds[1..], t);
    if Wakes(ds[0], t) { IdsFirst(Wake(ds[0].target, ds[0].id), rest); } else { assert Newly(ds, t) == rest; }
  }

  lemma {:induction false} WokenIdsWakeAll(ds: seq<Deadline>, t: nat)
    ensures WokenIds(WakeAll(ds, t)) == WokenIds(ds) + multiset(Ids(Newly(ds, t)))
  {
    if ds != [] {
      WokenIdsWakeAll(ds[1..], t);
      WakeFirst(ds, t);
      NewlyFirst(ds, t);
    }
  }

  lemma AdvanceKeepsInv(s: State, t: nat)
    requires Inv(s) && s.now <= t
    ensures Inv(AdvanceState(s, t))
  {
    AdvanceKeepsOrder(s, t);
    assert WokenInv(AdvanceState(s, t));
  }

  lemma AdvanceKeepsOrder(s: State, t: nat)
    requires OrderInv(s)
    ensures OrderInv(AdvanceState(s, t))
  {
    var newly := Newly(s.deadlines, t);
    SortIds(newly);
    WokenIdsWakeAll(s.deadlines, t);
  }

  lemma AdvanceKeepsIds(s: State, t: nat)
    requires IdInv(s)
    ensures IdInv(AdvanceState(s, t))
  {
  }

  lemma RegisterKeepsOrder(s: State, t: nat)
    requires OrderInv(s)
    ensures OrderInv(RegisterState(s, t))
  {
    WokenIdsAppend(s.deadlines, Deadline(s.next, t, None, t <= s.now));
  }

  lemma RegisterKeepsIds(s: State, t: nat)
    requires IdInv(s)
    ensures IdInv(RegisterState(s, t))
  {
  }

  lemma RegisterKeepsInv(s: State, t: nat)
    requires Inv(s)
    ensures Inv(RegisterState(s, t))
  {
    RegisterKeepsOrder(s, t);
    assert WokenInv(RegisterState(s, t));
  }

  lemma {:induction false} DispatchKeepsInv(s: State, id: nat, at: nat)
    requires Inv(s)
    ensures Inv(s.(deadlines := Dispatched(s.deadlines, id, at)))
  {
    var s' := s.(deadlines := Dispatched(s.deadlines, id, at));
    WokenIdsSame(s.deadlines, s'.deadlines);
    assert WokenInv(s');
  }

  lemma StepKeepsInv(s: State, step: Step)
    requires Inv(s)
    ensures Inv(Apply(s, step))
  {
    match step
    case AdvanceTo(t) => AdvanceToKeepsInv(s, t);
    case Register(t) => RegisterKeepsInv(s, t);
    case RecordDispatch(id, at) => DispatchKeepsInv(s, id, at);
  }

  lemma AdvanceToKeepsInv(s: State, t: nat)
    requires Inv(s)
    ensures Inv(Apply(s, AdvanceTo(t)))
  {
    if t >= s.now { AdvanceKeepsInv(s, t); }
  }

  lemma {:induction false} RunKeepsInv(s: State, steps: seq<Step>)
    requires Inv(s)
    ensures Inv(Run(s, steps))
    decreases steps
  {
    if steps != [] {
      StepKeepsInv(s, steps[0]);
      RunKeepsInv(Apply(s, steps[0]), steps[1..]);
    }
  }

  lemma StepKeepsIds(s: State, step: Step)
    requires IdInv(s)
    ensures IdInv(Apply(s, step))
  {
    match step
    case AdvanceTo(t) => AdvanceKeepsIds(s, t);
    case Register(t) => RegisterKeepsIds(s, t);
    case RecordDispatch(id, at) => DispatchKeepsIds(s, id, at);
  }

  lemma {:induction false} DispatchKeepsIds(s: State, id: nat, at: nat)
    requires IdInv(s)
    ensures IdInv(s.(deadlines := Dispatched(s.deadlines, id, at)))
  {
    assert forall k :: 0 <= k < |s.deadlines| ==> Dispatched(s.deadlines, id, at)[k].id == s.deadlines[k].id;
  }

  lemma {:induction false} RunKeepsIds(s: State, steps: seq<Step>)
    requires IdInv(s)
    ensures IdInv(Run(s, steps))
    decreases steps
  {
    if steps != [] {
      StepKeepsIds(s, steps[0]);
      RunKeepsIds(Apply(s, steps[0]), steps[1..]);
    }
  }

  // ---- Main results -----------------------------------------------------------------------------------------

  lemma {:induction false} IdsStartOver(k: nat)
    requires k < U64_MAX
    ensures IdAt(k) == k + 1
  {
    if k != 0 { IdsStartOver(k - 1); }
  }

  ghost predicate DistinctIds(ds: seq<Deadline>) {
    forall i, j :: 0 <= i < j < |ds| ==> ds[i].id != ds[j].id
  }

  lemma {:induction false} WokenIdsCount(ds: seq<Deadline>, id: nat)
    requires DistinctIds(ds)
    ensures WokenIds(ds)[id] <= 1
    ensures WokenIds(ds)[id] == 1 <==> exists d :: d in ds && d.woken && d.id == id
    ensures (forall d :: d in ds ==> d.id != id) ==> WokenIds(ds)[id] == 0
  {
    if ds != [] {
      var d := ds[0];
      assert DistinctIds(ds[1..]);
      WokenIdsCount(ds[1..], id);
      assert d in ds;
      assert forall e :: e in ds <==> e == d || e in ds[1..];
      if d.id == id {
        assert forall e :: e in ds[1..] ==> e.id != id;
      }
    }
  }

  lemma TwiceIsTwo(s: seq<nat>, i: nat, j: nat)
    requires i < j < |s| && s[i] == s[j]
    ensures multiset(s)[s[i]] >= 2
  {
    assert s == s[..i] + [s[i]] + s[i + 1..j] + [s[j]] + s[j + 1..];
  }

  lemma NoDuplicatesFromCounts(s: seq<nat>)
    requires forall x :: multiset(s)[x] <= 1
    ensures forall i, j :: 0 <= i < j < |s| ==> s[i] != s[j]
  {
    forall i, j | 0 <= i < j < |s| ensures s[i] != s[j] {
      if s[i] == s[j] { TwiceIsTwo(s, i, j); }
    }
  }

  // Over any run of a new clock: a deadline is woken exactly if its target is not in the future, and,
  // as long as the 64-bit ids last, the wake order lists exactly the woken ids, each of them once.
  lemma {:induction false} WakeOrderIsWoken(now: nat, steps: seq<Step>)
    ensures var s := Run(Init(now), steps);
            && (forall d :: d in s.deadlines ==> (d.woken <==> d.target <= s.now))
            && (|s.deadlines| <= U64_MAX ==>
                  && (forall id :: id in s.wakeOrder <==> exists d :: d in s.deadlines && d.woken && d.id == id)
                  && (forall i, j :: 0 <= i < j < |s.wakeOrder| ==> s.wakeOrder[i] != s.wakeOrder[j]))
  {
    var s := Run(Init(now), steps);
    RunKeepsInv(Init(now), steps);
    RunKeepsIds(Init(now), steps);
    if |s.deadlines| <= U64_MAX {
      FewIdsAreDistinct(s);
      forall id ensures WokenIds(s.deadlines)[id] <= 1 { WokenIdsCount(s.deadlines, id); }
      NoDuplicatesFromCounts(s.wakeOrder);
      forall id ensures id in s.wakeOrder <==> exists d :: d in s.deadlines && d.woken && d.id == id {
        WokenIdsCount(s.deadlines, id);
        assert id in s.wakeOrder <==> multiset(s.wakeOrder)[id] > 0;
      }
    }
  }

  lemma FewIdsAreDistinct(s: State)
    requires IdInv(s) && |s.deadlines| <= U64_MAX
    ensures DistinctIds(s.deadlines)
  {
    forall i, j | 0 <= i < j < |s.deadlines| ensures s.deadlines[i].id != s.deadlines[j].id {
      IdsStartOver(i);
      IdsStartOver(j);
    }
  }

  // The ids are distinct for no longer than that: one deadline more and the first id is back.
  lemma {:induction false} DistinctIdsExactly(now: nat, steps: seq<Step>)
    ensures var s := Run(Init(now), steps); DistinctIds(s.deadlines) <==> |s.deadlines| <= U64_MAX
  {
    var s := Run(Init(now), steps);
    RunKeepsIds(Init(now), steps);
    if |s.deadlines| <= U64_MAX {
      FewIdsAreDistinct(s);
    } else {
      var last := U64_MAX;
      IdsStartOver(last - 1);
      assert IdAt(last) == 1 && IdAt(0) == 1;
      assert s.deadlines[0].id == s.deadlines[last].id;
    }
  }

  // ---- Confluence --------------------------------------------------------------------------------------------

  lemma {:induction false} NewlySplit(ds: seq<Deadline>, a: nat, b: nat)
    requires a <= b
    ensures WakeAll(WakeAll(ds, a), b) == WakeAll(ds, b)
    ensures multiset(Newly(ds, a)) + multiset(Newly(WakeAll(ds, a), b)) == multiset(Newly(ds, b))
  {
    if ds != [] {
      NewlySplit(ds[1..], a, b);
      var rest := WakeAll(ds[1..], a);
      assert WakeAll(ds, a)[1..] == rest;
    }
  }

  lemma {:induction false} NewlyBounds(ds: seq<Deadline>, t: nat)
    ensures forall w :: w in Newly(ds, t) ==> w.target <= t
  {
    if ds != [] { NewlyBounds(ds[1..], t); }
  }

  // Once an advance is done, nothing left to wake is due.
  lemma {:induction false} LaterBounds(ds: seq<Deadline>, a: nat, b: nat)
    ensures forall w :: w in Newly(WakeAll(ds, a), b) ==> a < w.target
  {
    if ds != [] {
      LaterBounds(ds[1..], a, b);
      assert WakeAll(ds, a)[1..] == WakeAll(ds[1..], a);
    }
  }

  lemma {:induction false} SortMembers(s: seq<Wake>)
    ensures forall w :: w in Sort(s) <==> w in s
  {
    forall w ensures w in Sort(s) <==> w in s {
      assert w in Sort(s) <==> w in multiset(Sort(s));
      assert w in s <==> w in multiset(s);
    }
  }

  // The wake-ups of an advance to `a`, and then of one to `b`, are those of one advance to `b`.
  lemma {:induction false} SortSplit(ds: seq<Deadline>, a: nat, b: nat)
    requires a <= b
    ensures Sort(Newly(ds, a)) + Sort(Newly(WakeAll(ds, a), b)) == Sort(Newly(ds, b))
  {
    var first, second := Newly(ds, a), Newly(WakeAll(ds, a), b);
    NewlySplit(ds, a, b);
    NewlyBounds(ds, a);
    LaterBounds(ds, a, b);
    SortMembers(first);
    SortMembers(second);
    assert Ordered(Sort(first) + Sort(second)) by {
      SortOrdered(first);
      SortOrdered(second);
      OrderedConcat(Sort(first), Sort(second));
    }
    SortOrdered(Newly(ds, b));
    OrderedUnique(Sort(first) + Sort(second), Sort(Newly(ds, b)));
  }

  lemma OrderedConcat(x: seq<Wake>, y: seq<Wake>)
    requires Ordered(x) && Ordered(y)
    requires forall v, w :: v in x && w in y ==> v.target < w.target
    ensures Ordered(x + y)
  {
    forall i, j | 0 <= i < j < |x + y| ensures Before((x + y)[i], (x + y)[j]) {
      if i < |x| <= j {
        assert (x + y)[i] in x && (x + y)[j] in y;
      }
    }
  }

  lemma {:induction false} IdsConcat(x: seq<Wake>, y: seq<Wake>)
    ensures Ids(x + y) == Ids(x) + Ids(y)
  {
  }

  lemma {:induction false} SameWakes(order: seq<nat>, x: seq<Wake>, y: seq<Wake>, z: seq<Wake>)
    requires x + y == z
    ensures (order + Ids(x)) + Ids(y) == order + Ids(z)
  {
    IdsConcat(x, y);
  }

  lemma TwoAdvances(s: State, a: nat, b: nat)
    requires s.now <= a <= b
    ensures AdvanceState(AdvanceState(s, a), b) == AdvanceState(s, b)
  {
    var ds := s.deadlines;
    NewlySplit(ds, a, b);
    SortSplit(ds, a, b);
    SameWakes(s.wakeOrder, Sort(Newly(ds, a)), Sort(Newly(WakeAll(ds, a), b)), Sort(Newly(ds, b)));
  }

  function Advances(instants: seq<nat>): seq<Step> {
    if instants == [] then [] else [AdvanceTo(instants[0])] + Advances(instants[1..])
  }

  ghost predicate Increasing(now: nat, instants: seq<nat>) {
    && (forall k :: 0 <= k < |instants| ==> now <= instants[k])
    && (forall i, j :: 0 <= i < j < |instants| ==> instants[i] <= instants[j])
  }

  // The virtual clock's determinism: whichever instants an advance stops at on its way, the deadlines,
  // the wake order and the time are those of one jump to the last of them.
  lemma {:induction false} Confluence(s: State, instants: seq<nat>)
    requires instants != [] && Increasing(s.now, instants)
    ensures Run(s, Advances(instants)) == Apply(s, AdvanceTo(instants[|instants| - 1]))
    decreases |instants|
  {
    var s1 := Apply(s, AdvanceTo(instants[0]));
    assert s1 == AdvanceState(s, instants[0]);
    assert Advances(instants)[1..] == Advances(instants[1..]);
    assert Run(s, Advances(instants)) == Run(s1, Advances(instants[1..]));
    if |instants| == 1 {
      assert Advances(instants[1..]) == [];
    } else {
      var last := instants[|instants| - 1];
      Confluence(s1, instants[1..]);
      TwoAdvances(s, instants[0], last);
    }
  }

  // ---- Order of two deadlines over a whole run ----------------------------------------------------------------

  ghost predicate ListedBefore(order: seq<nat>, a: nat, b: nat) {
    exists i, j :: 0 <= i < j < |order| && order[i] == a && order[j] == b
  }

  // Two registered deadlines, the first ahead of the second by target and then id, as far as a run
  // that started with both of them asleep has come.
  ghost predicate PairInv(s: State, i: nat, j: nat) {
    && i < |s.deadlines| && j < |s.deadlines|
    && Before(Wake(s.deadlines[i].target, s.deadlines[i].id), Wake(s.deadlines[j].target, s.deadlines[j].id))
    && s.deadlines[i].id != s.deadlines[j].id
    && (s.deadlines[i].woken ==> s.deadlines[i].id in s.wakeOrder)
    && (s.deadlines[j].woken ==> ListedBefore(s.wakeOrder, s.deadlines[i].id, s.deadlines[j].id))
  }

  lemma {:induction false} NewlyHas(ds: seq<Deadline>, t: nat, k: nat)
    requires k < |ds| && Wakes(ds[k], t)
    ensures Wake(ds[k].target, ds[k].id) in Newly(ds, t)
  {
    if k > 0 { NewlyHas(ds[1..], t, k - 1); }
  }

  lemma SortedHas(ds: seq<Deadline>, t: nat, k: nat) returns (at: nat)
    requires k < |ds| && Wakes(ds[k], t)
    ensures at < |Sort(Newly(ds, t))| && Sort(Newly(ds, t))[at] == Wake(ds[k].target, ds[k].id)
  {
    var w := Wake(ds[k].target, ds[k].id);
    NewlyHas(ds, t, k);
    SortMembers(Newly(ds, t));
    assert w in Sort(Newly(ds, t));
    at :| at < |Sort(Newly(ds, t))| && Sort(Newly(ds, t))[at] == w;
  }

  lemma AdvanceLists(s: State, t: nat, k: nat) returns (at: nat)
    requires k < |s.deadlines| && Wakes(s.deadlines[k], t)
    ensures var sorted := Sort(Newly(s.deadlines, t));
            && at < |sorted| && sorted[at] == Wake(s.deadlines[k].target, s.deadlines[k].id)
            && |AdvanceState(s, t).wakeOrder| == |s.wakeOrder| + |sorted|
            && AdvanceState(s, t).wakeOrder[|s.wakeOrder| + at] == s.deadlines[k].id
  {
    at := SortedHas(s.deadlines, t, k);
    ListedAfter(s.wakeOrder, Ids(Sort(Newly(s.deadlines, t))), at);
  }

  lemma ListedAfter(order: seq<nat>, ids: seq<nat>, at: nat)
    requires at < |ids|
    ensures |order + ids| == |order| + |ids| && (order + ids)[|order| + at] == ids[at]
  {
  }

  // Once listed, always listed, and in the same order.
  lemma ListedStays(order: seq<nat>, more: seq<nat>, a: nat, b: nat)
    ensures a in order ==> a in order + more
    ensures ListedBefore(order, a, b) ==> ListedBefore(order + more, a, b)
  {
    if ListedBefore(order, a, b) {
      var x, y :| 0 <= x < y < |order| && order[x] == a && order[y] == b;
      assert (order + more)[x] == a && (order + more)[y] == b;
    }
  }

  lemma ListedAt(order: seq<nat>, x: nat, y: nat)
    requires x < y < |order|
    ensures ListedBefore(order, order[x], order[y])
  {
  }

  // Two woken by the same advance are listed in their order.
  lemma BothWoken(s: State, t: nat, i: nat, j: nat)
    requires PairInv(s, i, j) && Wakes(s.deadlines[i], t) && Wakes(s.deadlines[j], t)
    ensures ListedBefore(AdvanceState(s, t).wakeOrder, s.deadlines[i].id, s.deadlines[j].id)
  {
    var y := AdvanceLists(s, t, j);
    var x := AdvanceLists(s, t, i);
    SortOrdered(Newly(s.deadlines, t));
    assert x < y;
    ListedAt(AdvanceState(s, t).wakeOrder, |s.wakeOrder| + x, |s.wakeOrder| + y);
  }

  // One listed before comes before one woken now.
  lemma LaterWoken(s: State, t: nat, a: nat, j: nat)
    requires a in s.wakeOrder && j < |s.deadlines| && Wakes(s.deadlines[j], t)
    ensures ListedBefore(AdvanceState(s, t).wakeOrder, a, s.deadlines[j].id)
  {
    var y := AdvanceLists(s, t, j);
    var x :| 0 <= x < |s.wakeOrder| && s.wakeOrder[x] == a;
    assert AdvanceState(s, t).wakeOrder[x] == a;
    ListedAt(AdvanceState(s, t).wakeOrder, x, |s.wakeOrder| + y);
  }

  lemma WokenIsListed(s: State, t: nat, k: nat)
    requires k < |s.deadlines| && Wakes(s.deadlines[k], t)
    ensures s.deadlines[k].id in AdvanceState(s, t).wakeOrder
  {
    var at := AdvanceLists(s, t, k);
    assert AdvanceState(s, t).wakeOrder[|s.wakeOrder| + at] in AdvanceState(s, t).wakeOrder;
  }

  lemma AdvanceKeepsPair(s: State, t: nat, i: nat, j: nat)
    requires Inv(s) && PairInv(s, i, j) && s.now <= t
    ensures PairInv(AdvanceState(s, t), i, j)
  {
    var di, dj := s.deadlines[i], s.deadlines[j];
    ListedStays(s.wakeOrder, Ids(Sort(Newly(s.deadlines, t))), di.id, dj.id);
    if Wakes(di, t) { WokenIsListed(s, t, i); }
    if Wakes(dj, t) {
      if di.woken { LaterWoken(s, t, di.id, j); } else { BothWoken(s, t, i, j); }
    }
  }

  lemma RegisterKeepsPair(s: State, t: nat, i: nat, j: nat)
    requires PairInv(s, i, j)
    ensures PairInv(RegisterState(s, t), i, j)
  {
    var s' := RegisterState(s, t);
    if s.deadlines[j].woken {
      var x, y :| 0 <= x < y < |s.wakeOrder|
                  && s.wakeOrder[x] == s.deadlines[i].id && s.wakeOrder[y] == s.deadlines[j].id;
      assert s'.wakeOrder[x] == s.deadlines[i].id && s'.wakeOrder[y] == s.deadlines[j].id;
    }
  }

  lemma AdvanceToKeepsPair(s: State, t: nat, i: nat, j: nat)
    requires Inv(s) && PairInv(s, i, j)
    ensures PairInv(Apply(s, AdvanceTo(t)), i, j)
  {
    if t >= s.now { AdvanceKeepsPair(s, t, i, j); }
  }

  lemma {:induction false} DispatchKeepsPair(s: State, id: nat, at: nat, i: nat, j: nat)
    requires PairInv(s, i, j)
    ensures PairInv(s.(deadlines := Dispatched(s.deadlines, id, at)), i, j)
  {
  }

  lemma StepKeepsPair(s: State, step: Step, i: nat, j: nat)
    requires Inv(s) && PairInv(s, i, j)
    ensures PairInv(Apply(s, step), i, j)
  {
    match step
    case AdvanceTo(t) => AdvanceToKeepsPair(s, t, i, j);
    case Register(t) => RegisterKeepsPair(s, t, i, j);
    case RecordDispatch(id, at) => DispatchKeepsPair(s, id, at, i, j);
  }

  lemma {:induction false} RunKeepsPair(s: State, steps: seq<Step>, i: nat, j: nat)
    requires Inv(s) && PairInv(s, i, j)
    ensures PairInv(Run(s, steps), i, j)
    decreases steps
  {
    if steps != [] {
      StepKeepsInv(s, steps[0]);
      StepKeepsPair(s, steps[0], i, j);
      RunKeepsPair(Apply(s, steps[0]), steps[1..], i, j);
    }
  }

  // However the rest of a run advances the clock and registers further deadlines, two deadlines asleep
  // now are woken in the order of their targets, and in registration order if those are the same.
  lemma {:induction false} WakeOrderIsByTarget(now: nat, before: seq<Step>, after: seq<Step>, i: nat, j: nat)
    requires var s := Run(Init(now), before);
             && i < |s.deadlines| <= U64_MAX && j < |s.deadlines| && i != j
             && !s.deadlines[i].woken && !s.deadlines[j].woken
             && (s.deadlines[i].target < s.deadlines[j].target || (s.deadlines[i].target == s.deadlines[j].target && i < j))
    ensures var s := Run(Init(now), before);
            var s' := Run(s, after);
            && j < |s'.deadlines| && i < |s'.deadlines|
            && (s'.deadlines[j].woken ==> ListedBefore(s'.wakeOrder, s.deadlines[i].id, s.deadlines[j].id))
  {
    var s := Run(Init(now), before);
    RunKeepsInv(Init(now), before);
    RunKeepsIds(Init(now), before);
    FewIdsAreDistinct(s);
    IdsStartOver(i);
    IdsStartOver(j);
    RunKeepsPair(s, after, i, j);
    RunKeepsDeadline(s, after, i);
    RunKeepsDeadline(s, after, j);
  }

  lemma {:induction false} RunKeepsDeadline(s: State, steps: seq<Step>, k: nat)
    requires k < |s.deadlines|
    ensures k < |Run(s, steps).deadlines|
    ensures Run(s, steps).deadlines[k].id == s.deadlines[k].id
    ensures Run(s, steps).deadlines[k].target == s.deadlines[k].target
    decreases steps
  {
    if steps == [] {
      assert Run(s, steps) == s;
    } else {
      RunKeepsDeadline(Apply(s, steps[0]), steps[1..], k);
    }
  }
}
