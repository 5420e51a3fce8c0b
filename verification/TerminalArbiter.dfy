/**
 * The terminal arbiter that decides, once, how an owned operation ends
 * (crates/easycon-runtime/src/concurrency.rs).
 *
 * `Arbiter` is the value, the functions below are its transitions, the class is the object that
 * updates its fields in place, and `Run` is any order in which its methods can be called.
 */
module TerminalArbiter {
  import opened Wrappers

  datatype Evidence = EffectAccepted | NotDelivered | ExecutionFailed
  datatype Winner = Success | Failure | Cancellation
  datatype ClaimResult = Claimed | Observe | RejectedOwner | RejectedEvidence

  datatype Arbiter = Arbiter(
    primaryOwner: nat,
    transferOwner: Option<nat>,
    activeOwner: nat,
    primaryOwnerJoined: bool,
    handoffUsed: bool,
    winner: Option<Winner>,
    committed: bool)

  predicate EvidenceAllowsWinner(evidence: Evidence, winner: Winner) {
    match (evidence, winner)
    case (EffectAccepted, Success) => true
    case (NotDelivered, Cancellation) => true
    case (ExecutionFailed, Failure) => true
    case _ => false
  }

  function New(primaryOwner: nat, transferOwner: Option<nat>): Arbiter {
    Arbiter(primaryOwner, transferOwner, primaryOwner, false, false, None, false)
  }

  function ClaimOutcome(a: Arbiter, owner: nat, evidence: Evidence, winner: Winner): ClaimResult {
    if a.winner.Some? || a.committed then Observe
    else if owner != a.activeOwner then RejectedOwner
    else if !EvidenceAllowsWinner(evidence, winner) then RejectedEvidence
    else Claimed
  }

  function Claim(a: Arbiter, owner: nat, evidence: Evidence, winner: Winner): Arbiter {
    if ClaimOutcome(a, owner, evidence, winner).Claimed? then a.(winner := Some(winner)) else a
  }

  predicate JoinApplies(a: Arbiter, owner: nat) {
    owner == a.primaryOwner && !a.primaryOwnerJoined
  }

  function Join(a: Arbiter, owner: nat): Arbiter {
    if JoinApplies(a, owner) then a.(primaryOwnerJoined := true) else a
  }

  predicate HandoffApplies(a: Arbiter, transferOwner: nat) {
    && !a.committed
    && a.winner.None?
    && !a.handoffUsed
    && a.primaryOwnerJoined
    && a.transferOwner == Some(transferOwner)
    && a.activeOwner == a.primaryOwner
  }

  function Handoff(a: Arbiter, transferOwner: nat): Arbiter {
    if HandoffApplies(a, transferOwner)
    then a.(activeOwner := transferOwner, handoffUsed := true)
    else a
  }

  predicate CommitApplies(a: Arbiter, owner: nat, winner: Winner) {
    !a.committed && a.activeOwner == owner && a.winner == Some(winner)
  }

  function Commit(a: Arbiter, owner: nat, winner: Winner): Arbiter {
    if CommitApplies(a, owner, winner) then a.(committed := true) else a
  }

  // The object itself: each method is one call under the operation's state lock.
  class TerminalArbiterState {
    const primaryOwner: nat
    const transferOwner: Option<nat>
    var activeOwner: nat
    var primaryOwnerJoined: bool
    var handoffUsed: bool
    var winner: Option<Winner>
    var committed: bool

    ghost function View(): Arbiter
      reads this
    {
      Arbiter(primaryOwner, transferOwner, activeOwner, primaryOwnerJoined, handoffUsed, winner, committed)
    }

    constructor (primaryOwner: nat, transferOwner: Option<nat>)
      ensures View() == New(primaryOwner, transferOwner)
    {
      this.primaryOwner, this.transferOwner, activeOwner := primaryOwner, transferOwner, primaryOwner;
      primaryOwnerJoined, handoffUsed, winner, committed := false, false, None, false;
    }

    method ClaimWinner(owner: nat, evidence: Evidence, candidate: Winner) returns (result: ClaimResult)
      modifies this
      ensures View() == Claim(old(View()), owner, evidence, candidate)
      ensures result == ClaimOutcome(old(View()), owner, evidence, candidate)
    {
      if winner.Some? || committed { return Observe; }
      if owner != activeOwner { return RejectedOwner; }
      if !EvidenceAllowsWinner(evidence, candidate) { return RejectedEvidence; }
      winner := Some(candidate);
      return Claimed;
    }

    method MarkPrimaryOwnerJoined(owner: nat) returns (applied: bool)
      modifies this
      ensures View() == Join(old(View()), owner)
      ensures applied == JoinApplies(old(View()), owner)
    {
      if owner != primaryOwner || primaryOwnerJoined { return false; }
      primaryOwnerJoined := true;
      return true;
    }

    method HandOff(transfer: nat) returns (applied: bool)
      modifies this
      ensures View() == Handoff(old(View()), transfer)
      ensures applied == HandoffApplies(old(View()), transfer)
    {
      if committed || winner.Some? || handoffUsed || !primaryOwnerJoined
         || transferOwner != Some(transfer) || activeOwner != primaryOwner
      {
        return false;
      }
      activeOwner := transfer;
      handoffUsed := true;
      return true;
    }

    method CommitWinner(owner: nat, claimed: Winner) returns (applied: bool)
      modifies this
      ensures View() == Commit(old(View()), owner, claimed)
      ensures applied == CommitApplies(old(View()), owner, claimed)
    {
      if committed || activeOwner != owner || winner != Some(claimed) { return false; }
      committed := true;
      return true;
    }
  }

  // ---- Every order of calls ----------------------------------------------------------------

  datatype Call =
    | DoJoin(owner: nat)
    | DoHandoff(transfer: nat)
    | DoClaim(owner: nat, evidence: Evidence, winner: Winner)
    | DoCommit(owner: nat, winner: Winner)

  predicate Applies(a: Arbiter, c: Call) {
    match c
    case DoJoin(o) => JoinApplies(a, o)
    case DoHandoff(t) => HandoffApplies(a, t)
    case DoClaim(o, e, w) => ClaimOutcome(a, o, e, w).Claimed?
    case DoCommit(o, w) => CommitApplies(a, o, w)
  }

  function Step(a: Arbiter, c: Call): Arbiter {
    match c
    case DoJoin(o) => Join(a, o)
    case DoHandoff(t) => Handoff(a, t)
    case DoClaim(o, e, w) => Claim(a, o, e, w)
    case DoCommit(o, w) => Commit(a, o, w)
  }

  // The calls that took effect, oldest first.
  function Applied(a: Arbiter, calls: seq<Call>): seq<Call>
    decreases calls
  {
    if calls == [] then []
    else (if Applies(a, calls[0]) then [calls[0]] else []) + Applied(Step(a, calls[0]), calls[1..])
  }

  function Run(a: Arbiter, calls: seq<Call>): Arbiter
    decreases calls
  {
    if calls == [] then a else Run(Step(a, calls[0]), calls[1..])
  }

  // The only histories an arbiter may have. Nothing but `p` can be joined; a handoff needs that
  // join first and goes to `t`; then one claim by whoever is active, on matching evidence; then
  // one commit, by the claimant, of the claimed winner.
  ghost predicate Legal(p: nat, t: Option<nat>, joined: bool, handedOff: bool, claim: Option<Winner>,
                        committed: bool, h: seq<Call>)
    decreases h
  {
    h == [] ||
    var active := if handedOff && t.Some? then t.value else p;
    match h[0]
    case DoJoin(o) => o == p && !joined && Legal(p, t, true, handedOff, claim, committed, h[1..])
    case DoHandoff(o) =>
      && t == Some(o) && joined && !handedOff && claim.None?
      && Legal(p, t, joined, true, claim, committed, h[1..])
    case DoClaim(o, e, w) =>
      && o == active && claim.None?
      && (w == Success ==> e == EffectAccepted) && (w == Cancellation ==> e == NotDelivered) && (w == Failure ==> e == ExecutionFailed)
      && Legal(p, t, joined, handedOff, Some(w), committed, h[1..])
    case DoCommit(o, w) =>
      && o == active && claim == Some(w) && !committed
      && Legal(p, t, joined, handedOff, claim, true, h[1..])
  }

  ghost predicate Consistent(a: Arbiter) {
    && a.activeOwner == (if a.handoffUsed && a.transferOwner.Some? then a.transferOwner.value else a.primaryOwner)
    && (a.committed ==> a.winner.Some?)
    && (a.handoffUsed ==> a.primaryOwnerJoined && a.transferOwner.Some?)
  }

  lemma {:induction false} AppliedIsLegal(a: Arbiter, calls: seq<Call>)
    requires Consistent(a)
    ensures Consistent(Run(a, calls))
    ensures Legal(a.primaryOwner, a.transferOwner, a.primaryOwnerJoined, a.handoffUsed, a.winner, a.committed,
                  Applied(a, calls))
    decreases calls
  {
    if calls != [] {
      var next := Step(a, calls[0]);
      AppliedIsLegal(next, calls[1..]);
      var rest := Applied(next, calls[1..]);
      if Applies(a, calls[0]) {
        var h := [calls[0]] + rest;
        assert h[0] == calls[0] && h[1..] == rest;
        assert Applied(a, calls) == h;
      } else {
        assert next == a;
        assert Applied(a, calls) == rest;
      }
    }
  }

  // Any number of claims and commits, by anyone, in any order: the calls that take effect form a
  // legal history, and the arbiter ends committed only to the winner that history claims.
  lemma {:induction false} ArbiterHistoryIsLegal(p: nat, t: Option<nat>, calls: seq<Call>)
    ensures Legal(p, t, false, false, None, false, Applied(New(p, t), calls))
    ensures var a := Run(New(p, t), calls); a.committed ==> a.winner.Some?
  {
    AppliedIsLegal(New(p, t), calls);
  }

  // Whether one more call would be legal where the history stands.
  lemma {:induction false} LegalNext(a: Arbiter, calls: seq<Call>, c: Call)
    requires Consistent(a)
    ensures Applies(Run(a, calls), c) <==>
              Legal(a.primaryOwner, a.transferOwner, a.primaryOwnerJoined, a.handoffUsed, a.winner, a.committed,
                    Applied(a, calls) + [c])
    decreases calls
  {
    if calls == [] {
      assert [] + [c] == [c] && [c][1..] == [];
    } else {
      var next := Step(a, calls[0]);
      AppliedIsLegal(a, [calls[0]]);
      assert Run(a, [calls[0]]) == next;
      LegalNext(next, calls[1..], c);
      var rest := Applied(next, calls[1..]) + [c];
      if Applies(a, calls[0]) {
        var h := [calls[0]] + rest;
        assert h[0] == calls[0] && h[1..] == rest;
        assert Applied(a, calls) + [c] == h;
        FirstIsLegal(a, calls[0]);
      } else {
        assert next == a;
        assert Applied(a, calls) + [c] == rest;
      }
    }
  }

  lemma FirstIsLegal(a: Arbiter, c: Call)
    requires Consistent(a) && Applies(a, c)
    ensures Legal(a.primaryOwner, a.transferOwner, a.primaryOwnerJoined, a.handoffUsed, a.winner, a.committed, [c])
  {
    assert [c][1..] == [];
  }

  // And a call takes effect exactly if it is legal where the history stands.
  lemma {:induction false} LegalCallsApply(p: nat, t: Option<nat>, calls: seq<Call>, c: Call)
    ensures Applies(Run(New(p, t), calls), c) <==>
              Legal(p, t, false, false, None, false, Applied(New(p, t), calls) + [c])
  {
    LegalNext(New(p, t), calls, c);
  }

  function Claims(h: seq<Call>): nat {
    if h == [] then 0 else (if h[0].DoClaim? then 1 else 0) + Claims(h[1..])
  }

  function Commits(h: seq<Call>): nat {
    if h == [] then 0 else (if h[0].DoCommit? then 1 else 0) + Commits(h[1..])
  }

  function Handoffs(h: seq<Call>): nat {
    if h == [] then 0 else (if h[0].DoHandoff? then 1 else 0) + Handoffs(h[1..])
  }

  lemma {:induction false} LegalCounts(p: nat, t: Option<nat>, joined: bool, handedOff: bool, claim: Option<Winner>,
                                       committed: bool, h: seq<Call>)
    requires Legal(p, t, joined, handedOff, claim, committed, h)
    requires committed ==> claim.Some?
    ensures Claims(h) + (if claim.Some? then 1 else 0) <= 1
    ensures Commits(h) + (if committed then 1 else 0) <= Claims(h) + (if claim.Some? then 1 else 0)
    ensures Handoffs(h) + (if handedOff then 1 else 0) <= 1
    decreases h
  {
    if h != [] {
      match h[0]
      case DoJoin(o) => LegalCounts(p, t, true, handedOff, claim, committed, h[1..]);
      case DoHandoff(o) => LegalCounts(p, t, joined, true, claim, committed, h[1..]);
      case DoClaim(o, e, w) => LegalCounts(p, t, joined, handedOff, Some(w), committed, h[1..]);
      case DoCommit(o, w) => LegalCounts(p, t, joined, handedOff, claim, true, h[1..]);
    }
  }

  // One winner, one commit, one handoff, over every run.
  lemma {:induction false} AtMostOneWinner(p: nat, t: Option<nat>, calls: seq<Call>)
    ensures var h := Applied(New(p, t), calls);
            Commits(h) <= Claims(h) <= 1 && Handoffs(h) <= 1
  {
    ArbiterHistoryIsLegal(p, t, calls);
    LegalCounts(p, t, false, false, None, false, Applied(New(p, t), calls));
  }
}
