/**
 * The registry as the mutable object it is. `live` is the set of records somebody still holds: a
 * weak reference to any other record no longer upgrades.
 */
module ReleaseRegistryObject {
  import opened Wrappers
  import R = Release
  import Reg = ReleaseRegistry

  class ReleaseInterruptRegistry {
    var records: seq<R.ReleaseRecord>
    var retained: seq<R.ReleaseRecord>
    var closeRequested: bool
    var streamSettled: bool
    var projection: Option<Reg.Projection>

    constructor ()
      ensures records == [] && retained == [] && !closeRequested && !streamSettled && projection.None?
    {
      records, retained, closeRequested, streamSettled, projection := [], [], false, false, None;
    }

    // Forgets the records nobody holds any more.
    method Prune(live: set<R.ReleaseRecord>)
      modifies this`records
      ensures forall r :: r in records <==> r in old(records) && r in live
    {
      var kept := [];
      for i := 0 to |records|
        invariant records == old(records)
        invariant forall r :: r in kept <==> r in records[..i] && r in live
      {
        if records[i] in live { kept := kept + [records[i]]; }
      }
      assert records[..|records|] == records;
      records := kept;
    }

    method CompleteAll(targets: seq<R.ReleaseRecord>, outcome: R.Outcome)
      modifies set r | r in targets
      ensures forall r :: r in targets ==> r.phase == R.Complete(old(r.phase), outcome) && r.cancelled == old(r.cancelled)
    {
      for i := 0 to |targets|
        invariant forall r :: r in targets[..i] ==> r.phase == R.Complete(old(r.phase), outcome)
        invariant forall r :: r in targets && r !in targets[..i] ==> r.phase == old(r.phase)
        invariant forall r :: r in targets ==> r.cancelled == old(r.cancelled)
      {
        var _ := targets[i].CompleteWith(outcome);
      }
    }

    method Track(record: R.ReleaseRecord, live: set<R.ReleaseRecord>)
      modifies this, record
      ensures unchanged(`closeRequested) && unchanged(`streamSettled) && unchanged(`projection)
      ensures forall r :: r in records <==> (r in old(records) && r in live) || r == record
      ensures retained == old(retained) + (if projection == Some(Reg.OwnershipLost) then [record] else [])
      ensures record.phase ==
              if projection == Some(Reg.OwnershipLost) then old(record.phase)
              else if projection.Some? then R.Complete(old(record.phase), R.CleanupFailure(projection.value.error))
              else if streamSettled then R.Complete(old(record.phase), Reg.Settled())
              else if closeRequested then R.RequestClose(old(record.phase))
              else old(record.phase)
    {
      Prune(live);
      records := records + [record];
      if projection == Some(Reg.OwnershipLost) {
        retained := retained + [record];
        return;
      }
      if projection.Some? {
        var _ := record.CompleteWith(R.CleanupFailure(projection.value.error));
      } else if streamSettled {
        var _ := record.CompleteWith(Reg.Settled());
      } else if closeRequested {
        var _ := record.RequestCloseInterrupt();
      }
    }

    method RecordCleanupFailure(error: R.Error, live: set<R.ReleaseRecord>)
      modifies this, set r | r in records
      ensures projection == if old(projection).None? then Some(Reg.Proven(error)) else old(projection)
      ensures unchanged(`closeRequested) && unchanged(`streamSettled) && unchanged(`retained)
      ensures projection.value.OwnershipLost? ==> forall r :: r in old(records) ==> r.phase == old(r.phase)
      ensures projection.value.Proven? ==>
                && (forall r :: r in records <==> r in old(records) && r in live)
                && (forall r :: r in old(records) && r in live ==>
                      r.phase == R.Complete(old(r.phase), R.CleanupFailure(projection.value.error)))
    {
      if projection.None? { projection := Some(Reg.Proven(error)); }
      if projection.value.OwnershipLost? { return; }
      Prune(live);
      assert forall r :: r in records ==> r in old(records);
      CompleteAll(records, R.CleanupFailure(projection.value.error));
    }

    method RecordOwnershipLoss(live: set<R.ReleaseRecord>)
      modifies this
      ensures old(projection).Some? && old(projection.value).Proven? ==> unchanged(this)
      ensures !(old(projection).Some? && old(projection.value).Proven?) ==>
                && projection == Some(Reg.OwnershipLost) && !streamSettled && unchanged(`closeRequested)
                && (forall r :: r in records <==> r in old(records) && r in live)
                && retained == old(retained) + records
    {
      if projection.Some? && projection.value.Proven? { return; }
      projection := Some(Reg.OwnershipLost);
      streamSettled := false;
      Prune(live);
      retained := retained + records;
    }

    method RequestCloseInterrupts(live: set<R.ReleaseRecord>) returns (consumed: bool)
      modifies this, set r | r in records
      ensures closeRequested && unchanged(`streamSettled) && unchanged(`projection) && unchanged(`retained)
      ensures forall r :: r in records <==> r in old(records) && r in live
      ensures forall r :: r in old(records) && r in live ==> r.phase == R.RequestClose(old(r.phase))
      ensures consumed <==> exists r :: r in old(records) && r in live && R.CloseAnswer(old(r.phase))
    {
      closeRequested := true;
      Prune(live);
      var targets := records;
      assert forall r :: r in targets ==> r in old(records);
      consumed := false;
      for i := 0 to |targets|
        invariant records == targets
        invariant closeRequested && unchanged(`streamSettled) && unchanged(`projection) && unchanged(`retained)
        invariant forall r :: r in old(records) && r in targets[..i] ==> r.phase == R.RequestClose(old(r.phase))
        invariant forall r :: r in old(records) && r !in targets[..i] ==> r.phase == old(r.phase)
        invariant consumed <==> exists r :: r in old(records) && r in targets[..i] && R.CloseAnswer(old(r.phase))
      {
        ghost var seen := targets[..i];
        var told := targets[i].RequestCloseInterrupt();
        assert targets[..i + 1] == seen + [targets[i]];
        consumed := consumed || told;
      }
      assert targets[..|targets|] == targets;
    }

    method SettleStreamAfterClose(live: set<R.ReleaseRecord>)
      modifies this, set r | r in records
      ensures closeRequested && unchanged(`projection) && unchanged(`retained)
      ensures projection == Some(Reg.OwnershipLost) ==>
                unchanged(`streamSettled) && forall r :: r in old(records) ==> r.phase == old(r.phase)
      ensures projection != Some(Reg.OwnershipLost) ==>
                && streamSettled
                && (forall r :: r in records <==> r in old(records) && r in live)
                && (forall r :: r in old(records) && r in live ==> r.phase == R.Complete(old(r.phase), Reg.Settled()))
    {
      closeRequested := true;
      if projection == Some(Reg.OwnershipLost) { return; }
      streamSettled := true;
      Prune(live);
      assert forall r :: r in records ==> r in old(records);
      CompleteAll(records, Reg.Settled());
    }
  }
}
