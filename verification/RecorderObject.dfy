/**
 The recorder object: its fields are updated in place by each operation, and every
 operation is tied to its meaning on values and keeps the state restorable.
 */
module RecorderObject {
  import opened Types
  import opened IntervalRegister
  import opened Membership
  import opened Recorder
  import opened RecorderRestore

  class RecorderCore {
    const id: ReplicaId
    const limits: Limits
    var cluster: Cluster
    var slots: map<Slot, Register>
    var leaders: map<Slot, Option<ReplicaId>>
    var decisions: map<Slot, Decision>
    var prunedThrough: Slot

    function State(): RecorderState
      reads this
    {
      RecorderState(id, limits, cluster, slots, leaders, decisions, prunedThrough)
    }

    ghost predicate Valid()
      reads this
    {
      Structural(State())
    }

    constructor (id: ReplicaId, limits: Limits, cluster: Cluster)
      ensures Valid() && State() == NewRecorder(id, limits, cluster)
    {
      this.id, this.limits, this.cluster := id, limits, cluster;
      slots, leaders, decisions, prunedThrough := map[], map[], map[], 0;
    }

    method InformDecision(d: Decision) returns (r: Result<()>)
      requires Valid()
      modifies this
      ensures Valid() && (State(), r) == Inform(old(State()), d)
    {
      InformKeeps(State(), d);
      var invalid := DecisionError(State(), d);
      if invalid.Some? {
        return Err(invalid.value);
      }
      if d.slot <= prunedThrough {
        return Ok(());
      }
      if d.slot in decisions {
        if decisions[d.slot].values != d.values {
          return Err(ConflictingDecision(d.slot));
        }
        return Ok(());
      }
      if |decisions| == limits.maxDecisions {
        return Err(ResourceLimit(limits.maxDecisions));
      }
      decisions := decisions[d.slot := d];
      return Ok(());
    }

    method InformDecisions(ds: seq<Decision>) returns (r: Result<()>)
      requires Valid()
      modifies this
      ensures Valid() && (State(), r) == InformAll(old(State()), ds)
    {
      r := Ok(());
      for k := 0 to |ds|
        invariant Valid() && r == Ok(()) && (State(), r) == InformAll(old(State()), ds[..k])
      {
        assert ds[..k + 1][..k] == ds[..k];
        r := InformDecision(ds[k]);
        if r.Err? {
          InformStops(old(State()), ds, k + 1, |ds|);
          assert ds[..|ds|] == ds;
          return;
        }
      }
      assert ds[..|ds|] == ds;
    }

    method Record(req: RecordRequest, available: bool) returns (r: Result<RecordReply>)
      requires Valid()
      modifies this
      ensures Valid() && (State(), r) == Recorder.Record(old(State()), req, available)
    {
      RecordKeeps(State(), req, available);
      var invalid := RequestError(State(), req);
      if invalid.Some? {
        return Err(invalid.value);
      }
      if req.slot <= prunedThrough {
        return Err(SlotPruned(req.slot));
      }
      if req.slot in leaders && leaders[req.slot] != req.leader {
        return Err(ScheduleMismatch(req.slot));
      }
      if !available {
        return Err(MissingValue);
      }
      var informed := InformDecisions(req.known);
      if informed.Err? {
        return Err(informed.error);
      }
      if req.slot !in slots && |slots| == limits.maxActiveSlots {
        return Err(ResourceLimit(limits.maxActiveSlots));
      }
      r := WriteRegister(req);
    }

    /** Binds the slot's leader and writes its register. */
    method WriteRegister(req: RecordRequest) returns (r: Result<RecordReply>)
      modifies this
      ensures (State(), r) == RecordAccepted(old(State()), req)
    {
      if req.slot !in leaders {
        leaders := leaders[req.slot := req.leader];
      }
      var reg := if req.slot in slots then slots[req.slot] else EMPTY_REGISTER;
      slots := slots[req.slot := Recorded(reg, Call(req.step, req.proposal))];
      var decision := if req.slot in decisions then Some(decisions[req.slot]) else None;
      return Ok(RecordReply(id, cluster, Summarize(slots[req.slot]), decision));
    }

    method PruneThrough(slot: Slot)
      requires Valid()
      modifies this
      ensures Valid() && State() == Recorder.PruneThrough(old(State()), slot)
    {
      PruneKeeps(State(), slot);
      slots := Above(slots, slot);
      leaders := Above(leaders, slot);
      decisions := Above(decisions, slot);
      if slot > prunedThrough {
        prunedThrough := slot;
      }
    }

    method InstallMembership(change: MembershipChange) returns (r: Result<()>)
      requires Valid()
      modifies this
      ensures Valid() && (State(), r) == Recorder.InstallMembership(old(State()), change)
    {
      InstallKeeps(State(), change);
      if change.commandId !in change.anchor.values {
        return Err(InvalidReconfiguration);
      }
      if cluster == change.next {
        return Ok(());
      }
      if !IsSuccessorOf(change.next, cluster) || change.anchor.slot !in decisions {
        return Err(InvalidReconfiguration);
      }
      if decisions[change.anchor.slot] != change.anchor {
        return Err(ConflictingDecision(change.anchor.slot));
      }
      if (exists s :: s in slots && s > change.anchor.slot) || (exists s :: s in decisions && s > change.anchor.slot) {
        return Err(InvalidReconfiguration);
      }
      cluster := change.next;
      return Ok(());
    }

    /** Puts back a snapshot of an earlier state, except for the cluster. */
    method RestoreSnapshotState(snap: RecorderSnapshot)
      modifies this
      ensures State() == Recorder.RestoreSnapshotState(old(State()), snap)
    {
      slots, leaders, decisions, prunedThrough := snap.slots, snap.leaders, snap.decisions, snap.prunedThrough;
    }
  }

  lemma {:induction false} InformStops(st: RecorderState, ds: seq<Decision>, i: nat, k: nat)
    requires i <= k <= |ds| && InformAll(st, ds[..i]).1.Err?
    ensures InformAll(st, ds[..k]) == InformAll(st, ds[..i])
    decreases k
  {
    if i < k {
      InformStops(st, ds, i, k - 1);
      assert ds[..k][..k - 1] == ds[..k - 1];
    }
  }
}
