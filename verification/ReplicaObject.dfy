/**
 The replica object: the log, the queue and the counters are updated in place, and each
 operation is tied to its meaning on values.
 */
module ReplicaObject {
  import opened Types
  import opened Membership
  import R = Replica

  class ReplicaCore {
    const config: R.ReplicaConfig
    var log: R.Log
    var pending: seq<Value>
    var lastProposed: Slot
    var nextCommit: Slot
    var checkpointedThrough: Slot
    var seen: set<Value>

    function State(): R.ReplicaState
      reads this
    {
      R.ReplicaState(config, log, pending, lastProposed, nextCommit, checkpointedThrough, seen)
    }

    constructor (config: R.ReplicaConfig)
      ensures State() == R.NewReplica(config)
    {
      this.config := config;
      log := map[R.GENESIS := R.LogSlot([], None, true)];
      pending, lastProposed, nextCommit, checkpointedThrough, seen := [], R.GENESIS, 1, R.GENESIS, {};
    }

    method Enqueue(values: seq<Value>) returns (r: Result<()>)
      modifies this
      ensures (State(), r) == R.Enqueue(old(State()), values)
    {
      var added: seq<Value> := [];
      for k := 0 to |values|
        invariant added == R.Unseen(seen, values[..k])
      {
        assert values[..k + 1][..k] == values[..k];
        if values[k] !in seen && values[k] !in added {
          added := added + [values[k]];
        }
      }
      assert values[..|values|] == values;
      if |pending| + |added| > config.maxPending {
        return Err(ResourceLimit(config.maxPending));
      }
      if |seen| + |added| > config.maxTracked {
        return Err(ResourceLimit(config.maxTracked));
      }
      seen, pending := seen + Elements(added), pending + added;
      return Ok(());
    }

    method NextOpenSlot() returns (slot: Slot)
      ensures slot == R.NextOpen(log, nextCommit) && slot >= nextCommit
      ensures slot in log ==> log[slot].decision.None? && log[slot].proposed == []
      ensures forall s :: nextCommit <= s < slot ==> s in log && (log[s].decision.Some? || log[s].proposed != [])
    {
      slot := nextCommit;
      while slot in log && (log[slot].decision.Some? || log[slot].proposed != [])
        invariant R.NextOpen(log, slot) == R.NextOpen(log, nextCommit)
        decreases R.KeysFrom(log, slot)
      {
        assert slot in R.KeysFrom(log, slot) && slot !in R.KeysFrom(log, slot + 1);
        slot := slot + 1;
      }
    }

    method NoteProposed(slot: Slot, values: seq<Value>) returns (r: Result<()>)
      modifies this
      ensures (State(), r) == R.NoteProposed(old(State()), slot, values)
    {
      if values == [] {
        return Err(EmptyProposal);
      }
      if |Elements(values)| != |values| {
        return Err(InvalidProposal);
      }
      if |seen| + |Elements(values) - seen| > config.maxTracked {
        return Err(ResourceLimit(config.maxTracked));
      }
      if !R.HasRoom(State(), slot) {
        return Err(ResourceLimit(config.maxLogSlots));
      }
      seen := seen + Elements(values);
      if slot > lastProposed {
        lastProposed := slot;
      }
      log := log[slot := R.EntryAt(log, slot).(proposed := values)];
      return Ok(());
    }

    method NextProposal() returns (r: Result<Option<(Slot, seq<Value>)>>)
      modifies this
      ensures (State(), r) == R.NextProposal(old(State()))
    {
      if R.Inflight(State()) >= config.pipelineLen || pending == [] {
        return Ok(None);
      }
      var slot := NextOpenSlot();
      var take := R.BatchLength(State());
      var batch := pending[..take];
      pending := pending[take..];
      var noted := NoteProposed(slot, batch);
      return if noted.Err? then Err(noted.error) else Ok(Some((slot, batch)));
    }

    /** Commits decided slots from the frontier on. */
    method CommitReady() returns (committed: seq<Decision>)
      modifies this`log, this`nextCommit
      ensures (log, nextCommit, committed) == R.CommitReady(old(log), old(nextCommit))
    {
      committed := [];
      assert [] + R.CommitReady(log, nextCommit).2 == R.CommitReady(log, nextCommit).2;
      while nextCommit in log
        invariant var rest := R.CommitReady(log, nextCommit);
                  (rest.0, rest.1, committed + rest.2) == R.CommitReady(old(log), old(nextCommit))
        decreases R.KeysFrom(log, nextCommit)
      {
        ghost var before, was := R.CommitReady(log, nextCommit), committed;
        ghost var keys := R.KeysFrom(log, nextCommit);
        var slot := log[nextCommit];
        assert nextCommit in keys && nextCommit !in R.KeysFrom(log, nextCommit + 1);
        if !slot.committed {
          if slot.decision.None? {
            break;
          }
          log := log[nextCommit := R.LogSlot([], slot.decision, true)];
          committed := committed + [slot.decision.value];
        }
        nextCommit := nextCommit + 1;
        assert R.KeysFrom(log, nextCommit) < keys;
        assert committed + R.CommitReady(log, nextCommit).2 == was + before.2;
      }
      assert committed + [] == committed;
    }

    /** Puts the losing values back at the front of the queue, last one first. */
    method Requeue(losing: seq<Value>)
      modifies this`pending
      ensures pending == losing + old(pending)
    {
      var rest := losing;
      assert rest + old(pending) == losing + old(pending);
      while rest != []
        invariant rest + pending == losing + old(pending)
      {
        var value := rest[|rest| - 1];
        assert rest == rest[..|rest| - 1] + [value];
        assert rest + pending == rest[..|rest| - 1] + ([value] + pending);
        rest := rest[..|rest| - 1];
        pending := [value] + pending;
      }
      assert rest + pending == pending;
    }

    method ApplyDecision(d: Decision) returns (r: Result<seq<Decision>>)
      modifies this
      ensures (State(), r) == R.ApplyDecision(old(State()), d)
    {
      if d.values == [] {
        return Err(EmptyDecision);
      }
      if |Elements(d.values)| != |d.values| {
        return Err(InvalidProposal);
      }
      if |seen| + |Elements(d.values) - seen| > config.maxTracked {
        return Err(ResourceLimit(config.maxTracked));
      }
      if !R.HasRoom(State(), d.slot) {
        return Err(ResourceLimit(config.maxLogSlots));
      }
      var slot := R.EntryAt(log, d.slot);
      if slot.decision.Some? {
        return if slot.decision.value.values != d.values then Err(ConflictingDecision(d.slot)) else Ok([]);
      }
      var losing := R.Requeued(slot, d);
      if slot.proposed != [] && slot.proposed != d.values && |pending| + |losing| > config.maxPending {
        return Err(ResourceLimit(config.maxPending));
      }
      Requeue(losing);
      log := log[d.slot := slot.(decision := Some(d))];
      seen := seen + Elements(d.values);
      var committed := CommitReady();
      return Ok(committed);
    }

    method PruneThrough(slot: Slot)
      modifies this
      ensures State() == R.PruneThrough(old(State()), slot)
    {
      var committedThrough := if nextCommit == 0 then 0 else nextCommit - 1;
      var through := if slot < committedThrough then slot else committedThrough;
      if through < checkpointedThrough {
        through := checkpointedThrough;
      }
      log := map s | s in log && (s == R.GENESIS || s > through || !log[s].committed) :: log[s];
      checkpointedThrough := through;
    }
  }
}
