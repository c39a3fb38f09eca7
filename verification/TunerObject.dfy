/**
 The epoch tuner as an object: schedules and statistics are updated in place, and the
 samples are added up by a loop over the retained epochs.
 */
module TunerObject {
  import opened Types
  import S = Schedule

  class EpochTuner {
    const epochSize: nat
    const auto: bool
    var members: seq<ReplicaId>
    var schedules: map<nat, seq<ReplicaId>>
    var stats: map<nat, S.EpochStat>
    var statsThrough: Slot

    function State(): S.Tuner
      reads this
    {
      S.Tuner(epochSize, members, auto, schedules, stats, statsThrough)
    }

    predicate Valid()
      reads this
    {
      members != [] && epochSize > 0
    }

    constructor (epochSize: nat, members: seq<ReplicaId>, auto: bool)
      requires members != []
      ensures Valid() && State() == S.NewTuner(epochSize, members, auto)
    {
      this.epochSize := if epochSize == 0 then 1 else epochSize;
      this.members, this.auto := members, auto;
      schedules, stats, statsThrough := map[], map[], 0;
    }

    /** Adds up the samples of the epochs before n, by leader. */
    method AddUp(n: nat) returns (totals: S.Totals)
      ensures totals == S.TotalsOf(stats, n)
    {
      totals := map[];
      for epoch := 0 to n
        invariant totals == S.TotalsOf(stats, epoch)
      {
        if epoch in stats {
          var stat := stats[epoch];
          var entry := if stat.leader in totals then totals[stat.leader] else S.Sample(0, 0);
          totals := totals[stat.leader := S.Sample(entry.slots + stat.slots, entry.total + stat.total)];
        }
      }
    }

    method Derive(epoch: nat) returns (r: Result<seq<ReplicaId>>)
      requires Valid()
      ensures r == S.Derive(State(), epoch)
      ensures r.Ok? ==> S.Permutes(r.value, members)
    {
      S.DerivedPermutes(State(), epoch);
      if epoch < S.WarmupEpochs(members) {
        return Ok(S.Rotated(members, epoch % |members|));
      }
      if statsThrough < S.Required(epochSize, epoch) {
        return Err(PolicyError);
      }
      var totals := AddUp(epoch - 1);
      var ranked := S.Rank(members, totals);
      var round := epoch - S.WarmupEpochs(members);
      if round > 0 && round % S.AUTO_REEXPLORE_EPOCHS == 0 {
        var candidate := members[(round / S.AUTO_REEXPLORE_EPOCHS) % |members|];
        ranked := [candidate] + S.Without(ranked, candidate);
      }
      return Ok(ranked);
    }

    method EnsureSchedule(epoch: nat) returns (r: Result<seq<ReplicaId>>)
      requires Valid()
      modifies this`schedules
      ensures Valid() && (State(), r) == S.EnsureSchedule(old(State()), epoch)
    {
      if epoch in schedules {
        return Ok(schedules[epoch]);
      }
      if !auto {
        return Err(PolicyError);
      }
      r := Derive(epoch);
      if r.Ok? {
        schedules := schedules[epoch := r.value];
      }
    }

    method NoteCommitted(slot: Slot, step: Step) returns (r: Result<bool>)
      requires Valid()
      modifies this
      ensures Valid() && (State(), r) == S.NoteCommitted(old(State()), slot, step)
    {
      if !auto || slot <= statsThrough {
        return Ok(false);
      }
      if slot != statsThrough + 1 {
        return Err(PolicyError);
      }
      var epoch := slot / epochSize;
      var order := EnsureSchedule(epoch);
      if order.Err? {
        return Err(order.error);
      }
      if order.value == [] {
        return Err(EmptyCluster);
      }
      var stat := if epoch in stats then stats[epoch] else S.EpochStat(order.value[0], 0, 0);
      stats := stats[epoch := S.EpochStat(stat.leader, S.SaturatingAdd(stat.slots, 1),
          S.SaturatingAdd(stat.total, step))];
      statsThrough := slot;
      if epoch >= S.RETAINED_STAT_EPOCHS {
        var floor := epoch - S.RETAINED_STAT_EPOCHS;
        stats := map e | e in stats && e >= floor :: stats[e];
        schedules := map e | e in schedules && e >= floor :: schedules[e];
      }
      return Ok(true);
    }

    method Install(epoch: nat, order: seq<ReplicaId>) returns (r: Result<bool>)
      modifies this`schedules
      ensures (State(), r) == S.Install(old(State()), epoch, order)
      ensures r.Ok? ==> epoch in schedules && schedules[epoch] == order
      ensures forall e :: e in old(schedules) ==> e in schedules && schedules[e] == old(schedules[e])
    {
      if auto {
        return Err(PolicyError);
      }
      if epoch in schedules {
        return if schedules[epoch] != order then Err(PolicyError) else Ok(false);
      }
      schedules := schedules[epoch := order];
      return Ok(true);
    }

    method Reconfigure(next: seq<ReplicaId>, committedThrough: Slot)
      requires next != [] && epochSize > 0
      modifies this
      ensures Valid() && State() == S.Reconfigure(old(State()), next, committedThrough)
    {
      members, schedules, stats, statsThrough := next, map[], map[], committedThrough;
    }
  }
}
