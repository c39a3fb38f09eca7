/**
 The reconfiguration barrier: whatever the recorders of a cluster do and in whatever
 order they install a membership change, no slot above its anchor ever sees a phase
 quorum under the old configuration and one under the new.
 */
module Reconfiguration {
  import opened Types
  import opened Membership
  import opened Recorder
  import opened RecorderRestore

  type Recorders = map<ReplicaId, RecorderState>

  /** One recorder performs one operation. */
  datatype Act = Act(recorder: ReplicaId, op: Op)

  function After(rs: Recorders, acts: seq<Act>): Recorders {
    if acts == [] then rs
    else
      var before, last := After(rs, acts[..|acts| - 1]), acts[|acts| - 1];
      if last.recorder in before then before[last.recorder := Apply(before[last.recorder], last.op).0] else before
  }

  /** One recorder after the first k acts. */
  ghost predicate At(rs: Recorders, acts: seq<Act>, q: ReplicaId, k: nat, st: RecorderState)
    requires k <= |acts|
  {
    q in After(rs, acts[..k]) && After(rs, acts[..k])[q] == st
  }

  /** The k-th act is an acknowledged record for the slot under the configuration. */
  ghost predicate Acked(rs: Recorders, acts: seq<Act>, q: ReplicaId, k: nat, slot: Slot, c: Cluster)
    requires k < |acts|
  {
    && acts[k].recorder == q && acts[k].op.OpRecord? && acts[k].op.request.slot == slot
    && exists st ::
         && At(rs, acts, q, k, st) && st.cluster == c
         && Apply(st, acts[k].op).1.Ok? && Apply(st, acts[k].op).1.value.reply.cluster == c
  }

  /** A proposer can have collected a phase quorum for the slot under the configuration. */
  ghost predicate QuorumCompleted(rs: Recorders, acts: seq<Act>, slot: Slot, c: Cluster, voters: set<ReplicaId>) {
    && WellFormed(c) && HasQuorum(c, voters)
    && forall q :: q in voters ==> exists k :: 0 <= k < |acts| && Acked(rs, acts, q, k, slot, c)
  }

  // ----- One recorder -----

  /** The slot has been touched: it is active, or it was and has been pruned. */
  predicate Occupied(st: RecorderState, slot: Slot) {
    slot in st.slots || slot <= st.prunedThrough
  }

  lemma OccupiedStays(st: RecorderState, op: Op, slot: Slot)
    requires Occupied(st, slot)
    ensures Occupied(Apply(st, op).0, slot)
  {
    if op.OpRecord? {
      InformAllOnlyAddsDecisions(st, op.request.known);
    } else if op.OpInform? {
      InformAllOnlyAddsDecisions(st, op.decisions);
    }
  }

  lemma AckOccupies(st: RecorderState, op: Op)
    requires op.OpRecord? && Apply(st, op).1.Ok?
    ensures Occupied(Apply(st, op).0, op.request.slot) && Apply(st, op).0.cluster == st.cluster
  {
    InformAllOnlyAddsDecisions(st, op.request.known);
  }

  /** The barrier itself: a recorder does not move past a slot it has touched. */
  lemma InstallNeedsDrainedSlots(st: RecorderState, op: Op, slot: Slot)
    requires Structural(st) && Occupied(st, slot) && Apply(st, op).0.cluster != st.cluster
    ensures op.OpInstall? && op.change.next == Apply(st, op).0.cluster && slot <= op.change.anchor.slot
  {
    OnlyInstallsChangeCluster(st, op);
  }

  lemma EpochStep(st: RecorderState, op: Op)
    ensures var c' := Apply(st, op).0.cluster;
            c' == st.cluster || (c'.epoch == st.cluster.epoch + 1 && op.OpInstall? && op.change.next == c')
  {
    OnlyInstallsChangeCluster(st, op);
  }

  // ----- One recorder along a run -----

  lemma NextState(rs: Recorders, acts: seq<Act>, q: ReplicaId, k: nat)
    requires k < |acts| && q in After(rs, acts[..k])
    ensures q in After(rs, acts[..k + 1])
    ensures var st := After(rs, acts[..k])[q];
            After(rs, acts[..k + 1])[q] == if acts[k].recorder == q then Apply(st, acts[k].op).0 else st
  {
    assert acts[..k + 1][..k] == acts[..k];
  }

  lemma {:induction false} AlwaysStructural(rs: Recorders, acts: seq<Act>, q: ReplicaId, k: nat)
    requires k <= |acts| && q in rs && Structural(rs[q])
    ensures q in After(rs, acts[..k]) && Structural(After(rs, acts[..k])[q])
    decreases k
  {
    if k > 0 {
      AlwaysStructural(rs, acts, q, k - 1);
      NextState(rs, acts, q, k - 1);
      ApplyKeeps(After(rs, acts[..k - 1])[q], acts[k - 1].op);
    } else {
      assert acts[..0] == [];
    }
  }

  /** Epochs never go back, and a configuration never returns once left. */
  lemma {:induction false} EpochsRise(rs: Recorders, acts: seq<Act>, q: ReplicaId, i: nat, k: nat)
    requires i <= k <= |acts| && q in After(rs, acts[..i])
    ensures q in After(rs, acts[..k])
    ensures var before, after := After(rs, acts[..i])[q].cluster, After(rs, acts[..k])[q].cluster;
            before == after || before.epoch < after.epoch
    decreases k
  {
    if i < k {
      EpochsRise(rs, acts, q, i, k - 1);
      NextState(rs, acts, q, k - 1);
      EpochStep(After(rs, acts[..k - 1])[q], acts[k - 1].op);
    }
  }

  lemma {:induction false} OccupiedAlong(rs: Recorders, acts: seq<Act>, q: ReplicaId, i: nat, k: nat, slot: Slot)
    requires i <= k <= |acts| && q in After(rs, acts[..i]) && Occupied(After(rs, acts[..i])[q], slot)
    ensures q in After(rs, acts[..k]) && Occupied(After(rs, acts[..k])[q], slot)
    decreases k
  {
    if i < k {
      OccupiedAlong(rs, acts, q, i, k - 1, slot);
      NextState(rs, acts, q, k - 1);
      OccupiedStays(After(rs, acts[..k - 1])[q], acts[k - 1].op, slot);
    }
  }

  /** Between two configurations there is the act that installs the second. */
  lemma {:induction false} FindInstall(rs: Recorders, acts: seq<Act>, q: ReplicaId, i: nat, k: nat, next: Cluster)
    returns (m: nat)
    requires i <= k <= |acts| && q in After(rs, acts[..i]) && q in After(rs, acts[..k])
    requires After(rs, acts[..i])[q].cluster != next && After(rs, acts[..k])[q].cluster == next
    ensures i <= m < k && acts[m].recorder == q && q in After(rs, acts[..m])
    ensures After(rs, acts[..m])[q].cluster != next && Apply(After(rs, acts[..m])[q], acts[m].op).0.cluster == next
    decreases k
  {
    EpochsRise(rs, acts, q, i, k - 1);
    NextState(rs, acts, q, k - 1);
    if After(rs, acts[..k - 1])[q].cluster == next {
      m := FindInstall(rs, acts, q, i, k - 1, next);
    } else {
      m := k - 1;
    }
  }

  /** A recorder that acknowledges the slot under a configuration never does so under its successor. */
  lemma NeverUnderBoth(rs: Recorders, acts: seq<Act>, q: ReplicaId, i: nat, k: nat, slot: Slot, c: Cluster,
                       next: Cluster)
    requires q in rs && Structural(rs[q]) && IsSuccessorOf(next, c)
    requires i < |acts| && k < |acts| && Acked(rs, acts, q, i, slot, c) && Acked(rs, acts, q, k, slot, next)
    ensures exists m :: 0 <= m < |acts| && acts[m].op.OpInstall? && acts[m].op.change.next == next
                        && acts[m].op.change.anchor.slot >= slot
  {
    if k < i {
      EpochsRise(rs, acts, q, k, i);
    } else {
      AlwaysStructural(rs, acts, q, i);
      NextState(rs, acts, q, i);
      AckOccupies(After(rs, acts[..i])[q], acts[i].op);
      assert i != k;
      var m := FindInstall(rs, acts, q, i + 1, k, next);
      OccupiedAlong(rs, acts, q, i + 1, m, slot);
      AlwaysStructural(rs, acts, q, m);
      InstallNeedsDrainedSlots(After(rs, acts[..m])[q], acts[m].op, slot);
    }
  }

  /**
   For every slot above every anchor with which the change is ever installed, at most one
   of a configuration and its successor completes phase quorums.
   */
  lemma OneConfigurationPerSlot(rs: Recorders, acts: seq<Act>, slot: Slot, c: Cluster, next: Cluster,
                                x: set<ReplicaId>, y: set<ReplicaId>)
    requires forall q :: q in rs ==> Structural(rs[q])
    requires IsSuccessorOf(next, c)
    requires forall m :: 0 <= m < |acts| && acts[m].op.OpInstall? && acts[m].op.change.next == next ==>
                           acts[m].op.change.anchor.slot < slot
    requires QuorumCompleted(rs, acts, slot, c, x)
    ensures !QuorumCompleted(rs, acts, slot, next, y)
  {
    if QuorumCompleted(rs, acts, slot, next, y) {
      QuorumsMeet(c, next, x, y);
      var q :| q in x && q in y;
      var i :| 0 <= i < |acts| && Acked(rs, acts, q, i, slot, c);
      var k :| 0 <= k < |acts| && Acked(rs, acts, q, k, slot, next);
      OnlyStarters(rs, acts[..i], q);
      NeverUnderBoth(rs, acts, q, i, k, slot, c, next);
    }
  }

  lemma {:induction false} OnlyStarters(rs: Recorders, acts: seq<Act>, q: ReplicaId)
    requires q in After(rs, acts)
    ensures q in rs
  {
    if acts != [] {
      OnlyStarters(rs, acts[..|acts| - 1], q);
    }
  }
}
