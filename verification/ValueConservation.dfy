/**
 No accepted value gets lost: each is queued, claimed by exactly one undecided slot, or
 decided. The one exception, a proposal into a full log, is characterised exactly.
 */
module ValueConservation {
  import opened Types
  import opened Membership
  import opened Replica
  import opened ReplicaSafety

  /** An undecided slot claims the value. */
  predicate Claims(log: Log, s: Slot, v: Value) {
    s in log && log[s].decision.None? && v in log[s].proposed
  }

  ghost predicate Claimed(log: Log, v: Value) {
    exists s :: Claims(log, s, v)
  }

  /** No value is queued twice, claimed twice, or both. */
  ghost predicate Unshared(st: ReplicaState) {
    && Distinct(st.pending)
    && (forall s :: s in st.log && st.log[s].decision.None? ==> Distinct(st.log[s].proposed))
    && (forall s, v :: Claims(st.log, s, v) ==> v !in st.pending)
    && (forall s, t, v :: Claims(st.log, s, v) && Claims(st.log, t, v) ==> s == t)
  }

  /** Every accepted value is somewhere. */
  ghost predicate Complete(st: ReplicaState, decided: set<Value>) {
    forall v :: v in st.seen ==> v in st.pending || v in decided || Claimed(st.log, v)
  }

  ghost predicate Conserved(st: ReplicaState, decided: set<Value>) {
    Unshared(st) && Complete(st, decided)
  }

  /** The values of the decisions that a run has accepted. */
  function DecidedValues(config: ReplicaConfig, ops: seq<Op>): set<Value> {
    if ops == [] then {}
    else
      var init, last := ops[..|ops| - 1], ops[|ops| - 1];
      DecidedValues(config, init) + Accepts(After(config, init), last)
  }

  function Accepts(st: ReplicaState, op: Op): set<Value> {
    if op.OpDecide? && ApplyDecision(st, op.decision).1.Ok? then Elements(op.decision.values) else {}
  }

  // ----- Enqueueing -----

  lemma EnqueueConserves(st: ReplicaState, values: seq<Value>, decided: set<Value>)
    requires Tracked(st) && Conserved(st, decided)
    ensures Conserved(Enqueue(st, values).0, decided)
  {
    UnseenIsTracked(st.seen, values);
    DistinctAppend(st.pending, Unseen(st.seen, values));
    var st' := Enqueue(st, values).0;
    forall s, v | Claims(st'.log, s, v) ensures v !in st'.pending {
      assert Claims(st.log, s, v) && EntryTracked(st.seen, st.log[s]);
    }
    forall v | v in st'.seen ensures v in st'.pending || v in decided || Claimed(st'.log, v) {
      assert v in st.seen ==> v in st.pending || v in decided || Claimed(st.log, v);
    }
  }

  // ----- Proposing -----

  /** What a proposal does when the log has room. */
  predicate Proposes(st: ReplicaState, st': ReplicaState, slot: Slot, n: nat) {
    && n <= |st.pending|
    && (slot in st.log ==> st.log[slot].decision.None? && st.log[slot].proposed == [])
    && st'.pending == st.pending[n..] && st'.seen == st.seen
    && st'.log == st.log[slot := EntryAt(st.log, slot).(proposed := st.pending[..n])]
  }

  lemma ProposeMovesValues(st: ReplicaState, st': ReplicaState, slot: Slot, n: nat)
    requires Unshared(st) && Proposes(st, st', slot, n)
    ensures Unshared(st')
  {
    var batch := st.pending[..n];
    assert forall v :: v in batch ==> v in st.pending && v !in st.pending[n..];
    forall s, v ensures Claims(st'.log, s, v) <==> if s == slot then v in batch else Claims(st.log, s, v) {
    }
  }

  lemma ProposeComplete(st: ReplicaState, st': ReplicaState, slot: Slot, n: nat, decided: set<Value>)
    requires Complete(st, decided) && Proposes(st, st', slot, n)
    ensures Complete(st', decided)
  {
    forall v | v in st'.seen ensures v in st'.pending || v in decided || Claimed(st'.log, v) {
      if v in st.pending {
        assert st.pending == st.pending[..n] + st.pending[n..];
        if v in st.pending[..n] {
          assert Claims(st'.log, slot, v);
        }
      } else if v !in decided {
        var s :| Claims(st.log, s, v);
        assert Claims(st'.log, s, v);
      }
    }
  }

  /** The batch that the next proposal would take, and where it would go. */
  function NextBatch(st: ReplicaState): seq<Value>
    requires st.pending != []
  {
    st.pending[..BatchLength(st)]
  }

  /** The log can take the next proposal, if there is one. */
  predicate RoomToPropose(st: ReplicaState) {
    WillPropose(st) ==> HasRoom(st, NextOpen(st.log, st.nextCommit))
  }

  lemma BatchAccepted(st: ReplicaState)
    requires Tracked(st) && WithinLimits(st) && Unshared(st) && WillPropose(st)
    ensures var (st', r) := NextProposal(st);
            && (RoomToPropose(st) ==> r.Ok? && Proposes(st, st', NextOpen(st.log, st.nextCommit), BatchLength(st)))
            && (!RoomToPropose(st) ==> r.Err? && st' == st.(pending := st.pending[BatchLength(st)..]))
  {
    BatchFits(st, BatchLength(st));
    NotesBatch(st.(pending := st.pending[BatchLength(st)..]), NextOpen(st.log, st.nextCommit), NextBatch(st));
  }

  /** At least one and at most the configured number of values, as far as there are any. */
  lemma BatchLengthIs(st: ReplicaState)
    requires st.pending != []
    ensures 1 <= BatchLength(st) <= |st.pending|
    ensures BatchLength(st) == 1 || BatchLength(st) <= st.config.batchSize
    ensures BatchLength(st) == |st.pending| || BatchLength(st) >= st.config.batchSize
  {
  }

  /**
   A proposal is made exactly if the pipeline has room and values wait. Then the batch
   leaves the front of the queue for the lowest slot that is neither decided nor claimed;
   if the log has no room for that slot, the call fails and the batch is gone.
   */
  lemma ProposeExactly(st: ReplicaState)
    requires Tracked(st) && WithinLimits(st) && Unshared(st)
    ensures var (st', r) := NextProposal(st);
            var slot, n := NextOpen(st.log, st.nextCommit), BatchLength(st);
            if Inflight(st) >= st.config.pipelineLen || st.pending == [] then st' == st && r == Ok(None)
            else
              && n <= |st.pending| && st'.pending == st.pending[n..]
              && (r.Ok? <==> HasRoom(st, slot))
              && (r.Ok? ==>
                    && r.value == Some((slot, st.pending[..n]))
                    && st'.log == st.log[slot := EntryAt(st.log, slot).(proposed := st.pending[..n])])
              && (r.Err? ==> st' == st.(pending := st.pending[n..]))
  {
    if WillPropose(st) {
      BatchLengthIs(st);
      BatchAccepted(st);
    }
  }

  lemma NotesBatch(st: ReplicaState, slot: Slot, batch: seq<Value>)
    requires batch != [] && |Elements(batch)| == |batch| && Elements(batch) - st.seen == {}
             && st.seen + Elements(batch) == st.seen
    requires |st.seen| <= st.config.maxTracked
    ensures var (st', r) := NoteProposed(st, slot, batch);
            && (HasRoom(st, slot) ==> && r.Ok? && st'.pending == st.pending && st'.seen == st.seen
                                      && st'.log == st.log[slot := EntryAt(st.log, slot).(proposed := batch)])
            && (!HasRoom(st, slot) ==> r.Err? && st' == st)
  {
  }

  /** A batch from the queue repeats nothing and brings nothing new. */
  lemma BatchFits(st: ReplicaState, n: nat)
    requires Tracked(st) && Distinct(st.pending) && n <= |st.pending|
    ensures |Elements(st.pending[..n])| == n
    ensures Elements(st.pending[..n]) - st.seen == {} && st.seen + Elements(st.pending[..n]) == st.seen
  {
    ElementsSize(st.pending[..n]);
    assert forall v :: v in st.pending[..n] ==> v in st.pending;
  }

  /**
   A proposal loses values exactly if the log is full: it then drops a batch of which
   some value is not decided elsewhere.
   */
  lemma ProposeConservesExactly(st: ReplicaState, decided: set<Value>)
    requires Tracked(st) && WithinLimits(st) && Conserved(st, decided)
    ensures Conserved(NextProposal(st).0, decided) <==>
              (RoomToPropose(st) || forall v :: v in NextBatch(st) ==> v in decided)
  {
    if WillPropose(st) {
      BatchAccepted(st);
      var st' := NextProposal(st).0;
      if RoomToPropose(st) {
        ProposeMovesValues(st, st', NextOpen(st.log, st.nextCommit), BatchLength(st));
        ProposeComplete(st, st', NextOpen(st.log, st.nextCommit), BatchLength(st), decided);
      } else {
        DroppedBatch(st, st', BatchLength(st), decided);
      }
    }
  }

  lemma DroppedBatch(st: ReplicaState, st': ReplicaState, n: nat, decided: set<Value>)
    requires n <= |st.pending| && st' == st.(pending := st.pending[n..]) && Tracked(st) && Conserved(st, decided)
    ensures Conserved(st', decided) <==> forall v :: v in st.pending[..n] ==> v in decided
  {
    assert st.pending == st.pending[..n] + st.pending[n..];
    assert Unshared(st');
    if forall v :: v in st.pending[..n] ==> v in decided {
      assert Complete(st', decided);
    } else {
      var v :| v in st.pending[..n] && v !in decided;
      assert v in st.pending && v in st'.seen;
      assert !Claimed(st.log, v);
      assert v !in st.pending[n..] by {
        var i :| 0 <= i < n && st.pending[i] == v;
      }
    }
  }

  // ----- Deciding -----

  lemma CommitKeepsClaims(log: Log, next: Slot, log': Log, next': Slot, committed: seq<Decision>, s: Slot, v: Value)
    requires Commits(log, next, log', next', committed)
    ensures Claims(log', s, v) <==> Claims(log, s, v)
  {
    assert next <= s < next' ==> SlotCommits(log, next, log', committed, s);
  }

  lemma DecideClaims(st: ReplicaState, d: Decision, st': ReplicaState, committed: seq<Decision>, s: Slot, v: Value)
    requires Decides(st, d, st', committed)
    ensures Claims(st'.log, s, v) <==> s != d.slot && Claims(st.log, s, v)
  {
    CommitKeepsClaims(WithDecision(st.log, d), st.nextCommit, st'.log, st'.nextCommit, committed, s, v);
  }

  /** The values that a decided slot gives back were claimed by it. */
  lemma RequeuedWereClaimed(st: ReplicaState, d: Decision, st': ReplicaState, committed: seq<Decision>)
    requires Unshared(st) && Decides(st, d, st', committed)
    ensures var requeued := Requeued(EntryAt(st.log, d.slot), d);
            && Distinct(requeued)
            && (forall v :: v in requeued ==> Claims(st.log, d.slot, v))
            && (forall v :: Claims(st.log, d.slot, v) ==> v in requeued || v in d.values)
  {
    LosingAreProposed(EntryAt(st.log, d.slot).proposed, d.values);
  }

  lemma DecideUnshared(st: ReplicaState, d: Decision, st': ReplicaState, committed: seq<Decision>)
    requires Unshared(st) && Decides(st, d, st', committed)
    ensures Unshared(st')
  {
    RequeuedWereClaimed(st, d, st', committed);
    forall s, v | Claims(st'.log, s, v) ensures v !in st'.pending && Claims(st.log, s, v) {
      DecideClaims(st, d, st', committed, s, v);
    }
    forall s | s in st'.log && st'.log[s].decision.None? ensures Distinct(st'.log[s].proposed) {
      var log := WithDecision(st.log, d);
      assert st.nextCommit <= s < st'.nextCommit ==> SlotCommits(log, st.nextCommit, st'.log, committed, s);
      assert st'.log[s] == log[s];
    }
    var requeued := Requeued(EntryAt(st.log, d.slot), d);
    assert forall v :: v in requeued ==> v !in st.pending;
    DistinctAppend(requeued, st.pending);
  }

  lemma DistinctAppend(a: seq<Value>, b: seq<Value>)
    requires Distinct(a) && Distinct(b) && forall v :: v in a ==> v !in b
    ensures Distinct(a + b)
  {
    var c := a + b;
    forall i, j | 0 <= i < j < |c| ensures c[i] != c[j] {
      if i < |a| <= j {
        assert c[i] == a[i] && a[i] in a && c[j] == b[j - |a|] && b[j - |a|] in b;
      }
    }
  }

  lemma DecideComplete(st: ReplicaState, d: Decision, st': ReplicaState, committed: seq<Decision>, decided: set<Value>)
    requires Unshared(st) && Complete(st, decided) && Decides(st, d, st', committed)
    requires forall v :: v in d.values ==> v in decided
    ensures Complete(st', decided)
  {
    RequeuedWereClaimed(st, d, st', committed);
    forall v | v in st'.seen ensures v in st'.pending || v in decided || Claimed(st'.log, v) {
      if v !in decided && v !in st.pending {
        var s :| Claims(st.log, s, v);
        DecideClaims(st, d, st', committed, s, v);
      }
    }
  }

  lemma DecideConserves(st: ReplicaState, d: Decision, decided: set<Value>)
    requires FrontierOk(st) && Conserved(st, decided) && forall v :: v in d.values ==> v in decided
    ensures Conserved(Perform(st, OpDecide(d)).0, decided)
  {
    var (st', committed) := Perform(st, OpDecide(d));
    DecideCases(st, d);
    if Decides(st, d, st', committed) {
      DecideUnshared(st, d, st', committed);
      DecideComplete(st, d, st', committed, decided);
    }
  }

  // ----- Pruning -----

  lemma PruneConserves(st: ReplicaState, slot: Slot, decided: set<Value>)
    requires FrontierOk(st) && Conserved(st, decided)
    ensures Conserved(PruneThrough(st, slot), decided)
  {
    var st' := PruneThrough(st, slot);
    forall s, v ensures Claims(st'.log, s, v) <==> Claims(st.log, s, v) {
    }
    forall v | v in st'.seen ensures v in st'.pending || v in decided || Claimed(st'.log, v) {
      if v !in st.pending && v !in decided {
        var s :| Claims(st.log, s, v);
        assert Claims(st'.log, s, v);
      }
    }
  }

  // ----- Over whole runs -----

  /** The run proposes only when the log has room, and only through `next_proposal`. */
  predicate ProposesWithRoom(config: ReplicaConfig, ops: seq<Op>) {
    forall k :: 0 <= k < |ops| ==> !ops[k].OpNote? && (ops[k].OpPropose? ==> RoomAt(config, ops, k))
  }

  predicate RoomAt(config: ReplicaConfig, ops: seq<Op>, k: nat)
    requires k <= |ops|
  {
    RoomToPropose(After(config, ops[..k]))
  }

  lemma ConservedGrows(st: ReplicaState, decided: set<Value>, more: set<Value>)
    requires Conserved(st, decided)
    ensures Conserved(st, decided + more)
  {
  }

  lemma PerformConserves(st: ReplicaState, op: Op, before: set<Value>)
    requires Sound(st) && Conserved(st, before) && !op.OpNote? && (op.OpPropose? ==> RoomToPropose(st))
    ensures Conserved(Perform(st, op).0, before + Accepts(st, op))
  {
    var decided := before + Accepts(st, op);
    ConservedGrows(st, before, Accepts(st, op));
    match op
    case OpEnqueue(values) => EnqueueConserves(st, values, decided);
    case OpPropose => ProposeConservesExactly(st, decided);
    case OpDecide(d) =>
      if ApplyDecision(st, d).1.Ok? {
        DecideConserves(st, d, decided);
      } else {
        RejectedChangesNothing(st, d);
      }
    case OpPrune(slot) => PruneConserves(st, slot, decided);
  }

  lemma RejectedChangesNothing(st: ReplicaState, d: Decision)
    requires ApplyDecision(st, d).1.Err?
    ensures Perform(st, OpDecide(d)).0 == st
  {
  }

  /**
   Over every such run, every accepted value is queued, claimed by exactly one undecided
   slot, or in a decision the run accepted.
   */
  lemma {:induction false} ValuesConserved(config: ReplicaConfig, ops: seq<Op>)
    requires ProposesWithRoom(config, ops)
    ensures Conserved(After(config, ops), DecidedValues(config, ops))
  {
    if ops != [] {
      var n := |ops| - 1;
      var init := ops[..n];
      forall k | 0 <= k < n ensures !init[k].OpNote? && (init[k].OpPropose? ==> RoomAt(config, init, k)) {
        assert init[k] == ops[k] && init[..k] == ops[..k] && (ops[k].OpPropose? ==> RoomAt(config, ops, k));
      }
      ValuesConserved(config, init);
      AlwaysSound(config, init);
      assert ops[n].OpPropose? ==> RoomAt(config, ops, n);
      PerformConserves(After(config, init), ops[n], DecidedValues(config, init));
    }
  }

  // ----- The exception happens -----

  /** One log slot, two slots in flight, one value per batch. */
  const TIGHT := ReplicaConfig(1, 2, 2, 1, 2)
  const TWO_PROPOSALS := [OpEnqueue([7, 8]), OpPropose, OpPropose]

  /** The state in which 7 claims the only log slot and 8 is queued. */
  function SevenClaimed(): ReplicaState {
    var st := NewReplica(TIGHT);
    st.(pending := [8], seen := {7, 8}, lastProposed := 1, log := st.log[1 := LogSlot([7], None, false)])
  }

  /** The first value claims the only log slot; the second is drained and lost. */
  lemma FullLogLosesValue()
    ensures Conserved(After(TIGHT, TWO_PROPOSALS[..2]), DecidedValues(TIGHT, TWO_PROPOSALS[..2]))
    ensures !Conserved(After(TIGHT, TWO_PROPOSALS), DecidedValues(TIGHT, TWO_PROPOSALS))
    ensures 8 in After(TIGHT, TWO_PROPOSALS).seen && 8 !in After(TIGHT, TWO_PROPOSALS).pending
  {
    OneClaimed();
    NothingDecided();
    SecondLost(SevenClaimed());
  }

  lemma OneClaimed()
    ensures After(TIGHT, TWO_PROPOSALS[..2]) == SevenClaimed()
  {
    BothQueued();
    FirstProposed(NewReplica(TIGHT).(pending := [7, 8], seen := {7, 8}));
    assert TWO_PROPOSALS[..2][..1] == TWO_PROPOSALS[..1];
  }

  lemma SecondLost(st: ReplicaState)
    requires st == SevenClaimed() == After(TIGHT, TWO_PROPOSALS[..2])
    ensures Conserved(st, {}) && !Conserved(NextProposal(st).0, {})
    ensures 8 in NextProposal(st).0.seen && 8 !in NextProposal(st).0.pending
  {
    NoRoomForSecond(st);
    AlwaysSound(TIGHT, TWO_PROPOSALS[..2]);
    BatchAccepted(st);
    ProposeConservesExactly(st, {});
  }

  lemma NothingDecided()
    ensures DecidedValues(TIGHT, TWO_PROPOSALS[..2]) == {} && DecidedValues(TIGHT, TWO_PROPOSALS) == {}
  {
    assert TWO_PROPOSALS[..2][..1] == TWO_PROPOSALS[..1] && TWO_PROPOSALS[..1][..0] == [];
    assert DecidedValues(TIGHT, TWO_PROPOSALS[..1]) == {};
    assert DecidedValues(TIGHT, TWO_PROPOSALS[..2]) == {};
  }

  lemma BothUnseen()
    ensures Unseen({}, [7, 8]) == [7, 8] && Elements([7, 8]) == {7, 8}
  {
    assert [7, 8][..1] == [7] && [7][..0] == [];
    assert Unseen({}, [7]) == [7];
  }

  lemma BothQueued()
    ensures After(TIGHT, TWO_PROPOSALS[..1]) == NewReplica(TIGHT).(pending := [7, 8], seen := {7, 8})
  {
    var ops := TWO_PROPOSALS[..1];
    assert ops == [OpEnqueue([7, 8])] && ops[..0] == [];
    BothUnseen();
    var st := NewReplica(TIGHT);
    assert st.seen == {} && Enqueue(st, [7, 8]).0 == st.(pending := [7, 8], seen := {7, 8});
    assert After(TIGHT, ops[..0]) == st;
  }

  lemma FirstProposed(st: ReplicaState)
    requires st == NewReplica(TIGHT).(pending := [7, 8], seen := {7, 8})
    ensures NextProposal(st).0 == st.(pending := [8], lastProposed := 1, log := st.log[1 := LogSlot([7], None, false)])
  {
    assert Flying(st) == {} && st.log.Keys - {GENESIS} == {};
    assert st.pending[..1] == [7] && st.pending[1..] == [8];
    assert Elements([7]) == {7} && Elements([7]) - st.seen == {} && st.seen + Elements([7]) == st.seen;
  }

  lemma NoRoomForSecond(st: ReplicaState)
    requires st.config == TIGHT && st.log == NewReplica(TIGHT).log[1 := LogSlot([7], None, false)]
    requires st.pending == [8] && st.seen == {7, 8} && st.nextCommit == 1
    ensures Conserved(st, {}) && !RoomToPropose(st) && NextBatch(st) == [8]
  {
    assert Flying(st) == {1} && st.log.Keys - {GENESIS} == {1};
    assert Claims(st.log, 1, 7);
    assert NextOpen(st.log, 1) == NextOpen(st.log, 2) == 2;
  }
}
