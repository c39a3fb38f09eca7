/**
 What every run of the replica pipeline keeps: slots commit in order, each once; a
 snapshot always restores; and no accepted value gets lost.
 */
module ReplicaSafety {
  import opened Types
  import opened Membership
  import opened Replica

  // ----- The invariant -----

  /** Where the committed prefix is, and what the log holds on either side of it. */
  predicate FrontierOk(st: ReplicaState) {
    && GENESIS in st.log && st.log[GENESIS].committed
    && st.checkpointedThrough < st.nextCommit
    && (forall s :: s in st.log && s != GENESIS && st.log[s].committed ==>
          s < st.nextCommit && st.log[s].decision.Some?)
    && (forall s :: st.checkpointedThrough < s < st.nextCommit ==>
          s in st.log && st.log[s].committed && st.log[s].decision.Some?)
    && (forall s :: s in st.log && st.log[s].decision.Some? ==> st.log[s].decision.value.slot == s)
    && (st.nextCommit in st.log ==> st.log[st.nextCommit].decision.None?)
  }

  predicate Tracked(st: ReplicaState) {
    && (forall v :: v in st.pending ==> v in st.seen)
    && (forall s :: s in st.log ==> EntryTracked(st.seen, st.log[s]))
  }

  predicate WithinLimits(st: ReplicaState) {
    && |st.pending| <= st.config.maxPending
    && RetainedSlots(st.log) <= st.config.maxLogSlots
    && |st.seen| <= st.config.maxTracked
  }

  predicate Sound(st: ReplicaState) {
    FrontierOk(st) && Tracked(st) && WithinLimits(st)
  }

  /** A sound replica comes back from its snapshot unchanged. */
  lemma SoundRestores(st: ReplicaState)
    requires Sound(st)
    ensures Restore(st.config, Snapshot(st)) == Ok(st)
  {
  }

  /**
   `restore` accepts exactly the snapshots that respect the limits, track every value, and
   have a committed genesis, every slot between checkpoint and frontier committed with its
   decision, and nothing committed beyond; it gives back what the snapshot holds.
   */
  lemma RestoreExactly(config: ReplicaConfig, snap: ReplicaSnapshot)
    ensures Restore(config, snap).Ok? <==>
              && |snap.pending| <= config.maxPending && |snap.log.Keys - {GENESIS}| <= config.maxLogSlots
              && |snap.seen| <= config.maxTracked
              && (forall v :: v in snap.pending ==> v in snap.seen)
              && (forall s :: s in snap.log ==> EntryTracked(snap.seen, snap.log[s]))
              && GENESIS in snap.log && snap.log[GENESIS].committed && snap.checkpointedThrough < snap.nextCommit
              && (forall s :: snap.checkpointedThrough < s < snap.nextCommit ==>
                    s in snap.log && snap.log[s].committed && snap.log[s].decision.Some?)
              && (forall s :: s in snap.log && s != GENESIS && snap.log[s].committed ==> s < snap.nextCommit)
    ensures Restore(config, snap).Ok? ==>
              Restore(config, snap).value.config == config && Snapshot(Restore(config, snap).value) == snap
  {
  }

  // ----- Committing -----

  predicate SlotCommits(log: Log, next: Slot, log': Log, committed: seq<Decision>, s: Slot)
    requires next <= s < next + |committed|
  {
    && s in log && s in log'
    && log[s].decision == Some(committed[s - next])
    && log'[s] == LogSlot([], log[s].decision, true)
  }

  /** Exactly the slots from the old frontier to the new one are committed, in order. */
  predicate Commits(log: Log, next: Slot, log': Log, next': Slot, committed: seq<Decision>) {
    && log'.Keys == log.Keys
    && next <= next' && |committed| == next' - next
    && (forall s :: next <= s < next' ==> SlotCommits(log, next, log', committed, s))
    && (forall s :: s in log && !(next <= s < next') ==> log'[s] == log[s])
    && (next' in log ==> log[next'].decision.None?)
  }

  lemma {:induction false} CommitReadyCommits(log: Log, next: Slot)
    requires forall s :: s in log && s >= next ==> !log[s].committed
    ensures var (log', next', committed) := CommitReady(log, next); Commits(log, next, log', next', committed)
    decreases KeysFrom(log, next)
  {
    if next in log && log[next].decision.Some? {
      var mid := log[next := LogSlot([], log[next].decision, true)];
      assert next in KeysFrom(log, next) && next !in KeysFrom(mid, next + 1);
      assert KeysFrom(mid, next + 1) <= KeysFrom(log, next);
      CommitReadyCommits(mid, next + 1);
      var (rest, frontier, tail) := CommitReady(mid, next + 1);
      CommitsMore(log, next, mid, rest, frontier, tail);
    }
  }

  lemma CommitsMore(log: Log, next: Slot, mid: Log, rest: Log, frontier: Slot, tail: seq<Decision>)
    requires next in log && log[next].decision.Some? && mid == log[next := LogSlot([], log[next].decision, true)]
    requires Commits(mid, next + 1, rest, frontier, tail)
    ensures Commits(log, next, rest, frontier, [log[next].decision.value] + tail)
  {
    var committed := [log[next].decision.value] + tail;
    forall s | next <= s < frontier ensures SlotCommits(log, next, rest, committed, s) {
      if s > next {
        assert committed[s - next] == tail[s - (next + 1)];
        assert SlotCommits(mid, next + 1, rest, tail, s);
      }
    }
  }

  function WithDecision(log: Log, d: Decision): Log {
    log[d.slot := EntryAt(log, d.slot).(decision := Some(d))]
  }

  /** What accepting a new decision does. */
  predicate Decides(st: ReplicaState, d: Decision, st': ReplicaState, committed: seq<Decision>) {
    var entry := EntryAt(st.log, d.slot);
    && entry.decision.None? && HasRoom(st, d.slot)
    && |st.seen| + |Elements(d.values) - st.seen| <= st.config.maxTracked
    && (Requeued(entry, d) == [] || |Requeued(entry, d)| + |st.pending| <= st.config.maxPending)
    && st' == st.(log := st'.log, nextCommit := st'.nextCommit, seen := st.seen + Elements(d.values),
                  pending := Requeued(entry, d) + st.pending)
    && Commits(WithDecision(st.log, d), st.nextCommit, st'.log, st'.nextCommit, committed)
  }

  /** A decision is accepted as new, or it changes nothing and commits nothing. */
  lemma DecideCases(st: ReplicaState, d: Decision)
    requires FrontierOk(st)
    ensures var (st', committed) := Perform(st, OpDecide(d));
            (st' == st && committed == []) || Decides(st, d, st', committed)
  {
    if EntryAt(st.log, d.slot).decision.None? {
      CommitReadyCommits(WithDecision(st.log, d), st.nextCommit);
    }
  }

  // ----- What each operation does to the frontier -----

  /** The operation commits the slots from the old frontier to the new one, in order. */
  predicate CommitsInOrder(st: ReplicaState, st': ReplicaState, committed: seq<Decision>) {
    && st'.nextCommit == st.nextCommit + |committed|
    && forall k :: 0 <= k < |committed| ==> committed[k].slot == st.nextCommit + k
  }

  /** All that holds of the frontier before it moves. */
  predicate BehindFrontier(log: Log, next: Slot, checkpoint: Slot) {
    && GENESIS in log && log[GENESIS].committed && checkpoint < next
    && (forall s :: s in log && s != GENESIS && log[s].committed ==> s < next && log[s].decision.Some?)
    && (forall s :: checkpoint < s < next ==> s in log && log[s].committed && log[s].decision.Some?)
    && (forall s :: s in log && log[s].decision.Some? ==> log[s].decision.value.slot == s)
  }

  lemma CommitMovesFrontier(log: Log, next: Slot, checkpoint: Slot, log': Log, next': Slot, committed: seq<Decision>)
    requires BehindFrontier(log, next, checkpoint) && Commits(log, next, log', next', committed)
    ensures BehindFrontier(log', next', checkpoint)
    ensures next' in log' ==> log'[next'].decision.None?
    ensures forall k :: 0 <= k < |committed| ==> committed[k].slot == next + k
  {
    forall k | 0 <= k < |committed| ensures committed[k].slot == next + k {
      var s := next + k;
      assert SlotCommits(log, next, log', committed, s);
    }
    forall s | s in log' && s != GENESIS && log'[s].committed ensures s < next' && log'[s].decision.Some? {
      assert next <= s < next' ==> SlotCommits(log, next, log', committed, s);
    }
    forall s | checkpoint < s < next' ensures s in log' && log'[s].committed && log'[s].decision.Some? {
      assert next <= s < next' ==> SlotCommits(log, next, log', committed, s);
    }
    forall s | s in log' && log'[s].decision.Some? ensures log'[s].decision.value.slot == s {
      assert next <= s < next' ==> SlotCommits(log, next, log', committed, s);
    }
  }

  lemma DecidedBehind(st: ReplicaState, d: Decision)
    requires FrontierOk(st)
    ensures BehindFrontier(WithDecision(st.log, d), st.nextCommit, st.checkpointedThrough)
  {
  }

  lemma DecideFrontier(st: ReplicaState, d: Decision)
    requires FrontierOk(st)
    ensures FrontierOk(Perform(st, OpDecide(d)).0)
    ensures CommitsInOrder(st, Perform(st, OpDecide(d)).0, Perform(st, OpDecide(d)).1)
  {
    var (st', committed) := Perform(st, OpDecide(d));
    DecideCases(st, d);
    DecidedBehind(st, d);
    if Decides(st, d, st', committed) {
      CommitMovesFrontier(WithDecision(st.log, d), st.nextCommit, st.checkpointedThrough, st'.log, st'.nextCommit,
          committed);
    }
  }

  lemma PruneFrontier(st: ReplicaState, slot: Slot)
    requires FrontierOk(st)
    ensures FrontierOk(PruneThrough(st, slot))
  {
  }

  lemma ProposeFrontier(st: ReplicaState)
    requires FrontierOk(st)
    ensures FrontierOk(NextProposal(st).0) && NextProposal(st).0.nextCommit == st.nextCommit
  {
    if WillPropose(st) {
      NoteFrontier(st.(pending := st.pending[BatchLength(st)..]), NextOpen(st.log, st.nextCommit),
          st.pending[..BatchLength(st)]);
    }
  }

  lemma NoteFrontier(st: ReplicaState, slot: Slot, values: seq<Value>)
    requires FrontierOk(st)
    ensures FrontierOk(NoteProposed(st, slot, values).0) && NoteProposed(st, slot, values).0.nextCommit == st.nextCommit
  {
  }

  lemma StepFrontier(st: ReplicaState, op: Op)
    requires FrontierOk(st)
    ensures FrontierOk(Perform(st, op).0)
    ensures CommitsInOrder(st, Perform(st, op).0, Perform(st, op).1)
  {
    match op
    case OpEnqueue(values) =>
    case OpPropose => ProposeFrontier(st);
    case OpNote(slot, values) => NoteFrontier(st, slot, values);
    case OpDecide(d) => DecideFrontier(st, d);
    case OpPrune(slot) => PruneFrontier(st, slot);
  }

  // ----- Tracking and limits -----

  lemma UnseenIsTracked(seen: set<Value>, values: seq<Value>)
    ensures forall v :: v in Unseen(seen, values) ==> v in values && v !in seen
    ensures forall v :: v in values ==> v in seen || v in Unseen(seen, values)
    ensures Distinct(Unseen(seen, values))
  {
  }

  lemma LosingAreProposed(proposed: seq<Value>, decided: seq<Value>)
    ensures forall v :: v in Losing(proposed, decided) <==> v in proposed && v !in decided
    ensures Distinct(proposed) ==> Distinct(Losing(proposed, decided))
  {
  }

  lemma LogGrows(log: Log, slot: Slot, entry: LogSlot)
    ensures RetainedSlots(log[slot := entry]) <= RetainedSlots(log) + if slot in log then 0 else 1
  {
    assert log[slot := entry].Keys == log.Keys + {slot};
    assert log.Keys + {slot} - {GENESIS} == (log.Keys - {GENESIS}) + ({slot} - {GENESIS});
    if slot in log {
      assert log.Keys + {slot} == log.Keys;
    }
  }

  lemma SeenGrows(seen: set<Value>, values: seq<Value>)
    ensures |seen + Elements(values)| == |seen| + |Elements(values) - seen|
  {
    assert seen + Elements(values) == seen + (Elements(values) - seen);
  }

  lemma NoteTracked(st: ReplicaState, slot: Slot, values: seq<Value>)
    requires Tracked(st)
    ensures Tracked(NoteProposed(st, slot, values).0)
  {
  }

  lemma NoteSound(st: ReplicaState, slot: Slot, values: seq<Value>)
    requires Tracked(st) && WithinLimits(st)
    ensures var st' := NoteProposed(st, slot, values).0; Tracked(st') && WithinLimits(st')
  {
    NoteTracked(st, slot, values);
    LogGrows(st.log, slot, EntryAt(st.log, slot).(proposed := values));
    SeenGrows(st.seen, values);
  }

  lemma ProposeSound(st: ReplicaState)
    requires Tracked(st) && WithinLimits(st)
    ensures var st' := NextProposal(st).0; Tracked(st') && WithinLimits(st')
  {
    if WillPropose(st) {
      NoteSound(st.(pending := st.pending[BatchLength(st)..]), NextOpen(st.log, st.nextCommit),
          st.pending[..BatchLength(st)]);
    }
  }

  lemma EnqueueSound(st: ReplicaState, values: seq<Value>)
    requires Tracked(st) && WithinLimits(st)
    ensures var st' := Enqueue(st, values).0; Tracked(st') && WithinLimits(st')
  {
    var added := Unseen(st.seen, values);
    UnseenIsTracked(st.seen, values);
    ElementsSize(added);
    UnionSize(st.seen, Elements(added));
  }

  lemma UnionSize(a: set<Value>, b: set<Value>)
    requires a !! b
    ensures |a + b| == |a| + |b|
  {
  }

  lemma PruneSound(st: ReplicaState, slot: Slot)
    requires Tracked(st) && WithinLimits(st)
    ensures Tracked(PruneThrough(st, slot)) && WithinLimits(PruneThrough(st, slot))
  {
    SubsetSize(PruneThrough(st, slot).log.Keys - {GENESIS}, st.log.Keys - {GENESIS});
  }

  lemma CommitTracked(log: Log, next: Slot, log': Log, next': Slot, committed: seq<Decision>, seen: set<Value>)
    requires Commits(log, next, log', next', committed)
    requires forall s :: s in log ==> EntryTracked(seen, log[s])
    ensures forall s :: s in log' ==> EntryTracked(seen, log'[s])
  {
    forall s | s in log' ensures EntryTracked(seen, log'[s]) {
      assert next <= s < next' ==> SlotCommits(log, next, log', committed, s);
    }
  }

  lemma DecideSound(st: ReplicaState, d: Decision)
    requires Sound(st)
    ensures var st' := Perform(st, OpDecide(d)).0; Tracked(st') && WithinLimits(st')
  {
    var (st', committed) := Perform(st, OpDecide(d));
    DecideCases(st, d);
    if Decides(st, d, st', committed) {
      DecidesTracked(st, d, st', committed);
      DecidesWithin(st, d, st', committed);
    }
  }

  lemma DecidesTracked(st: ReplicaState, d: Decision, st': ReplicaState, committed: seq<Decision>)
    requires Tracked(st) && Decides(st, d, st', committed)
    ensures Tracked(st')
  {
    LosingAreProposed(EntryAt(st.log, d.slot).proposed, d.values);
    CommitTracked(WithDecision(st.log, d), st.nextCommit, st'.log, st'.nextCommit, committed, st'.seen);
  }

  lemma DecidesWithin(st: ReplicaState, d: Decision, st': ReplicaState, committed: seq<Decision>)
    requires WithinLimits(st) && Decides(st, d, st', committed)
    ensures WithinLimits(st')
  {
    LogGrows(st.log, d.slot, EntryAt(st.log, d.slot).(decision := Some(d)));
    SeenGrows(st.seen, d.values);
  }

  lemma PerformSound(st: ReplicaState, op: Op)
    requires Sound(st)
    ensures Sound(Perform(st, op).0)
  {
    StepFrontier(st, op);
    match op
    case OpEnqueue(values) => EnqueueSound(st, values);
    case OpPropose => ProposeSound(st);
    case OpNote(slot, values) => NoteSound(st, slot, values);
    case OpDecide(d) => DecideSound(st, d);
    case OpPrune(slot) => PruneSound(st, slot);
  }

  lemma NewIsSound(config: ReplicaConfig)
    ensures Sound(NewReplica(config))
  {
    assert NewReplica(config).log.Keys - {GENESIS} == {};
  }

  lemma {:induction false} AlwaysSound(config: ReplicaConfig, ops: seq<Op>)
    ensures Sound(After(config, ops))
  {
    if ops == [] {
      NewIsSound(config);
    } else {
      AlwaysSound(config, ops[..|ops| - 1]);
      PerformSound(After(config, ops[..|ops| - 1]), ops[|ops| - 1]);
    }
  }

  lemma {:induction false} ConfigStays(config: ReplicaConfig, ops: seq<Op>)
    ensures After(config, ops).config == config
  {
    if ops != [] {
      ConfigStays(config, ops[..|ops| - 1]);
    }
  }

  /** After any run the replica comes back from its snapshot unchanged. */
  lemma RestoreRoundTrip(config: ReplicaConfig, ops: seq<Op>)
    ensures Restore(config, Snapshot(After(config, ops))) == Ok(After(config, ops))
  {
    AlwaysSound(config, ops);
    ConfigStays(config, ops);
    SoundRestores(After(config, ops));
  }

  // ----- Commit order over whole runs -----

  /** Whatever arrives in whatever order, the committed sequence is slots 1, 2, 3 and so on, each once. */
  lemma {:induction false} CommitOrder(config: ReplicaConfig, ops: seq<Op>)
    ensures var committed := Committed(config, ops);
            && FrontierOk(After(config, ops))
            && After(config, ops).nextCommit == |committed| + 1
            && forall k :: 0 <= k < |committed| ==> committed[k].slot == k + 1
  {
    if ops != [] {
      CommitOrder(config, ops[..|ops| - 1]);
      StepFrontier(After(config, ops[..|ops| - 1]), ops[|ops| - 1]);
    }
  }

  /** Decisions in the log, and those returned, are decisions that were applied. */
  predicate LogFrom(log: Log, applied: set<Decision>) {
    forall s :: s in log && log[s].decision.Some? ==> log[s].decision.value in applied
  }

  lemma StepFrom(st: ReplicaState, op: Op, applied: set<Decision>)
    requires FrontierOk(st) && LogFrom(st.log, applied)
    requires op.OpDecide? ==> op.decision in applied
    ensures LogFrom(Perform(st, op).0.log, applied)
    ensures forall d :: d in Perform(st, op).1 ==> d in applied
  {
    match op
    case OpEnqueue(values) =>
    case OpPropose => ProposeFrom(st, applied);
    case OpNote(slot, values) => NoteFrom(st, slot, values, applied);
    case OpDecide(d) => DecideFrom(st, d, applied);
    case OpPrune(slot) =>
  }

  lemma NoteFrom(st: ReplicaState, slot: Slot, values: seq<Value>, applied: set<Decision>)
    requires LogFrom(st.log, applied)
    ensures LogFrom(NoteProposed(st, slot, values).0.log, applied)
  {
  }

  lemma ProposeFrom(st: ReplicaState, applied: set<Decision>)
    requires LogFrom(st.log, applied)
    ensures LogFrom(NextProposal(st).0.log, applied)
  {
    if WillPropose(st) {
      NoteFrom(st.(pending := st.pending[BatchLength(st)..]), NextOpen(st.log, st.nextCommit),
               st.pending[..BatchLength(st)], applied);
    }
  }

  lemma DecideFrom(st: ReplicaState, d: Decision, applied: set<Decision>)
    requires FrontierOk(st) && LogFrom(st.log, applied) && d in applied
    ensures LogFrom(Perform(st, OpDecide(d)).0.log, applied)
    ensures forall c :: c in Perform(st, OpDecide(d)).1 ==> c in applied
  {
    var (st', committed) := Perform(st, OpDecide(d));
    DecideCases(st, d);
    if Decides(st, d, st', committed) {
      CommittedFrom(WithDecision(st.log, d), st.nextCommit, st'.log, st'.nextCommit, committed, applied);
    }
  }

  lemma CommittedFrom(log: Log, next: Slot, log': Log, next': Slot, committed: seq<Decision>, applied: set<Decision>)
    requires Commits(log, next, log', next', committed) && LogFrom(log, applied)
    ensures LogFrom(log', applied) && forall c :: c in committed ==> c in applied
  {
    forall k | 0 <= k < |committed| ensures committed[k] in applied {
      var s := next + k;
      assert SlotCommits(log, next, log', committed, s);
    }
    forall s | s in log' && log'[s].decision.Some? ensures log'[s].decision.value in applied {
      assert next <= s < next' ==> SlotCommits(log, next, log', committed, s);
    }
  }

  lemma {:induction false} CommittedWereApplied(config: ReplicaConfig, ops: seq<Op>, applied: set<Decision>)
    requires Applied(ops) <= applied
    ensures LogFrom(After(config, ops).log, applied)
    ensures forall d :: d in Committed(config, ops) ==> d in applied
  {
    if ops != [] {
      var init, last := ops[..|ops| - 1], ops[|ops| - 1];
      assert forall k :: 0 <= k < |init| ==> init[k] == ops[k];
      if last.OpDecide? {
        assert ops[|ops| - 1].decision in Applied(ops);
      }
      CommittedWereApplied(config, init, applied);
      CommitOrder(config, init);
      StepFrom(After(config, init), last, applied);
    }
  }

  /** Two replicas that are given agreeing decisions commit the same values as far as both have committed. */
  lemma PrefixComparable(config: ReplicaConfig, ops: seq<Op>, config': ReplicaConfig, ops': seq<Op>, k: nat)
    requires forall d, d' :: d in Applied(ops) && d' in Applied(ops') && d.slot == d'.slot ==> d.values == d'.values
    requires k < |Committed(config, ops)| && k < |Committed(config', ops')|
    ensures Committed(config, ops)[k].values == Committed(config', ops')[k].values
  {
    CommitOrder(config, ops);
    CommitOrder(config', ops');
    CommittedWereApplied(config, ops, Applied(ops));
    CommittedWereApplied(config', ops', Applied(ops'));
    assert Committed(config, ops)[k] in Applied(ops) && Committed(config', ops')[k] in Applied(ops');
  }

  // ----- The pipeline bound -----

  lemma NoteFlies(st: ReplicaState, slot: Slot, values: seq<Value>)
    ensures Flying(NoteProposed(st, slot, values).0) <= Flying(st) + {slot}
  {
  }

  lemma ProposeFlies(st: ReplicaState)
    requires Inflight(st) <= st.config.pipelineLen
    ensures Inflight(NextProposal(st).0) <= st.config.pipelineLen
  {
    if WillPropose(st) {
      var drained := st.(pending := st.pending[BatchLength(st)..]);
      var slot := NextOpen(st.log, st.nextCommit);
      NoteFlies(drained, slot, st.pending[..BatchLength(st)]);
      assert Flying(drained) == Flying(st);
      SubsetSize(Flying(NextProposal(st).0), Flying(st) + {slot});
    }
  }

  lemma DecideFlies(st: ReplicaState, d: Decision)
    requires FrontierOk(st)
    ensures Flying(Perform(st, OpDecide(d)).0) <= Flying(st)
  {
    var (st', committed) := Perform(st, OpDecide(d));
    DecideCases(st, d);
    if Decides(st, d, st', committed) {
      var log := WithDecision(st.log, d);
      forall s | s in Flying(st') ensures s in Flying(st) {
        assert st'.log[s] == log[s];
      }
    }
  }

  /** As long as proposals come from the queue, no more than the configured number is ever in flight. */
  lemma {:induction false} PipelineBounded(config: ReplicaConfig, ops: seq<Op>)
    requires forall k :: 0 <= k < |ops| ==> !ops[k].OpNote?
    ensures Inflight(After(config, ops)) <= config.pipelineLen
  {
    if ops == [] {
      assert Flying(NewReplica(config)) == {};
    } else {
      var init, last := ops[..|ops| - 1], ops[|ops| - 1];
      PipelineBounded(config, init);
      ConfigStays(config, init);
      CommitOrder(config, init);
      StepFlies(After(config, init), last);
    }
  }

  lemma StepFlies(st: ReplicaState, op: Op)
    requires FrontierOk(st) && Inflight(st) <= st.config.pipelineLen && !op.OpNote?
    ensures Inflight(Perform(st, op).0) <= st.config.pipelineLen
  {
    match op
    case OpEnqueue(values) => SubsetSize(Flying(Perform(st, op).0), Flying(st));
    case OpPropose => ProposeFlies(st);
    case OpDecide(d) =>
      DecideFlies(st, d);
      SubsetSize(Flying(Perform(st, op).0), Flying(st));
    case OpPrune(slot) => SubsetSize(Flying(Perform(st, op).0), Flying(st));
  }
}
