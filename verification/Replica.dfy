/**
 The replica pipeline on values: batching, requeueing of losing values, contiguous
 commit, pruning and restart.
 */
module Replica {
  import opened Types
  import opened Membership

  datatype ReplicaConfig = ReplicaConfig(batchSize: nat, pipelineLen: nat, maxPending: nat, maxLogSlots: nat,
      maxTracked: nat)

  datatype LogSlot = LogSlot(proposed: seq<Value>, decision: Option<Decision>, committed: bool)

  type Log = map<Slot, LogSlot>

  datatype ReplicaState = ReplicaState(
    config: ReplicaConfig,
    log: Log,
    pending: seq<Value>,
    lastProposed: Slot,
    nextCommit: Slot,
    checkpointedThrough: Slot,
    seen: set<Value>)

  const GENESIS: Slot := 0
  const EMPTY_SLOT := LogSlot([], None, false)

  function NewReplica(config: ReplicaConfig): ReplicaState {
    ReplicaState(config, map[GENESIS := LogSlot([], None, true)], [], GENESIS, 1, GENESIS, {})
  }

  // ----- Pieces -----

  /** The values that are neither seen nor repeated, in order. */
  function Unseen(seen: set<Value>, values: seq<Value>): seq<Value> {
    if values == [] then []
    else
      var init, last := Unseen(seen, values[..|values| - 1]), values[|values| - 1];
      if last in seen || last in init then init else init + [last]
  }

  /** The proposed values that the decision does not contain, in order. */
  function Losing(proposed: seq<Value>, decided: seq<Value>): seq<Value> {
    if proposed == [] then []
    else
      var init, last := Losing(proposed[..|proposed| - 1], decided), proposed[|proposed| - 1];
      if last in decided then init else init + [last]
  }

  /** What a decision sends back to the front of the queue. */
  function Requeued(entry: LogSlot, d: Decision): seq<Value> {
    if entry.proposed != d.values then Losing(entry.proposed, d.values) else []
  }

  function KeysFrom(log: Log, slot: Slot): set<Slot> {
    set s | s in log && s >= slot
  }

  function RetainedSlots(log: Log): nat {
    |log.Keys - {GENESIS}|
  }

  predicate HasRoom(st: ReplicaState, slot: Slot) {
    slot in st.log || RetainedSlots(st.log) < st.config.maxLogSlots
  }

  /** The slots that count as in flight. */
  function Flying(st: ReplicaState): set<Slot> {
    set s | s in st.log && s >= st.nextCommit && !st.log[s].committed && st.log[s].proposed != []
  }

  function Inflight(st: ReplicaState): nat {
    |Flying(st)|
  }

  /** The lowest slot from the given one on that is neither decided nor claimed. */
  function NextOpen(log: Log, slot: Slot): (open: Slot)
    ensures open >= slot
    ensures forall s :: slot <= s < open ==> s in log && (log[s].decision.Some? || log[s].proposed != [])
    ensures open in log ==> log[open].decision.None? && log[open].proposed == []
    decreases KeysFrom(log, slot)
  {
    if slot in log && (log[slot].decision.Some? || log[slot].proposed != []) then
      assert slot in KeysFrom(log, slot) && slot !in KeysFrom(log, slot + 1);
      NextOpen(log, slot + 1)
    else slot
  }

  function EntryAt(log: Log, slot: Slot): LogSlot {
    if slot in log then log[slot] else EMPTY_SLOT
  }

  /** Commits decided slots from the frontier on, as far as they are contiguous. */
  function CommitReady(log: Log, next: Slot): (Log, Slot, seq<Decision>)
    decreases KeysFrom(log, next)
  {
    if next !in log then (log, next, [])
    else
      assert next in KeysFrom(log, next) && next !in KeysFrom(log, next + 1);
      if log[next].committed then CommitReady(log, next + 1)
      else if log[next].decision.None? then (log, next, [])
      else
        var log' := log[next := LogSlot([], log[next].decision, true)];
        assert KeysFrom(log', next + 1) == KeysFrom(log, next + 1);
        var (rest, frontier, committed) := CommitReady(log', next + 1);
        (rest, frontier, [log[next].decision.value] + committed)
  }

  // ----- Operations -----

  function Enqueue(st: ReplicaState, values: seq<Value>): (r: (ReplicaState, Result<()>))
    ensures r.0.config == st.config
  {
    var added := Unseen(st.seen, values);
    if |st.pending| + |added| > st.config.maxPending then (st, Err(ResourceLimit(st.config.maxPending)))
    else if |st.seen| + |added| > st.config.maxTracked then (st, Err(ResourceLimit(st.config.maxTracked)))
    else (st.(seen := st.seen + Elements(added), pending := st.pending + added), Ok(()))
  }

  function NoteProposed(st: ReplicaState, slot: Slot, values: seq<Value>): (r: (ReplicaState, Result<()>))
    ensures r.0.config == st.config
  {
    if values == [] then (st, Err(EmptyProposal))
    else if |Elements(values)| != |values| then (st, Err(InvalidProposal))
    else if |st.seen| + |Elements(values) - st.seen| > st.config.maxTracked then
        (st, Err(ResourceLimit(st.config.maxTracked)))
    else if !HasRoom(st, slot) then (st, Err(ResourceLimit(st.config.maxLogSlots)))
    else
      (st.(seen := st.seen + Elements(values),
           lastProposed := if slot > st.lastProposed then slot else st.lastProposed,
           log := st.log[slot := EntryAt(st.log, slot).(proposed := values)]), Ok(()))
  }

  function BatchLength(st: ReplicaState): nat {
    if st.config.batchSize == 0 then 1 else if st.config.batchSize < |st.pending| then st.config.batchSize
        else |st.pending|
  }

  predicate WillPropose(st: ReplicaState) {
    Inflight(st) < st.config.pipelineLen && st.pending != []
  }

  function NextProposal(st: ReplicaState): (r: (ReplicaState, Result<Option<(Slot, seq<Value>)>>))
    ensures r.0.config == st.config
  {
    if !WillPropose(st) then (st, Ok(None))
    else
      var slot, batch := NextOpen(st.log, st.nextCommit), st.pending[..BatchLength(st)];
      var (noted, r) := NoteProposed(st.(pending := st.pending[BatchLength(st)..]), slot, batch);
      (noted, if r.Err? then Err(r.error) else Ok(Some((slot, batch))))
  }

  function ApplyDecision(st: ReplicaState, d: Decision): (r: (ReplicaState, Result<seq<Decision>>))
    ensures r.0.config == st.config
  {
    var entry := EntryAt(st.log, d.slot);
    var losing := Requeued(entry, d);
    if d.values == [] then (st, Err(EmptyDecision))
    else if |Elements(d.values)| != |d.values| then (st, Err(InvalidProposal))
    else if |st.seen| + |Elements(d.values) - st.seen| > st.config.maxTracked then
        (st, Err(ResourceLimit(st.config.maxTracked)))
    else if !HasRoom(st, d.slot) then (st, Err(ResourceLimit(st.config.maxLogSlots)))
    else if entry.decision.Some? then
      (st, if entry.decision.value.values != d.values then Err(ConflictingDecision(d.slot)) else Ok([]))
    else if entry.proposed != [] && entry.proposed != d.values && |st.pending| + |losing| > st.config.maxPending then
        (st, Err(ResourceLimit(st.config.maxPending)))
    else
      var log := st.log[d.slot := entry.(decision := Some(d))];
      var (log', next, committed) := CommitReady(log, st.nextCommit);
      (st.(log := log', nextCommit := next, seen := st.seen + Elements(d.values), pending := losing + st.pending),
          Ok(committed))
  }

  function PruneThrough(st: ReplicaState, slot: Slot): ReplicaState {
    var committed := if st.nextCommit == 0 then 0 else st.nextCommit - 1;
    var low := if slot < committed then slot else committed;
    var through := if low > st.checkpointedThrough then low else st.checkpointedThrough;
    st.(log := map s | s in st.log && (s == GENESIS || s > through || !st.log[s].committed) :: st.log[s],
        checkpointedThrough := through)
  }

  // ----- Restart -----

  datatype ReplicaSnapshot = ReplicaSnapshot(
    log: Log, pending: seq<Value>, lastProposed: Slot, nextCommit: Slot, checkpointedThrough: Slot, seen: set<Value>)

  function Snapshot(st: ReplicaState): ReplicaSnapshot {
    ReplicaSnapshot(st.log, st.pending, st.lastProposed, st.nextCommit, st.checkpointedThrough, st.seen)
  }

  predicate EntryTracked(seen: set<Value>, entry: LogSlot) {
    && (forall v :: v in entry.proposed ==> v in seen)
    && (entry.decision.Some? ==> forall v :: v in entry.decision.value.values ==> v in seen)
  }

  function Restore(config: ReplicaConfig, snap: ReplicaSnapshot): Result<ReplicaState> {
    if |snap.pending| > config.maxPending then Err(ResourceLimit(config.maxPending))
    else if RetainedSlots(snap.log) > config.maxLogSlots then Err(ResourceLimit(config.maxLogSlots))
    else if |snap.seen| > config.maxTracked then Err(ResourceLimit(config.maxTracked))
    else if (exists v :: v in snap.pending && v !in snap.seen)
            || (exists s :: s in snap.log && !EntryTracked(snap.seen, snap.log[s]))
      then Err(InvalidProposal)
    else if GENESIS !in snap.log || !snap.log[GENESIS].committed || snap.nextCommit <= snap.checkpointedThrough
      then Err(InvalidProposal)
    else if exists s :: snap.checkpointedThrough < s < snap.nextCommit
                        && !(s in snap.log && snap.log[s].committed && snap.log[s].decision.Some?)
      then Err(InvalidProposal)
    else if exists s :: s in snap.log && s != GENESIS && s >= snap.nextCommit && snap.log[s].committed then
        Err(InvalidProposal)
    else
      Ok(ReplicaState(config, snap.log, snap.pending, snap.lastProposed, snap.nextCommit, snap.checkpointedThrough,
          snap.seen))
  }

  // ----- Runs -----

  datatype Op =
    | OpEnqueue(values: seq<Value>)
    | OpPropose
    | OpNote(slot: Slot, values: seq<Value>)
    | OpDecide(decision: Decision)
    | OpPrune(slot: Slot)

  /** The state after the operation and what it commits. */
  function Perform(st: ReplicaState, op: Op): (r: (ReplicaState, seq<Decision>))
    ensures r.0.config == st.config
  {
    match op
    case OpEnqueue(values) => (Enqueue(st, values).0, [])
    case OpPropose => (NextProposal(st).0, [])
    case OpNote(slot, values) => (NoteProposed(st, slot, values).0, [])
    case OpDecide(d) =>
      var (st', r) := ApplyDecision(st, d);
      (st', if r.Ok? then r.value else [])
    case OpPrune(slot) => (PruneThrough(st, slot), [])
  }

  function After(config: ReplicaConfig, ops: seq<Op>): ReplicaState {
    if ops == [] then NewReplica(config) else Perform(After(config, ops[..|ops| - 1]), ops[|ops| - 1]).0
  }

  /** Everything committed along a run, in the order in which it was returned. */
  function Committed(config: ReplicaConfig, ops: seq<Op>): seq<Decision> {
    if ops == [] then []
    else Committed(config, ops[..|ops| - 1]) + Perform(After(config, ops[..|ops| - 1]), ops[|ops| - 1]).1
  }

  function Applied(ops: seq<Op>): set<Decision> {
    set k | 0 <= k < |ops| && ops[k].OpDecide? :: ops[k].decision
  }
}
