/**
 The recorder: one register per active slot, the round-one leader bound to it, the
 retained decisions, the pruned floor and the current membership. Each operation is
 given on values here; the object that updates these fields in place follows.
 */
module Recorder {
  import opened Types
  import opened IntervalRegister
  import opened Membership

  datatype Limits = Limits(maxActiveSlots: nat, maxDecisions: nat, maxValues: nat, maxKnown: nat, maxStep: Step)

  datatype RecorderState = RecorderState(
    id: ReplicaId,
    limits: Limits,
    cluster: Cluster,
    slots: map<Slot, Register>,
    leaders: map<Slot, Option<ReplicaId>>,
    decisions: map<Slot, Decision>,
    prunedThrough: Slot)

  datatype RecordRequest = RecordRequest(
    sender: ReplicaId,
    slot: Slot,
    leader: Option<ReplicaId>,
    step: Step,
    proposal: Proposal,
    known: seq<Decision>)

  datatype RecordReply = RecordReply(
    recorder: ReplicaId,
    cluster: Cluster,
    summary: Summary,
    decision: Option<Decision>)

  datatype MembershipChange = MembershipChange(anchor: Decision, next: Cluster, commandId: Value)

  datatype RecorderSnapshot = RecorderSnapshot(
    cluster: Cluster,
    slots: map<Slot, Register>,
    leaders: map<Slot, Option<ReplicaId>>,
    decisions: map<Slot, Decision>,
    prunedThrough: Slot)

  function NewRecorder(id: ReplicaId, limits: Limits, cluster: Cluster): RecorderState {
    RecorderState(id, limits, cluster, map[], map[], map[], 0)
  }

  // ----- Validation -----

  function ProposalError(st: RecorderState, p: Proposal): Option<Error> {
    if !Contains(st.cluster, p.key.proposer) then Some(InvalidSender(p.key.proposer))
    else if p.values == [] then Some(EmptyProposal)
    else if |p.values| > st.limits.maxValues then Some(ResourceLimit(st.limits.maxValues))
    else if !Distinct(p.values) then Some(InvalidProposal)
    else None
  }

  function DecisionError(st: RecorderState, d: Decision): Option<Error> {
    if d.values == [] then Some(EmptyDecision)
    else if !Contains(st.cluster, d.proposer) then Some(InvalidSender(d.proposer))
    else if d.decidedStep > st.limits.maxStep then Some(InvalidStep(d.decidedStep, st.limits.maxStep))
    else if |d.values| > st.limits.maxValues then Some(ResourceLimit(st.limits.maxValues))
    else if !Distinct(d.values) then Some(InvalidProposal)
    else None
  }

  function RequestError(st: RecorderState, req: RecordRequest): Option<Error> {
    if !Contains(st.cluster, req.sender) then Some(InvalidSender(req.sender))
    else if req.leader.Some? && !Contains(st.cluster, req.leader.value) then Some(UnknownReplica(req.leader.value))
    else if ProposalError(st, req.proposal).Some? then ProposalError(st, req.proposal)
    else if req.step < ROUND_ONE_PHASE_ZERO || req.step > st.limits.maxStep
      then Some(InvalidStep(req.step, st.limits.maxStep))
    else if |req.known| > st.limits.maxKnown then Some(ResourceLimit(st.limits.maxKnown))
    else None
  }

  // ----- Operations on values -----

  function Inform(st: RecorderState, d: Decision): (RecorderState, Result<()>) {
    if DecisionError(st, d).Some? then (st, Err(DecisionError(st, d).value))
    else if d.slot <= st.prunedThrough then (st, Ok(()))
    else if d.slot in st.decisions then
      (st, if st.decisions[d.slot].values != d.values then Err(ConflictingDecision(d.slot)) else Ok(()))
    else if |st.decisions| == st.limits.maxDecisions then (st, Err(ResourceLimit(st.limits.maxDecisions)))
    else (st.(decisions := st.decisions[d.slot := d]), Ok(()))
  }

  /** Informs one decision after the other and stops at the first error. */
  function InformAll(st: RecorderState, ds: seq<Decision>): (RecorderState, Result<()>) {
    if ds == [] then (st, Ok(()))
    else
      var before := InformAll(st, ds[..|ds| - 1]);
      if before.1.Err? then before else Inform(before.0, ds[|ds| - 1])
  }

  /** The recorder's `record`; `available` is the answer of the payload guard. */
  function Record(st: RecorderState, req: RecordRequest, available: bool): (RecorderState, Result<RecordReply>) {
    if RequestError(st, req).Some? then (st, Err(RequestError(st, req).value))
    else if req.slot <= st.prunedThrough then (st, Err(SlotPruned(req.slot)))
    else if req.slot in st.leaders && st.leaders[req.slot] != req.leader then (st, Err(ScheduleMismatch(req.slot)))
    else if !available then (st, Err(MissingValue))
    else
      var informed := InformAll(st, req.known);
      if informed.1.Err? then (informed.0, Err(informed.1.error))
      else if req.slot !in informed.0.slots && |informed.0.slots| == st.limits.maxActiveSlots then
        (informed.0, Err(ResourceLimit(st.limits.maxActiveSlots)))
      else RecordAccepted(informed.0, req)
  }

  /** The last part of `record`: bind the leader and write the register. */
  function RecordAccepted(st: RecorderState, req: RecordRequest): (RecorderState, Result<RecordReply>) {
    var leaders := if req.slot in st.leaders then st.leaders else st.leaders[req.slot := req.leader];
    var reg := if req.slot in st.slots then st.slots[req.slot] else EMPTY_REGISTER;
    var next := Recorded(reg, Call(req.step, req.proposal));
    var decision := if req.slot in st.decisions then Some(st.decisions[req.slot]) else None;
    (st.(leaders := leaders, slots := st.slots[req.slot := next]),
     Ok(RecordReply(st.id, st.cluster, Summarize(next), decision)))
  }

  /** What `retain` keeps of a map: the slots above the given one. */
  function Above<T>(m: map<Slot, T>, slot: Slot): map<Slot, T> {
    map s | s in m && s > slot :: m[s]
  }

  function PruneThrough(st: RecorderState, slot: Slot): RecorderState {
    st.(slots := Above(st.slots, slot), leaders := Above(st.leaders, slot), decisions := Above(st.decisions, slot),
        prunedThrough := if slot > st.prunedThrough then slot else st.prunedThrough)
  }

  function InstallMembership(st: RecorderState, change: MembershipChange): (RecorderState, Result<()>) {
    if change.commandId !in change.anchor.values then (st, Err(InvalidReconfiguration))
    else if st.cluster == change.next then (st, Ok(()))
    else if !IsSuccessorOf(change.next, st.cluster) then (st, Err(InvalidReconfiguration))
    else if change.anchor.slot !in st.decisions then (st, Err(InvalidReconfiguration))
    else if st.decisions[change.anchor.slot] != change.anchor then (st, Err(ConflictingDecision(change.anchor.slot)))
    else if (exists s :: s in st.slots && s > change.anchor.slot)
            || (exists s :: s in st.decisions && s > change.anchor.slot)
      then (st, Err(InvalidReconfiguration))
    else (st.(cluster := change.next), Ok(()))
  }

  function Snapshot(st: RecorderState): RecorderSnapshot {
    RecorderSnapshot(st.cluster, st.slots, st.leaders, st.decisions, st.prunedThrough)
  }

  /** Puts back everything a snapshot holds except the cluster. */
  function RestoreSnapshotState(st: RecorderState, snap: RecorderSnapshot): RecorderState {
    st.(slots := snap.slots, leaders := snap.leaders, decisions := snap.decisions, prunedThrough := snap.prunedThrough)
  }

  // ----- Operations as data -----

  datatype Op =
    | OpRecord(request: RecordRequest, available: bool)
    | OpInform(decisions: seq<Decision>)
    | OpPrune(slot: Slot)
    | OpInstall(change: MembershipChange)

  datatype Ack = AckRecord(reply: RecordReply) | AckDone

  function Apply(st: RecorderState, op: Op): (RecorderState, Result<Ack>) {
    match op
    case OpRecord(request, available) =>
      var r := Record(st, request, available);
      (r.0, if r.1.Ok? then Ok(AckRecord(r.1.value)) else Err(r.1.error))
    case OpInform(ds) =>
      var r := InformAll(st, ds);
      (r.0, if r.1.Ok? then Ok(AckDone) else Err(r.1.error))
    case OpPrune(slot) => (PruneThrough(st, slot), Ok(AckDone))
    case OpInstall(change) =>
      var r := InstallMembership(st, change);
      (r.0, if r.1.Ok? then Ok(AckDone) else Err(r.1.error))
  }

  // ----- What informing leaves alone -----

  /** The second state is the first with some of the given decisions added above the floor. */
  predicate OnlyAddsDecisions(a: RecorderState, b: RecorderState, ds: seq<Decision>) {
    && b == a.(decisions := b.decisions)
    && (forall s :: s in a.decisions ==> s in b.decisions && b.decisions[s] == a.decisions[s])
    && (forall s :: s in b.decisions && s !in a.decisions ==>
                      b.decisions[s] in ds && b.decisions[s].slot == s && s > a.prunedThrough)
  }

  lemma {:induction false} InformAllOnlyAddsDecisions(st: RecorderState, ds: seq<Decision>)
    ensures OnlyAddsDecisions(st, InformAll(st, ds).0, ds)
  {
    if ds != [] {
      var init, last := ds[..|ds| - 1], ds[|ds| - 1];
      InformAllOnlyAddsDecisions(st, init);
      var mid := InformAll(st, init).0;
      assert forall d :: d in init ==> d in ds;
      assert last in ds;
      InformOnlyAddsDecision(st, mid, last, ds);
      assert OnlyAddsDecisions(st, mid, ds);
    }
  }

  lemma InformOnlyAddsDecision(st: RecorderState, mid: RecorderState, d: Decision, ds: seq<Decision>)
    requires OnlyAddsDecisions(st, mid, ds) && d in ds
    ensures OnlyAddsDecisions(st, Inform(mid, d).0, ds)
  {
  }

  // ----- A recorder follows the history of its accepted calls -----

  /**
   For a slot above the pruned floor the recorder holds exactly the replay of the
   calls it accepted for that slot, bound to the leader they carried.
   */
  predicate Tracks(st: RecorderState, slot: Slot, calls: seq<Call>, leader: Option<ReplicaId>) {
    slot > st.prunedThrough ==>
      if calls == [] then slot !in st.slots && slot !in st.leaders
      else
        && slot in st.slots && st.slots[slot] == Replay(calls)
        && slot in st.leaders && st.leaders[slot] == leader
  }

  /** An acknowledged record appends to the history and answers with its summary. */
  lemma RecordTracks(st: RecorderState, req: RecordRequest, available: bool, calls: seq<Call>,
                     leader: Option<ReplicaId>)
    requires Tracks(st, req.slot, calls, leader)
    requires Record(st, req, available).1.Ok?
    ensures var r := Record(st, req, available);
            var all := calls + [Call(req.step, req.proposal)];
            && Tracks(r.0, req.slot, all, req.leader)
            && (calls != [] ==> leader == req.leader)
            && req.step >= ROUND_ONE_PHASE_ZERO
            && req.slot > st.prunedThrough
            && r.1.value.recorder == st.id && r.1.value.cluster == st.cluster
            && r.1.value.summary == Summarize(Replay(all))
            && r.1.value.decision == if req.slot in r.0.decisions then Some(r.0.decisions[req.slot]) else None
  {
    InformAllOnlyAddsDecisions(st, req.known);
    AfterCall(calls, Call(req.step, req.proposal), req.step);
  }

  /** An acknowledged record forgets no decision, and reports the slot's exactly if there is one. */
  lemma RecordReports(st: RecorderState, req: RecordRequest, available: bool)
    requires Record(st, req, available).1.Ok?
    ensures var (st', r) := Record(st, req, available);
            && r.value.decision == (if req.slot in st'.decisions then Some(st'.decisions[req.slot]) else None)
            && forall s :: s in st.decisions ==> s in st'.decisions && st'.decisions[s] == st.decisions[s]
  {
    InformAllOnlyAddsDecisions(st, req.known);
  }

  /** Nothing but an acknowledged record for the slot changes what the recorder tracks for it. */
  lemma OtherOperationsTrack(st: RecorderState, op: Op, slot: Slot, calls: seq<Call>, leader: Option<ReplicaId>)
    requires Tracks(st, slot, calls, leader)
    requires op.OpRecord? && op.request.slot == slot ==> Apply(st, op).1.Err?
    ensures Tracks(Apply(st, op).0, slot, calls, leader)
  {
    if op.OpRecord? {
      InformAllOnlyAddsDecisions(st, op.request.known);
    } else if op.OpInform? {
      InformAllOnlyAddsDecisions(st, op.decisions);
    }
  }

  /** Decisions stored for a slot come from somewhere: kept, told, or carried by a request. */
  lemma StoredDecisionsAreTold(st: RecorderState, op: Op, slot: Slot)
    ensures var st' := Apply(st, op).0;
            slot in st'.decisions ==>
              || (slot in st.decisions && st'.decisions[slot] == st.decisions[slot])
              || (st'.decisions[slot].slot == slot
                  && (|| (op.OpRecord? && st'.decisions[slot] in op.request.known)
                      || (op.OpInform? && st'.decisions[slot] in op.decisions)))
  {
    if op.OpRecord? {
      InformAllOnlyAddsDecisions(st, op.request.known);
    } else if op.OpInform? {
      InformAllOnlyAddsDecisions(st, op.decisions);
    }
  }
}
