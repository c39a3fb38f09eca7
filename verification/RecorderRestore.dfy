/**
 Rebuilding a recorder from a snapshot: what `restore` checks, and exactly which
 recorder states come back from their own snapshot.
 */
module RecorderRestore {
  import opened Types
  import opened IntervalRegister
  import opened Membership
  import opened Recorder

  // ----- The checks of `restore`, in its order -----

  /** The three proposals a register retains, in the order in which they are validated. */
  function Retained(reg: Register): seq<Proposal> {
    (if reg.first.Some? then [reg.first.value] else [])
    + (if reg.currentAggregate.Some? then [reg.currentAggregate.value] else [])
    + (if reg.priorAggregate.Some? then [reg.priorAggregate.value] else [])
  }

  function FirstProposalError(st: RecorderState, ps: seq<Proposal>): Option<Error> {
    if ps == [] then None
    else if ProposalError(st, ps[0]).Some? then ProposalError(st, ps[0])
    else FirstProposalError(st, ps[1..])
  }

  function RegisterError(st: RecorderState, reg: Register): Option<Error> {
    if reg.step < ROUND_ONE_PHASE_ZERO || reg.step > st.limits.maxStep then
        Some(InvalidStep(reg.step, st.limits.maxStep))
    else if reg.first.None? || reg.currentAggregate.None? then Some(MissingProposal)
    else FirstProposalError(st, Retained(reg))
  }

  function StoredDecisionError(st: RecorderState, snap: RecorderSnapshot, slot: Slot): Option<Error>
    requires slot in snap.decisions
  {
    if slot != snap.decisions[slot].slot || slot <= snap.prunedThrough then Some(InvalidProposal)
    else DecisionError(st, snap.decisions[slot])
  }

  /** The first error along a list of keys. */
  function FirstError(keys: seq<Slot>, check: Slot --> Option<Error>): (e: Option<Error>)
    requires forall k :: k in keys ==> check.requires(k)
    ensures e.None? <==> forall k :: k in keys ==> check(k).None?
  {
    if keys == [] then None
    else if check(keys[0]).Some? then check(keys[0])
    else FirstError(keys[1..], check)
  }

  function DecisionsError(st: RecorderState, snap: RecorderSnapshot): Option<Error> {
    FirstError(Ascending(snap.decisions.Keys), slot requires slot in snap.decisions => StoredDecisionError(st, snap,
        slot))
  }

  function RegistersError(st: RecorderState, snap: RecorderSnapshot): Option<Error> {
    FirstError(Ascending(snap.slots.Keys), slot requires slot in snap.slots => RegisterError(st, snap.slots[slot]))
  }

  /** The order of the checks; `decision` and `register` are the first errors found in those parts. */
  function Checked(blank: RecorderState, snap: RecorderSnapshot, decision: Option<Error>,
                   register: Option<Error>): Result<RecorderState> {
    if snap.cluster != blank.cluster then Err(ConfigurationMismatch)
    else if |snap.slots| > blank.limits.maxActiveSlots then Err(ResourceLimit(blank.limits.maxActiveSlots))
    else if |snap.decisions| > blank.limits.maxDecisions then Err(ResourceLimit(blank.limits.maxDecisions))
    else if decision.Some? then Err(decision.value)
    else if exists slot :: slot in snap.slots && slot <= snap.prunedThrough then Err(InvalidProposal)
    else if snap.leaders.Keys != snap.slots.Keys then Err(InvalidProposal)
    else if exists slot ::
          slot in snap.leaders && snap.leaders[slot].Some? && !Contains(blank.cluster, snap.leaders[slot].value)
      then Err(InvalidProposal)
    else if register.Some? then Err(register.value)
    else Ok(RestoreSnapshotState(blank, snap))
  }

  function Restore(id: ReplicaId, limits: Limits, cluster: Cluster, snap: RecorderSnapshot): Result<RecorderState> {
    var blank := NewRecorder(id, limits, cluster);
    Checked(blank, snap, DecisionsError(blank, snap), RegistersError(blank, snap))
  }

  // ----- The two halves of what a restorable state is -----

  predicate ValuesFit(limits: Limits, values: seq<Value>) {
    values != [] && |values| <= limits.maxValues && Distinct(values)
  }

  predicate RegisterFits(limits: Limits, reg: Register) {
    && ROUND_ONE_PHASE_ZERO <= reg.step <= limits.maxStep
    && reg.first.Some? && reg.currentAggregate.Some?
    && ValuesFit(limits, reg.first.value.values)
    && ValuesFit(limits, reg.currentAggregate.value.values)
    && (reg.priorAggregate.Some? ==> ValuesFit(limits, reg.priorAggregate.value.values))
  }

  predicate DecisionFits(limits: Limits, floor: Slot, slot: Slot, d: Decision) {
    d.slot == slot && slot > floor && d.decidedStep <= limits.maxStep && ValuesFit(limits, d.values)
  }

  /** What does not depend on the membership. */
  predicate Structural(st: RecorderState) {
    && |st.slots| <= st.limits.maxActiveSlots
    && |st.decisions| <= st.limits.maxDecisions
    && st.leaders.Keys == st.slots.Keys
    && (forall s :: s in st.slots ==> s > st.prunedThrough && RegisterFits(st.limits, st.slots[s]))
    && (forall s :: s in st.decisions ==> DecisionFits(st.limits, st.prunedThrough, s, st.decisions[s]))
  }

  predicate RegisterNames(c: Cluster, reg: Register) {
    && (reg.first.Some? ==> Contains(c, reg.first.value.key.proposer))
    && (reg.currentAggregate.Some? ==> Contains(c, reg.currentAggregate.value.key.proposer))
    && (reg.priorAggregate.Some? ==> Contains(c, reg.priorAggregate.value.key.proposer))
  }

  /** Every replica named by what is retained is a member. */
  predicate NamesKnown(st: RecorderState, c: Cluster) {
    && (forall s :: s in st.slots ==> RegisterNames(c, st.slots[s]))
    && (forall s :: s in st.leaders && st.leaders[s].Some? ==> Contains(c, st.leaders[s].value))
    && (forall s :: s in st.decisions ==> Contains(c, st.decisions[s].proposer))
  }

  // ----- Restore accepts exactly these -----

  lemma ProposalChecks(st: RecorderState, p: Proposal)
    ensures ProposalError(st, p).None? <==> Contains(st.cluster, p.key.proposer) && ValuesFit(st.limits, p.values)
  {
  }

  lemma FirstProposalChecks(st: RecorderState, p: Proposal, rest: seq<Proposal>)
    ensures FirstProposalError(st, [p] + rest).None? <==>
              ProposalError(st, p).None? && FirstProposalError(st, rest).None?
  {
    assert ([p] + rest)[1..] == rest;
  }

  lemma RegisterChecks(st: RecorderState, reg: Register)
    ensures RegisterError(st, reg).None? <==> RegisterFits(st.limits, reg) && RegisterNames(st.cluster, reg)
  {
    if reg.first.Some? && reg.currentAggregate.Some? {
      var first, current := reg.first.value, reg.currentAggregate.value;
      var prior := if reg.priorAggregate.Some? then [reg.priorAggregate.value] else [];
      assert Retained(reg) == [first] + ([current] + prior);
      FirstProposalChecks(st, first, [current] + prior);
      FirstProposalChecks(st, current, prior);
      ProposalChecks(st, first);
      ProposalChecks(st, current);
      if reg.priorAggregate.Some? {
        assert prior == [reg.priorAggregate.value] + [];
        FirstProposalChecks(st, reg.priorAggregate.value, []);
        ProposalChecks(st, reg.priorAggregate.value);
      }
    }
  }

  lemma DecisionChecks(st: RecorderState, snap: RecorderSnapshot, slot: Slot)
    requires slot in snap.decisions
    ensures StoredDecisionError(st, snap, slot).None? <==>
              && DecisionFits(st.limits, snap.prunedThrough, slot, snap.decisions[slot])
              && Contains(st.cluster, snap.decisions[slot].proposer)
  {
  }

  predicate DecisionsSound(st: RecorderState) {
    forall s :: s in st.decisions ==>
                  && DecisionFits(st.limits, st.prunedThrough, s, st.decisions[s])
                  && Contains(st.cluster, st.decisions[s].proposer)
  }

  predicate RegistersSound(st: RecorderState) {
    forall s :: s in st.slots ==> RegisterFits(st.limits, st.slots[s]) && RegisterNames(st.cluster, st.slots[s])
  }

  predicate LeadersSound(st: RecorderState) {
    && st.leaders.Keys == st.slots.Keys
    && (forall s :: s in st.slots ==> s > st.prunedThrough)
    && (forall s :: s in st.leaders && st.leaders[s].Some? ==> Contains(st.cluster, st.leaders[s].value))
  }

  predicate SizesSound(st: RecorderState) {
    |st.slots| <= st.limits.maxActiveSlots && |st.decisions| <= st.limits.maxDecisions
  }

  lemma SoundParts(st: RecorderState)
    ensures Structural(st) && NamesKnown(st, st.cluster) <==>
              SizesSound(st) && DecisionsSound(st) && LeadersSound(st) && RegistersSound(st)
  {
  }

  lemma DecisionsChecked(st: RecorderState, blank: RecorderState)
    requires blank == NewRecorder(st.id, st.limits, st.cluster)
    ensures DecisionsError(blank, Snapshot(st)).None? <==> DecisionsSound(st)
  {
    forall s | s in st.decisions
      ensures StoredDecisionError(blank, Snapshot(st), s).None? <==>
                DecisionFits(st.limits, st.prunedThrough, s, st.decisions[s])
                    && Contains(st.cluster, st.decisions[s].proposer)
    {
      DecisionChecks(blank, Snapshot(st), s);
    }
  }

  lemma RegistersChecked(st: RecorderState, blank: RecorderState)
    requires blank == NewRecorder(st.id, st.limits, st.cluster)
    ensures RegistersError(blank, Snapshot(st)).None? <==> RegistersSound(st)
  {
    forall s | s in st.slots
      ensures RegisterError(blank, st.slots[s]).None? <==>
                RegisterFits(st.limits, st.slots[s]) && RegisterNames(st.cluster, st.slots[s])
    {
      RegisterChecks(blank, st.slots[s]);
    }
  }

  /** A recorder comes back from its own snapshot, unchanged, exactly if it is sound and names only members. */
  lemma RestoresExactly(st: RecorderState)
    ensures Restore(st.id, st.limits, st.cluster, Snapshot(st)).Ok? <==> Structural(st) && NamesKnown(st, st.cluster)
    ensures Restore(st.id, st.limits, st.cluster, Snapshot(st)).Ok? ==>
              Restore(st.id, st.limits, st.cluster, Snapshot(st)) == Ok(st)
  {
    SoundParts(st);
    RestoreConditions(st);
  }

  lemma RestoreConditions(st: RecorderState)
    ensures var r := Restore(st.id, st.limits, st.cluster, Snapshot(st));
            && (r.Ok? <==> SizesSound(st) && DecisionsSound(st) && LeadersSound(st) && RegistersSound(st))
            && (r.Ok? ==> r == Ok(st))
  {
    var blank := NewRecorder(st.id, st.limits, st.cluster);
    RestoreChecks(st, blank, DecisionsError(blank, Snapshot(st)), RegistersError(blank, Snapshot(st)));
    DecisionsChecked(st, blank);
    RegistersChecked(st, blank);
  }

  lemma RestoreChecks(st: RecorderState, blank: RecorderState, decision: Option<Error>, register: Option<Error>)
    requires blank == NewRecorder(st.id, st.limits, st.cluster)
    ensures var r := Checked(blank, Snapshot(st), decision, register);
            && (r.Ok? <==> SizesSound(st) && decision.None? && LeadersSound(st) && register.None?)
            && (r.Ok? ==> r == Ok(st))
  {
  }

  // ----- What every operation keeps -----

  lemma RecordedFits(limits: Limits, reg: Register, c: Call, empty: bool)
    requires if empty then reg == EMPTY_REGISTER else RegisterFits(limits, reg)
    requires ROUND_ONE_PHASE_ZERO <= c.step <= limits.maxStep && ValuesFit(limits, c.proposal.values)
    ensures RegisterFits(limits, Recorded(reg, c))
  {
  }

  lemma RecordedNames(cluster: Cluster, reg: Register, c: Call)
    requires RegisterNames(cluster, reg) && Contains(cluster, c.proposal.key.proposer)
    ensures RegisterNames(cluster, Recorded(reg, c))
  {
  }

  lemma InformKeeps(st: RecorderState, d: Decision)
    ensures Structural(st) ==> Structural(Inform(st, d).0)
    ensures NamesKnown(st, st.cluster) ==> NamesKnown(Inform(st, d).0, st.cluster)
  {
  }

  lemma {:induction false} InformAllKeeps(st: RecorderState, ds: seq<Decision>)
    ensures Structural(st) ==> Structural(InformAll(st, ds).0)
    ensures NamesKnown(st, st.cluster) ==> NamesKnown(InformAll(st, ds).0, st.cluster)
  {
    if ds != [] {
      InformAllKeeps(st, ds[..|ds| - 1]);
      InformAllOnlyAddsDecisions(st, ds[..|ds| - 1]);
      InformKeeps(InformAll(st, ds[..|ds| - 1]).0, ds[|ds| - 1]);
    }
  }

  lemma RecordAcceptedKeeps(st: RecorderState, req: RecordRequest)
    requires RequestError(st, req).None? && req.slot > st.prunedThrough && Structural(st)
    requires req.slot in st.slots || |st.slots| < st.limits.maxActiveSlots
    ensures Structural(RecordAccepted(st, req).0)
  {
    ProposalChecks(st, req.proposal);
    RecordedFits(st.limits, if req.slot in st.slots then st.slots[req.slot] else EMPTY_REGISTER,
                 Call(req.step, req.proposal), req.slot !in st.slots);
  }

  lemma RecordAcceptedNames(st: RecorderState, req: RecordRequest)
    requires RequestError(st, req).None? && st.leaders.Keys == st.slots.Keys && NamesKnown(st, st.cluster)
    ensures NamesKnown(RecordAccepted(st, req).0, st.cluster)
  {
    RecordedNames(st.cluster, if req.slot in st.slots then st.slots[req.slot]
        else EMPTY_REGISTER, Call(req.step, req.proposal));
  }

  /** A record leaves the state alone, informs only, or informs and writes the register. */
  lemma RecordCases(st: RecorderState, req: RecordRequest, available: bool)
    ensures var informed := InformAll(st, req.known).0;
            var st' := Record(st, req, available).0;
            || st' == st
            || st' == informed
            || (&& RequestError(st, req).None? && req.slot > st.prunedThrough
                && (req.slot in informed.slots || |informed.slots| != st.limits.maxActiveSlots)
                && st' == RecordAccepted(informed, req).0)
  {
  }

  lemma RecordKeeps(st: RecorderState, req: RecordRequest, available: bool)
    requires Structural(st)
    ensures Structural(Record(st, req, available).0)
    ensures NamesKnown(st, st.cluster) ==> NamesKnown(Record(st, req, available).0, st.cluster)
  {
    var informed := InformAll(st, req.known).0;
    RecordCases(st, req, available);
    InformAllKeeps(st, req.known);
    InformAllOnlyAddsDecisions(st, req.known);
    if RequestError(st, req).None? && req.slot > st.prunedThrough
       && (req.slot in informed.slots || |informed.slots| < st.limits.maxActiveSlots) {
      assert RequestError(informed, req).None?;
      RecordAcceptedKeeps(informed, req);
      if NamesKnown(st, st.cluster) {
        RecordAcceptedNames(informed, req);
      }
    }
  }

  lemma SmallerMap<T>(m: map<Slot, T>, m': map<Slot, T>)
    requires m'.Keys <= m.Keys
    ensures |m'| <= |m|
  {
    SubsetSize(m'.Keys, m.Keys);
    assert |m| == |m.Keys| && |m'| == |m'.Keys|;
  }

  lemma PruneKeeps(st: RecorderState, slot: Slot)
    requires Structural(st)
    ensures Structural(PruneThrough(st, slot))
    ensures NamesKnown(st, st.cluster) ==> NamesKnown(PruneThrough(st, slot), st.cluster)
  {
    var st' := PruneThrough(st, slot);
    SmallerMap(st.slots, st'.slots);
    SmallerMap(st.decisions, st'.decisions);
  }

  /** Entering a joint epoch keeps every member; only finalizing one can drop names. */
  lemma InstallKeeps(st: RecorderState, change: MembershipChange)
    requires Structural(st)
    ensures Structural(InstallMembership(st, change).0)
    ensures var st' := InstallMembership(st, change).0;
            NamesKnown(st, st.cluster) && (change.next.joint.Some? || st'.cluster == st.cluster) ==>
                NamesKnown(st', st'.cluster)
  {
    var st' := InstallMembership(st, change).0;
    if st' != st && change.next.joint.Some? {
      assert forall r :: Contains(st.cluster, r) ==> Contains(change.next, r);
    }
  }

  /** The operation does not finalize a joint epoch. */
  predicate Finalizes(op: Op) {
    op.OpInstall? && op.change.next.joint.None?
  }

  lemma ApplyKeeps(st: RecorderState, op: Op)
    requires Structural(st)
    ensures Structural(Apply(st, op).0)
    ensures NamesKnown(st, st.cluster) && !Finalizes(op) ==> NamesKnown(Apply(st, op).0, Apply(st, op).0.cluster)
  {
    OnlyInstallsChangeCluster(st, op);
    match op
    case OpRecord(request, available) => RecordKeeps(st, request, available);
    case OpInform(ds) => InformAllKeeps(st, ds);
    case OpPrune(slot) => PruneKeeps(st, slot);
    case OpInstall(change) => InstallKeeps(st, change);
  }

  lemma OnlyInstallsChangeCluster(st: RecorderState, op: Op)
    ensures !op.OpInstall? ==> Apply(st, op).0.cluster == st.cluster
  {
    if op.OpRecord? {
      InformAllOnlyAddsDecisions(st, op.request.known);
    } else if op.OpInform? {
      InformAllOnlyAddsDecisions(st, op.decisions);
    }
  }

  // ----- Over whole runs -----

  function ApplyAll(st: RecorderState, ops: seq<Op>): RecorderState {
    if ops == [] then st else Apply(ApplyAll(st, ops[..|ops| - 1]), ops[|ops| - 1]).0
  }

  lemma {:induction false} ReachableIsStructural(id: ReplicaId, limits: Limits, cluster: Cluster, ops: seq<Op>)
    ensures var st := ApplyAll(NewRecorder(id, limits, cluster), ops);
            && st.id == id && st.limits == limits && Structural(st)
            && ((forall k :: 0 <= k < |ops| ==> !Finalizes(ops[k])) ==> NamesKnown(st, st.cluster))
  {
    if ops != [] {
      var init := ops[..|ops| - 1];
      ReachableIsStructural(id, limits, cluster, init);
      ApplyKeeps(ApplyAll(NewRecorder(id, limits, cluster), init), ops[|ops| - 1]);
      ApplyFrame(ApplyAll(NewRecorder(id, limits, cluster), init), ops[|ops| - 1]);
    }
  }

  lemma ApplyFrame(st: RecorderState, op: Op)
    ensures Apply(st, op).0.id == st.id && Apply(st, op).0.limits == st.limits
  {
    if op.OpRecord? {
      InformAllOnlyAddsDecisions(st, op.request.known);
    } else if op.OpInform? {
      InformAllOnlyAddsDecisions(st, op.decisions);
    }
  }

  /**
   After any run, a recorder comes back from its snapshot if and only if nothing it
   retains names a replica outside its current membership. Without finalizing a joint
   epoch it always does.
   */
  lemma RoundTripExactly(id: ReplicaId, limits: Limits, cluster: Cluster, ops: seq<Op>)
    ensures var st := ApplyAll(NewRecorder(id, limits, cluster), ops);
            Restore(id, limits, st.cluster, Snapshot(st)) == Ok(st) <==> NamesKnown(st, st.cluster)
    ensures var st := ApplyAll(NewRecorder(id, limits, cluster), ops);
            (forall k :: 0 <= k < |ops| ==> !Finalizes(ops[k])) ==>
                Restore(id, limits, st.cluster, Snapshot(st)) == Ok(st)
  {
    ReachableIsStructural(id, limits, cluster, ops);
    RestoresExactly(ApplyAll(NewRecorder(id, limits, cluster), ops));
  }

  /**
   A finalized recorder cannot restart while it retains a decision of a replica that
   left, and the barrier allows that: the anchor itself may be such a decision.
   */
  lemma FinalizedMayNotRestart(st: RecorderState, change: MembershipChange)
    requires Structural(st) && InstallMembership(st, change).1.Ok? && st.cluster != change.next
    requires !Contains(change.next, change.anchor.proposer)
    ensures var st' := InstallMembership(st, change).0;
            Restore(st'.id, st'.limits, st'.cluster, Snapshot(st')).Err?
  {
    var st' := InstallMembership(st, change).0;
    assert st'.decisions[change.anchor.slot].proposer == change.anchor.proposer;
    RestoresExactly(st');
  }

  /** One told decision of the replica about to leave, and the finalization it anchors: the restart fails. */
  lemma FinalizedNotRestarting()
    returns (id: ReplicaId, limits: Limits, cluster: Cluster, anchor: Decision, change: MembershipChange)
    ensures WellFormed(cluster) && change.anchor == anchor
    ensures var st := ApplyAll(NewRecorder(id, limits, cluster), [OpInform([anchor]), OpInstall(change)]);
            && st.cluster == change.next && st.cluster != cluster
            && Restore(id, limits, st.cluster, Snapshot(st)).Err?
  {
    id, limits, cluster := 2, Limits(10, 10, 10, 10, 100), Cluster([1, 2], 0, 1, Some(Joint([1], 0, [2])));
    anchor := Decision(1, [7], 1, 4);
    change := MembershipChange(anchor, Cluster([2], 0, 2, None), 7);
    var blank := NewRecorder(id, limits, cluster);
    var told := blank.(decisions := map[1 := anchor]);
    OneTold(blank, anchor);
    TwoOperations(blank, OpInform([anchor]), OpInstall(change));
    AnchorInstalls(told, change);
    FinalizedMayNotRestart(told, change);
  }

  lemma OneTold(st: RecorderState, d: Decision)
    requires st.decisions == map[] && DecisionError(st, d).None? && d.slot > st.prunedThrough
             && st.limits.maxDecisions > 0
    ensures Apply(st, OpInform([d])) == (st.(decisions := map[d.slot := d]), Ok(AckDone))
  {
    assert [d][..0] == [];
    assert InformAll(st, []) == (st, Ok(()));
    assert InformAll(st, [d]) == Inform(st, d);
  }

  lemma TwoOperations(st: RecorderState, a: Op, b: Op)
    ensures ApplyAll(st, [a, b]) == Apply(Apply(st, a).0, b).0
  {
    assert [a, b][..1] == [a] && [a][..0] == [];
    assert ApplyAll(st, [a]) == Apply(ApplyAll(st, []), a).0;
  }

  /** A recorder that holds only the anchor installs a successor. */
  lemma AnchorInstalls(st: RecorderState, change: MembershipChange)
    requires st.slots == map[] && st.decisions == map[change.anchor.slot := change.anchor]
    requires change.commandId in change.anchor.values && IsSuccessorOf(change.next, st.cluster)
    ensures Apply(st, OpInstall(change)) == (st.(cluster := change.next), Ok(AckDone))
  {
  }
}
