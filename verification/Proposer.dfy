/**
 The proposer's loop as the program runs it: validation of the recorder handles, then
 one request batch and one quorum after the other until the slot is decided, an error
 ends the attempt or the step limit is passed.
 */
module Proposer {
  import opened Types
  import opened IntervalRegister
  import opened Membership
  import opened Recorder
  import opened ProposerRules

  datatype ProposerConfig = ProposerConfig(maxSteps: nat, quorum: Option<nat>, cluster: Option<Cluster>)

  // ----- Recorder handles -----

  function Majority(n: nat): nat {
    n / 2 + 1
  }

  /** What a list of recorder handles must satisfy for a proposer, and the quorum that follows. */
  predicate ValidHandles(handles: seq<ReplicaId>, proposer: ReplicaId, quorum: Option<nat>, cluster: Option<Cluster>) {
    && Distinct(handles)
    && proposer in handles
    && (cluster.Some? ==>
          && WellFormed(cluster.value)
          && Elements(handles) == Elements(cluster.value.members)
          && quorum == Some(QuorumSize(cluster.value)))
    && (quorum.Some? ==> Majority(|handles|) <= quorum.value <= |handles|)
  }

  method ValidateRecorders(handles: seq<ReplicaId>, proposer: ReplicaId, quorum: Option<nat>, cluster: Option<Cluster>)
    returns (r: Result<nat>)
    requires cluster.Some? ==> WellFormed(cluster.value)
    ensures r.Ok? <==> ValidHandles(handles, proposer, quorum, cluster)
    ensures r.Ok? ==> r.value == if quorum.Some? then quorum.value else Majority(|handles|)
  {
    if |handles| == 0 {
      return Err(EmptyCluster);
    }
    var majority := Majority(|handles|);
    var members: set<ReplicaId> := {};
    var i := 0;
    while i < |handles|
      invariant 0 <= i <= |handles|
      invariant members == Elements(handles[..i]) && Distinct(handles[..i])
    {
      assert handles[..i + 1] == handles[..i] + [handles[i]];
      if handles[i] in members {
        assert exists j :: 0 <= j < i && handles[..i][j] == handles[i];
        return Err(DuplicateReplica);
      }
      members := members + {handles[i]};
      i := i + 1;
    }
    assert handles[..i] == handles;
    if proposer !in members {
      return Err(UnknownReplica(proposer));
    }
    if cluster.Some? {
      if members != Elements(cluster.value.members) {
        return Err(ConfigurationMismatch);
      }
      if quorum != Some(QuorumSize(cluster.value)) {
        return Err(InvalidQuorum(|handles|, if quorum.Some? then quorum.value else majority));
      }
    }
    match quorum {
      case Some(q) =>
        if q < majority || q > |handles| {
          return Err(InvalidQuorum(|handles|, q));
        }
        return Ok(q);
      case None => return Ok(majority);
    }
  }

  /** Any two voter sets of an accepted size share a recorder, with or without a configuration. */
  lemma AcceptedQuorumsMeet(handles: seq<ReplicaId>, proposer: ReplicaId, quorum: Option<nat>, cluster: Option<Cluster>,
                            x: set<ReplicaId>, y: set<ReplicaId>)
    requires ValidHandles(handles, proposer, quorum, cluster)
    requires x <= Elements(handles) && y <= Elements(handles)
    requires var q := if quorum.Some? then quorum.value else Majority(|handles|); |x| >= q && |y| >= q
    ensures exists r :: r in x && r in y
  {
    ElementsSize(handles);
    assert Elements(handles) * x == x && Elements(handles) * y == y;
    LargePartsMeet(Elements(handles), x, y);
  }

  lemma DistinctSize(a: seq<ReplicaId>, b: seq<ReplicaId>)
    requires Distinct(a) && Distinct(b) && Elements(a) == Elements(b)
    ensures |a| == |b|
  {
    ElementsSize(a);
    ElementsSize(b);
  }

  /**
   A proposer configured for a cluster and given exactly its members is accepted if and
   only if the cluster's quorum is a majority of all its members.
   */
  lemma ClusterAcceptedExactly(handles: seq<ReplicaId>, proposer: ReplicaId, c: Cluster)
    requires WellFormed(c) && Distinct(handles) && Elements(handles) == Elements(c.members)
    requires proposer in handles
    ensures ValidHandles(handles, proposer, Some(QuorumSize(c)), Some(c)) <==> 2 * QuorumSize(c) > |c.members|
    ensures c.joint.None? ==> ValidHandles(handles, proposer, Some(QuorumSize(c)), Some(c))
  {
    DistinctSize(handles, c.members);
    QuorumWithinMembers(c);
  }

  lemma QuorumWithinMembers(c: Cluster)
    requires WellFormed(c)
    ensures QuorumSize(c) <= |c.members|
  {
    if c.joint.Some? {
      var j := c.joint.value;
      var before, after := Elements(j.oldMembers), Elements(j.newMembers);
      ElementsSize(j.oldMembers);
      ElementsSize(j.newMembers);
      ElementsSize(c.members);
      CountInIsIntersection(j.oldMembers, after);
      SubsetSize(before * after, before);
      SubsetSize(before * after, after);
      assert Elements(c.members) == before + after;
      assert |before + after| + |before * after| == |before| + |after|;
    }
  }

  /**
   Replacing one member of a cluster of 2f+1 gives a joint configuration whose members
   this validation rejects, although its quorums are safe.
   */
  lemma SingleReplacementRejected(handles: seq<ReplicaId>, proposer: ReplicaId, c: Cluster, f: nat)
    requires WellFormed(c) && c.joint.Some? && f >= 1
    requires |c.joint.value.oldMembers| == 2 * f + 1 && c.joint.value.oldMaxFaults == f
    requires |c.joint.value.newMembers| == 2 * f + 1 && c.maxFaults == f
    requires |Elements(c.joint.value.oldMembers) * Elements(c.joint.value.newMembers)| == 2 * f
    ensures QuorumSize(c) == f + 1 && |c.members| == 2 * f + 2
    ensures !ValidHandles(handles, proposer, Some(QuorumSize(c)), Some(c))
  {
    var j := c.joint.value;
    var before, after := Elements(j.oldMembers), Elements(j.newMembers);
    ElementsSize(j.oldMembers);
    ElementsSize(j.newMembers);
    ElementsSize(c.members);
    CountInIsIntersection(j.oldMembers, after);
    assert Elements(c.members) == before + after;
    assert |before + after| + |before * after| == |before| + |after|;
    if Distinct(handles) && Elements(handles) == Elements(c.members) {
      DistinctSize(handles, c.members);
    }
  }

  // ----- The loop, on values -----

  datatype Progress = Asking(step: Step, proposal: Proposal) | Done(result: Result<Decision>)

  function Enter(maxSteps: nat, step: Step, p: Proposal): Progress {
    if step > U64_MAX then Done(Err(StepOverflow))
    else if step > maxSteps then Done(Err(StepLimitExceeded(maxSteps)))
    else Asking(step, p)
  }

  function Resume(maxSteps: nat, outcome: Outcome): Progress {
    match outcome
    case Decided(d) => Done(Ok(d))
    case Failed(e) => Done(Err(e))
    case Continue(step, p) => Enter(maxSteps, step, p)
  }

  /** One call of `propose` whose arguments passed the checks. */
  datatype Attempt = Attempt(id: ReplicaId, slot: Slot, leader: Option<ReplicaId>, maxSteps: nat, start: Progress,
      known: seq<Decision>)

  /** The attempt after some quorums, or errors in place of a quorum, have been collected. */
  function After(a: Attempt, answers: seq<Result<seq<RecordReply>>>): Progress {
    if answers == [] then a.start
    else
      var before := After(a, answers[..|answers| - 1]);
      match before
      case Done(_) => before
      case Asking(step, p) =>
        match answers[|answers| - 1]
        case Err(e) => Done(Err(e))
        case Ok(replies) => Resume(a.maxSteps, Advance(a.slot, a.leader, step, p, replies))
  }

  /** The requests of one iteration, one for each handle; known decisions travel with the first. */
  function Batch(a: Attempt, step: Step, p: Proposal, sendKnown: bool, draws: seq<nat>): (batch: seq<RecordRequest>)
    ensures |batch| == |draws|
  {
    seq(|draws|, j requires 0 <= j < |draws| =>
      RecordRequest(a.id, a.slot, a.leader, step, ProposalToSend(a.id, a.leader, step, p, draws[j]),
                    if sendKnown then a.known else []))
  }

  // ----- Every iteration raises the step -----

  /** What replies to a request at a step look like: nobody is behind it, and everybody has a first proposal. */
  predicate AnswersStep(step: Step, replies: seq<RecordReply>) {
    replies != [] && forall k :: 0 <= k < |replies| ==>
      replies[k].summary.step >= step && replies[k].summary.first.Some?
  }

  /** A recorder whose registers hold what they were given never answers below the request. */
  lemma RecordersAnswerAhead(st: RecorderState, req: RecordRequest, available: bool)
    requires forall s :: s in st.slots && st.slots[s].step > 0 ==> st.slots[s].first.Some?
    requires Record(st, req, available).1.Ok?
    ensures var summary := Record(st, req, available).1.value.summary;
            summary.step >= req.step && summary.first.Some?
  {
    InformAllOnlyAddsDecisions(st, req.known);
  }

  lemma IterationRaisesStep(slot: Slot, leader: Option<ReplicaId>, step: Step, p: Proposal, replies: seq<RecordReply>)
    requires AnswersStep(step, replies)
    ensures var o := Advance(slot, leader, step, p, replies); o.Continue? ==> o.step > step
  {
    if !AllAtStep(replies, step) {
      var k :| 0 <= k < |replies| && replies[k].summary.step != step;
      assert replies[k].summary.step <= Highest(replies).summary.step;
    }
  }

  /** The answers given so far are answers to the steps the attempt was at. */
  predicate Answered(a: Attempt, answers: seq<Result<seq<RecordReply>>>) {
    forall k :: 0 <= k < |answers| ==> AnsweredAt(a, answers, k)
  }

  predicate AnsweredAt(a: Attempt, answers: seq<Result<seq<RecordReply>>>, k: nat)
    requires k < |answers|
  {
    var before := After(a, answers[..k]);
    before.Asking? && answers[k].Ok? ==> AnswersStep(before.step, answers[k].value)
  }

  /** Whatever the recorders answer, the attempt ends within the step limit: at most one iteration per step. */
  lemma {:induction false} StepsRise(a: Attempt, answers: seq<Result<seq<RecordReply>>>)
    requires Answered(a, answers)
    requires a.start.Asking? ==> a.start.step <= a.maxSteps
    ensures var now := After(a, answers);
            now.Asking? ==> a.start.Asking? && a.start.step + |answers| <= now.step <= a.maxSteps
  {
    if answers != [] {
      var init := answers[..|answers| - 1];
      forall k | 0 <= k < |init| ensures AnsweredAt(a, init, k) {
        assert init[..k] == answers[..k];
        assert AnsweredAt(a, answers, k);
      }
      StepsRise(a, init);
      var before := After(a, init);
      assert AnsweredAt(a, answers, |answers| - 1);
      if before.Asking? && answers[|answers| - 1].Ok? {
        IterationRaisesStep(a.slot, a.leader, before.step, before.proposal, answers[|answers| - 1].value);
      }
    }
  }

  // ----- The loop -----

  /** Where an attempt starts once its arguments have been checked. */
  function Start(maxSteps: nat, id: ReplicaId, lane: LaneId, values: seq<Value>): Progress {
    if values == [] then Done(Err(EmptyProposal))
    else Enter(maxSteps, ROUND_ONE_PHASE_ZERO, Proposal(Key(LEADER_PRIORITY, id, lane), values))
  }

  /** An attempt asks its first question exactly if it has values and the first step is within the limit. */
  lemma StartsExactly(maxSteps: nat, id: ReplicaId, lane: LaneId, values: seq<Value>)
    ensures var start := Start(maxSteps, id, lane, values);
            && (start.Asking? <==> values != [] && maxSteps >= ROUND_ONE_PHASE_ZERO)
            && (start.Asking? ==>
                  && start.step == ROUND_ONE_PHASE_ZERO && start.proposal.values == values
                  && start.proposal.key == Key(LEADER_PRIORITY, id, lane))
  {
  }

  predicate Accepts(config: ProposerConfig, id: ReplicaId, handles: seq<ReplicaId>, leader: Option<ReplicaId>,
                    known: seq<Decision>) {
    && ValidHandles(handles, id, config.quorum, config.cluster)
    && (leader.Some? ==> leader.value in handles)
    && forall k :: 0 <= k < |known| ==> known[k].proposer in handles
  }

  /** The steps in the replies are 64-bit numbers. */
  predicate StepsFit(answer: Result<seq<RecordReply>>) {
    answer.Ok? ==> forall k :: 0 <= k < |answer.value| ==> answer.value[k].summary.step <= U64_MAX
  }

  /** Where the attempt is after each number of answers. */
  ghost predicate IsTrace(a: Attempt, answers: seq<Result<seq<RecordReply>>>, trace: seq<Progress>) {
    |trace| == |answers| + 1 && forall k {:trigger After(a, answers[..k])} :: 0 <= k <= |answers| ==>
        trace[k] == After(a, answers[..k])
  }

  /** Exactly the iterations the attempt gets to send their batches. */
  predicate SentAll(a: Attempt, draws: seq<seq<nat>>, trace: seq<Progress>, sent: seq<seq<RecordRequest>>)
    requires |trace| <= |draws|
  {
    && |sent| <= |trace|
    && (forall k :: 0 <= k < |sent| ==>
          trace[k].Asking? && sent[k] == Batch(a, trace[k].step, trace[k].proposal, k == 0, draws[k]))
    && (forall k :: |sent| <= k < |trace| ==> trace[k].Done?)
  }

  /**
   What every request says: the proposer, slot, leader and step of its turn, the values
   of that turn's proposal, a private priority whenever a round opens except for the
   leader's own opening, and the known decisions in the first batch and only there.
   */
  lemma SentSays(a: Attempt, draws: seq<seq<nat>>, trace: seq<Progress>, sent: seq<seq<RecordRequest>>, k: nat, j: nat)
    requires |trace| <= |draws| && SentAll(a, draws, trace, sent) && k < |sent| && j < |sent[k]|
    ensures trace[k].Asking? && |sent[k]| == |draws[k]|
    ensures var req, p := sent[k][j], trace[k].proposal;
            && req.sender == a.id && req.slot == a.slot && req.leader == a.leader && req.step == trace[k].step
            && req.known == (if k == 0 then a.known else [])
            && req.proposal.values == p.values
            && req.proposal.key.proposer == p.key.proposer && req.proposal.key.lane == p.key.lane
            && req.proposal.key.priority ==
               if req.step % 4 != 0 || (req.step <= ROUND_ONE_PHASE_ZERO && a.leader == Some(a.id))
               then p.key.priority else draws[k][j]
  {
  }

  lemma {:induction false} DoneStays(a: Attempt, answers: seq<Result<seq<RecordReply>>>, i: nat, k: nat)
    requires i <= k <= |answers| && After(a, answers[..i]).Done?
    ensures After(a, answers[..k]) == After(a, answers[..i])
    decreases k
  {
    if i < k {
      DoneStays(a, answers, i, k - 1);
      assert answers[..k][..k - 1] == answers[..k - 1];
    }
  }

  lemma AfterNext(a: Attempt, answers: seq<Result<seq<RecordReply>>>, i: nat)
    requires i < |answers| && After(a, answers[..i]).Asking?
    ensures var before := After(a, answers[..i]);
            After(a, answers[..i + 1]) ==
            match answers[i]
            case Err(e) => Done(Err(e))
            case Ok(replies) => Resume(a.maxSteps, Advance(a.slot, a.leader, before.step, before.proposal, replies))
  {
    assert answers[..i + 1][..i] == answers[..i];
  }

  lemma TraceEnds(a: Attempt, answers: seq<Result<seq<RecordReply>>>, trace: seq<Progress>, i: nat)
    requires IsTrace(a, answers, trace) && i < |trace| && trace[i].Done?
    ensures forall k :: i <= k < |trace| ==> trace[k] == trace[i]
  {
    forall k | i <= k < |trace| ensures trace[k] == trace[i] {
      assert trace[i] == After(a, answers[..i]) && trace[k] == After(a, answers[..k]);
      DoneStays(a, answers, i, k);
    }
  }

  /** The requests of one iteration are built handle by handle. */
  method BuildBatch(a: Attempt, handles: seq<ReplicaId>, step: Step, p: Proposal, sendKnown: bool, draws: seq<nat>)
    returns (batch: seq<RecordRequest>)
    requires |draws| == |handles|
    ensures batch == Batch(a, step, p, sendKnown, draws)
  {
    batch := [];
    for j := 0 to |handles|
      invariant |batch| == j
      invariant forall k :: 0 <= k < j ==> batch[k] == Batch(a, step, p, sendKnown, draws)[k]
    {
      var toSend := p;
      if Phase(step) == 0 && (step > ROUND_ONE_PHASE_ZERO || a.leader != Some(a.id)) {
        toSend := WithPriority(p, draws[j]);
      }
      batch := batch + [RecordRequest(a.id, a.slot, a.leader, step, toSend, if sendKnown then a.known else [])];
    }
  }

  /**
   One turn of the loop after a quorum has been collected. A result ends the attempt;
   otherwise the step and proposal are those of the next turn.
   */
  method Turn(maxSteps: nat, slot: Slot, leader: Option<ReplicaId>, step: Step, proposal: Proposal,
              replies: seq<RecordReply>)
    returns (r: Option<Result<Decision>>, step': Step, proposal': Proposal)
    requires step <= U64_MAX && forall k :: 0 <= k < |replies| ==> replies[k].summary.step <= U64_MAX
    ensures step' <= U64_MAX
    ensures Resume(maxSteps, Advance(slot, leader, step, proposal, replies)) ==
            if r.Some? then Done(r.value) else Enter(maxSteps, step', proposal')
  {
    var reported := ReportedDecision(replies);
    if reported.Some? {
      if reported.value.slot != slot || reported.value.values == [] {
        return Some(Err(InvalidProposal)), step, proposal;
      }
      return Some(Ok(reported.value)), step, proposal;
    }
    if AllAtStep(replies, step) {
      r, step', proposal' := PhaseTurn(maxSteps, slot, leader, step, proposal, replies);
    } else {
      r, step', proposal' := CatchUpTurn(maxSteps, step, proposal, replies);
    }
  }

  /** Every reply is at the proposer's step. Only the greatest representable step overflows. */
  method PhaseTurn(maxSteps: nat, slot: Slot, leader: Option<ReplicaId>, step: Step, proposal: Proposal,
                   replies: seq<RecordReply>)
    returns (r: Option<Result<Decision>>, step': Step, proposal': Proposal)
    requires step <= U64_MAX
    ensures step' <= U64_MAX
    ensures Resume(maxSteps, PhaseDone(slot, leader, step, proposal, replies)) ==
            if r.Some? then Done(r.value) else Enter(maxSteps, step', proposal')
  {
    r, step', proposal' := None, step, proposal;
    if Phase(step) == 0 {
      var winner := FastPathWinner(step, replies, leader);
      if winner.Some? {
        return Some(NewDecision(slot, winner.value, step)), step, proposal;
      }
      var best := MaxProposalByKey(Firsts(replies));
      if best.None? {
        return Some(Err(MissingProposal)), step, proposal;
      }
      proposal' := best.value;
    } else if Phase(step) == 2 {
      if MaxProposalByKey(Priors(replies)) == Some(proposal) {
        return Some(NewDecision(slot, proposal, step)), step, proposal;
      }
    } else if Phase(step) == 3 {
      var best := MaxProposalByKey(Priors(replies));
      if best.Some? {
        proposal' := best.value;
      }
    }
    if step == U64_MAX {
      return Some(Err(StepOverflow)), step, proposal;
    }
    step' := step + 1;
  }

  /** Some reply is at another step. */
  method CatchUpTurn(maxSteps: nat, step: Step, proposal: Proposal, replies: seq<RecordReply>)
    returns (r: Option<Result<Decision>>, step': Step, proposal': Proposal)
    requires step <= U64_MAX && forall k :: 0 <= k < |replies| ==> replies[k].summary.step <= U64_MAX
    ensures step' <= U64_MAX
    ensures Resume(maxSteps, CatchUp(step, proposal, replies)) == if r.Some? then Done(r.value)
            else Enter(maxSteps, step', proposal')
  {
    r, step', proposal' := None, step, proposal;
    if replies != [] {
      var top := Highest(replies);
      if top.summary.step > step {
        if top.summary.first.None? {
          return Some(Err(MissingProposal)), step, proposal;
        }
        step', proposal' := top.summary.step, top.summary.first.value;
      }
    }
  }

  function NewDecision(slot: Slot, p: Proposal, step: Step): Result<Decision> {
    if p.values == [] then Err(EmptyDecision) else Ok(Decision(slot, p.values, p.key.proposer, step))
  }

  /** The answer to the i-th iteration ends the attempt or moves it on. */
  method Resumed(a: Attempt, answers: seq<Result<seq<RecordReply>>>, ghost trace: seq<Progress>, i: nat, step: Step,
                 proposal: Proposal)
    returns (r: Option<Result<Decision>>, step': Step, proposal': Proposal)
    requires i < |answers| && StepsFit(answers[i]) && step <= U64_MAX
    requires IsTrace(a, answers, trace) && trace[i] == Asking(step, proposal)
    ensures step' <= U64_MAX
    ensures trace[i + 1] == if r.Some? then Done(r.value) else Enter(a.maxSteps, step', proposal')
  {
    assert trace[i] == After(a, answers[..i]) && trace[i + 1] == After(a, answers[..i + 1]);
    AfterNext(a, answers, i);
    match answers[i] {
      case Err(e) => r, step', proposal' := Some(Err(e)), step, proposal;
      case Ok(replies) => r, step', proposal' := Turn(a.maxSteps, a.slot, a.leader, step, proposal, replies);
    }
  }

  /**
   The loop. `answers` holds the outcome of each wait for a quorum so far, `draws` the
   private priorities of each iteration. No result means the attempt waits for its next
   quorum.
   */
  method Run(a: Attempt, handles: seq<ReplicaId>, values: seq<Value>, lane: LaneId,
             draws: seq<seq<nat>>, answers: seq<Result<seq<RecordReply>>>, ghost trace: seq<Progress>)
    returns (r: Option<Result<Decision>>, sent: seq<seq<RecordRequest>>)
    requires a.maxSteps <= U64_MAX
    requires IsTrace(a, answers, trace) && trace[0] == Start(a.maxSteps, a.id, lane, values)
    requires |draws| == |answers| + 1 && forall k :: 0 <= k < |draws| ==> |draws[k]| == |handles|
    requires forall k :: 0 <= k < |answers| ==> StepsFit(answers[k])
    ensures r == match trace[|answers|] case Done(result) => Some(result) case Asking(_, _) => None
    ensures SentAll(a, draws, trace, sent)
  {
    sent := [];
    if values == [] {
      TraceEnds(a, answers, trace, 0);
      return Some(Err(EmptyProposal)), [];
    }
    var step: Step, proposal := ROUND_ONE_PHASE_ZERO, Proposal(Key(LEADER_PRIORITY, a.id, lane), values);
    var sendKnown := true;
    while step <= a.maxSteps
      invariant |sent| <= |answers| && sendKnown == (|sent| == 0)
      invariant step <= U64_MAX
      invariant trace[|sent|] == Enter(a.maxSteps, step, proposal)
      invariant forall k :: 0 <= k < |sent| ==>
                  trace[k].Asking? && sent[k] == Batch(a, trace[k].step, trace[k].proposal, k == 0, draws[k])
      decreases |answers| - |sent|
    {
      var i := |sent|;
      var batch := BuildBatch(a, handles, step, proposal, sendKnown, draws[i]);
      sent := sent + [batch];
      sendKnown := false;
      if i == |answers| {
        return None, sent;
      }
      r, step, proposal := Resumed(a, answers, trace, i, step, proposal);
      if r.Some? {
        TraceEnds(a, answers, trace, i + 1);
        return;
      }
    }
    TraceEnds(a, answers, trace, |sent|);
    r := Some(Err(StepLimitExceeded(a.maxSteps)));
  }

  /** The attempt's progress after every number of answers. */
  ghost function Trace(a: Attempt, answers: seq<Result<seq<RecordReply>>>): (trace: seq<Progress>)
    ensures IsTrace(a, answers, trace)
  {
    seq(|answers| + 1, k requires 0 <= k <= |answers| => After(a, answers[..k]))
  }

  method Propose(config: ProposerConfig, id: ReplicaId, lane: LaneId, slot: Slot, values: seq<Value>,
                 leader: Option<ReplicaId>, handles: seq<ReplicaId>, known: seq<Decision>,
                 draws: seq<seq<nat>>, answers: seq<Result<seq<RecordReply>>>)
    returns (r: Option<Result<Decision>>, sent: seq<seq<RecordRequest>>)
    requires config.maxSteps <= U64_MAX && (config.cluster.Some? ==> WellFormed(config.cluster.value))
    requires |draws| == |answers| + 1 && forall k :: 0 <= k < |draws| ==> |draws[k]| == |handles|
    requires forall k :: 0 <= k < |answers| ==> StepsFit(answers[k])
    ensures !Accepts(config, id, handles, leader, known) ==> r.Some? && r.value.Err? && sent == []
    ensures Accepts(config, id, handles, leader, known) ==>
              var a := Attempt(id, slot, leader, config.maxSteps, Start(config.maxSteps, id, lane, values), known);
              && r == (match After(a, answers) case Done(result) => Some(result) case Asking(_, _) => None)
              && SentAll(a, draws, Trace(a, answers), sent)
  {
    var quorum := ValidateRecorders(handles, id, config.quorum, config.cluster);
    if quorum.Err? {
      return Some(Err(quorum.error)), [];
    }
    if leader.Some? && leader.value !in handles {
      return Some(Err(UnknownReplica(leader.value))), [];
    }
    for k := 0 to |known|
      invariant forall j :: 0 <= j < k ==> known[j].proposer in handles
    {
      if known[k].proposer !in handles {
        return Some(Err(InvalidSender(known[k].proposer))), [];
      }
    }
    var a := Attempt(id, slot, leader, config.maxSteps, Start(config.maxSteps, id, lane, values), known);
    ghost var trace := Trace(a, answers);
    assert answers[..0] == [] && answers[..|answers|] == answers;
    assert trace[0] == After(a, answers[..0]) && trace[|answers|] == After(a, answers[..|answers|]);
    r, sent := Run(a, handles, values, lane, draws, answers, trace);
  }
}
