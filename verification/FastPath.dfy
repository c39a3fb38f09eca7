/**
 The leader's fast path: one round trip decides if the leader reaches a quorum first,
 and nothing else decides at the slot's opening step.
 */
module FastPath {
  import opened Types
  import opened IntervalRegister
  import opened Membership
  import opened Recorder
  import opened ProposerRules
  import opened Evidence
  import opened Consensus
  import opened ConsensusSafety
  import opened SoloProgress

  // ----- One turn -----

  /** All replies show a first proposal with the key, the reserved priority and the agreed leader. */
  predicate LeaderFirst(replies: seq<RecordReply>, leader: Option<ReplicaId>, key: Key) {
    && key.priority == LEADER_PRIORITY && leader == Some(key.proposer)
    && forall k :: 0 <= k < |replies| ==>
                     replies[k].summary.first.Some? && replies[k].summary.first.value.key == key
  }

  /** A turn at the opening step decides exactly if the leader's proposal came first at all the replying recorders. */
  lemma DecidesFastExactly(slot: Slot, leader: Option<ReplicaId>, p: Proposal, replies: seq<RecordReply>)
    requires replies != [] && AllAtStep(replies, ROUND_ONE_PHASE_ZERO)
    requires forall k :: 0 <= k < |replies| ==>
                           && replies[k].decision.None? && replies[k].summary.first.Some?
                           && replies[k].summary.first.value.values != []
    ensures Advance(slot, leader, ROUND_ONE_PHASE_ZERO, p, replies).Decided?
            <==> exists key :: LeaderFirst(replies, leader, key)
  {
    if key :| LeaderFirst(replies, leader, key) {
      assert replies[0].summary.first.value.key == key;
    }
    if Advance(slot, leader, ROUND_ONE_PHASE_ZERO, p, replies).Decided? {
      assert LeaderFirst(replies, leader, replies[0].summary.first.value.key);
    }
  }

  // ----- One round trip -----

  /** Nobody has collected a quorum, and only the instance's requests have been delivered. */
  predicate IsOpening(i: nat, a: Action) {
    match a
    case Deliver(e, _) => e.instance == i
    case Collect(_, _, _) => false
    case _ => true
  }

  /** Until then the recorders hold nothing but the instance's own proposal, and nothing is decided. */
  ghost predicate Opening(cfg: Config, s: System, i: nat)
    requires i in cfg.instances
  {
    var p := InitialProposal(cfg.instances[i]);
    && s.decided == {}
    && (i in s.proposers ==> s.proposers[i] == Running(ROUND_ONE_PHASE_ZERO, p))
    && OnlyTaken(LedgerOf(s.histories), 0, p) && HighestStep(LedgerOf(s.histories), ROUND_ONE_PHASE_ZERO)
    && forall e :: e in s.requests && e.instance == i ==>
                     e.request.step == ROUND_ONE_PHASE_ZERO && e.request.proposal == p
  }

  lemma OpeningDelivery(cfg: Config, s: System, i: nat, e: Envelope, available: bool)
    requires i in cfg.instances && Safe(cfg, s) && Opening(cfg, s, i)
    requires Enabled(cfg, s, Deliver(e, available)) && e.instance == i
    ensures Opening(cfg, Next(cfg, s, Deliver(e, available)), i)
  {
    if Record(s.recorders[e.to], e.request, available).1.Ok? {
      AcceptedReply(cfg, s, e, available);
      TakenAlone(s.histories, e.to, Call(e.request.step, e.request.proposal), e.request.leader, 0,
                 InitialProposal(cfg.instances[i]), ROUND_ONE_PHASE_ZERO);
    }
  }

  lemma OpeningBegin(cfg: Config, s: System, i: nat, a: Action)
    requires i in cfg.instances && cfg.instances[i].leader == Some(cfg.instances[i].id) && Opening(cfg, s, i)
    requires a.Begin? && Enabled(cfg, s, a)
    ensures Opening(cfg, Next(cfg, s, a), i)
  {
    var s' := Next(cfg, s, a);
    forall e | e in s'.requests && e.instance == i
      ensures e.request.step == ROUND_ONE_PHASE_ZERO && e.request.proposal == InitialProposal(cfg.instances[i])
    {
      assert Phase(ROUND_ONE_PHASE_ZERO) == 0;
    }
  }

  lemma OpeningStep(cfg: Config, s: System, i: nat, a: Action)
    requires i in cfg.instances && cfg.instances[i].leader == Some(cfg.instances[i].id)
    requires Safe(cfg, s) && Opening(cfg, s, i) && IsOpening(i, a) && Enabled(cfg, s, a)
    ensures Opening(cfg, Next(cfg, s, a), i)
  {
    match a
    case Begin(_, _, _) => OpeningBegin(cfg, s, i, a);
    case Deliver(e, available) => OpeningDelivery(cfg, s, i, e, available);
    case Environment(_, _) =>
  }

  lemma {:induction false} RunOpening(cfg: Config, start: System, actions: seq<Action>, i: nat)
    requires ClustersAdjacent(cfg) && Initial(cfg, start) && Run(cfg, start, actions).Some?
    requires i in cfg.instances && cfg.instances[i].leader == Some(cfg.instances[i].id)
    requires forall a :: a in actions ==> IsOpening(i, a)
    ensures Opening(cfg, Run(cfg, start, actions).value, i)
    decreases |actions|
  {
    if actions == [] {
      assert forall q, t :: LedgerOf(start.histories).taken(q, t) == [];
      assert forall q :: LedgerOf(start.histories).top(q) == 0;
    } else {
      var init, last := actions[..|actions| - 1], actions[|actions| - 1];
      assert forall a :: a in init ==> a in actions;
      assert last in actions;
      RunOpening(cfg, start, init, i);
      RunSafe(cfg, start, init);
      OpeningStep(cfg, Run(cfg, start, init).value, i, last);
    }
  }

  /** The reply is at the opening step and shows the proposal as the first there. */
  predicate ShowsFirst(reply: RecordReply, p: Proposal) {
    reply.decision.None? && reply.summary.step == ROUND_ONE_PHASE_ZERO && reply.summary.first == Some(p)
  }

  lemma AnswersFirst(cfg: Config, s: System, i: nat, a: Answer)
    requires i in cfg.instances && Safe(cfg, s) && Opening(cfg, s, i) && a in s.answers
    ensures ShowsFirst(a.reply, InitialProposal(cfg.instances[i]))
  {
    var h, q := LedgerOf(s.histories), a.reply.recorder;
    assert AnswerOk(cfg, h, s, a);
    assert h.top(q) <= ROUND_ONE_PHASE_ZERO;
    assert h.taken(q, ROUND_ONE_PHASE_ZERO)[0] in h.taken(q, ROUND_ONE_PHASE_ZERO);
  }

  lemma FirstEverywhere(slot: Slot, leader: Option<ReplicaId>, p: Proposal, replies: seq<RecordReply>)
    requires replies != [] && p.key.priority == LEADER_PRIORITY && leader == Some(p.key.proposer) && p.values != []
    requires forall k :: 0 <= k < |replies| ==> ShowsFirst(replies[k], p)
    ensures Advance(slot, leader, ROUND_ONE_PHASE_ZERO, p, replies)
            == Decided(Decision(slot, p.values, p.key.proposer, ROUND_ONE_PHASE_ZERO))
  {
    assert ShowsFirst(replies[0], p);
    assert FastPathWinner(ROUND_ONE_PHASE_ZERO, replies, leader) == Some(p);
  }

  /** In such a state every quorum of answers makes the leader decide its own values. */
  lemma OpeningOutcome(cfg: Config, s: System, i: nat, chosen: seq<Answer>)
    requires i in cfg.instances && cfg.instances[i].leader == Some(cfg.instances[i].id) && cfg.instances[i].values != []
    requires WellFormed(cfg.instances[i].cluster) && HasQuorum(cfg.instances[i].cluster, Voters(chosen))
    requires Safe(cfg, s) && Opening(cfg, s, i) && forall k :: 0 <= k < |chosen| ==> chosen[k] in s.answers
    ensures var inst := cfg.instances[i];
            Advance(cfg.slot, inst.leader, ROUND_ONE_PHASE_ZERO, InitialProposal(inst), Replies(chosen))
            == Decided(Decision(cfg.slot, inst.values, inst.id, ROUND_ONE_PHASE_ZERO))
  {
    var p, replies := InitialProposal(cfg.instances[i]), Replies(chosen);
    forall k | 0 <= k < |replies| ensures ShowsFirst(replies[k], p) {
      assert replies[k] == chosen[k].reply;
      AnswersFirst(cfg, s, i, chosen[k]);
    }
    QuorumAnswers(cfg.instances[i].cluster, chosen);
    FirstEverywhere(cfg.slot, cfg.instances[i].leader, p, replies);
  }

  lemma QuorumAnswers(c: Cluster, chosen: seq<Answer>)
    requires WellFormed(c) && HasQuorum(c, Voters(chosen))
    ensures chosen != []
  {
    if chosen == [] {
      QuorumSizeIsLowerBound(c, Voters(chosen));
    }
  }

  /**
   However many proposers have started, if only the leader's requests have been delivered
   before its first quorum, that quorum decides: the leader's own values, in one round trip.
   */
  lemma LeaderDecidesAtOnce(cfg: Config, start: System, actions: seq<Action>, s: System, i: nat, chosen: seq<Answer>,
                            draws: map<ReplicaId, nat>)
    requires ClustersAdjacent(cfg) && Initial(cfg, start) && Run(cfg, start, actions) == Some(s)
    requires i in cfg.instances && cfg.instances[i].leader == Some(cfg.instances[i].id) && cfg.instances[i].values != []
    requires forall a :: a in actions ==> IsOpening(i, a)
    requires Enabled(cfg, s, Collect(i, chosen, draws))
    ensures var inst := cfg.instances[i];
            Next(cfg, s, Collect(i, chosen, draws)).proposers[i]
            == Finished(Decision(cfg.slot, inst.values, inst.id, ROUND_ONE_PHASE_ZERO))
  {
    RunSafe(cfg, start, actions);
    RunOpening(cfg, start, actions, i);
    OpeningOutcome(cfg, s, i, chosen);
  }
}
