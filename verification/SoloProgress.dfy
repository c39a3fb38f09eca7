/**
 Progress without contention: once every other proposer is silent, a proposer that
 keeps reaching quorums decides within the next full round, whatever state the
 others left behind and whichever quorums answer.
 */
module SoloProgress {
  import opened Types
  import opened IntervalRegister
  import opened Membership
  import opened Recorder
  import opened ProposerRules
  import opened Evidence
  import opened Consensus
  import opened ConsensusSafety

  /** Only the proposer's own requests are delivered and only it moves. */
  predicate IsSolo(i: nat, a: Action) {
    match a
    case Deliver(e, _) => e.instance == i
    case Collect(j, _, _) => j == i
    case _ => false
  }

  /** No recorder has gone beyond the step. */
  ghost predicate HighestStep(h: Ledger, m: Step) {
    forall q :: h.top(q) <= m
  }

  /** The step opens a round that no recorder has reached. */
  predicate IsFresh(m: Step, r: Step) {
    r > m && r >= ROUND_ONE_PHASE_ZERO && Phase(r) == 0 && Phase(r + 1) == 1 && Phase(r + 2) == 2
  }

  /** Everything taken beyond the fresh round's opening is the one proposal. */
  ghost predicate OnlyTaken(h: Ledger, r: Step, p: Proposal) {
    forall q, t, x :: t > r && x in h.taken(q, t) ==> x == p
  }

  /** Everything the proposer sent beyond the fresh round's opening is the one proposal. */
  predicate OnlySent(s: System, i: nat, r: Step, p: Proposal) {
    forall e :: e in s.requests && e.instance == i && e.request.step > r ==> e.request.proposal == p
  }

  function Max(a: nat, b: nat): nat {
    if a >= b then a else b
  }

  /** What holds while the proposer runs alone. */
  ghost predicate Alone(s: System, h: Ledger, i: nat, m: Step, r: Step) {
    && IsFresh(m, r)
    && i in s.proposers && !s.proposers[i].Stopped?
    && (s.proposers[i].Running? ==>
          var step, p := s.proposers[i].step, s.proposers[i].proposal;
          && step <= r + 2
          && HighestStep(h, Max(m, step))
          && OnlyTaken(h, r, p)
          && OnlySent(s, i, r, p))
  }

  // ----- The starting point -----

  /** Recorders take nothing beyond the step they are at. */
  ghost predicate WithinTop(h: Ledger) {
    forall q: ReplicaId, t: Step :: h.taken(q, t) != [] ==> t <= h.top(q)
  }

  /** A justified step is at most one ahead of some recorder. */
  lemma JustifiedWithinReach(w: World, h: Ledger, leader: Option<ReplicaId>, step: Step, p: Proposal, m: Step)
    requires Intersecting(w) && Justified(w, h, leader, step, p) && HighestStep(h, m)
    requires WithinTop(h)
    ensures step == ROUND_ONE_PHASE_ZERO || step <= m + 1
  {
    if step == ROUND_ONE_PHASE_ZERO {
    } else if Phase(step) == 0 {
      var voters, best :| voters in w.quorums && Gathered(h, voters, leader, step - 2, best) && SameChoice(best, p);
      var q := Meet(w, voters, voters);
      assert h.top(q) > step - 2;
    } else {
      var q := SpreadOrHeldFrom(w, h, step - 1, leader, p);
      assert h.taken(q, step - 1) != [];
    }
  }

  lemma TakenWithinTop(hs: map<ReplicaId, History>)
    ensures WithinTop(LedgerOf(hs))
  {
    forall q: ReplicaId, t: Step | LedgerOf(hs).taken(q, t) != [] ensures t <= LedgerOf(hs).top(q) {
      var p := LedgerOf(hs).taken(q, t)[0];
      TakenAreCalls(hs[q].calls, t, p);
    }
  }

  lemma StartsAlone(cfg: Config, s: System, i: nat, m: Step, r: Step)
    requires ClustersAdjacent(cfg) && Safe(cfg, s)
    requires i in s.proposers && s.proposers[i].Running?
    requires HighestStep(LedgerOf(s.histories), m) && IsFresh(m, r)
    ensures Alone(s, LedgerOf(s.histories), i, m, r)
    ensures s.proposers[i].step <= r
  {
    var w, h := WorldOf(cfg), LedgerOf(s.histories);
    var step, p := s.proposers[i].step, s.proposers[i].proposal;
    var inst := cfg.instances[i];
    ConfigQuorumsMeet(cfg);
    TakenWithinTop(s.histories);
    assert ProposerOk(cfg, w, h, s, i);
    assert Justified(w, h, inst.leader, step, ProposalToSend(inst.id, inst.leader, step, p, 1));
    JustifiedWithinReach(w, h, inst.leader, step, ProposalToSend(inst.id, inst.leader, step, p, 1), m);
    forall q: ReplicaId, t: Step | t > m ensures h.taken(q, t) == [] {
      assert h.top(q) <= m;
    }
    forall e | e in s.requests && e.instance == i ensures e.request.step <= step {
      assert RequestOk(cfg, w, h, s, e);
    }
  }

  // ----- A request of the lone proposer is delivered -----

  lemma DeliveredAlone(cfg: Config, s: System, i: nat, m: Step, r: Step, e: Envelope, available: bool)
    requires Safe(cfg, s) && Enabled(cfg, s, Deliver(e, available)) && e.instance == i
    requires Alone(s, LedgerOf(s.histories), i, m, r)
    ensures var s' := Next(cfg, s, Deliver(e, available));
            Alone(s', LedgerOf(s'.histories), i, m, r) && s'.proposers == s.proposers
  {
    var s' := Next(cfg, s, Deliver(e, available));
    if Record(s.recorders[e.to], e.request, available).1.Ok? && s.proposers[i].Running? {
      AcceptedReply(cfg, s, e, available);
      var c := Call(e.request.step, e.request.proposal);
      assert RequestOk(cfg, WorldOf(cfg), LedgerOf(s.histories), s, e);
      TakenAlone(s.histories, e.to, c, e.request.leader, r, s.proposers[i].proposal, Max(m, s.proposers[i].step));
    }
  }

  lemma TakenAlone(hs: map<ReplicaId, History>, q: ReplicaId, c: Call, leader: Option<ReplicaId>, r: Step, p: Proposal,
                   top: Step)
    requires q in hs && (c.step > r ==> c.proposal == p) && c.step <= top
    requires OnlyTaken(LedgerOf(hs), r, p) && HighestStep(LedgerOf(hs), top)
    ensures OnlyTaken(LedgerOf(hs[q := History(hs[q].calls + [c], leader)]), r, p)
    ensures HighestStep(LedgerOf(hs[q := History(hs[q].calls + [c], leader)]), top)
  {
    var h, h' := LedgerOf(hs), LedgerOf(hs[q := History(hs[q].calls + [c], leader)]);
    forall q', t, x | t > r && x in h'.taken(q', t) ensures x == p {
      AfterCall(hs[q].calls, c, t);
      assert x in h.taken(q', t) || (q' == q && c == Call(t, x));
    }
    forall q' ensures h'.top(q') <= top {
      AfterCall(hs[q].calls, c, 0);
      assert h.top(q') <= top;
    }
  }

  // ----- The lone proposer collects a quorum -----

  /** In the fresh round nothing is ahead of the lone proposer. */
  lemma NobodyAhead(h: Ledger, leader: Option<ReplicaId>, step: Step, p: Proposal, chosen: seq<Answer>, m: Step)
    requires AnswersShow(h, leader, step, p, chosen) && HighestStep(h, Max(m, step)) && step > m
    ensures AllAtStep(Replies(chosen), step)
  {
    forall k | 0 <= k < |Replies(chosen)| ensures Replies(chosen)[k].summary.step == step {
      assert Replies(chosen)[k] == chosen[k].reply;
      assert h.top(chosen[k].reply.recorder) <= step;
    }
  }

  /** At phase two of the fresh round every prior aggregate is the proposer's own proposal. */
  lemma PriorsAreOwn(h: Ledger, leader: Option<ReplicaId>, step: Step, p: Proposal, chosen: seq<Answer>, r: Step)
    requires AnswersShow(h, leader, step, p, chosen) && AllAtStep(Replies(chosen), step)
    requires OnlyTaken(h, r, p) && step == r + 2
    ensures forall x :: x in Priors(Replies(chosen)) ==> x == p
  {
    var replies := Replies(chosen);
    PriorsReported(replies);
    forall x | x in Priors(replies) ensures x == p {
      var k :| 0 <= k < |replies| && replies[k].summary.priorAggregate == Some(x);
      AnswerPrior(h, leader, step, p, chosen, k);
      assert x in h.taken(chosen[k].reply.recorder, r + 1);
    }
  }

  /** In phases two and three some reply always reports what the phase before left. */
  lemma SomePrior(w: World, h: Ledger, leader: Option<ReplicaId>, step: Step, p: Proposal, chosen: seq<Answer>)
    requires Intersecting(w)
    requires AnswersShow(h, leader, step, p, chosen) && Voters(chosen) in w.quorums
    requires AllAtStep(Replies(chosen), step) && Phase(step) == 2 && step > ROUND_ONE_PHASE_ZERO
    requires Justified(w, h, leader, step, p)
    ensures MaxProposalByKey(Priors(Replies(chosen))).Some?
  {
    assert IsHeld(w, h, leader, step - 1, p);
    var x :| x in w.quorums && Held(h, x, leader, step - 1, p);
    var q := Meet(w, x, Voters(chosen));
    var k := VoterAnswer(chosen, q);
    AnswerPrior(h, leader, step, p, chosen, k);
    assert p in h.taken(q, step - 1);
    PriorsReported(Replies(chosen));
    assert Replies(chosen)[k].summary.priorAggregate.Some?;
  }

  lemma OnlyMaximum(ps: seq<Proposal>, p: Proposal)
    requires ps != [] && forall x :: x in ps ==> x == p
    ensures MaxProposalByKey(ps) == Some(p)
  {
  }

  /** Phase two of the fresh round always decides. */
  lemma FreshRoundDecides(w: World, h: Ledger, leader: Option<ReplicaId>, slot: Slot, r: Step, p: Proposal,
                          chosen: seq<Answer>, m: Step)
    requires Intersecting(w) && IsFresh(m, r)
    requires AnswersShow(h, leader, r + 2, p, chosen) && Voters(chosen) in w.quorums
    requires HighestStep(h, Max(m, r + 2)) && OnlyTaken(h, r, p)
    requires Justified(w, h, leader, r + 2, p)
    ensures !Advance(slot, leader, r + 2, p, Replies(chosen)).Continue?
  {
    NobodyAhead(h, leader, r + 2, p, chosen, m);
    SomePrior(w, h, leader, r + 2, p, chosen);
    PriorsAreOwn(h, leader, r + 2, p, chosen, r);
    OnlyMaximum(Priors(Replies(chosen)), p);
    PhaseTwoStops(slot, leader, r + 2, p, Replies(chosen));
  }

  lemma PhaseTwoStops(slot: Slot, leader: Option<ReplicaId>, step: Step, p: Proposal, replies: seq<RecordReply>)
    requires AllAtStep(replies, step) && Phase(step) == 2 && MaxProposalByKey(Priors(replies)) == Some(p)
    ensures !Advance(slot, leader, step, p, replies).Continue?
  {
  }

  lemma HighestWithin(h: Ledger, leader: Option<ReplicaId>, step: Step, p: Proposal, chosen: seq<Answer>, top: Step)
    requires AnswersShow(h, leader, step, p, chosen) && HighestStep(h, top) && chosen != []
    ensures Highest(Replies(chosen)).summary.step <= top
  {
    var replies := Replies(chosen);
    var k :| 0 <= k < |replies| && replies[k] == Highest(replies);
    assert replies[k] == chosen[k].reply;
    assert h.top(chosen[k].reply.recorder) <= top;
  }

  /** An iteration that goes on either takes the next step or follows the highest reply. */
  lemma ContinueShape(slot: Slot, leader: Option<ReplicaId>, step: Step, p: Proposal, replies: seq<RecordReply>)
    ensures var o := Advance(slot, leader, step, p, replies);
            o.Continue? ==>
              || (o.step == step + 1 && (1 <= Phase(step) <= 2 ==> o.proposal == p))
              || o.step == step
              || (replies != [] && o.step == Highest(replies).summary.step)
  {
  }

  /** Where an iteration before that can lead. */
  lemma ContinuesBelow(h: Ledger, leader: Option<ReplicaId>, slot: Slot, step: Step, p: Proposal, chosen: seq<Answer>,
                       m: Step, r: Step)
    requires AnswersShow(h, leader, step, p, chosen)
    requires HighestStep(h, Max(m, step)) && step < r + 2 && m < r && (step == r + 1 ==> Phase(step) == 1)
    ensures var o := Advance(slot, leader, step, p, Replies(chosen));
            o.Continue? && o.step > step ==>
              && o.step <= r + 2
              && (o.step > r ==> o.step == step + 1)
              && (o.step > r + 1 ==> o.proposal == p)
  {
    ContinueShape(slot, leader, step, p, Replies(chosen));
    if chosen != [] {
      HighestWithin(h, leader, step, p, chosen, Max(m, step));
    }
  }

  lemma MovedAlone(cfg: Config, w: World, h: Ledger, s: System, i: nat, o: Outcome, draws: map<ReplicaId, nat>,
                   m: Step, r: Step)
    requires Inv(cfg, w, h, s) && i in cfg.instances && ValidDraws(cfg.instances[i], draws)
    requires Alone(s, h, i, m, r) && s.proposers[i].Running?
    requires WithinTop(h)
    requires !o.Failed?
    requires o.Continue? ==>
               && s.proposers[i].step < o.step <= r + 2
               && (o.step > r ==> o.step == s.proposers[i].step + 1)
               && (o.step > r + 1 ==> o.proposal == s.proposers[i].proposal)
    ensures Alone(Moved(cfg, s, i, o, draws), h, i, m, r)
  {
    var s' := Moved(cfg, s, i, o, draws);
    if o.Continue? {
      var r, step, p := r, s.proposers[i].step, s.proposers[i].proposal;
      forall q ensures h.top(q) <= Max(m, o.step) {
        assert h.top(q) <= Max(m, step);
      }
      forall q, t, x | t > r && x in h.taken(q, t) ensures x == o.proposal {
        assert h.taken(q, t) != [] && h.top(q) <= Max(m, step);
      }
      forall e | e in s'.requests && e.instance == i && e.request.step > r ensures e.request.proposal == o.proposal {
        if e in s.requests {
          assert RequestOk(cfg, w, h, s, e);
        } else {
          assert e.request.step == o.step;
        }
      }
    }
  }

  /** Where an iteration of the lone proposer leads. */
  lemma AdvanceAlone(w: World, h: Ledger, inst: Instance, slot: Slot, step: Step, p: Proposal, chosen: seq<Answer>,
                     m: Step, r: Step)
    requires Intersecting(w) && step <= r + 2 && IsFresh(m, r)
    requires AnswersShow(h, inst.leader, step, p, chosen) && Voters(chosen) in w.quorums
    requires HighestStep(h, Max(m, step)) && OnlyTaken(h, r, p)
    requires MaySend(w, h, inst, step, p)
    ensures var o := Advance(slot, inst.leader, step, p, Replies(chosen));
            o.Continue? && o.step > step ==>
              && o.step <= r + 2
              && (o.step > r ==> o.step == step + 1)
              && (o.step > r + 1 ==> o.proposal == p)
  {
    if step == r + 2 {
      HoldsJustified(w, h, inst, step, p);
      FreshRoundDecides(w, h, inst.leader, slot, r, p, chosen, m);
    } else {
      ContinuesBelow(h, inst.leader, slot, step, p, chosen, m, r);
    }
  }

  /** Each iteration of the lone proposer raises the step or finishes. */
  lemma CollectedAlone(cfg: Config, s: System, i: nat, m: Step, r: Step, chosen: seq<Answer>,
                       draws: map<ReplicaId, nat>)
    requires ClustersAdjacent(cfg)
    requires Safe(cfg, s) && Enabled(cfg, s, Collect(i, chosen, draws))
    requires Alone(s, LedgerOf(s.histories), i, m, r)
    ensures var s' := Next(cfg, s, Collect(i, chosen, draws));
            && Alone(s', LedgerOf(s'.histories), i, m, r)
            && (s'.proposers[i].Running? ==> s'.proposers[i].step > s.proposers[i].step)
  {
    ConfigQuorumsMeet(cfg);
    assert IsQuorum(cfg, Voters(chosen));
    TakenWithinTop(s.histories);
    IterationAlone(cfg, WorldOf(cfg), LedgerOf(s.histories), s, i, m, r, chosen, draws);
  }

  lemma IterationAlone(cfg: Config, w: World, h: Ledger, s: System, i: nat, m: Step, r: Step, chosen: seq<Answer>,
                       draws: map<ReplicaId, nat>)
    requires Inv(cfg, w, h, s) && Intersecting(w) && WithinTop(h) && Voters(chosen) in w.quorums
    requires Enabled(cfg, s, Collect(i, chosen, draws)) && Alone(s, h, i, m, r)
    ensures var s' := Next(cfg, s, Collect(i, chosen, draws));
            && s'.histories == s.histories
            && Alone(s', h, i, m, r)
            && (s'.proposers[i].Running? ==> s'.proposers[i].step > s.proposers[i].step)
  {
    var inst, step, p := cfg.instances[i], s.proposers[i].step, s.proposers[i].proposal;
    var o := Advance(cfg.slot, inst.leader, step, p, Replies(chosen));
    AdvanceOk(cfg, w, h, s, i, chosen);
    QuorumShows(cfg, w, h, s, i, chosen);
    assert ProposerOk(cfg, w, h, s, i);
    AdvanceAlone(w, h, inst, cfg.slot, step, p, chosen, m, r);
    MovedAlone(cfg, w, h, s, i, o, draws, m, r);
  }

  // ----- Runs -----

  /** How many quorums the proposer collects in a run. */
  function Collections(actions: seq<Action>): nat {
    if actions == [] then 0
    else Collections(actions[..|actions| - 1]) + if actions[|actions| - 1].Collect? then 1 else 0
  }

  /** What the run so far has brought. */
  ghost predicate SoloState(cfg: Config, i: nat, m: Step, r: Step, floor: Step, s: System) {
    && Safe(cfg, s) && Alone(s, LedgerOf(s.histories), i, m, r)
    && (s.proposers[i].Running? ==> s.proposers[i].step >= floor)
  }

  lemma SoloStep(cfg: Config, s: System, i: nat, m: Step, r: Step, floor: Step, a: Action)
    requires ClustersAdjacent(cfg) && SoloState(cfg, i, m, r, floor, s)
    requires IsSolo(i, a) && Enabled(cfg, s, a)
    ensures SoloState(cfg, i, m, r, floor + if a.Collect? then 1 else 0, Next(cfg, s, a))
  {
    match a
    case Deliver(e, available) => SoloDelivery(cfg, s, i, m, r, floor, e, available);
    case Collect(j, chosen, draws) => SoloCollection(cfg, s, i, m, r, floor, chosen, draws);
  }

  lemma SoloDelivery(cfg: Config, s: System, i: nat, m: Step, r: Step, floor: Step, e: Envelope, available: bool)
    requires ClustersAdjacent(cfg) && SoloState(cfg, i, m, r, floor, s)
    requires e.instance == i && Enabled(cfg, s, Deliver(e, available))
    ensures SoloState(cfg, i, m, r, floor, Next(cfg, s, Deliver(e, available)))
  {
    DeliverKeeps(cfg, s, e, available);
    DeliveredAlone(cfg, s, i, m, r, e, available);
  }

  lemma SoloCollection(cfg: Config, s: System, i: nat, m: Step, r: Step, floor: Step, chosen: seq<Answer>,
                       draws: map<ReplicaId, nat>)
    requires ClustersAdjacent(cfg) && SoloState(cfg, i, m, r, floor, s)
    requires Enabled(cfg, s, Collect(i, chosen, draws))
    ensures SoloState(cfg, i, m, r, floor + 1, Next(cfg, s, Collect(i, chosen, draws)))
  {
    CollectKeeps(cfg, s, i, chosen, draws);
    CollectedAlone(cfg, s, i, m, r, chosen, draws);
  }

  lemma {:induction false} SoloRun(cfg: Config, s: System, i: nat, m: Step, r: Step, floor: Step, actions: seq<Action>)
    requires ClustersAdjacent(cfg) && SoloState(cfg, i, m, r, floor, s)
    requires forall a :: a in actions ==> IsSolo(i, a)
    requires Run(cfg, s, actions).Some?
    ensures SoloState(cfg, i, m, r, floor + Collections(actions), Run(cfg, s, actions).value)
    decreases |actions|
  {
    if actions != [] {
      var init, last := actions[..|actions| - 1], actions[|actions| - 1];
      assert forall a :: a in init ==> a in actions;
      assert last in actions;
      SoloRun(cfg, s, i, m, r, floor, init);
      SoloStep(cfg, Run(cfg, s, init).value, i, m, r, floor + Collections(init), last);
    }
  }

  lemma FreshRound(m: Step)
    ensures IsFresh(m, 4 * (m / 4 + 1))
  {
  }

  lemma SoloDecidesBy(cfg: Config, s: System, i: nat, m: Step, r: Step, actions: seq<Action>)
    requires ClustersAdjacent(cfg) && Safe(cfg, s) && IsFresh(m, r)
    requires i in s.proposers && s.proposers[i].Running?
    requires HighestStep(LedgerOf(s.histories), m)
    requires forall a :: a in actions ==> IsSolo(i, a)
    requires Run(cfg, s, actions).Some?
    ensures var st := Run(cfg, s, actions).value.proposers;
            && i in st
            && (st[i].Running? ==> s.proposers[i].step + Collections(actions) <= st[i].step <= r + 2)
            && !st[i].Stopped?
  {
    StartsAlone(cfg, s, i, m, r);
    SoloRun(cfg, s, i, m, r, s.proposers[i].step, actions);
  }

  /**
   From any reachable state whose highest recorder step is m, a proposer running alone
   never goes beyond step 4 * (m / 4 + 1) + 2, and has decided once it has collected
   more quorums than there are steps left up to there.
   */
  lemma SoloDecides(cfg: Config, s: System, i: nat, m: Step, actions: seq<Action>)
    requires ClustersAdjacent(cfg) && Reachable(cfg, s)
    requires i in s.proposers && s.proposers[i].Running?
    requires HighestStep(LedgerOf(s.histories), m)
    requires forall a :: a in actions ==> IsSolo(i, a)
    requires Run(cfg, s, actions).Some?
    ensures var st := Run(cfg, s, actions).value.proposers;
            && i in st
            && (st[i].Running? ==> st[i].step <= 4 * (m / 4 + 1) + 2)
            && (s.proposers[i].step + Collections(actions) > 4 * (m / 4 + 1) + 2 ==> st[i].Finished?)
  {
    FreshRound(m);
    ReachableSafe(cfg, s);
    SoloDecidesBy(cfg, s, i, m, 4 * (m / 4 + 1), actions);
  }
}
