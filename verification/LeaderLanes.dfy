/**
 When agreement needs the leader to propose one value list: always, as soon as some
 quorum can do without one of the members. Two lanes of one leader share the reserved
 priority, and with different values they drive a run to two decisions. If every quorum
 is the whole cluster, agreement holds whatever the lanes propose. Together with the
 agreement theorem this makes the condition on leaders exact.
 */
module LeaderLanes {
  import opened Types
  import opened IntervalRegister
  import opened Membership
  import opened Recorder
  import opened ProposerRules
  import opened Evidence
  import opened Consensus
  import opened ConsensusSafety

  /** A fixed cluster of fresh recorders with the given limits. */
  function StartState(c: Cluster, limits: Limits): System {
    System(map q | q in c.members :: NewRecorder(q, limits, c),
           map q | q in c.members :: History([], None),
           map[], {}, {}, {})
  }

  /** The input passes the recorders' own checks. */
  predicate Acceptable(c: Cluster, limits: Limits, inst: Instance) {
    && inst.cluster == c && Contains(c, inst.id)
    && (inst.leader.Some? ==> Contains(c, inst.leader.value))
    && inst.values != [] && Distinct(inst.values) && |inst.values| <= limits.maxValues
  }

  /** One cluster, stable or joint, and limits with room for the first round. */
  predicate Setting(cfg: Config, c: Cluster, limits: Limits) {
    && WellFormed(c)
    && cfg.slot >= 1
    && limits.maxStep >= ROUND_ONE_PHASE_ZERO + 2 && limits.maxActiveSlots >= 1
    && forall i :: i in cfg.instances ==> Acceptable(c, limits, cfg.instances[i])
  }

  /** Some run leads from one state to the other. */
  ghost predicate From(cfg: Config, start: System, s: System) {
    exists actions :: Run(cfg, start, actions) == Some(s)
  }

  predicate Agrees(s: System) {
    forall d, d' :: d in s.decided && d' in s.decided ==> d.values == d'.values && d.proposer == d'.proposer
  }

  lemma FromStart(cfg: Config, start: System)
    ensures From(cfg, start, start)
  {
    assert Run(cfg, start, []) == Some(start);
  }

  lemma FromNext(cfg: Config, s: System, a: Action)
    requires Enabled(cfg, s, a)
    ensures From(cfg, s, Next(cfg, s, a))
  {
    assert [a][..0] == [] && Run(cfg, s, []) == Some(s);
    assert Run(cfg, s, [a]) == Some(Next(cfg, s, a));
  }

  lemma {:induction false} RunOn(cfg: Config, start: System, s: System, actions: seq<Action>, more: seq<Action>)
    requires Run(cfg, start, actions) == Some(s)
    ensures Run(cfg, start, actions + more) == Run(cfg, s, more)
    decreases |more|
  {
    if more == [] {
      assert actions + more == actions;
    } else {
      var init := more[..|more| - 1];
      assert (actions + more)[..|actions + more| - 1] == actions + init;
      RunOn(cfg, start, s, actions, init);
    }
  }

  lemma FromFrom(cfg: Config, a: System, b: System, c: System)
    requires From(cfg, a, b) && From(cfg, b, c)
    ensures From(cfg, a, c)
  {
    var actions :| Run(cfg, a, actions) == Some(b);
    var more :| Run(cfg, b, more) == Some(c);
    RunOn(cfg, a, b, actions, more);
  }

  // ----- Recorders that have only worked on this slot -----

  type Registers = map<ReplicaId, Option<Register>>

  function RegisterAt(r: Option<Register>): Register {
    if r.Some? then r.value else EMPTY_REGISTER
  }

  function RecorderAt(cfg: Config, c: Cluster, limits: Limits, leader: ReplicaId, q: ReplicaId, r: Option<Register>)
    : RecorderState
  {
    if r.None? then NewRecorder(q, limits, c)
    else RecorderState(q, limits, c, map[cfg.slot := r.value], map[cfg.slot := Some(leader)], map[], 0)
  }

  function ReplyAt(c: Cluster, q: ReplicaId, r: Option<Register>): RecordReply {
    RecordReply(q, c, Summarize(RegisterAt(r)), None)
  }

  ghost predicate RecordersAt(cfg: Config, c: Cluster, limits: Limits, leader: ReplicaId, regs: Registers, s: System) {
    && s.recorders.Keys == regs.Keys && s.histories.Keys == regs.Keys && regs.Keys == Elements(c.members)
    && forall q :: q in regs ==> s.recorders[q] == RecorderAt(cfg, c, limits, leader, q, regs[q])
  }

  function UpdatedBy(regs: Registers, voters: set<ReplicaId>, call: Call): Registers {
    map q | q in regs :: if q in voters then Some(Recorded(RegisterAt(regs[q]), call)) else regs[q]
  }

  /** The request a leader instance sends at the step: in round one it never redraws its priority before step 8. */
  function LeaderRequest(cfg: Config, inst: Instance, step: Step, p: Proposal): RecordRequest {
    RecordRequest(inst.id, cfg.slot, inst.leader, step, p, [])
  }

  ghost predicate Sent(cfg: Config, c: Cluster, i: nat, step: Step, p: Proposal, s: System)
    requires i in cfg.instances
  {
    forall q :: q in c.members ==> Envelope(i, q, LeaderRequest(cfg, cfg.instances[i], step, p)) in s.requests
  }

  predicate LeaderInstance(cfg: Config, leader: ReplicaId, i: nat) {
    i in cfg.instances && cfg.instances[i].id == leader && cfg.instances[i].leader == Some(leader)
  }

  lemma RecordOnSlot(cfg: Config, c: Cluster, limits: Limits, leader: ReplicaId, i: nat, step: Step, q: ReplicaId,
                     r: Option<Register>)
    requires Setting(cfg, c, limits) && LeaderInstance(cfg, leader, i)
    requires ROUND_ONE_PHASE_ZERO <= step <= ROUND_ONE_PHASE_ZERO + 2
    ensures var p := InitialProposal(cfg.instances[i]);
            var r' := Some(Recorded(RegisterAt(r), Call(step, p)));
            Record(RecorderAt(cfg, c, limits, leader, q, r), LeaderRequest(cfg, cfg.instances[i], step, p), true)
            == (RecorderAt(cfg, c, limits, leader, q, r'), Ok(ReplyAt(c, q, r')))
  {
    var inst := cfg.instances[i];
    assert Acceptable(c, limits, inst);
    var st := RecorderAt(cfg, c, limits, leader, q, r);
    var req := LeaderRequest(cfg, inst, step, InitialProposal(inst));
    var next := Recorded(RegisterAt(r), Call(step, InitialProposal(inst)));
    assert RequestError(st, req).None?;
    assert InformAll(st, []) == (st, Ok(()));
    assert r.None? ==> |st.slots| == 0;
    assert Record(st, req, true) == RecordAccepted(st, req);
    assert st.slots[cfg.slot := next] == map[cfg.slot := next];
    assert r.None? ==> st.leaders[cfg.slot := Some(leader)] == map[cfg.slot := Some(leader)];
  }

  /** What delivering the request of an iteration to a set of recorders leaves behind. */
  ghost predicate DeliveredTo(cfg: Config, c: Cluster, limits: Limits, leader: ReplicaId, regs: Registers,
                              s: System, i: nat, step: Step, voters: set<ReplicaId>, s': System)
    requires i in cfg.instances && voters <= regs.Keys
  {
    var p := InitialProposal(cfg.instances[i]);
    var regs' := UpdatedBy(regs, voters, Call(step, p));
    && RecordersAt(cfg, c, limits, leader, regs', s')
    && s'.proposers == s.proposers && s'.requests == s.requests && s'.decided == s.decided
    && s.answers <= s'.answers
    && forall q :: q in voters ==>
         Answer(i, LeaderRequest(cfg, cfg.instances[i], step, p), ReplyAt(c, q, regs'[q])) in s'.answers
  }

  lemma {:induction false} DeliverTo(cfg: Config, c: Cluster, limits: Limits, leader: ReplicaId,
                                     regs: Registers, s: System, i: nat, step: Step, voters: set<ReplicaId>)
    returns (s': System)
    requires Setting(cfg, c, limits) && LeaderInstance(cfg, leader, i)
    requires ROUND_ONE_PHASE_ZERO <= step <= ROUND_ONE_PHASE_ZERO + 2
    requires RecordersAt(cfg, c, limits, leader, regs, s)
    requires Sent(cfg, c, i, step, InitialProposal(cfg.instances[i]), s)
    requires voters <= regs.Keys
    ensures From(cfg, s, s') && DeliveredTo(cfg, c, limits, leader, regs, s, i, step, voters, s')
    decreases voters
  {
    if voters == {} {
      s' := s;
      FromStart(cfg, s);
      DeliverNone(cfg, c, limits, leader, regs, s, i, step);
    } else {
      var q :| q in voters;
      var mid := DeliverTo(cfg, c, limits, leader, regs, s, i, step, voters - {q});
      s' := DeliverMore(cfg, c, limits, leader, regs, s, mid, i, step, voters, q);
    }
  }

  lemma DeliverNone(cfg: Config, c: Cluster, limits: Limits, leader: ReplicaId, regs: Registers, s: System, i: nat,
                    step: Step)
    requires i in cfg.instances && RecordersAt(cfg, c, limits, leader, regs, s)
    ensures DeliveredTo(cfg, c, limits, leader, regs, s, i, step, {}, s)
  {
    assert UpdatedBy(regs, {}, Call(step, InitialProposal(cfg.instances[i]))) == regs;
  }

  lemma DeliverMore(cfg: Config, c: Cluster, limits: Limits, leader: ReplicaId, regs: Registers,
                    s: System, mid: System, i: nat, step: Step, voters: set<ReplicaId>, q: ReplicaId)
    returns (s': System)
    requires Setting(cfg, c, limits) && LeaderInstance(cfg, leader, i)
    requires ROUND_ONE_PHASE_ZERO <= step <= ROUND_ONE_PHASE_ZERO + 2
    requires Sent(cfg, c, i, step, InitialProposal(cfg.instances[i]), s)
    requires voters <= regs.Keys && q in voters
    requires From(cfg, s, mid) && DeliveredTo(cfg, c, limits, leader, regs, s, i, step, voters - {q}, mid)
    ensures From(cfg, s, s') && DeliveredTo(cfg, c, limits, leader, regs, s, i, step, voters, s')
  {
    var p := InitialProposal(cfg.instances[i]);
    var a := Deliver(Envelope(i, q, LeaderRequest(cfg, cfg.instances[i], step, p)), true);
    DeliverOne(cfg, c, limits, leader, UpdatedBy(regs, voters - {q}, Call(step, p)), mid, i, step, q);
    s' := Next(cfg, mid, a);
    FromNext(cfg, mid, a);
    FromFrom(cfg, s, mid, s');
    OneMore(cfg, c, limits, leader, regs, s, mid, i, step, voters, q, s');
  }

  lemma OneMore(cfg: Config, c: Cluster, limits: Limits, leader: ReplicaId, regs: Registers,
                s: System, mid: System, i: nat, step: Step, voters: set<ReplicaId>, q: ReplicaId, s': System)
    requires i in cfg.instances && voters <= regs.Keys && q in voters
    requires DeliveredTo(cfg, c, limits, leader, regs, s, i, step, voters - {q}, mid)
    requires var call := Call(step, InitialProposal(cfg.instances[i]));
             DeliveredTo(cfg, c, limits, leader, UpdatedBy(regs, voters - {q}, call), mid, i, step, {q}, s')
    ensures DeliveredTo(cfg, c, limits, leader, regs, s, i, step, voters, s')
  {
    var call := Call(step, InitialProposal(cfg.instances[i]));
    assert UpdatedBy(UpdatedBy(regs, voters - {q}, call), {q}, call) == UpdatedBy(regs, voters, call);
  }

  lemma DeliverOne(cfg: Config, c: Cluster, limits: Limits, leader: ReplicaId,
                   regs: Registers, s: System, i: nat, step: Step, q: ReplicaId)
    requires Setting(cfg, c, limits) && LeaderInstance(cfg, leader, i)
    requires ROUND_ONE_PHASE_ZERO <= step <= ROUND_ONE_PHASE_ZERO + 2
    requires RecordersAt(cfg, c, limits, leader, regs, s)
    requires Sent(cfg, c, i, step, InitialProposal(cfg.instances[i]), s)
    requires q in regs
    ensures var p := InitialProposal(cfg.instances[i]);
            var a := Deliver(Envelope(i, q, LeaderRequest(cfg, cfg.instances[i], step, p)), true);
            && Enabled(cfg, s, a)
            && DeliveredTo(cfg, c, limits, leader, regs, s, i, step, {q}, Next(cfg, s, a))
  {
    var p := InitialProposal(cfg.instances[i]);
    var e := Envelope(i, q, LeaderRequest(cfg, cfg.instances[i], step, p));
    assert q in c.members;
    RecordOnSlot(cfg, c, limits, leader, i, step, q, regs[q]);
    var r := Some(Recorded(RegisterAt(regs[q]), Call(step, p)));
    assert Enabled(cfg, s, Deliver(e, true));
    DeliveryEffect(s, e, RecorderAt(cfg, c, limits, leader, q, r), ReplyAt(c, q, r));
    DeliveredShape(cfg, c, limits, leader, regs, s, i, step, q, Delivered(s, e, true));
  }

  lemma DeliveryEffect(s: System, e: Envelope, st: RecorderState, reply: RecordReply)
    requires e.to in s.recorders && e.to in s.histories
    requires Record(s.recorders[e.to], e.request, true) == (st, Ok(reply))
    ensures var s' := Delivered(s, e, true);
            && s' == s.(recorders := s.recorders[e.to := st], histories := s'.histories,
                        answers := s.answers + {Answer(e.instance, e.request, reply)})
            && s'.histories.Keys == s.histories.Keys
  {
  }

  lemma DeliveredShape(cfg: Config, c: Cluster, limits: Limits, leader: ReplicaId,
                       regs: Registers, s: System, i: nat, step: Step, q: ReplicaId, s': System)
    requires i in cfg.instances && q in regs && RecordersAt(cfg, c, limits, leader, regs, s)
    requires var p := InitialProposal(cfg.instances[i]);
             var r := Some(Recorded(RegisterAt(regs[q]), Call(step, p)));
             var answer := Answer(i, LeaderRequest(cfg, cfg.instances[i], step, p), ReplyAt(c, q, r));
             && s' == s.(recorders := s.recorders[q := RecorderAt(cfg, c, limits, leader, q, r)],
                         histories := s'.histories, answers := s.answers + {answer})
             && s'.histories.Keys == s.histories.Keys
    ensures DeliveredTo(cfg, c, limits, leader, regs, s, i, step, {q}, s')
  {
  }

  // ----- Collecting from a chosen quorum -----

  function Chosen(cfg: Config, c: Cluster, i: nat, step: Step, p: Proposal, voters: seq<ReplicaId>,
                  regs: Registers): seq<Answer>
    requires i in cfg.instances && forall q :: q in voters ==> q in regs
  {
    seq(|voters|, k requires 0 <= k < |voters| =>
      assert voters[k] in voters;
      Answer(i, LeaderRequest(cfg, cfg.instances[i], step, p), ReplyAt(c, voters[k], regs[voters[k]])))
  }

  function RepliesOf(c: Cluster, voters: seq<ReplicaId>, regs: Registers): seq<RecordReply>
    requires forall q :: q in voters ==> q in regs
  {
    seq(|voters|, k requires 0 <= k < |voters| =>
      assert voters[k] in voters;
      ReplyAt(c, voters[k], regs[voters[k]]))
  }

  function OneForAll(c: Cluster): map<ReplicaId, nat> {
    map q | q in c.members :: 1
  }

  lemma CollectFrom(cfg: Config, c: Cluster, limits: Limits, leader: ReplicaId,
                    regs: Registers, s: System, i: nat, step: Step, p: Proposal, voters: set<ReplicaId>, o: Outcome)
    returns (s': System)
    requires Setting(cfg, c, limits) && LeaderInstance(cfg, leader, i)
    requires voters <= regs.Keys
    requires i in s.proposers && s.proposers[i] == Running(step, p)
    requires HasQuorum(c, voters)
    requires forall q :: q in voters ==>
               Answer(i, LeaderRequest(cfg, cfg.instances[i], step, p), ReplyAt(c, q, regs[q])) in s.answers
    requires Advance(cfg.slot, Some(leader), step, p, RepliesOf(c, Ascending(voters), regs)) == o
    ensures From(cfg, s, s') && ValidDraws(cfg.instances[i], OneForAll(c)) && s' == Moved(cfg, s, i, o, OneForAll(c))
  {
    var order := Ascending(voters);
    var chosen := Chosen(cfg, c, i, step, p, order, regs);
    assert Acceptable(c, limits, cfg.instances[i]);
    ChosenIsQuorum(cfg, c, regs, s, i, step, p, voters);
    var a := Collect(i, chosen, OneForAll(c));
    FromNext(cfg, s, a);
    s' := Next(cfg, s, a);
  }

  lemma ChosenVoters(cfg: Config, c: Cluster, regs: Registers, i: nat, step: Step, p: Proposal, order: seq<ReplicaId>)
    requires i in cfg.instances && forall q :: q in order ==> q in regs
    ensures var chosen := Chosen(cfg, c, i, step, p, order, regs);
            Voters(chosen) == Elements(order) && Replies(chosen) == RepliesOf(c, order, regs)
  {
    var chosen := Chosen(cfg, c, i, step, p, order, regs);
    forall q ensures q in Voters(chosen) <==> q in order {
      if q in order {
        var k :| 0 <= k < |order| && order[k] == q;
        assert chosen[k].reply.recorder == q;
      }
    }
  }

  lemma ChosenIsQuorum(cfg: Config, c: Cluster, regs: Registers, s: System, i: nat, step: Step, p: Proposal,
                       voters: set<ReplicaId>)
    requires i in cfg.instances && WellFormed(c) && cfg.instances[i].cluster == c && voters <= regs.Keys
    requires i in s.proposers && s.proposers[i] == Running(step, p)
    requires HasQuorum(c, voters)
    requires forall q :: q in voters ==>
               Answer(i, LeaderRequest(cfg, cfg.instances[i], step, p), ReplyAt(c, q, regs[q])) in s.answers
    ensures var chosen := Chosen(cfg, c, i, step, p, Ascending(voters), regs);
            IsPhaseQuorum(cfg, s, i, chosen) && Replies(chosen) == RepliesOf(c, Ascending(voters), regs)
  {
    var order := Ascending(voters);
    var chosen := Chosen(cfg, c, i, step, p, order, regs);
    ChosenVoters(cfg, c, regs, i, step, p, order);
    assert Elements(order) == voters;
    forall k | 0 <= k < |chosen| ensures chosen[k] in s.answers {
      assert order[k] in order && order[k] in voters;
    }
  }

  lemma BroadcastSent(cfg: Config, c: Cluster, limits: Limits, leader: ReplicaId, i: nat, step: Step, s: System)
    requires Setting(cfg, c, limits) && LeaderInstance(cfg, leader, i)
    requires ROUND_ONE_PHASE_ZERO <= step <= ROUND_ONE_PHASE_ZERO + 2
    requires Acceptable(c, limits, cfg.instances[i]) && ValidDraws(cfg.instances[i], OneForAll(c))
    requires Broadcast(cfg, i, step, InitialProposal(cfg.instances[i]), [], OneForAll(c)) <= s.requests
    ensures Sent(cfg, c, i, step, InitialProposal(cfg.instances[i]), s)
  {
    var p := InitialProposal(cfg.instances[i]);
    forall q | q in c.members ensures Envelope(i, q, LeaderRequest(cfg, cfg.instances[i], step, p)) in s.requests {
      assert RequestTo(cfg, cfg.instances[i], step, p, [], 1) == LeaderRequest(cfg, cfg.instances[i], step, p);
      assert Envelope(i, q, RequestTo(cfg, cfg.instances[i], step, p, [], OneForAll(c)[q]))
             in Broadcast(cfg, i, step, p, [], OneForAll(c));
    }
  }

  // ----- The run with two decisions -----

  /** The recorders of the cluster before anything happened. */
  function Untouched(c: Cluster): Registers {
    map q | q in c.members :: None
  }

  lemma Starts(cfg: Config, c: Cluster, limits: Limits, leader: ReplicaId, regs: Registers, s: System, i: nat)
    returns (s': System)
    requires Setting(cfg, c, limits) && LeaderInstance(cfg, leader, i)
    requires RecordersAt(cfg, c, limits, leader, regs, s) && i !in s.proposers
    ensures From(cfg, s, s') && RecordersAt(cfg, c, limits, leader, regs, s')
    ensures s'.proposers == s.proposers[i := Running(ROUND_ONE_PHASE_ZERO, InitialProposal(cfg.instances[i]))]
    ensures s.requests <= s'.requests && s'.answers == s.answers && s'.decided == s.decided
    ensures Sent(cfg, c, i, ROUND_ONE_PHASE_ZERO, InitialProposal(cfg.instances[i]), s')
  {
    assert Acceptable(c, limits, cfg.instances[i]);
    var a := Begin(i, [], OneForAll(c));
    assert Enabled(cfg, s, a);
    FromNext(cfg, s, a);
    s' := Next(cfg, s, a);
    BroadcastSent(cfg, c, limits, leader, i, ROUND_ONE_PHASE_ZERO, s');
  }

  /** Replies whose registers all hold the same step and whose recorders report no decision. */
  lemma RepliesShape(c: Cluster, voters: seq<ReplicaId>, regs: Registers, step: Step)
    requires forall q :: q in voters ==> q in regs && regs[q].Some? && regs[q].value.step == step
    ensures var replies := RepliesOf(c, voters, regs);
            AllAtStep(replies, step) && ReportedDecision(replies).None?
  {
    var replies := RepliesOf(c, voters, regs);
    forall k | 0 <= k < |replies| ensures replies[k].summary.step == step && replies[k].decision.None? {
      assert voters[k] in voters;
    }
  }

  /** A quorum that took the leader's proposal first decides it on the fast path. */
  lemma FastDecision(c: Cluster, slot: Slot, leader: ReplicaId, p: Proposal, voters: seq<ReplicaId>, regs: Registers)
    requires voters != [] && p.key.priority == LEADER_PRIORITY && p.key.proposer == leader && p.values != []
    requires forall q :: q in voters ==> q in regs && regs[q].Some?
                                         && regs[q].value.step == ROUND_ONE_PHASE_ZERO && regs[q].value.first == Some(p)
    ensures Advance(slot, Some(leader), ROUND_ONE_PHASE_ZERO, p, RepliesOf(c, voters, regs))
            == Decided(Decision(slot, p.values, leader, ROUND_ONE_PHASE_ZERO))
  {
    RepliesShape(c, voters, regs, ROUND_ONE_PHASE_ZERO);
    var replies := RepliesOf(c, voters, regs);
    forall k | 0 <= k < |replies| ensures replies[k].summary.first == Some(p) {
      assert voters[k] in voters;
    }
    assert FastPathWinner(ROUND_ONE_PHASE_ZERO, replies, Some(leader)) == Some(p);
  }

  /** A quorum split between two leader proposals moves on with the greater one. */
  lemma SplitQuorum(c: Cluster, slot: Slot, leader: ReplicaId, p: Proposal, low: Proposal, voters: seq<ReplicaId>,
                    regs: Registers, x: ReplicaId, y: ReplicaId)
    requires x in voters && y in voters && p.key != low.key && KeyLe(low.key, p.key)
    requires forall q :: q in voters ==> q in regs && regs[q].Some?
                                         && regs[q].value.step == ROUND_ONE_PHASE_ZERO
                                         && (regs[q].value.first == Some(p) || regs[q].value.first == Some(low))
    requires regs[x].value.first == Some(p) && regs[y].value.first == Some(low)
    ensures Advance(slot, Some(leader), ROUND_ONE_PHASE_ZERO, p, RepliesOf(c, voters, regs))
            == Continue(ROUND_ONE_PHASE_ZERO + 1, p)
  {
    RepliesShape(c, voters, regs, ROUND_ONE_PHASE_ZERO);
    var replies := RepliesOf(c, voters, regs);
    var i :| 0 <= i < |voters| && voters[i] == x;
    var j :| 0 <= j < |voters| && voters[j] == y;
    assert replies[i].summary.first == Some(p) && replies[j].summary.first == Some(low);
    assert FastPathWinner(ROUND_ONE_PHASE_ZERO, replies, Some(leader)).None?;
    FirstsReported(replies);
    assert p in Firsts(replies);
    var best := MaxProposalByKey(Firsts(replies)).value;
    var k :| 0 <= k < |replies| && replies[k].summary.first == Some(best);
    assert voters[k] in voters;
    assert best == p;
  }

  lemma SecondPhase(c: Cluster, slot: Slot, leader: ReplicaId, p: Proposal, voters: seq<ReplicaId>, regs: Registers)
    requires forall q :: q in voters ==> q in regs && regs[q].Some? && regs[q].value.step == ROUND_ONE_PHASE_ZERO + 1
    ensures Advance(slot, Some(leader), ROUND_ONE_PHASE_ZERO + 1, p, RepliesOf(c, voters, regs))
            == Continue(ROUND_ONE_PHASE_ZERO + 2, p)
  {
    RepliesShape(c, voters, regs, ROUND_ONE_PHASE_ZERO + 1);
  }

  lemma ThirdPhase(c: Cluster, slot: Slot, leader: ReplicaId, p: Proposal, voters: seq<ReplicaId>, regs: Registers)
    requires voters != [] && p.values != [] && p.key.proposer == leader
    requires forall q :: q in voters ==> q in regs && regs[q].Some?
                                         && regs[q].value.step == ROUND_ONE_PHASE_ZERO + 2
                                         && regs[q].value.priorAggregate == Some(p)
    ensures Advance(slot, Some(leader), ROUND_ONE_PHASE_ZERO + 2, p, RepliesOf(c, voters, regs))
            == Decided(Decision(slot, p.values, leader, ROUND_ONE_PHASE_ZERO + 2))
  {
    RepliesShape(c, voters, regs, ROUND_ONE_PHASE_ZERO + 2);
    var replies := RepliesOf(c, voters, regs);
    forall k | 0 <= k < |replies| ensures replies[k].summary.priorAggregate == Some(p) {
      assert voters[k] in voters;
    }
    PriorsReported(replies);
    assert replies[0].summary.priorAggregate.value in Priors(replies);
    assert MaxProposalByKey(Priors(replies)).value in Priors(replies);
  }

  /** Some quorum can do without this member. */
  predicate CanSpare(c: Cluster, m: ReplicaId)
    requires WellFormed(c)
  {
    m in c.members && HasQuorum(c, Elements(c.members) - {m})
  }

  predicate Spares(c: Cluster)
    requires WellFormed(c)
  {
    exists m :: m in c.members && CanSpare(c, m)
  }

  lemma FewerVoters(c: Cluster, x: set<ReplicaId>, y: set<ReplicaId>)
    requires WellFormed(c) && HasQuorum(c, x) && x * Elements(c.members) <= y <= Elements(c.members)
    ensures HasQuorum(c, y)
  {
    if c.joint.None? {
      assert x * Elements(c.members) == x;
      SubsetSize(x, y);
    } else {
      var j := c.joint.value;
      MoreCounted(j.oldMembers, c.members, x, y);
      MoreCounted(j.newMembers, c.members, x, y);
    }
  }

  lemma {:induction false} MoreCounted(part: seq<ReplicaId>, members: seq<ReplicaId>, x: set<ReplicaId>,
                                       y: set<ReplicaId>)
    requires (forall q :: q in part ==> q in members) && x * Elements(members) <= y
    ensures CountIn(part, x) <= CountIn(part, y)
  {
    if part != [] {
      MoreCounted(part[..|part| - 1], members, x, y);
      assert part[|part| - 1] in part;
    }
  }

  lemma AllAreQuorum(c: Cluster)
    requires WellFormed(c)
    ensures HasQuorum(c, Elements(c.members))
  {
    ElementsSize(c.members);
    if c.joint.Some? {
      AllCounted(c.joint.value.oldMembers, c.members);
      AllCounted(c.joint.value.newMembers, c.members);
    }
  }

  lemma {:induction false} AllCounted(part: seq<ReplicaId>, members: seq<ReplicaId>)
    requires forall q :: q in part ==> q in members
    ensures CountIn(part, Elements(members)) == |part|
  {
    if part != [] {
      AllCounted(part[..|part| - 1], members);
      assert part[|part| - 1] in part;
    }
  }

  /** A stable cluster can spare a member exactly if it tolerates a fault. */
  lemma StableSpares(c: Cluster)
    requires WellFormed(c) && c.joint.None?
    ensures Spares(c) <==> c.maxFaults >= 1
  {
    ElementsSize(c.members);
    forall m | m in c.members ensures CanSpare(c, m) <==> c.maxFaults >= 1 {
      assert |Elements(c.members) - {m}| == |Elements(c.members)| - 1;
    }
    if c.maxFaults >= 1 {
      assert c.members[0] in c.members;
    }
  }

  /** A quorum without the spared member, and the whole cluster. */
  lemma TwoQuorums(c: Cluster)
    returns (first: set<ReplicaId>, second: set<ReplicaId>, shared: ReplicaId, only: ReplicaId)
    requires WellFormed(c) && Spares(c)
    ensures first <= Elements(c.members) && second <= Elements(c.members)
    ensures HasQuorum(c, first) && HasQuorum(c, second)
    ensures shared in first && shared in second && only in second && only !in first
  {
    only :| only in c.members && CanSpare(c, only);
    first, second := Elements(c.members) - {only}, Elements(c.members);
    AllAreQuorum(c);
    QuorumsMeet(c, c, first, second);
    shared :| shared in first && shared in second;
  }

  /** What an iteration that ends with the outcome leaves behind. */
  ghost predicate Iterated(cfg: Config, c: Cluster, limits: Limits, leader: ReplicaId, regs: Registers,
                           s: System, i: nat, o: Outcome, s': System)
    requires i in cfg.instances
  {
    && RecordersAt(cfg, c, limits, leader, regs, s')
    && s.requests <= s'.requests && s.decided <= s'.decided
    && (o.Decided? ==> o.decision in s'.decided && s'.proposers == s.proposers[i := Finished(o.decision)])
    && (o.Continue? ==> s'.proposers == s.proposers[i := Running(o.step, o.proposal)])
    && (o.Continue? && o.step <= ROUND_ONE_PHASE_ZERO + 2 ==> Sent(cfg, c, i, o.step, o.proposal, s'))
  }

  lemma MovedShape(cfg: Config, c: Cluster, limits: Limits, leader: ReplicaId, regs: Registers, s: System, mid: System,
                   i: nat, o: Outcome)
    requires Setting(cfg, c, limits) && LeaderInstance(cfg, leader, i) && ValidDraws(cfg.instances[i], OneForAll(c))
    requires RecordersAt(cfg, c, limits, leader, regs, mid)
    requires mid.proposers == s.proposers && mid.requests == s.requests && mid.decided == s.decided
    requires o.Continue? ==> o.step > ROUND_ONE_PHASE_ZERO && o.proposal == InitialProposal(cfg.instances[i])
    ensures Iterated(cfg, c, limits, leader, regs, s, i, o, Moved(cfg, mid, i, o, OneForAll(c)))
  {
    assert Acceptable(c, limits, cfg.instances[i]);
    if o.Continue? && o.step <= ROUND_ONE_PHASE_ZERO + 2 {
      BroadcastSent(cfg, c, limits, leader, i, o.step, Moved(cfg, mid, i, o, OneForAll(c)));
    }
  }

  /** One whole iteration of a leader instance: its requests reach a quorum and it collects the answers. */
  lemma Iterate(cfg: Config, c: Cluster, limits: Limits, leader: ReplicaId,
                regs: Registers, s: System, i: nat, step: Step, p: Proposal, voters: set<ReplicaId>,
                regs': Registers, o: Outcome)
    returns (s': System)
    requires Setting(cfg, c, limits) && LeaderInstance(cfg, leader, i) && p == InitialProposal(cfg.instances[i])
    requires ROUND_ONE_PHASE_ZERO <= step <= ROUND_ONE_PHASE_ZERO + 2
    requires RecordersAt(cfg, c, limits, leader, regs, s)
    requires Sent(cfg, c, i, step, p, s) && i in s.proposers && s.proposers[i] == Running(step, p)
    requires voters <= regs.Keys && HasQuorum(c, voters)
    requires regs' == UpdatedBy(regs, voters, Call(step, p))
    requires Advance(cfg.slot, Some(leader), step, p, RepliesOf(c, Ascending(voters), regs')) == o
    requires o.Continue? ==> o.step > ROUND_ONE_PHASE_ZERO && o.proposal == p
    ensures From(cfg, s, s') && Iterated(cfg, c, limits, leader, regs', s, i, o, s')
  {
    var mid := DeliverTo(cfg, c, limits, leader, regs, s, i, step, voters);
    s' := CollectFrom(cfg, c, limits, leader, regs', mid, i, step, p, voters, o);
    FromFrom(cfg, s, mid, s');
    MovedShape(cfg, c, limits, leader, regs', s, mid, i, o);
  }

  lemma AscendingHas(voters: set<ReplicaId>, q: ReplicaId)
    requires q in voters
    ensures q in Ascending(voters) && Ascending(voters) != []
  {
  }

  lemma FirstRegisters(regs: Registers, first: set<ReplicaId>, pa: Proposal, regs': Registers)
    requires first <= regs.Keys
    requires forall q :: q in regs ==> regs[q] == None
    requires regs' == UpdatedBy(regs, first, Call(ROUND_ONE_PHASE_ZERO, pa))
    ensures forall q :: q in first ==>
              q in regs' && regs'[q] == Some(Register(ROUND_ONE_PHASE_ZERO, Some(pa), Some(pa), None))
  {
  }

  /** The first lane reaches its quorum first and decides on the fast path. */
  lemma FirstLane(cfg: Config, c: Cluster, limits: Limits, leader: ReplicaId,
                  regs: Registers, s: System, a: nat, first: set<ReplicaId>, shared: ReplicaId)
    returns (s': System)
    requires Setting(cfg, c, limits) && LeaderInstance(cfg, leader, a)
    requires RecordersAt(cfg, c, limits, leader, regs, s)
    requires Sent(cfg, c, a, ROUND_ONE_PHASE_ZERO, InitialProposal(cfg.instances[a]), s)
    requires a in s.proposers && s.proposers[a] == Running(ROUND_ONE_PHASE_ZERO, InitialProposal(cfg.instances[a]))
    requires first <= regs.Keys && HasQuorum(c, first) && shared in first
    requires forall q :: q in regs ==> regs[q] == None
    ensures var pa := InitialProposal(cfg.instances[a]);
            var d := Decision(cfg.slot, cfg.instances[a].values, leader, ROUND_ONE_PHASE_ZERO);
            && From(cfg, s, s')
            && RecordersAt(cfg, c, limits, leader, UpdatedBy(regs, first, Call(ROUND_ONE_PHASE_ZERO, pa)), s')
            && s.requests <= s'.requests
            && d in s'.decided && s'.proposers == s.proposers[a := Finished(d)]
  {
    var pa := InitialProposal(cfg.instances[a]);
    var regs' := UpdatedBy(regs, first, Call(ROUND_ONE_PHASE_ZERO, pa));
    var d := Decision(cfg.slot, pa.values, leader, ROUND_ONE_PHASE_ZERO);
    assert Acceptable(c, limits, cfg.instances[a]);
    AscendingHas(first, shared);
    FirstRegisters(regs, first, pa, regs');
    FastDecision(c, cfg.slot, leader, pa, Ascending(first), regs');
    s' := Iterate(cfg, c, limits, leader, regs, s, a, ROUND_ONE_PHASE_ZERO, pa, first, regs', Decided(d));
  }

  /** What the recorders of the second quorum hold after the second lane's opening. */
  lemma OpeningRegisters(regs: Registers, first: set<ReplicaId>, second: set<ReplicaId>, pa: Proposal, pb: Proposal,
                         r2: Registers)
    requires first <= regs.Keys && second <= regs.Keys
    requires forall q :: q in regs ==> regs[q] == None
    requires KeyLe(pa.key, pb.key) && pa.key != pb.key
    requires var r1 := UpdatedBy(regs, first, Call(ROUND_ONE_PHASE_ZERO, pa));
             r2 == UpdatedBy(r1, second, Call(ROUND_ONE_PHASE_ZERO, pb))
    ensures r2.Keys == regs.Keys
    ensures forall q :: q in second ==>
              r2[q] == Some(Register(ROUND_ONE_PHASE_ZERO, Some(if q in first then pa else pb), Some(pb), None))
  {
  }

  lemma OpeningOutcome(c: Cluster, slot: Slot, leader: ReplicaId, first: set<ReplicaId>, second: set<ReplicaId>,
                       shared: ReplicaId, only: ReplicaId, pa: Proposal, pb: Proposal, r2: Registers)
    requires second <= r2.Keys && KeyLe(pa.key, pb.key) && pa.key != pb.key
    requires shared in first && shared in second && only in second && only !in first
    requires forall q :: q in second ==>
               r2[q] == Some(Register(ROUND_ONE_PHASE_ZERO, Some(if q in first then pa else pb), Some(pb), None))
    ensures Advance(slot, Some(leader), ROUND_ONE_PHASE_ZERO, pb, RepliesOf(c, Ascending(second), r2))
            == Continue(ROUND_ONE_PHASE_ZERO + 1, pb)
  {
    AscendingHas(second, shared);
    AscendingHas(second, only);
    SplitQuorum(c, slot, leader, pb, pa, Ascending(second), r2, only, shared);
  }

  /** Every recorder of the quorum is at the step with p as its best proposal. */
  ghost predicate BestAt(regs: Registers, voters: set<ReplicaId>, step: Step, p: Proposal) {
    voters <= regs.Keys
    && forall q :: q in voters ==>
         regs[q].Some? && regs[q].value.step == step && regs[q].value.currentAggregate == Some(p)
  }

  lemma NextRegisters(regs: Registers, voters: set<ReplicaId>, step: Step, p: Proposal, regs': Registers)
    requires BestAt(regs, voters, step, p) && regs' == UpdatedBy(regs, voters, Call(step + 1, p))
    ensures BestAt(regs', voters, step + 1, p) && regs'.Keys == regs.Keys
    ensures forall q :: q in voters ==> regs'[q].value.priorAggregate == Some(p)
  {
  }

  /** The second lane's opening: its quorum is split, and it goes on with its own proposal. */
  lemma SecondLaneOpens(cfg: Config, c: Cluster, limits: Limits, leader: ReplicaId, regs: Registers,
                        s: System, b: nat, first: set<ReplicaId>, second: set<ReplicaId>,
                        shared: ReplicaId, only: ReplicaId,
                        pa: Proposal, pb: Proposal)
    returns (s': System, regs': Registers)
    requires Setting(cfg, c, limits) && LeaderInstance(cfg, leader, b) && pb == InitialProposal(cfg.instances[b])
    requires forall q :: q in regs ==> regs[q] == None
    requires RecordersAt(cfg, c, limits, leader, UpdatedBy(regs, first, Call(ROUND_ONE_PHASE_ZERO, pa)), s)
    requires Sent(cfg, c, b, ROUND_ONE_PHASE_ZERO, pb, s)
    requires b in s.proposers && s.proposers[b] == Running(ROUND_ONE_PHASE_ZERO, pb)
    requires first <= regs.Keys && second <= regs.Keys && HasQuorum(c, second)
    requires shared in first && shared in second && only in second && only !in first
    requires KeyLe(pa.key, pb.key) && pa.key != pb.key
    ensures From(cfg, s, s') && BestAt(regs', second, ROUND_ONE_PHASE_ZERO, pb)
    ensures Iterated(cfg, c, limits, leader, regs', s, b, Continue(ROUND_ONE_PHASE_ZERO + 1, pb), s')
  {
    var r1 := UpdatedBy(regs, first, Call(ROUND_ONE_PHASE_ZERO, pa));
    regs' := UpdatedBy(r1, second, Call(ROUND_ONE_PHASE_ZERO, pb));
    OpeningRegisters(regs, first, second, pa, pb, regs');
    OpeningOutcome(c, cfg.slot, leader, first, second, shared, only, pa, pb, regs');
    s' := Iterate(cfg, c, limits, leader, r1, s, b, ROUND_ONE_PHASE_ZERO, pb, second, regs',
                  Continue(ROUND_ONE_PHASE_ZERO + 1, pb));
  }

  /** From there the second lane decides in phase two. */
  lemma SecondLaneDecides(cfg: Config, c: Cluster, limits: Limits, leader: ReplicaId, regs: Registers,
                          s: System, b: nat, second: set<ReplicaId>, only: ReplicaId, pb: Proposal)
    returns (s': System)
    requires Setting(cfg, c, limits) && LeaderInstance(cfg, leader, b) && pb == InitialProposal(cfg.instances[b])
    requires RecordersAt(cfg, c, limits, leader, regs, s)
    requires BestAt(regs, second, ROUND_ONE_PHASE_ZERO, pb) && HasQuorum(c, second) && only in second
    requires Sent(cfg, c, b, ROUND_ONE_PHASE_ZERO + 1, pb, s)
    requires b in s.proposers && s.proposers[b] == Running(ROUND_ONE_PHASE_ZERO + 1, pb)
    ensures From(cfg, s, s') && s.decided <= s'.decided
    ensures Decision(cfg.slot, pb.values, leader, ROUND_ONE_PHASE_ZERO + 2) in s'.decided
  {
    var r3 := UpdatedBy(regs, second, Call(ROUND_ONE_PHASE_ZERO + 1, pb));
    var r4 := UpdatedBy(r3, second, Call(ROUND_ONE_PHASE_ZERO + 2, pb));
    NextRegisters(regs, second, ROUND_ONE_PHASE_ZERO, pb, r3);
    NextRegisters(r3, second, ROUND_ONE_PHASE_ZERO + 1, pb, r4);
    AscendingHas(second, only);
    assert Acceptable(c, limits, cfg.instances[b]);
    SecondPhase(c, cfg.slot, leader, pb, Ascending(second), r3);
    var mid := Iterate(cfg, c, limits, leader, regs, s, b, ROUND_ONE_PHASE_ZERO + 1, pb, second, r3,
                       Continue(ROUND_ONE_PHASE_ZERO + 2, pb));
    ThirdPhase(c, cfg.slot, leader, pb, Ascending(second), r4);
    s' := Iterate(cfg, c, limits, leader, r3, mid, b, ROUND_ONE_PHASE_ZERO + 2, pb, second, r4,
                  Decided(Decision(cfg.slot, pb.values, leader, ROUND_ONE_PHASE_ZERO + 2)));
    FromFrom(cfg, s, mid, s');
  }

  /** The instance has sent its opening and waits for answers. */
  ghost predicate Opened(cfg: Config, c: Cluster, i: nat, s: System)
    requires i in cfg.instances
  {
    var p := InitialProposal(cfg.instances[i]);
    && i in s.proposers && s.proposers[i] == Running(ROUND_ONE_PHASE_ZERO, p)
    && Sent(cfg, c, i, ROUND_ONE_PHASE_ZERO, p, s)
  }

  ghost predicate BothRun(cfg: Config, c: Cluster, limits: Limits, leader: ReplicaId, a: nat, b: nat, s: System)
    requires a in cfg.instances && b in cfg.instances
  {
    && From(cfg, StartState(c, limits), s) && RecordersAt(cfg, c, limits, leader, Untouched(c), s)
    && Opened(cfg, c, a, s) && Opened(cfg, c, b, s)
  }

  /** Both lanes begin before anything is delivered. */
  lemma BothStart(cfg: Config, c: Cluster, limits: Limits, leader: ReplicaId, a: nat, b: nat)
    returns (s: System)
    requires Setting(cfg, c, limits) && LeaderInstance(cfg, leader, a) && LeaderInstance(cfg, leader, b) && a != b
    ensures BothRun(cfg, c, limits, leader, a, b, s)
  {
    var regs, s0 := Untouched(c), StartState(c, limits);
    assert RecordersAt(cfg, c, limits, leader, regs, s0);
    var s1 := Starts(cfg, c, limits, leader, regs, s0, a);
    s := Starts(cfg, c, limits, leader, regs, s1, b);
    FromFrom(cfg, s0, s1, s);
  }

  lemma OpenedStays(cfg: Config, c: Cluster, i: nat, s: System, s': System)
    requires i in cfg.instances && Opened(cfg, c, i, s) && s.requests <= s'.requests
    requires i in s'.proposers && s'.proposers[i] == s.proposers[i]
    ensures Opened(cfg, c, i, s')
  {
  }

  /** Two lanes of one leader with different values: some run decides both. */
  lemma TwoDecisions(cfg: Config, c: Cluster, limits: Limits, leader: ReplicaId, a: nat, b: nat)
    returns (s: System)
    requires Setting(cfg, c, limits) && LeaderInstance(cfg, leader, a) && LeaderInstance(cfg, leader, b)
    requires cfg.instances[a].lane < cfg.instances[b].lane && Spares(c)
    ensures From(cfg, StartState(c, limits), s)
    ensures Decision(cfg.slot, cfg.instances[a].values, leader, ROUND_ONE_PHASE_ZERO) in s.decided
    ensures Decision(cfg.slot, cfg.instances[b].values, leader, ROUND_ONE_PHASE_ZERO + 2) in s.decided
  {
    var first, second, shared, only := TwoQuorums(c);
    var s0 := BothStart(cfg, c, limits, leader, a, b);
    var s1 := FirstLaneOfTwo(cfg, c, limits, leader, s0, a, b, first, shared);
    s := SecondLane(cfg, c, limits, leader, s1, a, b, first, second, shared, only);
    FromFrom(cfg, StartState(c, limits), s1, s);
  }

  lemma FirstLaneOfTwo(cfg: Config, c: Cluster, limits: Limits, leader: ReplicaId, s: System, a: nat, b: nat,
                       first: set<ReplicaId>, shared: ReplicaId)
    returns (s': System)
    requires Setting(cfg, c, limits) && LeaderInstance(cfg, leader, a) && LeaderInstance(cfg, leader, b) && a != b
    requires BothRun(cfg, c, limits, leader, a, b, s)
    requires first <= Elements(c.members) && HasQuorum(c, first) && shared in first
    ensures var pa := InitialProposal(cfg.instances[a]);
            && From(cfg, StartState(c, limits), s')
            && RecordersAt(cfg, c, limits, leader, UpdatedBy(Untouched(c), first, Call(ROUND_ONE_PHASE_ZERO, pa)), s')
            && Opened(cfg, c, b, s')
            && Decision(cfg.slot, cfg.instances[a].values, leader, ROUND_ONE_PHASE_ZERO) in s'.decided
  {
    s' := FirstLane(cfg, c, limits, leader, Untouched(c), s, a, first, shared);
    OpenedStays(cfg, c, b, s, s');
    FromFrom(cfg, StartState(c, limits), s, s');
  }

  lemma SecondLane(cfg: Config, c: Cluster, limits: Limits, leader: ReplicaId, s: System,
                   a: nat, b: nat, first: set<ReplicaId>, second: set<ReplicaId>, shared: ReplicaId, only: ReplicaId)
    returns (s': System)
    requires Setting(cfg, c, limits) && LeaderInstance(cfg, leader, a) && LeaderInstance(cfg, leader, b)
    requires cfg.instances[a].lane < cfg.instances[b].lane
    requires var call := Call(ROUND_ONE_PHASE_ZERO, InitialProposal(cfg.instances[a]));
             RecordersAt(cfg, c, limits, leader, UpdatedBy(Untouched(c), first, call), s)
    requires Opened(cfg, c, b, s)
    requires first <= Elements(c.members) && second <= Elements(c.members) && HasQuorum(c, second)
    requires shared in first && shared in second && only in second && only !in first
    ensures From(cfg, s, s') && s.decided <= s'.decided
    ensures Decision(cfg.slot, cfg.instances[b].values, leader, ROUND_ONE_PHASE_ZERO + 2) in s'.decided
  {
    var pa, pb := InitialProposal(cfg.instances[a]), InitialProposal(cfg.instances[b]);
    var mid, regs := SecondLaneOpens(cfg, c, limits, leader, Untouched(c), s, b, first, second, shared, only, pa, pb);
    s' := SecondLaneDecides(cfg, c, limits, leader, regs, mid, b, second, only, pb);
    FromFrom(cfg, s, mid, s');
  }

  // ----- The exact condition -----

  lemma WorldLeaders(cfg: Config)
    ensures LeadersUnique(WorldOf(cfg)) <==>
              forall i, j, l :: LeaderInstance(cfg, l, i) && LeaderInstance(cfg, l, j)
                                ==> cfg.instances[i].values == cfg.instances[j].values
  {
    var w := WorldOf(cfg);
    if LeadersUnique(w) {
      forall i, j, l | LeaderInstance(cfg, l, i) && LeaderInstance(cfg, l, j)
        ensures cfg.instances[i].values == cfg.instances[j].values
      {
        assert InputOf(cfg.instances[i]) in w.inputs && InputOf(cfg.instances[j]) in w.inputs;
      }
    } else {
      var x, y :| x in w.inputs && y in w.inputs && IsLeader(x) && IsLeader(y) && x.id == y.id && x.values != y.values;
      var i :| i in cfg.instances && x == InputOf(cfg.instances[i]);
      var j :| j in cfg.instances && y == InputOf(cfg.instances[j]);
      assert LeaderInstance(cfg, x.id, i) && LeaderInstance(cfg, x.id, j);
    }
  }

  lemma LanesDiffer(cfg: Config, leader: ReplicaId, i: nat, j: nat)
    requires KeysUnique(WorldOf(cfg)) && LeaderInstance(cfg, leader, i) && LeaderInstance(cfg, leader, j)
    requires cfg.instances[i].values != cfg.instances[j].values
    ensures cfg.instances[i].lane != cfg.instances[j].lane
  {
    assert InputOf(cfg.instances[i]) in WorldOf(cfg).inputs && InputOf(cfg.instances[j]) in WorldOf(cfg).inputs;
  }

  lemma SettingAdjacent(cfg: Config, c: Cluster, limits: Limits)
    requires Setting(cfg, c, limits)
    ensures ClustersAdjacent(cfg) && Initial(cfg, StartState(c, limits))
  {
    forall i | i in cfg.instances ensures cfg.instances[i].cluster == c {
      assert Acceptable(c, limits, cfg.instances[i]);
    }
  }

  lemma DisagreementExists(cfg: Config, c: Cluster, limits: Limits) returns (s: System)
    requires Setting(cfg, c, limits) && KeysUnique(WorldOf(cfg)) && !LeadersUnique(WorldOf(cfg)) && Spares(c)
    ensures From(cfg, StartState(c, limits), s) && !Agrees(s)
  {
    WorldLeaders(cfg);
    var i, j, l :| LeaderInstance(cfg, l, i) && LeaderInstance(cfg, l, j)
                   && cfg.instances[i].values != cfg.instances[j].values;
    LanesDiffer(cfg, l, i, j);
    if cfg.instances[i].lane < cfg.instances[j].lane {
      s := TwoDecisions(cfg, c, limits, l, i, j);
    } else {
      s := TwoDecisions(cfg, c, limits, l, j, i);
    }
  }

  // ----- Without a spare member -----

  lemma {:induction false} KeysStay(cfg: Config, start: System, actions: seq<Action>)
    ensures var s := Run(cfg, start, actions); s.Some? ==> s.value.histories.Keys == start.histories.Keys
  {
    if actions != [] {
      KeysStay(cfg, start, actions[..|actions| - 1]);
    }
  }

  lemma QuorumIsWhole(c: Cluster, x: set<ReplicaId>, q: ReplicaId)
    requires WellFormed(c) && !Spares(c) && HasQuorum(c, x) && q in c.members
    ensures q in x
  {
    if q !in x {
      FewerVoters(c, x, Elements(c.members) - {q});
    }
  }

  /** Only members take part, and every quorum is the whole cluster. */
  lemma RunsUnanimous(cfg: Config, c: Cluster, limits: Limits, s: System)
    requires Setting(cfg, c, limits) && !Spares(c) && From(cfg, StartState(c, limits), s)
    ensures Unanimous(WorldOf(cfg), LedgerOf(s.histories))
  {
    var actions :| Run(cfg, StartState(c, limits), actions) == Some(s);
    KeysStay(cfg, StartState(c, limits), actions);
    var w, h := WorldOf(cfg), LedgerOf(s.histories);
    forall x, q | x in w.quorums && h.taken(q, ROUND_ONE_PHASE_ZERO) != [] ensures q in x {
      assert IsQuorum(cfg, x);
      var i :| i in cfg.instances && WellFormed(cfg.instances[i].cluster) && HasQuorum(cfg.instances[i].cluster, x);
      assert Acceptable(c, limits, cfg.instances[i]);
      QuorumIsWhole(c, x, q);
    }
  }

  lemma RunsAgree(cfg: Config, c: Cluster, limits: Limits, s: System)
    requires Setting(cfg, c, limits) && KeysUnique(WorldOf(cfg)) && From(cfg, StartState(c, limits), s)
    requires LeadersUnique(WorldOf(cfg)) || !Spares(c)
    ensures Agrees(s)
  {
    SettingAdjacent(cfg, c, limits);
    assert Reachable(cfg, s);
    ReachableSafe(cfg, s);
    if !Spares(c) {
      RunsUnanimous(cfg, c, limits, s);
    }
    forall d, d' | d in s.decided && d' in s.decided ensures d.values == d'.values && d.proposer == d'.proposer {
      OneChoice(cfg, s, d, d');
    }
  }

  /**
   With one cluster, stable or joint, every run agrees if and only if each replica acting
   as leader proposes a single value list, or no quorum can do without a member.
   */
  lemma AgreementExactly(cfg: Config, c: Cluster, limits: Limits)
    requires Setting(cfg, c, limits) && KeysUnique(WorldOf(cfg))
    ensures LeadersUnique(WorldOf(cfg)) || !Spares(c) <==> forall s :: From(cfg, StartState(c, limits), s) ==> Agrees(s)
  {
    if LeadersUnique(WorldOf(cfg)) || !Spares(c) {
      forall s | From(cfg, StartState(c, limits), s) ensures Agrees(s) {
        RunsAgree(cfg, c, limits, s);
      }
    } else {
      var s := DisagreementExists(cfg, c, limits);
    }
  }
}
