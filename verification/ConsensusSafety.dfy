/**
 Safety of single-slot consensus over every run: what each action keeps, agreement,
 validity, lock-in, and the single leader behind all completed phases.
 */
module ConsensusSafety {
  import opened Types
  import opened IntervalRegister
  import opened Membership
  import opened Recorder
  import opened ProposerRules
  import opened Evidence
  import opened Consensus

  // ----- The invariant -----

  /** The recorder follows its history, and what it stores for the slot was decided. */
  ghost predicate RecorderOk(cfg: Config, s: System, q: ReplicaId)
    requires q in s.recorders && q in s.histories
  {
    && s.recorders[q].id == q
    && Tracks(s.recorders[q], cfg.slot, s.histories[q].calls, s.histories[q].leader)
    && (cfg.slot in s.recorders[q].decisions ==> s.recorders[q].decisions[cfg.slot] in s.decided)
  }

  ghost predicate RecordersOk(cfg: Config, s: System) {
    && s.histories.Keys == s.recorders.Keys
    && forall q :: q in s.recorders ==> RecorderOk(cfg, s, q)
  }

  /** Whatever priorities are drawn, what the proposer sends at its step is justified. */
  ghost predicate MaySend(w: World, h: Ledger, inst: Instance, step: Step, p: Proposal) {
    forall draw :: 1 <= draw < LEADER_PRIORITY ==>
                     Justified(w, h, inst.leader, step, ProposalToSend(inst.id, inst.leader, step, p, draw))
  }

  ghost predicate ProposerOk(cfg: Config, w: World, h: Ledger, s: System, i: nat)
    requires i in s.proposers
  {
    i in cfg.instances
    && (s.proposers[i].Running? ==> MaySend(w, h, cfg.instances[i], s.proposers[i].step, s.proposers[i].proposal))
  }

  ghost predicate ProposersOk(cfg: Config, w: World, h: Ledger, s: System) {
    forall i :: i in s.proposers ==> ProposerOk(cfg, w, h, s, i)
  }

  /** A request never runs ahead of its sender, and outside phase zero it repeats the sender's proposal. */
  predicate Follows(st: ProposerState, request: RecordRequest) {
    st.Running? ==>
      && request.step <= st.step
      && (request.step == st.step && Phase(st.step) != 0 ==> request.proposal == st.proposal)
  }

  ghost predicate RequestOk(cfg: Config, w: World, h: Ledger, s: System, e: Envelope) {
    && e.instance in cfg.instances && e.instance in s.proposers
    && e.request.slot == cfg.slot
    && e.request.leader == cfg.instances[e.instance].leader
    && Justified(w, h, e.request.leader, e.request.step, e.request.proposal)
    && Honest(cfg, s, e.request.known)
    && Follows(s.proposers[e.instance], e.request)
  }

  ghost predicate RequestsOk(cfg: Config, w: World, h: Ledger, s: System) {
    forall e :: e in s.requests ==> RequestOk(cfg, w, h, s, e)
  }

  /** What a reply says about the history of the recorder that sent it. */
  ghost predicate SummaryOk(h: Ledger, q: ReplicaId, request: RecordRequest, summary: Summary) {
    && ROUND_ONE_PHASE_ZERO <= request.step <= summary.step <= h.top(q)
    && h.taken(q, summary.step) != []
    && summary.first == Some(h.taken(q, summary.step)[0])
    && summary.priorAggregate == MaxProposalByKey(h.taken(q, summary.step - 1))
    && (summary.step == request.step ==> request.proposal in h.taken(q, summary.step))
  }

  ghost predicate AnswerOk(cfg: Config, h: Ledger, s: System, a: Answer) {
    && a.instance in cfg.instances
    && Envelope(a.instance, a.reply.recorder, a.request) in s.requests
    && Bound(h, a.reply.recorder, cfg.instances[a.instance].leader)
    && SummaryOk(h, a.reply.recorder, a.request, a.reply.summary)
    && (a.reply.decision.Some? ==> a.reply.decision.value in s.decided)
  }

  ghost predicate AnswersOk(cfg: Config, h: Ledger, s: System) {
    forall a :: a in s.answers ==> AnswerOk(cfg, h, s, a)
  }

  ghost predicate DecisionOk(cfg: Config, w: World, h: Ledger, d: Decision) {
    && d.slot == cfg.slot && d.values != []
    && exists leader, p ::
         Chosen(w, h, leader, d.decidedStep, p) && d.values == p.values && d.proposer == p.key.proposer
  }

  ghost predicate DecisionsOk(cfg: Config, w: World, h: Ledger, s: System) {
    forall d :: d in s.decided ==> DecisionOk(cfg, w, h, d)
  }

  ghost predicate Inv(cfg: Config, w: World, h: Ledger, s: System) {
    && RecordersOk(cfg, s)
    && AllJustified(w, h)
    && ProposersOk(cfg, w, h, s)
    && RequestsOk(cfg, w, h, s)
    && AnswersOk(cfg, h, s)
    && DecisionsOk(cfg, w, h, s)
  }

  ghost predicate Safe(cfg: Config, s: System) {
    Inv(cfg, WorldOf(cfg), LedgerOf(s.histories), s)
  }

  lemma InitialSafe(cfg: Config, s: System)
    requires Initial(cfg, s)
    ensures Safe(cfg, s)
  {
    var w, h := WorldOf(cfg), LedgerOf(s.histories);
    forall q, step, p ensures TookJustified(w, h, q, step, p) {
      assert q in s.histories ==> s.histories[q].calls == [] && Taken(s.histories[q].calls, step) == [];
    }
  }

  // ----- Starting a proposer, and moving it on -----

  /** The proposer enters a step and sends its requests for it. */
  lemma EntersStep(cfg: Config, w: World, h: Ledger, s: System, i: nat, step: Step, p: Proposal,
                   known: seq<Decision>, draws: map<ReplicaId, nat>, s': System)
    requires Inv(cfg, w, h, s)
    requires i in cfg.instances && ValidDraws(cfg.instances[i], draws) && Honest(cfg, s, known)
    requires i in s.proposers ==> s.proposers[i].Running? && s.proposers[i].step < step
    requires MaySend(w, h, cfg.instances[i], step, p)
    requires s' == s.(proposers := s.proposers[i := Running(step, p)],
                      requests := s.requests + Broadcast(cfg, i, step, p, known, draws))
    ensures Inv(cfg, w, h, s')
  {
    var inst := cfg.instances[i];
    forall j | j in s'.proposers ensures ProposerOk(cfg, w, h, s', j) {
      if j != i {
        assert ProposerOk(cfg, w, h, s, j);
      }
    }
    forall e | e in s'.requests ensures RequestOk(cfg, w, h, s', e) {
      if e in s.requests {
        assert RequestOk(cfg, w, h, s, e);
      } else {
        var q :| q in inst.cluster.members && e == Envelope(i, q, RequestTo(cfg, inst, step, p, known, draws[q]));
        assert 1 <= draws[q] < LEADER_PRIORITY;
      }
    }
    forall a | a in s'.answers ensures AnswerOk(cfg, h, s', a) {
      assert AnswerOk(cfg, h, s, a);
    }
    forall q | q in s'.recorders ensures RecorderOk(cfg, s', q) {
      assert RecorderOk(cfg, s, q);
    }
  }

  lemma OpeningMaySend(cfg: Config, h: Ledger, i: nat)
    requires i in cfg.instances && cfg.instances[i].values != []
    ensures MaySend(WorldOf(cfg), h, cfg.instances[i], ROUND_ONE_PHASE_ZERO, InitialProposal(cfg.instances[i]))
  {
    var w, inst := WorldOf(cfg), cfg.instances[i];
    var p := InitialProposal(inst);
    assert InputOf(inst) in w.inputs;
    forall draw | 1 <= draw < LEADER_PRIORITY
      ensures Justified(w, h, inst.leader, ROUND_ONE_PHASE_ZERO,
                        ProposalToSend(inst.id, inst.leader, ROUND_ONE_PHASE_ZERO, p, draw))
    {
      var sent := ProposalToSend(inst.id, inst.leader, ROUND_ONE_PHASE_ZERO, p, draw);
      assert IsLeader(InputOf(inst)) <==> inst.leader == Some(inst.id);
      assert IsInput(w, sent) && IsOpening(w, inst.leader, sent);
    }
  }

  lemma BeginKeeps(cfg: Config, s: System, i: nat, known: seq<Decision>, draws: map<ReplicaId, nat>)
    requires Safe(cfg, s) && Enabled(cfg, s, Begin(i, known, draws))
    ensures Safe(cfg, Next(cfg, s, Begin(i, known, draws)))
  {
    OpeningMaySend(cfg, LedgerOf(s.histories), i);
    EntersStep(cfg, WorldOf(cfg), LedgerOf(s.histories), s, i, ROUND_ONE_PHASE_ZERO, InitialProposal(cfg.instances[i]),
               known, draws, Next(cfg, s, Begin(i, known, draws)));
  }

  // ----- Recorders -----

  /** If evidence grows and no proposer moves, only the recorders and answers need a new look. */
  lemma EvidenceGrows(cfg: Config, w: World, h: Ledger, h': Ledger, s: System, s': System)
    requires Inv(cfg, w, h, s) && Grows(h, h')
    requires s'.proposers == s.proposers && s'.requests == s.requests && s'.decided == s.decided
    ensures ProposersOk(cfg, w, h', s') && RequestsOk(cfg, w, h', s') && DecisionsOk(cfg, w, h', s')
  {
    forall i | i in s'.proposers ensures ProposerOk(cfg, w, h', s', i) {
      ProposerGrows(cfg, w, h, h', s, i);
    }
    forall e | e in s'.requests ensures RequestOk(cfg, w, h', s', e) {
      assert RequestOk(cfg, w, h, s, e);
      JustifiedGrows(w, h, h', e.request.leader, e.request.step, e.request.proposal);
    }
    forall d | d in s'.decided ensures DecisionOk(cfg, w, h', d) {
      DecisionGrows(cfg, w, h, h', d);
    }
  }

  lemma ProposerGrows(cfg: Config, w: World, h: Ledger, h': Ledger, s: System, i: nat)
    requires ProposersOk(cfg, w, h, s) && Grows(h, h') && i in s.proposers
    ensures ProposerOk(cfg, w, h', s, i)
  {
    assert ProposerOk(cfg, w, h, s, i);
    if s.proposers[i].Running? {
      var inst, step, p := cfg.instances[i], s.proposers[i].step, s.proposers[i].proposal;
      forall draw | 1 <= draw < LEADER_PRIORITY
        ensures Justified(w, h', inst.leader, step, ProposalToSend(inst.id, inst.leader, step, p, draw))
      {
        JustifiedGrows(w, h, h', inst.leader, step, ProposalToSend(inst.id, inst.leader, step, p, draw));
      }
    }
  }

  lemma DecisionGrows(cfg: Config, w: World, h: Ledger, h': Ledger, d: Decision)
    requires DecisionOk(cfg, w, h, d) && Grows(h, h')
    ensures DecisionOk(cfg, w, h', d)
  {
    var leader, p :| Chosen(w, h, leader, d.decidedStep, p) && d.values == p.values && d.proposer == p.key.proposer;
    ChosenGrows(w, h, h', leader, d.decidedStep, p);
  }

  lemma SummaryGrows(h: Ledger, h': Ledger, q: ReplicaId, request: RecordRequest, summary: Summary)
    requires Grows(h, h') && SummaryOk(h, q, request, summary)
    ensures SummaryOk(h', q, request, summary)
  {
    assert h.taken(q, summary.step) <= h'.taken(q, summary.step);
    assert h'.taken(q, summary.step - 1) == h.taken(q, summary.step - 1);
  }

  lemma AnswerGrows(cfg: Config, h: Ledger, h': Ledger, s: System, s': System, a: Answer)
    requires Grows(h, h') && AnswerOk(cfg, h, s, a)
    requires s'.requests == s.requests && s'.decided == s.decided
    ensures AnswerOk(cfg, h', s', a)
  {
    SummaryGrows(h, h', a.reply.recorder, a.request, a.reply.summary);
  }

  /** Any operation but an accepted call for the slot, at one recorder. */
  lemma OtherwiseRecorder(st: RecorderState, op: Op, slot: Slot, history: History, decided: set<Decision>)
    requires op.OpRecord? && op.request.slot == slot ==> Apply(st, op).1.Err?
    requires Tracks(st, slot, history.calls, history.leader)
    requires slot in st.decisions ==> st.decisions[slot] in decided
    requires op.OpRecord? ==> forall d :: d in op.request.known && d.slot == slot ==> d in decided
    requires op.OpInform? ==> forall d :: d in op.decisions && d.slot == slot ==> d in decided
    ensures var st' := Apply(st, op).0;
            && st'.id == st.id
            && Tracks(st', slot, history.calls, history.leader)
            && (slot in st'.decisions ==> st'.decisions[slot] in decided)
  {
    OtherOperationsTrack(st, op, slot, history.calls, history.leader);
    StoredDecisionsAreTold(st, op, slot);
    IdKept(st, op);
  }

  /** A recorder does something that adds no call to the slot's history. */
  lemma QuietKeeps(cfg: Config, w: World, h: Ledger, s: System, q: ReplicaId, op: Op, s': System)
    requires Inv(cfg, w, h, s) && q in s.recorders
    requires op.OpRecord? ==> Honest(cfg, s, op.request.known)
    requires op.OpInform? ==> Honest(cfg, s, op.decisions)
    requires op.OpRecord? && op.request.slot == cfg.slot ==> Apply(s.recorders[q], op).1.Err?
    requires s' == s.(recorders := s.recorders[q := Apply(s.recorders[q], op).0])
    ensures Inv(cfg, w, h, s')
  {
    QuietRecorders(cfg, s, q, op, s');
    EvidenceGrows(cfg, w, h, h, s, s');
    forall a | a in s'.answers ensures AnswerOk(cfg, h, s', a) {
      AnswerGrows(cfg, h, h, s, s', a);
    }
  }

  lemma QuietRecorders(cfg: Config, s: System, q: ReplicaId, op: Op, s': System)
    requires RecordersOk(cfg, s) && q in s.recorders
    requires op.OpRecord? ==> Honest(cfg, s, op.request.known)
    requires op.OpInform? ==> Honest(cfg, s, op.decisions)
    requires op.OpRecord? && op.request.slot == cfg.slot ==> Apply(s.recorders[q], op).1.Err?
    requires s' == s.(recorders := s.recorders[q := Apply(s.recorders[q], op).0])
    ensures RecordersOk(cfg, s')
  {
    assert RecorderOk(cfg, s, q);
    OtherwiseRecorder(s.recorders[q], op, cfg.slot, s.histories[q], s.decided);
    forall r | r in s'.recorders ensures RecorderOk(cfg, s', r) {
      assert RecorderOk(cfg, s, r);
    }
  }

  lemma EnvironmentKeeps(cfg: Config, s: System, q: ReplicaId, op: Op)
    requires Safe(cfg, s) && Enabled(cfg, s, Environment(q, op))
    ensures Safe(cfg, Next(cfg, s, Environment(q, op)))
  {
    QuietKeeps(cfg, WorldOf(cfg), LedgerOf(s.histories), s, q, op, Next(cfg, s, Environment(q, op)));
  }

  lemma IdKept(st: RecorderState, op: Op)
    ensures Apply(st, op).0.id == st.id
  {
    if op.OpRecord? {
      InformAllOnlyAddsDecisions(st, op.request.known);
    } else if op.OpInform? {
      InformAllOnlyAddsDecisions(st, op.decisions);
    }
  }

  // ----- A request reaches a recorder -----

  lemma HistoryGrows(hs: map<ReplicaId, History>, q: ReplicaId, c: Call, leader: Option<ReplicaId>)
    requires q in hs
    requires hs[q].calls != [] ==> hs[q].leader == leader
    ensures Grows(LedgerOf(hs), LedgerOf(hs[q := History(hs[q].calls + [c], leader)]))
  {
    var h, h' := LedgerOf(hs), LedgerOf(hs[q := History(hs[q].calls + [c], leader)]);
    forall r, step
      ensures h.taken(r, step) <= h'.taken(r, step)
      ensures h.top(r) > step ==> h'.taken(r, step) == h.taken(r, step)
      ensures h.top(r) <= h'.top(r)
    {
      CallsGrow(hs[q].calls, c, step);
    }
  }

  lemma CallsGrow(calls: seq<Call>, c: Call, step: Step)
    ensures Taken(calls, step) <= Taken(calls + [c], step)
    ensures Top(calls) > step ==> Taken(calls + [c], step) == Taken(calls, step)
    ensures Top(calls) <= Top(calls + [c])
  {
    AfterCall(calls, c, step);
  }

  /** The reply to an accepted call summarises the history that includes it. */
  lemma ReplyIsSummary(all: seq<Call>)
    requires all != []
    ensures var summary := Summarize(Replay(all));
            && summary.step == Top(all)
            && Taken(all, summary.step) != []
            && summary.first == Some(Taken(all, summary.step)[0])
            && (summary.step > 0 ==> summary.priorAggregate == MaxProposalByKey(Taken(all, summary.step - 1)))
  {
    RegisterSummarizesHistory(all);
    TakenAtTop(all);
    TopBounds(all);
  }

  lemma CallIsTaken(calls: seq<Call>, c: Call)
    ensures c.step <= Top(calls + [c])
    ensures Top(calls + [c]) == c.step ==> c.proposal in Taken(calls + [c], c.step)
  {
    AfterCall(calls, c, c.step);
  }

  lemma DeliveryJustified(cfg: Config, w: World, s: System, e: Envelope, c: Call, hs': map<ReplicaId, History>)
    requires Inv(cfg, w, LedgerOf(s.histories), s) && e in s.requests && e.to in s.histories
    requires c == Call(e.request.step, e.request.proposal)
    requires s.histories[e.to].calls != [] ==> s.histories[e.to].leader == e.request.leader
    requires hs' == s.histories[e.to := History(s.histories[e.to].calls + [c], e.request.leader)]
    ensures AllJustified(w, LedgerOf(hs'))
  {
    var h, h' := LedgerOf(s.histories), LedgerOf(hs');
    HistoryGrows(s.histories, e.to, c, e.request.leader);
    assert RequestOk(cfg, w, h, s, e);
    forall q, step, p ensures TookJustified(w, h', q, step, p) {
      AfterCall(s.histories[e.to].calls, c, step);
      if p in h.taken(q, step) {
        assert TookJustified(w, h, q, step, p);
        JustifiedGrows(w, h, h', h.bound(q).value, step, p);
      } else if p in h'.taken(q, step) {
        assert q == e.to && c == Call(step, p);
        JustifiedGrows(w, h, h', e.request.leader, step, p);
      }
    }
  }

  lemma RejectedKeeps(cfg: Config, s: System, e: Envelope, available: bool)
    requires Safe(cfg, s) && Enabled(cfg, s, Deliver(e, available))
    requires Record(s.recorders[e.to], e.request, available).1.Err?
    ensures Safe(cfg, Next(cfg, s, Deliver(e, available)))
  {
    var w, h := WorldOf(cfg), LedgerOf(s.histories);
    assert RequestOk(cfg, w, h, s, e);
    QuietKeeps(cfg, w, h, s, e.to, OpRecord(e.request, available), Next(cfg, s, Deliver(e, available)));
  }

  /** The accepting recorder on its own. */
  lemma AcceptingRecorder(st: RecorderState, req: RecordRequest, available: bool, history: History,
                          decided: set<Decision>)
    requires Record(st, req, available).1.Ok?
    requires Tracks(st, req.slot, history.calls, history.leader)
    requires req.slot in st.decisions ==> st.decisions[req.slot] in decided
    requires forall d :: d in req.known && d.slot == req.slot ==> d in decided
    ensures var st' := Record(st, req, available).0;
            && st'.id == st.id
            && Tracks(st', req.slot, history.calls + [Call(req.step, req.proposal)], req.leader)
            && (req.slot in st'.decisions ==> st'.decisions[req.slot] in decided)
    ensures var reply := Record(st, req, available).1.value;
            && reply.recorder == st.id
            && reply.summary == Summarize(Replay(history.calls + [Call(req.step, req.proposal)]))
            && (reply.decision.Some? ==> reply.decision.value in decided)
  {
    var op := OpRecord(req, available);
    RecordTracks(st, req, available, history.calls, history.leader);
    StoredDecisionsAreTold(st, op, req.slot);
    IdKept(st, op);
  }

  lemma AcceptedRecorders(cfg: Config, s: System, e: Envelope, available: bool)
    requires Safe(cfg, s) && Enabled(cfg, s, Deliver(e, available))
    requires Record(s.recorders[e.to], e.request, available).1.Ok?
    ensures RecordersOk(cfg, Next(cfg, s, Deliver(e, available)))
  {
    var s' := Next(cfg, s, Deliver(e, available));
    assert RequestOk(cfg, WorldOf(cfg), LedgerOf(s.histories), s, e);
    assert RecorderOk(cfg, s, e.to);
    AcceptingRecorder(s.recorders[e.to], e.request, available, s.histories[e.to], s.decided);
    forall r | r in s'.recorders ensures RecorderOk(cfg, s', r) {
      assert RecorderOk(cfg, s, r);
    }
  }

  lemma NewSummaryOk(hs: map<ReplicaId, History>, q: ReplicaId, calls: seq<Call>, c: Call, request: RecordRequest)
    requires q in hs && hs[q].calls == calls + [c]
    requires c == Call(request.step, request.proposal) && c.step >= ROUND_ONE_PHASE_ZERO
    ensures Bound(LedgerOf(hs), q, hs[q].leader)
    ensures SummaryOk(LedgerOf(hs), q, request, Summarize(Replay(calls + [c])))
  {
    ReplyIsSummary(calls + [c]);
    CallIsTaken(calls, c);
    LedgerShows(hs, q);
  }

  lemma LedgerShows(hs: map<ReplicaId, History>, q: ReplicaId)
    requires q in hs
    ensures forall step :: LedgerOf(hs).taken(q, step) == Taken(hs[q].calls, step)
    ensures LedgerOf(hs).top(q) == Top(hs[q].calls)
    ensures hs[q].calls != [] ==> LedgerOf(hs).bound(q) == Some(hs[q].leader)
  {
  }

  /** What a recorder's acceptance adds to the system. */
  lemma AcceptedReply(cfg: Config, s: System, e: Envelope, available: bool)
    requires Safe(cfg, s) && Enabled(cfg, s, Deliver(e, available))
    requires Record(s.recorders[e.to], e.request, available).1.Ok?
    ensures var s' := Next(cfg, s, Deliver(e, available));
            var reply := Record(s.recorders[e.to], e.request, available).1.value;
            var c := Call(e.request.step, e.request.proposal);
            && s' == s.(recorders := s'.recorders, histories := s'.histories, answers := s'.answers)
            && s'.answers == s.answers + {Answer(e.instance, e.request, reply)}
            && s'.histories == s.histories[e.to := History(s.histories[e.to].calls + [c], e.request.leader)]
            && reply.recorder == e.to
            && reply.summary == Summarize(Replay(s.histories[e.to].calls + [c]))
            && (reply.decision.Some? ==> reply.decision.value in s.decided)
  {
    var s' := Next(cfg, s, Deliver(e, available));
    assert RequestOk(cfg, WorldOf(cfg), LedgerOf(s.histories), s, e);
    assert RecorderOk(cfg, s, e.to);
    AcceptingRecorder(s.recorders[e.to], e.request, available, s.histories[e.to], s.decided);
  }

  lemma AcceptedAnswers(cfg: Config, w: World, h: Ledger, h': Ledger, s: System, s': System, e: Envelope,
                        reply: RecordReply)
    requires Inv(cfg, w, h, s) && Grows(h, h') && e in s.requests
    requires s' == s.(recorders := s'.recorders, histories := s'.histories, answers := s'.answers)
    requires s'.answers == s.answers + {Answer(e.instance, e.request, reply)}
    requires reply.recorder == e.to && Bound(h', e.to, e.request.leader)
    requires SummaryOk(h', e.to, e.request, reply.summary)
    requires reply.decision.Some? ==> reply.decision.value in s.decided
    ensures AnswersOk(cfg, h', s')
  {
    forall a | a in s'.answers ensures AnswerOk(cfg, h', s', a) {
      if a in s.answers {
        AnswerGrows(cfg, h, h', s, s', a);
      } else {
        assert RequestOk(cfg, w, h, s, e);
      }
    }
  }

  lemma AcceptedKeeps(cfg: Config, s: System, e: Envelope, available: bool)
    requires Safe(cfg, s) && Enabled(cfg, s, Deliver(e, available))
    requires Record(s.recorders[e.to], e.request, available).1.Ok?
    ensures Safe(cfg, Next(cfg, s, Deliver(e, available)))
  {
    var s' := Next(cfg, s, Deliver(e, available));
    var w, h, h' := WorldOf(cfg), LedgerOf(s.histories), LedgerOf(s'.histories);
    var c := Call(e.request.step, e.request.proposal);
    HistoryBound(cfg, s, e, available);
    AcceptedRecorders(cfg, s, e, available);
    AcceptedReply(cfg, s, e, available);
    HistoryGrows(s.histories, e.to, c, e.request.leader);
    DeliveryJustified(cfg, w, s, e, c, s'.histories);
    EvidenceGrows(cfg, w, h, h', s, s');
    NewSummaryOk(s'.histories, e.to, s.histories[e.to].calls, c, e.request);
    AcceptedAnswers(cfg, w, h, h', s, s', e, Record(s.recorders[e.to], e.request, available).1.value);
  }

  /** A recorder that accepts a request is already bound to its leader, or becomes so now. */
  lemma HistoryBound(cfg: Config, s: System, e: Envelope, available: bool)
    requires Safe(cfg, s) && Enabled(cfg, s, Deliver(e, available))
    requires Record(s.recorders[e.to], e.request, available).1.Ok?
    ensures s.histories[e.to].calls != [] ==> s.histories[e.to].leader == e.request.leader
    ensures e.request.step >= ROUND_ONE_PHASE_ZERO
  {
    assert RequestOk(cfg, WorldOf(cfg), LedgerOf(s.histories), s, e);
    assert RecorderOk(cfg, s, e.to);
    RecordTracks(s.recorders[e.to], e.request, available, s.histories[e.to].calls, s.histories[e.to].leader);
  }

  // ----- A proposer collects a quorum -----

  /** What each of a quorum's answers shows. */
  ghost predicate AnswersShow(h: Ledger, leader: Option<ReplicaId>, step: Step, p: Proposal, chosen: seq<Answer>) {
    forall k :: 0 <= k < |chosen| ==>
                  && Bound(h, chosen[k].reply.recorder, leader)
                  && chosen[k].request.step == step
                  && SummaryOk(h, chosen[k].reply.recorder, chosen[k].request, chosen[k].reply.summary)
                  && (Phase(step) != 0 ==> chosen[k].request.proposal == p)
  }

  lemma QuorumShows(cfg: Config, w: World, h: Ledger, s: System, i: nat, chosen: seq<Answer>)
    requires Inv(cfg, w, h, s)
    requires i in cfg.instances && WellFormed(cfg.instances[i].cluster)
    requires i in s.proposers && s.proposers[i].Running? && IsPhaseQuorum(cfg, s, i, chosen)
    ensures AnswersShow(h, cfg.instances[i].leader, s.proposers[i].step, s.proposers[i].proposal, chosen)
  {
    forall k | 0 <= k < |chosen|
      ensures Bound(h, chosen[k].reply.recorder, cfg.instances[i].leader)
      ensures SummaryOk(h, chosen[k].reply.recorder, chosen[k].request, chosen[k].reply.summary)
      ensures Phase(s.proposers[i].step) != 0 ==> chosen[k].request.proposal == s.proposers[i].proposal
    {
      var a := chosen[k];
      assert a in s.answers;
      assert AnswerOk(cfg, h, s, a);
      assert RequestOk(cfg, w, h, s, Envelope(a.instance, a.reply.recorder, a.request));
    }
  }

  lemma VoterAnswer(chosen: seq<Answer>, q: ReplicaId) returns (k: nat)
    requires q in Voters(chosen)
    ensures k < |chosen| && chosen[k].reply.recorder == q
  {
    k :| 0 <= k < |chosen| && chosen[k].reply.recorder == q;
  }

  lemma AnswerFirst(h: Ledger, leader: Option<ReplicaId>, step: Step, p: Proposal, chosen: seq<Answer>, k: nat)
    requires AnswersShow(h, leader, step, p, chosen) && AllAtStep(Replies(chosen), step)
    requires k < |chosen|
    ensures Bound(h, chosen[k].reply.recorder, leader) && h.taken(chosen[k].reply.recorder, step) != []
    ensures Replies(chosen)[k].summary.first == Some(h.taken(chosen[k].reply.recorder, step)[0])
  {
    assert Replies(chosen)[k] == chosen[k].reply;
  }

  lemma FirstBelowBest(replies: seq<RecordReply>, k: nat, best: Proposal)
    requires k < |replies| && replies[k].summary.first.Some?
    requires MaxProposalByKey(Firsts(replies)) == Some(best)
    ensures KeyLe(replies[k].summary.first.value.key, best.key)
  {
    FirstsReported(replies);
  }

  lemma BestFirst(replies: seq<RecordReply>, best: Proposal) returns (k: nat)
    requires MaxProposalByKey(Firsts(replies)) == Some(best)
    ensures k < |replies| && replies[k].summary.first == Some(best)
  {
    FirstsReported(replies);
    k :| 0 <= k < |replies| && replies[k].summary.first == Some(best);
  }

  /** Phase zero: the best of the first proposals. */
  lemma QuorumSpread(h: Ledger, leader: Option<ReplicaId>, step: Step, p: Proposal, chosen: seq<Answer>, best: Proposal)
    requires AnswersShow(h, leader, step, p, chosen) && AllAtStep(Replies(chosen), step)
    requires MaxProposalByKey(Firsts(Replies(chosen))) == Some(best)
    ensures Spread(h, Voters(chosen), leader, step, best)
  {
    forall q | q in Voters(chosen)
      ensures Bound(h, q, leader) && h.taken(q, step) != [] && KeyLe(h.taken(q, step)[0].key, best.key)
    {
      VoterBelowBest(h, leader, step, p, chosen, best, q);
    }
    var q := VoterWithBest(h, leader, step, p, chosen, best);
  }

  lemma VoterBelowBest(h: Ledger, leader: Option<ReplicaId>, step: Step, p: Proposal, chosen: seq<Answer>,
                       best: Proposal, q: ReplicaId)
    requires AnswersShow(h, leader, step, p, chosen) && AllAtStep(Replies(chosen), step)
    requires MaxProposalByKey(Firsts(Replies(chosen))) == Some(best) && q in Voters(chosen)
    ensures Bound(h, q, leader) && h.taken(q, step) != [] && KeyLe(h.taken(q, step)[0].key, best.key)
  {
    var k := VoterAnswer(chosen, q);
    AnswerFirst(h, leader, step, p, chosen, k);
    FirstBelowBest(Replies(chosen), k, best);
  }

  lemma VoterWithBest(h: Ledger, leader: Option<ReplicaId>, step: Step, p: Proposal, chosen: seq<Answer>,
                      best: Proposal)
    returns (q: ReplicaId)
    requires AnswersShow(h, leader, step, p, chosen) && AllAtStep(Replies(chosen), step)
    requires MaxProposalByKey(Firsts(Replies(chosen))) == Some(best)
    ensures q in Voters(chosen) && h.taken(q, step) != [] && h.taken(q, step)[0] == best
  {
    var k := BestFirst(Replies(chosen), best);
    AnswerFirst(h, leader, step, p, chosen, k);
    q := chosen[k].reply.recorder;
  }

  /** Any phase but the first: every voter took the proposal. */
  lemma QuorumHeld(h: Ledger, leader: Option<ReplicaId>, step: Step, p: Proposal, chosen: seq<Answer>)
    requires AnswersShow(h, leader, step, p, chosen) && AllAtStep(Replies(chosen), step) && Phase(step) != 0
    ensures Held(h, Voters(chosen), leader, step, p)
  {
    forall q | q in Voters(chosen) ensures Bound(h, q, leader) && p in h.taken(q, step) {
      var k := VoterAnswer(chosen, q);
      assert Replies(chosen)[k] == chosen[k].reply;
    }
  }

  /** Phases two and three: the best proposal of the step before. */
  lemma QuorumGathered(h: Ledger, leader: Option<ReplicaId>, step: Step, p: Proposal, chosen: seq<Answer>,
                       best: Proposal)
    requires AnswersShow(h, leader, step, p, chosen) && AllAtStep(Replies(chosen), step) && Phase(step) >= 2
    requires MaxProposalByKey(Priors(Replies(chosen))) == Some(best)
    ensures Gathered(h, Voters(chosen), leader, step - 1, best)
  {
    forall q | q in Voters(chosen)
      ensures Bound(h, q, leader) && h.top(q) > step - 1
      ensures forall x :: x in h.taken(q, step - 1) ==> KeyLe(x.key, best.key)
    {
      VoterPriorBelow(h, leader, step, p, chosen, best, q);
    }
    var q := VoterWithPrior(h, leader, step, p, chosen, best);
  }

  lemma VoterPriorBelow(h: Ledger, leader: Option<ReplicaId>, step: Step, p: Proposal, chosen: seq<Answer>,
                        best: Proposal, q: ReplicaId)
    requires AnswersShow(h, leader, step, p, chosen) && AllAtStep(Replies(chosen), step) && step > 0
    requires MaxProposalByKey(Priors(Replies(chosen))) == Some(best) && q in Voters(chosen)
    ensures Bound(h, q, leader) && h.top(q) > step - 1
    ensures forall x :: x in h.taken(q, step - 1) ==> KeyLe(x.key, best.key)
  {
    var k := VoterAnswer(chosen, q);
    AnswerPrior(h, leader, step, p, chosen, k);
    PriorBelowBest(Replies(chosen), k, h.taken(q, step - 1), best);
  }

  lemma VoterWithPrior(h: Ledger, leader: Option<ReplicaId>, step: Step, p: Proposal, chosen: seq<Answer>,
                       best: Proposal)
    returns (q: ReplicaId)
    requires AnswersShow(h, leader, step, p, chosen) && AllAtStep(Replies(chosen), step) && step > 0
    requires MaxProposalByKey(Priors(Replies(chosen))) == Some(best)
    ensures q in Voters(chosen) && best in h.taken(q, step - 1)
  {
    var k := BestPrior(Replies(chosen), best);
    AnswerPrior(h, leader, step, p, chosen, k);
    q := chosen[k].reply.recorder;
  }

  lemma AnswerPrior(h: Ledger, leader: Option<ReplicaId>, step: Step, p: Proposal, chosen: seq<Answer>, k: nat)
    requires AnswersShow(h, leader, step, p, chosen) && AllAtStep(Replies(chosen), step)
    requires k < |chosen|
    ensures Bound(h, chosen[k].reply.recorder, leader)
            && h.top(chosen[k].reply.recorder) >= step >= ROUND_ONE_PHASE_ZERO
    ensures Replies(chosen)[k].summary.priorAggregate == MaxProposalByKey(h.taken(chosen[k].reply.recorder, step - 1))
  {
    assert Replies(chosen)[k] == chosen[k].reply;
  }

  lemma BestPrior(replies: seq<RecordReply>, best: Proposal) returns (k: nat)
    requires MaxProposalByKey(Priors(replies)) == Some(best)
    ensures k < |replies| && replies[k].summary.priorAggregate == Some(best)
  {
    PriorsReported(replies);
    k :| 0 <= k < |replies| && replies[k].summary.priorAggregate == Some(best);
  }

  lemma PriorBelowBest(replies: seq<RecordReply>, k: nat, taken: seq<Proposal>, best: Proposal)
    requires k < |replies| && replies[k].summary.priorAggregate == MaxProposalByKey(taken)
    requires MaxProposalByKey(Priors(replies)) == Some(best)
    ensures forall x :: x in taken ==> KeyLe(x.key, best.key)
  {
    PriorsReported(replies);
    if taken != [] {
      var prior := replies[k].summary.priorAggregate.value;
      assert KeyLe(prior.key, best.key);
      forall x | x in taken ensures KeyLe(x.key, best.key) {
        assert KeyLe(x.key, prior.key);
      }
    }
  }

  /** The fast path: every voter's first proposal has the leader's key. */
  lemma QuorumFast(h: Ledger, leader: Option<ReplicaId>, step: Step, p: Proposal, chosen: seq<Answer>, winner: Proposal)
    requires AnswersShow(h, leader, step, p, chosen) && AllAtStep(Replies(chosen), step)
    requires FastPathWinner(step, Replies(chosen), leader) == Some(winner)
    ensures FastSpread(h, Voters(chosen), leader, winner)
    ensures winner.key.priority == LEADER_PRIORITY && leader == Some(winner.key.proposer)
  {
    var replies := Replies(chosen);
    forall q | q in Voters(chosen)
      ensures Bound(h, q, leader) && h.taken(q, step) != [] && h.taken(q, step)[0].key == winner.key
    {
      var k := VoterAnswer(chosen, q);
      assert replies[k] == chosen[k].reply;
    }
    assert replies[0] == chosen[0].reply;
    assert chosen[0].reply.recorder in Voters(chosen);
  }

  /** A proposal justified at one step may be sent again with another priority, unless it opens the slot. */
  lemma JustifiedMaySend(w: World, h: Ledger, inst: Instance, step: Step, p: Proposal)
    requires Justified(w, h, inst.leader, step, p) && step > ROUND_ONE_PHASE_ZERO
    ensures MaySend(w, h, inst, step, p)
  {
    forall draw | 1 <= draw < LEADER_PRIORITY
      ensures Justified(w, h, inst.leader, step, ProposalToSend(inst.id, inst.leader, step, p, draw))
    {
      var sent := ProposalToSend(inst.id, inst.leader, step, p, draw);
      assert IsInput(w, sent);
      if Phase(step) == 0 {
        var voters, best :| voters in w.quorums && Gathered(h, voters, inst.leader, step - 2, best)
          && SameChoice(best, p);
        assert SameChoice(best, sent);
        assert IsBestOfRound(w, h, inst.leader, step - 2, sent);
      }
    }
  }

  /** The proposal a running proposer holds outside phase zero is itself justified. */
  lemma HoldsJustified(w: World, h: Ledger, inst: Instance, step: Step, p: Proposal)
    requires MaySend(w, h, inst, step, p) && Phase(step) != 0
    ensures Justified(w, h, inst.leader, step, p)
  {
    assert ProposalToSend(inst.id, inst.leader, step, p, 1) == p;
  }

  /** What the outcome of an iteration needs for the invariant to go on. */
  ghost predicate OutcomeOk(cfg: Config, w: World, h: Ledger, inst: Instance, step: Step, outcome: Outcome) {
    match outcome
    case Decided(d) => DecisionOk(cfg, w, h, d)
    case Continue(step', p') => step' > step && Justified(w, h, inst.leader, step', p')
    case Failed(_) => false
  }

  lemma DecideOk(cfg: Config, w: World, h: Ledger, inst: Instance, step: Step, p: Proposal)
    requires Chosen(w, h, inst.leader, step, p) && p.values != []
    ensures OutcomeOk(cfg, w, h, inst, step, Decide(cfg.slot, p, step))
  {
    assert DecisionOk(cfg, w, h, Decision(cfg.slot, p.values, p.key.proposer, step));
  }

  lemma ContinueOk(cfg: Config, w: World, h: Ledger, inst: Instance, step: Step, p: Proposal)
    requires Justified(w, h, inst.leader, step + 1, p)
    ensures OutcomeOk(cfg, w, h, inst, step, Continue(step + 1, p))
  {
  }

  lemma FastTaken(w: World, h: Ledger, leader: Option<ReplicaId>, voters: set<ReplicaId>, winner: Proposal)
    requires AllJustified(w, h) && FastSpread(h, voters, leader, winner)
    ensures winner.values != []
  {
    var q :| q in voters && h.taken(q, ROUND_ONE_PHASE_ZERO)[0] == winner;
    TakenIsJustified(w, h, q, leader, ROUND_ONE_PHASE_ZERO, winner);
  }

  /** A quorum of replies always reports some first proposal. */
  lemma SomeFirstExists(w: World, h: Ledger, leader: Option<ReplicaId>, step: Step, p: Proposal, chosen: seq<Answer>)
    requires Intersecting(w) && AnswersShow(h, leader, step, p, chosen) && Voters(chosen) in w.quorums
    ensures MaxProposalByKey(Firsts(Replies(chosen))).Some?
  {
    var q := Meet(w, Voters(chosen), Voters(chosen));
    var k := VoterAnswer(chosen, q);
    assert Replies(chosen)[k] == chosen[k].reply;
    FirstsReported(Replies(chosen));
  }

  lemma FastPathOk(cfg: Config, w: World, h: Ledger, inst: Instance, step: Step, p: Proposal, chosen: seq<Answer>,
                   winner: Proposal)
    requires AnswersShow(h, inst.leader, step, p, chosen) && Voters(chosen) in w.quorums
    requires AllAtStep(Replies(chosen), step)
    requires FastPathWinner(step, Replies(chosen), inst.leader) == Some(winner)
    requires AllJustified(w, h)
    ensures OutcomeOk(cfg, w, h, inst, step, Decide(cfg.slot, winner, step))
  {
    QuorumFast(h, inst.leader, step, p, chosen, winner);
    assert FastChosen(w, h, inst.leader, winner);
    FastTaken(w, h, inst.leader, Voters(chosen), winner);
    DecideOk(cfg, w, h, inst, step, winner);
  }

  lemma PhaseZeroOk(cfg: Config, w: World, h: Ledger, inst: Instance, step: Step, p: Proposal, chosen: seq<Answer>)
    requires AllJustified(w, h) && Intersecting(w)
    requires AnswersShow(h, inst.leader, step, p, chosen) && Voters(chosen) in w.quorums
    requires AllAtStep(Replies(chosen), step) && Phase(step) == 0 && step >= ROUND_ONE_PHASE_ZERO
    ensures OutcomeOk(cfg, w, h, inst, step, PhaseDone(cfg.slot, inst.leader, step, p, Replies(chosen)))
  {
    var winner := FastPathWinner(step, Replies(chosen), inst.leader);
    if winner.Some? {
      FastPathOk(cfg, w, h, inst, step, p, chosen, winner.value);
    } else {
      SomeFirstExists(w, h, inst.leader, step, p, chosen);
      var best := MaxProposalByKey(Firsts(Replies(chosen))).value;
      QuorumSpread(h, inst.leader, step, p, chosen, best);
      SpreadJustified(w, h, inst.leader, step, Voters(chosen), best);
      ContinueOk(cfg, w, h, inst, step, best);
    }
  }

  lemma SpreadJustified(w: World, h: Ledger, leader: Option<ReplicaId>, step: Step, voters: set<ReplicaId>,
                        best: Proposal)
    requires AllJustified(w, h) && voters in w.quorums && Spread(h, voters, leader, step, best)
    requires Phase(step) == 0 && step >= ROUND_ONE_PHASE_ZERO
    ensures Justified(w, h, leader, step + 1, best)
  {
    var q :| q in voters && h.taken(q, step)[0] == best;
    TakenIsJustified(w, h, q, leader, step, best);
    assert IsSpread(w, h, leader, step, best);
  }

  lemma HeldJustified(w: World, h: Ledger, leader: Option<ReplicaId>, step: Step, voters: set<ReplicaId>, p: Proposal)
    requires voters in w.quorums && Held(h, voters, leader, step, p) && Justified(w, h, leader, step, p)
    requires 1 <= Phase(step) <= 2
    ensures Justified(w, h, leader, step + 1, p)
  {
    assert IsHeld(w, h, leader, step, p);
  }

  lemma GatheredJustified(w: World, h: Ledger, leader: Option<ReplicaId>, step: Step, voters: set<ReplicaId>,
                          best: Proposal)
    requires AllJustified(w, h) && voters in w.quorums
    requires Phase(step) == 3 && step > ROUND_ONE_PHASE_ZERO && Gathered(h, voters, leader, step - 1, best)
    ensures Justified(w, h, leader, step + 1, best)
  {
    var q :| q in voters && best in h.taken(q, step - 1);
    TakenIsJustified(w, h, q, leader, step - 1, best);
    assert SameChoice(best, best);
    assert IsBestOfRound(w, h, leader, step - 1, best);
  }

  lemma PhaseTwoDecides(w: World, h: Ledger, leader: Option<ReplicaId>, step: Step, p: Proposal, chosen: seq<Answer>)
    requires AnswersShow(h, leader, step, p, chosen) && Voters(chosen) in w.quorums
    requires AllAtStep(Replies(chosen), step) && Phase(step) == 2 && step > ROUND_ONE_PHASE_ZERO
    requires MaxProposalByKey(Priors(Replies(chosen))) == Some(p)
    ensures Chosen(w, h, leader, step, p)
  {
    QuorumHeld(h, leader, step, p, chosen);
    QuorumGathered(h, leader, step, p, chosen, p);
    assert SlowChosen(w, h, leader, step, p);
  }

  lemma MiddlePhasesOk(cfg: Config, w: World, h: Ledger, inst: Instance, step: Step, p: Proposal, chosen: seq<Answer>)
    requires AnswersShow(h, inst.leader, step, p, chosen) && Voters(chosen) in w.quorums
    requires AllAtStep(Replies(chosen), step) && 1 <= Phase(step) <= 2 && step > ROUND_ONE_PHASE_ZERO
    requires Justified(w, h, inst.leader, step, p)
    ensures OutcomeOk(cfg, w, h, inst, step, PhaseDone(cfg.slot, inst.leader, step, p, Replies(chosen)))
  {
    if Phase(step) == 2 && MaxProposalByKey(Priors(Replies(chosen))) == Some(p) {
      PhaseTwoDecides(w, h, inst.leader, step, p, chosen);
      DecideOk(cfg, w, h, inst, step, p);
    } else {
      QuorumHeld(h, inst.leader, step, p, chosen);
      HeldJustified(w, h, inst.leader, step, Voters(chosen), p);
    }
  }

  lemma LastPhaseOk(cfg: Config, w: World, h: Ledger, inst: Instance, step: Step, p: Proposal, chosen: seq<Answer>)
    requires AllJustified(w, h) && Intersecting(w)
    requires AnswersShow(h, inst.leader, step, p, chosen) && Voters(chosen) in w.quorums
    requires AllAtStep(Replies(chosen), step) && Phase(step) == 3 && step > ROUND_ONE_PHASE_ZERO
    requires Justified(w, h, inst.leader, step, p)
    ensures OutcomeOk(cfg, w, h, inst, step, PhaseDone(cfg.slot, inst.leader, step, p, Replies(chosen)))
  {
    SomePriorExists(w, h, inst.leader, step, p, chosen);
    var best := MaxProposalByKey(Priors(Replies(chosen))).value;
    GatheredLast(w, h, inst.leader, step, p, chosen, best);
    ContinueOk(cfg, w, h, inst, step, best);
  }

  lemma GatheredLast(w: World, h: Ledger, leader: Option<ReplicaId>, step: Step, p: Proposal, chosen: seq<Answer>,
                     best: Proposal)
    requires AllJustified(w, h)
    requires AnswersShow(h, leader, step, p, chosen) && Voters(chosen) in w.quorums
    requires AllAtStep(Replies(chosen), step) && Phase(step) == 3 && step > ROUND_ONE_PHASE_ZERO
    requires MaxProposalByKey(Priors(Replies(chosen))) == Some(best)
    ensures Justified(w, h, leader, step + 1, best)
  {
    QuorumGathered(h, leader, step, p, chosen, best);
    GatheredJustified(w, h, leader, step, Voters(chosen), best);
  }

  /** In phase three some reply always reports what the phase before it left. */
  lemma SomePriorExists(w: World, h: Ledger, leader: Option<ReplicaId>, step: Step, p: Proposal, chosen: seq<Answer>)
    requires Intersecting(w)
    requires AnswersShow(h, leader, step, p, chosen) && Voters(chosen) in w.quorums
    requires AllAtStep(Replies(chosen), step) && Phase(step) == 3
    requires Justified(w, h, leader, step, p)
    ensures MaxProposalByKey(Priors(Replies(chosen))).Some?
  {
    assert IsHeld(w, h, leader, step - 1, p);
    var x :| x in w.quorums && Held(h, x, leader, step - 1, p);
    var q := Meet(w, x, Voters(chosen));
    var k := VoterAnswer(chosen, q);
    AnswerPrior(h, leader, step, p, chosen, k);
    assert p in h.taken(q, step - 1);
    PriorsReported(Replies(chosen));
    assert Replies(chosen)[k].summary.priorAggregate.Some?;
  }

  lemma CatchUpOk(cfg: Config, w: World, h: Ledger, inst: Instance, step: Step, p: Proposal, chosen: seq<Answer>)
    requires AllJustified(w, h)
    requires AnswersShow(h, inst.leader, step, p, chosen)
    requires !AllAtStep(Replies(chosen), step)
    ensures OutcomeOk(cfg, w, h, inst, step, CatchUp(step, p, Replies(chosen)))
  {
    var replies := Replies(chosen);
    var j :| 0 <= j < |replies| && replies[j].summary.step != step;
    assert replies[j] == chosen[j].reply;
    var top := Highest(replies);
    var k :| 0 <= k < |replies| && replies[k] == top;
    assert replies[k] == chosen[k].reply;
    var q := top.recorder;
    assert top.summary.first.value in h.taken(q, top.summary.step);
    TakenIsJustified(w, h, q, inst.leader, top.summary.step, top.summary.first.value);
  }

  lemma PhaseDoneOk(cfg: Config, w: World, h: Ledger, inst: Instance, step: Step, p: Proposal, chosen: seq<Answer>)
    requires AllJustified(w, h) && Intersecting(w)
    requires AnswersShow(h, inst.leader, step, p, chosen) && Voters(chosen) in w.quorums
    requires AllAtStep(Replies(chosen), step) && MaySend(w, h, inst, step, p) && step >= ROUND_ONE_PHASE_ZERO
    ensures OutcomeOk(cfg, w, h, inst, step, PhaseDone(cfg.slot, inst.leader, step, p, Replies(chosen)))
  {
    if Phase(step) == 0 {
      PhaseZeroOk(cfg, w, h, inst, step, p, chosen);
    } else {
      HoldsJustified(w, h, inst, step, p);
      if Phase(step) == 3 {
        LastPhaseOk(cfg, w, h, inst, step, p, chosen);
      } else {
        MiddlePhasesOk(cfg, w, h, inst, step, p, chosen);
      }
    }
  }

  lemma ReportedOk(cfg: Config, w: World, h: Ledger, s: System, i: nat, chosen: seq<Answer>, d: Decision)
    requires Inv(cfg, w, h, s)
    requires forall k :: 0 <= k < |chosen| ==> chosen[k] in s.answers
    requires ReportedDecision(Replies(chosen)) == Some(d)
    ensures DecisionOk(cfg, w, h, d)
  {
    var replies := Replies(chosen);
    var k :| 0 <= k < |replies| && replies[k].decision == Some(d);
    assert replies[k] == chosen[k].reply;
    assert AnswerOk(cfg, h, s, chosen[k]);
  }

  lemma RunningStep(w: World, h: Ledger, inst: Instance, step: Step, p: Proposal)
    requires MaySend(w, h, inst, step, p)
    ensures step >= ROUND_ONE_PHASE_ZERO
  {
    assert Justified(w, h, inst.leader, step, ProposalToSend(inst.id, inst.leader, step, p, 1));
  }

  lemma AdvanceFrom(cfg: Config, w: World, h: Ledger, inst: Instance, step: Step, p: Proposal, chosen: seq<Answer>)
    requires AllJustified(w, h) && Intersecting(w)
    requires AnswersShow(h, inst.leader, step, p, chosen) && Voters(chosen) in w.quorums
    requires MaySend(w, h, inst, step, p)
    requires ReportedDecision(Replies(chosen)).Some? ==> DecisionOk(cfg, w, h, ReportedDecision(Replies(chosen)).value)
    ensures OutcomeOk(cfg, w, h, inst, step, Advance(cfg.slot, inst.leader, step, p, Replies(chosen)))
  {
    RunningStep(w, h, inst, step, p);
    if ReportedDecision(Replies(chosen)).Some? {
    } else if AllAtStep(Replies(chosen), step) {
      PhaseDoneOk(cfg, w, h, inst, step, p, chosen);
    } else {
      CatchUpOk(cfg, w, h, inst, step, p, chosen);
    }
  }

  /** Every iteration decides soundly, stops, or raises the step with a justified proposal. */
  lemma AdvanceOk(cfg: Config, w: World, h: Ledger, s: System, i: nat, chosen: seq<Answer>)
    requires Inv(cfg, w, h, s) && Intersecting(w)
    requires i in cfg.instances && WellFormed(cfg.instances[i].cluster)
    requires i in s.proposers && s.proposers[i].Running? && IsPhaseQuorum(cfg, s, i, chosen)
    requires Voters(chosen) in w.quorums
    ensures OutcomeOk(cfg, w, h, cfg.instances[i], s.proposers[i].step,
                      Advance(cfg.slot, cfg.instances[i].leader, s.proposers[i].step, s.proposers[i].proposal,
                          Replies(chosen)))
  {
    QuorumShows(cfg, w, h, s, i, chosen);
    assert ProposerOk(cfg, w, h, s, i);
    if ReportedDecision(Replies(chosen)).Some? {
      ReportedOk(cfg, w, h, s, i, chosen, ReportedDecision(Replies(chosen)).value);
    }
    AdvanceFrom(cfg, w, h, cfg.instances[i], s.proposers[i].step, s.proposers[i].proposal, chosen);
  }

  /** The proposer stops, with a decision or without one. */
  lemma StopsKeeps(cfg: Config, w: World, h: Ledger, s: System, i: nat, st: ProposerState, s': System)
    requires Inv(cfg, w, h, s) && i in cfg.instances
    requires !st.Running?
    requires s' == s.(proposers := s.proposers[i := st], decided := s'.decided)
    requires s.decided <= s'.decided && DecisionsOk(cfg, w, h, s')
    ensures Inv(cfg, w, h, s')
  {
    forall j | j in s'.proposers ensures ProposerOk(cfg, w, h, s', j) {
      assert j != i ==> ProposerOk(cfg, w, h, s, j);
    }
    forall e | e in s'.requests ensures RequestOk(cfg, w, h, s', e) {
      assert RequestOk(cfg, w, h, s, e);
    }
    forall a | a in s'.answers ensures AnswerOk(cfg, h, s', a) {
      assert AnswerOk(cfg, h, s, a);
    }
    forall q | q in s'.recorders ensures RecorderOk(cfg, s', q) {
      assert RecorderOk(cfg, s, q);
    }
  }

  lemma MovedKeeps(cfg: Config, w: World, h: Ledger, s: System, i: nat, outcome: Outcome, draws: map<ReplicaId, nat>)
    requires Inv(cfg, w, h, s) && i in cfg.instances && ValidDraws(cfg.instances[i], draws)
    requires i in s.proposers && s.proposers[i].Running? && s.proposers[i].step >= ROUND_ONE_PHASE_ZERO
    requires OutcomeOk(cfg, w, h, cfg.instances[i], s.proposers[i].step, outcome)
    ensures Inv(cfg, w, h, Moved(cfg, s, i, outcome, draws))
  {
    var s' := Moved(cfg, s, i, outcome, draws);
    match outcome
    case Decided(d) => StopsKeeps(cfg, w, h, s, i, Finished(d), s');
    case Failed(e) => StopsKeeps(cfg, w, h, s, i, Stopped(e), s');
    case Continue(step', p') =>
      JustifiedMaySend(w, h, cfg.instances[i], step', p');
      EntersStep(cfg, w, h, s, i, step', p', [], draws, s');
  }

  lemma CollectKeeps(cfg: Config, s: System, i: nat, chosen: seq<Answer>, draws: map<ReplicaId, nat>)
    requires ClustersAdjacent(cfg)
    requires Safe(cfg, s) && Enabled(cfg, s, Collect(i, chosen, draws))
    ensures Safe(cfg, Next(cfg, s, Collect(i, chosen, draws)))
  {
    var w, h := WorldOf(cfg), LedgerOf(s.histories);
    var inst, step, p := cfg.instances[i], s.proposers[i].step, s.proposers[i].proposal;
    ConfigQuorumsMeet(cfg);
    assert IsQuorum(cfg, Voters(chosen));
    AdvanceOk(cfg, w, h, s, i, chosen);
    assert ProposerOk(cfg, w, h, s, i);
    RunningStep(w, h, inst, step, p);
    MovedKeeps(cfg, w, h, s, i, Advance(cfg.slot, inst.leader, step, p, Replies(chosen)), draws);
  }

  // ----- Every run -----

  lemma DeliverKeeps(cfg: Config, s: System, e: Envelope, available: bool)
    requires Safe(cfg, s) && Enabled(cfg, s, Deliver(e, available))
    ensures Safe(cfg, Next(cfg, s, Deliver(e, available)))
  {
    if Record(s.recorders[e.to], e.request, available).1.Ok? {
      AcceptedKeeps(cfg, s, e, available);
    } else {
      RejectedKeeps(cfg, s, e, available);
    }
  }

  lemma NextKeeps(cfg: Config, s: System, a: Action)
    requires ClustersAdjacent(cfg)
    requires Safe(cfg, s) && Enabled(cfg, s, a)
    ensures Safe(cfg, Next(cfg, s, a))
  {
    match a
    case Begin(i, known, draws) => BeginKeeps(cfg, s, i, known, draws);
    case Environment(q, op) => EnvironmentKeeps(cfg, s, q, op);
    case Collect(i, chosen, draws) => CollectKeeps(cfg, s, i, chosen, draws);
    case Deliver(e, available) => DeliverKeeps(cfg, s, e, available);
  }

  lemma {:induction false} RunSafe(cfg: Config, start: System, actions: seq<Action>)
    requires ClustersAdjacent(cfg) && Initial(cfg, start)
    ensures Run(cfg, start, actions).Some? ==> Safe(cfg, Run(cfg, start, actions).value)
    decreases |actions|
  {
    if actions == [] {
      InitialSafe(cfg, start);
    } else {
      var before := Run(cfg, start, actions[..|actions| - 1]);
      var last := actions[|actions| - 1];
      RunSafe(cfg, start, actions[..|actions| - 1]);
      if before.Some? && Enabled(cfg, before.value, last) {
        NextKeeps(cfg, before.value, last);
      }
    }
  }

  /** The invariant holds in every reachable state. */
  lemma ReachableSafe(cfg: Config, s: System)
    requires ClustersAdjacent(cfg) && Reachable(cfg, s)
    ensures Safe(cfg, s)
  {
    var start, actions :| Initial(cfg, start) && Run(cfg, start, actions) == Some(s);
    RunSafe(cfg, start, actions);
  }

  // ----- The promises -----

  lemma DecisionChosen(cfg: Config, s: System, d: Decision) returns (leader: Option<ReplicaId>, p: Proposal)
    requires Safe(cfg, s) && d in s.decided
    ensures Chosen(WorldOf(cfg), LedgerOf(s.histories), leader, d.decidedStep, p)
    ensures d.values == p.values && d.proposer == p.key.proposer && d.slot == cfg.slot
  {
    assert DecisionOk(cfg, WorldOf(cfg), LedgerOf(s.histories), d);
    leader, p :| Chosen(WorldOf(cfg), LedgerOf(s.histories), leader, d.decidedStep, p)
                 && d.values == p.values && d.proposer == p.key.proposer;
  }

  /** Agreement: in every run any two decisions for the slot carry the same values and proposer. */
  lemma Agreement(cfg: Config, s: System, d: Decision, d': Decision)
    requires ValidConfig(cfg) && Reachable(cfg, s)
    requires d in s.decided && d' in s.decided
    ensures d.values == d'.values && d.proposer == d'.proposer && d.slot == d'.slot
  {
    ReachableSafe(cfg, s);
    OneChoice(cfg, s, d, d');
  }

  lemma OneChoice(cfg: Config, s: System, d: Decision, d': Decision)
    requires ClustersAdjacent(cfg) && KeysUnique(WorldOf(cfg)) && Safe(cfg, s)
    requires OneOpening(WorldOf(cfg), LedgerOf(s.histories))
    requires d in s.decided && d' in s.decided
    ensures d.values == d'.values && d.proposer == d'.proposer && d.slot == d'.slot
  {
    ConfigQuorumsMeet(cfg);
    var l, p := DecisionChosen(cfg, s, d);
    var l', p' := DecisionChosen(cfg, s, d');
    ChoicesAgree(WorldOf(cfg), LedgerOf(s.histories), l, d.decidedStep, p, l', d'.decidedStep, p');
  }

  lemma ChosenIsInput(w: World, h: Ledger, leader: Option<ReplicaId>, step: Step, p: Proposal)
    requires Intersecting(w) && AllJustified(w, h) && Chosen(w, h, leader, step, p)
    ensures IsInput(w, p)
  {
    var q := ChosenWasTaken(w, h, leader, step, p);
    TakenIsJustified(w, h, q, leader, step, p);
  }

  /** Validity: every decision is the input of some proposer. */
  lemma Validity(cfg: Config, s: System, d: Decision)
    requires ClustersAdjacent(cfg) && Reachable(cfg, s) && d in s.decided
    ensures exists i :: i in cfg.instances && cfg.instances[i].id == d.proposer && cfg.instances[i].values == d.values
  {
    ReachableSafe(cfg, s);
    ConfigQuorumsMeet(cfg);
    var l, p := DecisionChosen(cfg, s, d);
    ChosenIsInput(WorldOf(cfg), LedgerOf(s.histories), l, d.decidedStep, p);
    InputOfConfig(cfg, p);
  }

  lemma InputOfConfig(cfg: Config, p: Proposal)
    requires IsInput(WorldOf(cfg), p)
    ensures exists i ::
              i in cfg.instances && cfg.instances[i].id == p.key.proposer && cfg.instances[i].values == p.values
  {
    var a :| a in WorldOf(cfg).inputs && a.id == p.key.proposer && a.lane == p.key.lane && a.values == p.values;
    var i :| i in cfg.instances && a == InputOf(cfg.instances[i]);
    assert cfg.instances[i].id == p.key.proposer;
  }

  lemma FirstReported(replies: seq<RecordReply>, k: nat) returns (j: nat)
    requires k < |replies| && replies[k].decision.Some?
    ensures j <= k && replies[j].decision.Some? && forall i :: 0 <= i < j ==> replies[i].decision.None?
  {
    j := 0;
    while replies[j].decision.None?
      invariant j <= k && forall i :: 0 <= i < j ==> replies[i].decision.None?
      decreases k - j
    {
      j := j + 1;
    }
  }

  /**
   Adoption, over every run: a proposer whose quorum contains a reply with a decision is
   finished, with one of the reported decisions, which some proposer had made before.
   */
  lemma CollectAdopts(cfg: Config, s: System, i: nat, chosen: seq<Answer>, draws: map<ReplicaId, nat>, k: nat)
    returns (j: nat)
    requires ClustersAdjacent(cfg) && Reachable(cfg, s) && Enabled(cfg, s, Collect(i, chosen, draws))
    requires k < |chosen| && chosen[k].reply.decision.Some?
    ensures j < |chosen| && chosen[j].reply.decision.Some? && chosen[j].reply.decision.value in s.decided
    ensures Next(cfg, s, Collect(i, chosen, draws)).proposers[i] == Finished(chosen[j].reply.decision.value)
  {
    ReachableSafe(cfg, s);
    var replies := Replies(chosen);
    assert replies[k] == chosen[k].reply;
    j := FirstReported(replies, k);
    assert replies[j] == chosen[j].reply;
    assert AnswerOk(cfg, LedgerOf(s.histories), s, chosen[j]);
    assert DecisionOk(cfg, WorldOf(cfg), LedgerOf(s.histories), chosen[j].reply.decision.value);
    AdoptsReported(cfg.slot, cfg.instances[i].leader, s.proposers[i].step, s.proposers[i].proposal, replies, j);
  }

  /** A recorder that holds a decision for the slot reports it with every answer it gives. */
  lemma StoredIsAnswered(cfg: Config, s: System, e: Envelope, available: bool)
    requires ClustersAdjacent(cfg) && Reachable(cfg, s) && Enabled(cfg, s, Deliver(e, available))
    requires Record(s.recorders[e.to], e.request, available).1.Ok? && cfg.slot in s.recorders[e.to].decisions
    ensures var reply := Record(s.recorders[e.to], e.request, available).1.value;
            && Answer(e.instance, e.request, reply) in Next(cfg, s, Deliver(e, available)).answers
            && reply.decision == Some(s.recorders[e.to].decisions[cfg.slot])
  {
    RequestForSlot(cfg, s, e);
    RecordReports(s.recorders[e.to], e.request, available);
    DeliveryAnswers(s, e, available);
  }

  lemma RequestForSlot(cfg: Config, s: System, e: Envelope)
    requires ClustersAdjacent(cfg) && Reachable(cfg, s) && e in s.requests && e.to in s.recorders
    ensures e.request.slot == cfg.slot && e.to in s.histories
  {
    ReachableSafe(cfg, s);
    assert RequestOk(cfg, WorldOf(cfg), LedgerOf(s.histories), s, e);
    assert RecorderOk(cfg, s, e.to);
  }

  lemma DeliveryAnswers(s: System, e: Envelope, available: bool)
    requires e.to in s.recorders && e.to in s.histories && Record(s.recorders[e.to], e.request, available).1.Ok?
    ensures Answer(e.instance, e.request, Record(s.recorders[e.to], e.request, available).1.value)
            in Delivered(s, e, available).answers
  {
  }

  /** A request that opens a round carries the reserved priority exactly if the leader opens the first round. */
  predicate PriorityOk(cfg: Config, e: Envelope) {
    && e.instance in cfg.instances
    && (Phase(e.request.step) == 0 ==>
          (e.request.proposal.key.priority == LEADER_PRIORITY <==>
             e.request.step == ROUND_ONE_PHASE_ZERO
             && cfg.instances[e.instance].leader == Some(cfg.instances[e.instance].id)))
  }

  lemma BroadcastPriorities(cfg: Config, i: nat, step: Step, p: Proposal, known: seq<Decision>,
                            draws: map<ReplicaId, nat>)
    requires i in cfg.instances && ValidDraws(cfg.instances[i], draws) && step >= ROUND_ONE_PHASE_ZERO
    requires step == ROUND_ONE_PHASE_ZERO ==> p == InitialProposal(cfg.instances[i])
    ensures forall e :: e in Broadcast(cfg, i, step, p, known, draws) ==> PriorityOk(cfg, e)
  {
  }

  lemma CollectRaises(cfg: Config, s: System, i: nat, chosen: seq<Answer>, draws: map<ReplicaId, nat>)
    requires ClustersAdjacent(cfg) && Safe(cfg, s) && Enabled(cfg, s, Collect(i, chosen, draws))
    ensures var st := s.proposers[i];
            var o := Advance(cfg.slot, cfg.instances[i].leader, st.step, st.proposal, Replies(chosen));
            o.Continue? ==> o.step > ROUND_ONE_PHASE_ZERO
  {
    var w, h := WorldOf(cfg), LedgerOf(s.histories);
    ConfigQuorumsMeet(cfg);
    assert IsQuorum(cfg, Voters(chosen));
    AdvanceOk(cfg, w, h, s, i, chosen);
    assert ProposerOk(cfg, w, h, s, i);
    RunningStep(w, h, cfg.instances[i], s.proposers[i].step, s.proposers[i].proposal);
  }

  lemma NextPriorities(cfg: Config, s: System, a: Action)
    requires ClustersAdjacent(cfg) && Safe(cfg, s) && Enabled(cfg, s, a)
    requires forall e :: e in s.requests ==> PriorityOk(cfg, e)
    ensures forall e :: e in Next(cfg, s, a).requests ==> PriorityOk(cfg, e)
  {
    match a
    case Begin(i, known, draws) =>
      BroadcastPriorities(cfg, i, ROUND_ONE_PHASE_ZERO, InitialProposal(cfg.instances[i]), known, draws);
    case Collect(i, chosen, draws) =>
      CollectRaises(cfg, s, i, chosen, draws);
      MovedPriorities(cfg, s, i, draws,
                      Advance(cfg.slot, cfg.instances[i].leader, s.proposers[i].step, s.proposers[i].proposal,
                              Replies(chosen)));
    case Deliver(e, available) => assert Next(cfg, s, a).requests == s.requests;
    case Environment(q, op) => assert Next(cfg, s, a).requests == s.requests;
  }

  lemma MovedPriorities(cfg: Config, s: System, i: nat, draws: map<ReplicaId, nat>, o: Outcome)
    requires i in cfg.instances && ValidDraws(cfg.instances[i], draws)
    requires o.Continue? ==> o.step > ROUND_ONE_PHASE_ZERO
    requires forall e :: e in s.requests ==> PriorityOk(cfg, e)
    ensures forall e :: e in Moved(cfg, s, i, o, draws).requests ==> PriorityOk(cfg, e)
  {
    if o.Continue? {
      BroadcastPriorities(cfg, i, o.step, o.proposal, [], draws);
    }
  }

  lemma {:induction false} RunPriorities(cfg: Config, start: System, actions: seq<Action>)
    requires ClustersAdjacent(cfg) && Initial(cfg, start)
    ensures var s := Run(cfg, start, actions); s.Some? ==> forall e :: e in s.value.requests ==> PriorityOk(cfg, e)
    decreases |actions|
  {
    if actions != [] {
      var before, last := Run(cfg, start, actions[..|actions| - 1]), actions[|actions| - 1];
      RunPriorities(cfg, start, actions[..|actions| - 1]);
      if before.Some? && Enabled(cfg, before.value, last) {
        RunSafe(cfg, start, actions[..|actions| - 1]);
        NextPriorities(cfg, before.value, last);
      }
    }
  }

  /** In every run a round is opened with the reserved priority by the leader in round one, and by nobody else. */
  lemma ReservedPriorityExactly(cfg: Config, s: System, e: Envelope)
    requires ClustersAdjacent(cfg) && Reachable(cfg, s) && e in s.requests && Phase(e.request.step) == 0
    ensures e.instance in cfg.instances
    ensures e.request.proposal.key.priority == LEADER_PRIORITY <==>
              && e.request.step == ROUND_ONE_PHASE_ZERO
              && cfg.instances[e.instance].leader == Some(cfg.instances[e.instance].id)
  {
    var start, actions :| Initial(cfg, start) && Run(cfg, start, actions) == Some(s);
    RunPriorities(cfg, start, actions);
    assert PriorityOk(cfg, e);
  }

  /** Lock-in, over every run: from the locked step on, everything anyone ever sent carries the decision. */
  lemma SentAfterDecision(cfg: Config, s: System, d: Decision, e: Envelope)
    requires ValidConfig(cfg) && Reachable(cfg, s)
    requires d in s.decided && e in s.requests && e.request.step >= LockedFrom(d.decidedStep)
    ensures e.request.proposal.values == d.values && e.request.proposal.key.proposer == d.proposer
  {
    ReachableSafe(cfg, s);
    ConfigQuorumsMeet(cfg);
    var w, h := WorldOf(cfg), LedgerOf(s.histories);
    var l, p := DecisionChosen(cfg, s, d);
    assert RequestOk(cfg, w, h, s, e);
    LockIn(w, h, l, d.decidedStep, p, e.request.step, e.request.leader, e.request.proposal);
  }

  /** The same of everything any recorder ever took. */
  lemma RecordedAfterDecision(cfg: Config, s: System, d: Decision, q: ReplicaId, step: Step, p': Proposal)
    requires ValidConfig(cfg) && Reachable(cfg, s)
    requires d in s.decided && step >= LockedFrom(d.decidedStep) && p' in LedgerOf(s.histories).taken(q, step)
    ensures p'.values == d.values && p'.key.proposer == d.proposer
  {
    ReachableSafe(cfg, s);
    ConfigQuorumsMeet(cfg);
    var w, h := WorldOf(cfg), LedgerOf(s.histories);
    var l, p := DecisionChosen(cfg, s, d);
    assert TookJustified(w, h, q, step, p');
    LockIn(w, h, l, d.decidedStep, p, step, h.bound(q).value, p');
  }

  /**
   A phase-two decision is a proposal that some recorder took at its step, and it has the
   greatest key of everything anyone ever sent or any recorder ever took at that step.
   */
  lemma DecisionHasGreatestKey(cfg: Config, s: System, d: Decision) returns (q: ReplicaId, p: Proposal)
    requires ClustersAdjacent(cfg) && Reachable(cfg, s)
    requires d in s.decided && d.decidedStep > ROUND_ONE_PHASE_ZERO
    ensures p in LedgerOf(s.histories).taken(q, d.decidedStep)
    ensures p.values == d.values && p.key.proposer == d.proposer
    ensures forall e :: e in s.requests && e.request.step == d.decidedStep ==> KeyLe(e.request.proposal.key, p.key)
    ensures forall r, x :: x in LedgerOf(s.histories).taken(r, d.decidedStep) ==> KeyLe(x.key, p.key)
  {
    ReachableSafe(cfg, s);
    ConfigQuorumsMeet(cfg);
    var w, h := WorldOf(cfg), LedgerOf(s.histories);
    var l;
    l, p := DecisionChosen(cfg, s, d);
    q := ChosenWasTaken(w, h, l, d.decidedStep, p);
    forall e | e in s.requests && e.request.step == d.decidedStep ensures KeyLe(e.request.proposal.key, p.key) {
      assert RequestOk(cfg, w, h, s, e);
      DecisionIsMaximal(w, h, l, d.decidedStep, p, e.request.leader, e.request.proposal);
    }
    forall r, x | x in h.taken(r, d.decidedStep) ensures KeyLe(x.key, p.key) {
      assert TookJustified(w, h, r, d.decidedStep, x);
      DecisionIsMaximal(w, h, l, d.decidedStep, p, h.bound(r).value, x);
    }
  }

  // ----- Divergent schedules -----

  /** A quorum of answers to one proposer's requests of one step, whenever they arrived. */
  predicate CompletedPhase(cfg: Config, s: System, i: nat, step: Step, chosen: seq<Answer>) {
    && i in cfg.instances && WellFormed(cfg.instances[i].cluster)
    && (forall k :: 0 <= k < |chosen| ==>
          && chosen[k] in s.answers && chosen[k].instance == i && chosen[k].request.step == step
          && chosen[k].reply.cluster == cfg.instances[i].cluster)
    && HasQuorum(cfg.instances[i].cluster, Voters(chosen))
  }

  lemma CompletedBound(cfg: Config, s: System, i: nat, step: Step, chosen: seq<Answer>, q: ReplicaId)
    requires Safe(cfg, s) && CompletedPhase(cfg, s, i, step, chosen) && q in Voters(chosen)
    ensures Bound(LedgerOf(s.histories), q, cfg.instances[i].leader)
  {
    var k := VoterAnswer(chosen, q);
    assert AnswerOk(cfg, LedgerOf(s.histories), s, chosen[k]);
  }

  /** Proposers may disagree on the leader, but all that complete any phase agree on it. */
  lemma OneLeaderCompletes(cfg: Config, s: System, i: nat, step: Step, chosen: seq<Answer>,
                           j: nat, step': Step, chosen': seq<Answer>)
    requires ClustersAdjacent(cfg) && Reachable(cfg, s)
    requires CompletedPhase(cfg, s, i, step, chosen) && CompletedPhase(cfg, s, j, step', chosen')
    ensures cfg.instances[i].leader == cfg.instances[j].leader
  {
    ReachableSafe(cfg, s);
    QuorumsMeet(cfg.instances[i].cluster, cfg.instances[j].cluster, Voters(chosen), Voters(chosen'));
    var q :| q in Voters(chosen) && q in Voters(chosen');
    CompletedBound(cfg, s, i, step, chosen, q);
    CompletedBound(cfg, s, j, step', chosen', q);
  }

  /** Among the voters of all completed phases at most one reserved-priority choice was ever recorded. */
  lemma OneReservedChoice(cfg: Config, s: System, i: nat, step: Step, chosen: seq<Answer>,
                          j: nat, step': Step, chosen': seq<Answer>,
                          q: ReplicaId, p: Proposal, q': ReplicaId, p': Proposal)
    requires ClustersAdjacent(cfg) && LeadersUnique(WorldOf(cfg)) && Reachable(cfg, s)
    requires CompletedPhase(cfg, s, i, step, chosen) && CompletedPhase(cfg, s, j, step', chosen')
    requires q in Voters(chosen) && p in LedgerOf(s.histories).taken(q, ROUND_ONE_PHASE_ZERO)
    requires q' in Voters(chosen') && p' in LedgerOf(s.histories).taken(q', ROUND_ONE_PHASE_ZERO)
    requires p.key.priority == LEADER_PRIORITY && p'.key.priority == LEADER_PRIORITY
    ensures SameChoice(p, p') && cfg.instances[i].leader == Some(p.key.proposer)
  {
    ReachableSafe(cfg, s);
    var w, h, leader := WorldOf(cfg), LedgerOf(s.histories), cfg.instances[i].leader;
    OneLeaderCompletes(cfg, s, i, step, chosen, j, step', chosen');
    CompletedBound(cfg, s, i, step, chosen, q);
    CompletedBound(cfg, s, j, step', chosen', q');
    TakenIsJustified(w, h, q, leader, ROUND_ONE_PHASE_ZERO, p);
    TakenIsJustified(w, h, q', leader, ROUND_ONE_PHASE_ZERO, p');
    ReservedOpenings(w, leader, p, p');
  }

  lemma ReservedOpenings(w: World, leader: Option<ReplicaId>, p: Proposal, p': Proposal)
    requires LeadersUnique(w) && IsOpening(w, leader, p) && IsOpening(w, leader, p')
    requires p.key.priority == LEADER_PRIORITY && p'.key.priority == LEADER_PRIORITY
    ensures SameChoice(p, p') && leader == Some(p.key.proposer)
  {
  }
}
