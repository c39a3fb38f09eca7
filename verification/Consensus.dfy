/**
 Single-slot consensus among any number of proposers and recorders over a network
 that may lose, delay, duplicate and reorder every message.

 The recorders are complete recorders. Whatever else they do (other slots, told
 decisions, pruning, membership installs) happens as an environment action, so a run
 here is any run of the cluster seen from one slot.
 */
module Consensus {
  import opened Types
  import opened IntervalRegister
  import opened Membership
  import opened Recorder
  import opened ProposerRules
  import opened Evidence

  /** One call of `propose` for the slot. */
  datatype Instance = Instance(
    id: ReplicaId,
    lane: LaneId,
    leader: Option<ReplicaId>,
    values: seq<Value>,
    cluster: Cluster)

  datatype Config = Config(slot: Slot, instances: map<nat, Instance>)

  datatype ProposerState =
    | Running(step: Step, proposal: Proposal)
    | Finished(decision: Decision)
    | Stopped(error: Error)

  /** A request on its way to one recorder. */
  datatype Envelope = Envelope(instance: nat, to: ReplicaId, request: RecordRequest)

  /** A reply on its way back, together with the request it answers. */
  datatype Answer = Answer(instance: nat, request: RecordRequest, reply: RecordReply)

  /** Every call a recorder ever accepted for the slot, and the leader the last one carried. */
  datatype History = History(calls: seq<Call>, leader: Option<ReplicaId>)

  datatype System = System(
    recorders: map<ReplicaId, RecorderState>,
    histories: map<ReplicaId, History>,
    proposers: map<nat, ProposerState>,
    requests: set<Envelope>,
    answers: set<Answer>,
    decided: set<Decision>)

  datatype Action =
    | Begin(instance: nat, known: seq<Decision>, draws: map<ReplicaId, nat>)
    | Deliver(envelope: Envelope, available: bool)
    | Environment(recorder: ReplicaId, op: Op)
    | Collect(instance: nat, chosen: seq<Answer>, draws: map<ReplicaId, nat>)

  // ----- Steps -----

  function InitialProposal(inst: Instance): Proposal {
    Proposal(Key(LEADER_PRIORITY, inst.id, inst.lane), inst.values)
  }

  /** A private priority for every recorder, below the reserved one. */
  predicate ValidDraws(inst: Instance, draws: map<ReplicaId, nat>) {
    forall q :: q in inst.cluster.members ==> q in draws && 1 <= draws[q] < LEADER_PRIORITY
  }

  function RequestTo(cfg: Config, inst: Instance, step: Step, p: Proposal, known: seq<Decision>, draw: nat)
    : RecordRequest
  {
    RecordRequest(inst.id, cfg.slot, inst.leader, step, ProposalToSend(inst.id, inst.leader, step, p, draw), known)
  }

  /** The requests of one loop iteration, one for each recorder of the configuration. */
  function Broadcast(cfg: Config, i: nat, step: Step, p: Proposal, known: seq<Decision>, draws: map<ReplicaId, nat>)
    : set<Envelope>
    requires i in cfg.instances && ValidDraws(cfg.instances[i], draws)
  {
    set q | q in cfg.instances[i].cluster.members ::
      Envelope(i, q, RequestTo(cfg, cfg.instances[i], step, p, known, draws[q]))
  }

  /** Decisions passed around for this slot are decisions some proposer made. */
  predicate Honest(cfg: Config, s: System, ds: seq<Decision>) {
    forall d :: d in ds && d.slot == cfg.slot ==> d in s.decided
  }

  function Replies(chosen: seq<Answer>): seq<RecordReply> {
    seq(|chosen|, k requires 0 <= k < |chosen| => chosen[k].reply)
  }

  function Voters(chosen: seq<Answer>): set<ReplicaId> {
    set k | 0 <= k < |chosen| :: chosen[k].reply.recorder
  }

  /** A quorum of answers to the requests of the proposer's current iteration. */
  predicate IsPhaseQuorum(cfg: Config, s: System, i: nat, chosen: seq<Answer>)
    requires i in cfg.instances && WellFormed(cfg.instances[i].cluster)
    requires i in s.proposers && s.proposers[i].Running?
  {
    && (forall k :: 0 <= k < |chosen| ==>
          && chosen[k] in s.answers
          && chosen[k].instance == i
          && chosen[k].request.step == s.proposers[i].step
          && chosen[k].reply.cluster == cfg.instances[i].cluster)
    && (forall j, k :: 0 <= j < k < |chosen| ==> chosen[j].reply.recorder != chosen[k].reply.recorder)
    && HasQuorum(cfg.instances[i].cluster, Voters(chosen))
  }

  predicate Enabled(cfg: Config, s: System, a: Action) {
    match a
    case Begin(i, known, draws) =>
      && i in cfg.instances && i !in s.proposers
      && cfg.instances[i].values != []
      && ValidDraws(cfg.instances[i], draws)
      && Honest(cfg, s, known)
    case Deliver(e, available) => e in s.requests && e.to in s.recorders
    case Environment(q, op) =>
      && q in s.recorders
      && (op.OpRecord? ==> op.request.slot != cfg.slot && Honest(cfg, s, op.request.known))
      && (op.OpInform? ==> Honest(cfg, s, op.decisions))
    case Collect(i, chosen, draws) =>
      && i in cfg.instances && WellFormed(cfg.instances[i].cluster)
      && i in s.proposers && s.proposers[i].Running?
      && ValidDraws(cfg.instances[i], draws)
      && IsPhaseQuorum(cfg, s, i, chosen)
  }

  function Next(cfg: Config, s: System, a: Action): System
    requires Enabled(cfg, s, a)
  {
    match a
    case Begin(i, known, draws) => Started(cfg, s, i, known, draws)
    case Deliver(e, available) => Delivered(s, e, available)
    case Environment(q, op) => s.(recorders := s.recorders[q := Apply(s.recorders[q], op).0])
    case Collect(i, chosen, draws) =>
      var st := s.proposers[i];
      Moved(cfg, s, i, Advance(cfg.slot, cfg.instances[i].leader, st.step, st.proposal, Replies(chosen)), draws)
  }

  function Started(cfg: Config, s: System, i: nat, known: seq<Decision>, draws: map<ReplicaId, nat>): System
    requires i in cfg.instances && ValidDraws(cfg.instances[i], draws)
  {
    var p := InitialProposal(cfg.instances[i]);
    s.(proposers := s.proposers[i := Running(ROUND_ONE_PHASE_ZERO, p)],
       requests := s.requests + Broadcast(cfg, i, ROUND_ONE_PHASE_ZERO, p, known, draws))
  }

  function Delivered(s: System, e: Envelope, available: bool): System
    requires e.to in s.recorders
  {
    var r := Record(s.recorders[e.to], e.request, available);
    var told := s.(recorders := s.recorders[e.to := r.0]);
    if r.1.Err? || e.to !in s.histories then told
    else
      var call := Call(e.request.step, e.request.proposal);
      told.(histories := s.histories[e.to := History(s.histories[e.to].calls + [call], e.request.leader)],
            answers := s.answers + {Answer(e.instance, e.request, r.1.value)})
  }

  function Moved(cfg: Config, s: System, i: nat, outcome: Outcome, draws: map<ReplicaId, nat>): System
    requires i in cfg.instances && ValidDraws(cfg.instances[i], draws)
  {
    match outcome
    case Decided(d) => s.(proposers := s.proposers[i := Finished(d)], decided := s.decided + {d})
    case Failed(e) => s.(proposers := s.proposers[i := Stopped(e)])
    case Continue(step, p) =>
      s.(proposers := s.proposers[i := Running(step, p)],
         requests := s.requests + Broadcast(cfg, i, step, p, [], draws))
  }

  // ----- Runs -----

  /** No proposer has started; the recorders have done nothing for this slot. */
  predicate Initial(cfg: Config, s: System) {
    && s.histories.Keys == s.recorders.Keys
    && (forall q :: q in s.recorders ==>
          && s.recorders[q].id == q
          && cfg.slot !in s.recorders[q].slots
          && cfg.slot !in s.recorders[q].leaders
          && cfg.slot !in s.recorders[q].decisions
          && s.histories[q].calls == [])
    && s.proposers == map[] && s.requests == {} && s.answers == {} && s.decided == {}
  }

  /** The state after a list of actions, if each was enabled in turn. */
  function Run(cfg: Config, start: System, actions: seq<Action>): Option<System>
    decreases |actions|
  {
    if actions == [] then Some(start)
    else
      var before := Run(cfg, start, actions[..|actions| - 1]);
      var last := actions[|actions| - 1];
      if before.Some? && Enabled(cfg, before.value, last) then Some(Next(cfg, before.value, last)) else None
  }

  /** The state is reached by some run. */
  ghost predicate Reachable(cfg: Config, s: System) {
    exists start, actions :: Initial(cfg, start) && Run(cfg, start, actions) == Some(s)
  }

  // ----- What a run shows -----

  function LedgerOf(histories: map<ReplicaId, History>): Ledger {
    Ledger(
      (q: ReplicaId, step: Step) => if q in histories then Taken(histories[q].calls, step) else [],
      (q: ReplicaId) => if q in histories then Top(histories[q].calls) else 0,
      (q: ReplicaId) => if q in histories && histories[q].calls != [] then Some(histories[q].leader) else None)
  }

  function InputOf(inst: Instance): Input {
    Input(inst.id, inst.lane, inst.leader, inst.values)
  }

  ghost predicate IsQuorum(cfg: Config, voters: set<ReplicaId>) {
    exists i :: i in cfg.instances && WellFormed(cfg.instances[i].cluster)
        && HasQuorum(cfg.instances[i].cluster, voters)
  }

  /** The quorums and inputs of all the slot's proposers. */
  ghost function WorldOf(cfg: Config): World {
    World(iset voters: set<ReplicaId> | IsQuorum(cfg, voters), set i | i in cfg.instances :: InputOf(cfg.instances[i]))
  }

  // ----- What the callers owe -----

  /** Proposers of the slot work in the same or in neighbouring configurations. */
  predicate ClustersAdjacent(cfg: Config) {
    && (forall i :: i in cfg.instances ==> WellFormed(cfg.instances[i].cluster))
    && (forall i, j :: i in cfg.instances && j in cfg.instances
                       ==> Adjacent(cfg.instances[i].cluster, cfg.instances[j].cluster))
  }

  /** A replica and a lane propose one value list for the slot, and so does a leader over all its lanes. */
  ghost predicate ValidConfig(cfg: Config) {
    ClustersAdjacent(cfg) && KeysUnique(WorldOf(cfg)) && LeadersUnique(WorldOf(cfg))
  }

  lemma ConfigQuorumsMeet(cfg: Config)
    requires ClustersAdjacent(cfg)
    ensures Intersecting(WorldOf(cfg))
  {
    forall x, y | IsQuorum(cfg, x) && IsQuorum(cfg, y) ensures exists q :: q in x && q in y {
      var i :| i in cfg.instances && WellFormed(cfg.instances[i].cluster) && HasQuorum(cfg.instances[i].cluster, x);
      var j :| j in cfg.instances && WellFormed(cfg.instances[j].cluster) && HasQuorum(cfg.instances[j].cluster, y);
      QuorumsMeet(cfg.instances[i].cluster, cfg.instances[j].cluster, x, y);
    }
  }
}
