/**
 Whole attempts of any number of programs over one network: every batch, every wait for
 a quorum and every turn of their loops, interleaved in any way with deliveries and with
 whatever else the recorders do. Each such run is a run of the protocol, so the results
 that `propose` returns agree.
 */
module ProposerRuns {
  import opened Types
  import opened Membership
  import opened Recorder
  import opened ProposerRules
  import opened Consensus
  import ConsensusSafety
  import opened ProposerRefinement
  import C = Collector
  import P = Proposer

  /** One call of `propose`, and the recorders it talks to. */
  datatype Client = Client(attempt: P.Attempt, handles: seq<ReplicaId>)

  /** The network and the recorders, and what each client that has started was answered so far. */
  datatype Network = Network(system: System, answers: map<nat, seq<Result<seq<RecordReply>>>>)

  datatype Move =
    | Launch(i: nat, draws: seq<nat>)
    | Wire(action: Action)
    | Quorum(i: nat, arrivals: seq<C.Arrival>, launched: nat, exhausted: Error, n: nat, replies: seq<RecordReply>,
        draws: seq<nat>)
    | GiveUp(i: nat, error: Error)

  /** The client works on the instance: the same arguments, and exactly the recorders of its configuration. */
  predicate Mirrors(cfg: Config, i: nat, client: Client) {
    && i in cfg.instances && WellFormed(cfg.instances[i].cluster)
    && var inst, a := cfg.instances[i], client.attempt;
    && a.id == inst.id && a.slot == cfg.slot && a.leader == inst.leader
    && a.start == P.Start(a.maxSteps, inst.id, inst.lane, inst.values)
    && Distinct(client.handles) && Elements(client.handles) == Elements(inst.cluster.members)
  }

  predicate AllMirror(cfg: Config, clients: map<nat, Client>) {
    forall i :: i in clients ==> Mirrors(cfg, i, clients[i])
  }

  predicate Drawn(client: Client, draws: seq<nat>) {
    |draws| == |client.handles| && forall j :: 0 <= j < |draws| ==> 1 <= draws[j] < LEADER_PRIORITY
  }

  /** Where a client is. */
  function Now(clients: map<nat, Client>, w: Network, i: nat): P.Progress
    requires i in clients && i in w.answers
  {
    P.After(clients[i].attempt, w.answers[i])
  }

  ghost predicate Possible(cfg: Config, clients: map<nat, Client>, w: Network, m: Move) {
    match m
    case Launch(i, draws) =>
      && i in clients && i !in w.answers && i !in w.system.proposers && clients[i].attempt.start.Asking?
      && Drawn(clients[i], draws) && Honest(cfg, w.system, clients[i].attempt.known)
    case Wire(action) => (action.Deliver? || action.Environment?) && Enabled(cfg, w.system, action)
    case Quorum(i, arrivals, launched, exhausted, n, replies, draws) =>
      && i in clients && i in w.answers && Drawn(clients[i], draws) && i in cfg.instances
      && Now(clients, w, i).Asking? && AnswersOf(w.system, i, Now(clients, w, i).step, arrivals)
      && var c := cfg.instances[i].cluster;
      && WellFormed(c) && C.Returns(arrivals, launched, QuorumSize(c), Some(c), exhausted, n, Ok(replies))
    case GiveUp(i, _) => i in clients && i in w.answers && Now(clients, w, i).Asking?
  }

  /** What a client does on entering a turn: it sends its batch, one request to each handle. */
  function Enters(s: System, i: nat, client: Client, step: Step, p: Proposal, first: bool, draws: seq<nat>): System
    requires |draws| == |client.handles|
  {
    s.(proposers := s.proposers[i := Running(step, p)],
       requests := s.requests + Addressed(i, client.handles, P.Batch(client.attempt, step, p, first, draws)))
  }

  function Moves(s: System, i: nat, client: Client, now: P.Progress, draws: seq<nat>): System
    requires |draws| == |client.handles|
  {
    match now
    case Asking(step, p) => Enters(s, i, client, step, p, false, draws)
    case Done(Ok(d)) => s.(proposers := s.proposers[i := Finished(d)], decided := s.decided + {d})
    case Done(Err(_)) => s
  }

  ghost function Played(cfg: Config, clients: map<nat, Client>, w: Network, m: Move): Network
    requires Possible(cfg, clients, w, m)
  {
    match m
    case Launch(i, draws) =>
      var start := clients[i].attempt.start;
      Network(Enters(w.system, i, clients[i], start.step, start.proposal, true, draws), w.answers[i := []])
    case Wire(action) => w.(system := Next(cfg, w.system, action))
    case Quorum(i, _, _, _, _, replies, draws) =>
      var answers := w.answers[i] + [Ok(replies)];
      Network(Moves(w.system, i, clients[i], P.After(clients[i].attempt, answers), draws), w.answers[i := answers])
    case GiveUp(i, error) => w.(answers := w.answers[i := w.answers[i] + [Err(error)]])
  }

  /** The world after a list of moves, if each was possible in turn. */
  ghost function Ran(cfg: Config, clients: map<nat, Client>, start: System, moves: seq<Move>): Option<Network> {
    if moves == [] then Some(Network(start, map[]))
    else
      var before, last := Ran(cfg, clients, start, moves[..|moves| - 1]), moves[|moves| - 1];
      if before.Some? && Possible(cfg, clients, before.value, last) then
          Some(Played(cfg, clients, before.value, last)) else None
  }

  // ----- Each move is a step of the protocol -----

  /** The protocol has reached this state, and its proposers are where the clients are. */
  ghost predicate Tracks(cfg: Config, clients: map<nat, Client>, w: Network) {
    && Reachable(cfg, w.system)
    && w.system.proposers.Keys == w.answers.Keys
    && forall i :: i in w.answers ==> i in clients && Follows(w.system, i, Now(clients, w, i))
  }

  lemma ReachableNext(cfg: Config, s: System, a: Action)
    requires Reachable(cfg, s) && Enabled(cfg, s, a)
    ensures Reachable(cfg, Next(cfg, s, a))
  {
    var start, actions :| Initial(cfg, start) && Run(cfg, start, actions) == Some(s);
    assert (actions + [a])[..|actions|] == actions;
    assert Run(cfg, start, actions + [a]) == Some(Next(cfg, s, a));
  }

  /** Launching is the protocol's begin action. */
  lemma LaunchIsBegin(cfg: Config, clients: map<nat, Client>, w: Network, i: nat, draws: seq<nat>)
    requires AllMirror(cfg, clients) && Possible(cfg, clients, w, Launch(i, draws))
    ensures var a := Begin(i, clients[i].attempt.known, DrawnFor(clients[i].handles, draws));
            Enabled(cfg, w.system, a) && Played(cfg, clients, w, Launch(i, draws)).system == Next(cfg, w.system, a)
  {
    var client, start := clients[i], clients[i].attempt.start;
    assert Mirrors(cfg, i, client);
    BatchIsBroadcast(cfg, i, client.attempt, client.handles, start.step, start.proposal, true, draws);
  }

  /** Unless it ends in an error, a turn changes the system as the protocol does. */
  lemma MovesAsProtocol(cfg: Config, s: System, i: nat, client: Client, outcome: Outcome, draws: seq<nat>)
    requires Mirrors(cfg, i, client) && Drawn(client, draws)
    ensures ValidDraws(cfg.instances[i], DrawnFor(client.handles, draws))
    ensures var next := P.Resume(client.attempt.maxSteps, outcome);
            next.Asking? || next.result.Ok? ==>
              Moves(s, i, client, next, draws) == Consensus.Moved(cfg, s, i, outcome, DrawnFor(client.handles, draws))
  {
    var step, p := if outcome.Continue? then outcome.step else 0, if outcome.Continue? then outcome.proposal
      else InitialProposal(cfg.instances[i]);
    BatchIsBroadcast(cfg, i, client.attempt, client.handles, step, p, false, draws);
  }

  lemma TurnEndsOrMoves(clients: map<nat, Client>, w: Network, m: Move)
    requires m.Quorum? && m.i in clients && m.i in w.answers && Now(clients, w, m.i).Asking?
    ensures var a, now := clients[m.i].attempt, Now(clients, w, m.i);
            P.After(a, w.answers[m.i] + [Ok(m.replies)])
            == P.Resume(a.maxSteps, Advance(a.slot, a.leader, now.step, now.proposal, m.replies))
  {
    var answers := w.answers[m.i] + [Ok(m.replies)];
    assert answers[..|answers| - 1] == w.answers[m.i];
  }

  /** Collecting a quorum is the protocol's collect action, unless the turn ends the attempt with an error. */
  lemma QuorumIsCollect(cfg: Config, clients: map<nat, Client>, s: System, i: nat, now: P.Progress, m: Move)
    returns (chosen: seq<Answer>)
    requires m.Quorum? && i in clients && Mirrors(cfg, i, clients[i]) && Drawn(clients[i], m.draws)
    requires now.Asking? && Follows(s, i, now) && AnswersOf(s, i, now.step, m.arrivals)
    requires var c := cfg.instances[i].cluster;
             C.Returns(m.arrivals, m.launched, QuorumSize(c), Some(c), m.exhausted, m.n, Ok(m.replies))
    ensures var next := P.Resume(clients[i].attempt.maxSteps,
            Advance(cfg.slot, cfg.instances[i].leader, now.step, now.proposal, m.replies));
            var a := Collect(i, chosen, DrawnFor(clients[i].handles, m.draws));
            && Enabled(cfg, s, a)
            && (next.Asking? || next.result.Ok? ==> Moves(s, i, clients[i], next, m.draws) == Next(cfg, s, a))
  {
    var outcome := Advance(cfg.slot, cfg.instances[i].leader, now.step, now.proposal, m.replies);
    MovesAsProtocol(cfg, s, i, clients[i], outcome, m.draws);
    chosen := CollectedIsPhaseQuorum(cfg, s, i, m.arrivals, m.launched, m.exhausted, m.n, m.replies);
  }

  lemma MovesFollow(s: System, i: nat, client: Client, next: P.Progress, draws: seq<nat>)
    requires i in s.proposers && |draws| == |client.handles|
    ensures var s' := Moves(s, i, client, next, draws);
            && Follows(s', i, next) && s.decided <= s'.decided && s'.proposers.Keys == s.proposers.Keys
            && forall j :: j in s.proposers && j != i ==> s'.proposers[j] == s.proposers[j]
  {
  }

  lemma WireFollows(cfg: Config, s: System, a: Action, i: nat, now: P.Progress)
    requires (a.Deliver? || a.Environment?) && Enabled(cfg, s, a) && Follows(s, i, now)
    ensures Follows(Next(cfg, s, a), i, now) && Next(cfg, s, a).proposers == s.proposers
  {
  }

  /** What a client does leaves the others where they are. */
  lemma OthersFollow(s: System, s': System, j: nat, now: P.Progress)
    requires Follows(s, j, now) && s.decided <= s'.decided && j in s'.proposers && s'.proposers[j] == s.proposers[j]
    ensures Follows(s', j, now)
  {
  }

  lemma WireTracks(cfg: Config, clients: map<nat, Client>, w: Network, m: Move)
    requires m.Wire? && Tracks(cfg, clients, w) && Possible(cfg, clients, w, m)
    ensures Tracks(cfg, clients, Played(cfg, clients, w, m))
  {
    ReachableNext(cfg, w.system, m.action);
    forall i | i in w.answers ensures Follows(Next(cfg, w.system, m.action), i, Now(clients, w, i)) {
      WireFollows(cfg, w.system, m.action, i, Now(clients, w, i));
    }
  }

  lemma LaunchTracks(cfg: Config, clients: map<nat, Client>, w: Network, m: Move)
    requires m.Launch? && AllMirror(cfg, clients) && Tracks(cfg, clients, w) && Possible(cfg, clients, w, m)
    ensures Tracks(cfg, clients, Played(cfg, clients, w, m))
  {
    var w' := Played(cfg, clients, w, m);
    LaunchIsBegin(cfg, clients, w, m.i, m.draws);
    ReachableNext(cfg, w.system, Begin(m.i, clients[m.i].attempt.known, DrawnFor(clients[m.i].handles, m.draws)));
    forall j | j in w'.answers && j != m.i ensures Follows(w'.system, j, Now(clients, w', j)) {
      OthersFollow(w.system, w'.system, j, Now(clients, w, j));
    }
  }

  lemma QuorumReaches(cfg: Config, clients: map<nat, Client>, w: Network, m: Move)
    requires m.Quorum? && AllMirror(cfg, clients) && Tracks(cfg, clients, w) && Possible(cfg, clients, w, m)
    ensures Reachable(cfg, Played(cfg, clients, w, m).system)
  {
    var i, now := m.i, Now(clients, w, m.i);
    assert Mirrors(cfg, i, clients[i]);
    TurnEndsOrMoves(clients, w, m);
    var chosen := QuorumIsCollect(cfg, clients, w.system, i, now, m);
    ReachableNext(cfg, w.system, Collect(i, chosen, DrawnFor(clients[i].handles, m.draws)));
  }

  lemma QuorumTracks(cfg: Config, clients: map<nat, Client>, w: Network, m: Move)
    requires m.Quorum? && AllMirror(cfg, clients) && Tracks(cfg, clients, w) && Possible(cfg, clients, w, m)
    ensures Tracks(cfg, clients, Played(cfg, clients, w, m))
  {
    var w' := Played(cfg, clients, w, m);
    QuorumReaches(cfg, clients, w, m);
    MovesFollow(w.system, m.i, clients[m.i], Now(clients, w', m.i), m.draws);
    forall j | j in w'.answers && j != m.i ensures Follows(w'.system, j, Now(clients, w', j)) {
      OthersFollow(w.system, w'.system, j, Now(clients, w, j));
    }
  }

  lemma GiveUpTracks(cfg: Config, clients: map<nat, Client>, w: Network, m: Move)
    requires m.GiveUp? && Tracks(cfg, clients, w) && Possible(cfg, clients, w, m)
    ensures Tracks(cfg, clients, Played(cfg, clients, w, m))
  {
    var answers := w.answers[m.i] + [Err(m.error)];
    assert answers[..|answers| - 1] == w.answers[m.i];
  }

  /** Along every run of clients, the protocol tracks them. */
  lemma {:induction false} RunTracks(cfg: Config, clients: map<nat, Client>, start: System, moves: seq<Move>)
    requires AllMirror(cfg, clients) && Initial(cfg, start)
    ensures var w := Ran(cfg, clients, start, moves); w.Some? ==> Tracks(cfg, clients, w.value)
  {
    if moves == [] {
      assert Run(cfg, start, []) == Some(start);
    } else {
      RunTracks(cfg, clients, start, moves[..|moves| - 1]);
      var before, m := Ran(cfg, clients, start, moves[..|moves| - 1]), moves[|moves| - 1];
      if before.Some? && Possible(cfg, clients, before.value, m) {
        match m
        case Launch(_, _) => LaunchTracks(cfg, clients, before.value, m);
        case Wire(_) => WireTracks(cfg, clients, before.value, m);
        case Quorum(_, _, _, _, _, _, _) => QuorumTracks(cfg, clients, before.value, m);
        case GiveUp(_, _) => GiveUpTracks(cfg, clients, before.value, m);
      }
    }
  }

  // ----- What the callers get -----

  /** Any two calls of `propose` that return a decision return the same values, from the same proposer. */
  lemma ResultsAgree(cfg: Config, clients: map<nat, Client>, start: System, moves: seq<Move>, w: Network,
                     i: nat, d: Decision, j: nat, d': Decision)
    requires ValidConfig(cfg) && AllMirror(cfg, clients) && Initial(cfg, start)
             && Ran(cfg, clients, start, moves) == Some(w)
    requires i in clients && i in w.answers && Now(clients, w, i) == P.Done(Ok(d))
    requires j in clients && j in w.answers && Now(clients, w, j) == P.Done(Ok(d'))
    ensures d.values == d'.values && d.proposer == d'.proposer && d.slot == d'.slot == cfg.slot
  {
    RunTracks(cfg, clients, start, moves);
    ConsensusSafety.Agreement(cfg, w.system, d, d');
    ConsensusSafety.ReachableSafe(cfg, w.system);
    var l, p := ConsensusSafety.DecisionChosen(cfg, w.system, d);
  }

  /** And the values are what some caller proposed. */
  lemma ResultWasProposed(cfg: Config, clients: map<nat, Client>, start: System, moves: seq<Move>, w: Network, i: nat,
                          d: Decision)
    requires ClustersAdjacent(cfg) && AllMirror(cfg, clients) && Initial(cfg, start)
             && Ran(cfg, clients, start, moves) == Some(w)
    requires i in clients && i in w.answers && Now(clients, w, i) == P.Done(Ok(d))
    ensures exists k :: k in cfg.instances && cfg.instances[k].id == d.proposer && cfg.instances[k].values == d.values
  {
    RunTracks(cfg, clients, start, moves);
    ConsensusSafety.Validity(cfg, w.system, d);
  }

  /**
   A turn whose quorum contains a reply with a decision returns from `propose` with one of
   the reported decisions, which some attempt had reached before.
   */
  lemma TurnAdopts(cfg: Config, clients: map<nat, Client>, start: System, moves: seq<Move>, w: Network, m: Move, k: nat)
    returns (d: Decision)
    requires ClustersAdjacent(cfg) && AllMirror(cfg, clients) && Initial(cfg, start)
             && Ran(cfg, clients, start, moves) == Some(w)
    requires m.Quorum? && Possible(cfg, clients, w, m) && k < |m.replies| && m.replies[k].decision.Some?
    ensures exists j :: 0 <= j < |m.replies| && m.replies[j].decision == Some(d)
    ensures d in w.system.decided && Now(clients, Played(cfg, clients, w, m), m.i) == P.Done(Ok(d))
  {
    RunTracks(cfg, clients, start, moves);
    var i, now := m.i, Now(clients, w, m.i);
    assert Mirrors(cfg, i, clients[i]);
    TurnEndsOrMoves(clients, w, m);
    var chosen := CollectedIsPhaseQuorum(cfg, w.system, i, m.arrivals, m.launched, m.exhausted, m.n, m.replies);
    d := QuorumReports(cfg, w.system, i, chosen, m.replies, k);
    var j :| 0 <= j < |m.replies| && m.replies[j].decision == Some(d)
      && forall x :: 0 <= x < j ==> m.replies[x].decision.None?;
    AdoptsReported(cfg.slot, cfg.instances[i].leader, now.step, now.proposal, m.replies, j);
  }

  /**
   A turn that has its quorum never fails, except by passing the step limit or the
   greatest step: then the error says so, and the turn had raised the step beyond it.
   */
  lemma TurnFailsOnlyAtLimit(cfg: Config, clients: map<nat, Client>, start: System, moves: seq<Move>, w: Network,
                             m: Move)
    requires ClustersAdjacent(cfg) && AllMirror(cfg, clients) && Initial(cfg, start)
             && Ran(cfg, clients, start, moves) == Some(w)
    requires m.Quorum? && Possible(cfg, clients, w, m)
    ensures var a, now := clients[m.i].attempt, Now(clients, w, m.i);
            var o := Advance(a.slot, a.leader, now.step, now.proposal, m.replies);
            var next := Now(clients, Played(cfg, clients, w, m), m.i);
            && (next.Done? && next.result.Err? <==> o.Continue? && (o.step > a.maxSteps || o.step > U64_MAX))
            && (next.Done? && next.result.Err? ==> next.result.error in {StepLimitExceeded(a.maxSteps), StepOverflow})
            && (next.Asking? ==> now.step < next.step)
  {
    RunTracks(cfg, clients, start, moves);
    var i := m.i;
    assert Mirrors(cfg, i, clients[i]);
    TurnEndsOrMoves(clients, w, m);
    var chosen := CollectedIsPhaseQuorum(cfg, w.system, i, m.arrivals, m.launched, m.exhausted, m.n, m.replies);
    ConsensusSafety.ReachableSafe(cfg, w.system);
    ConfigQuorumsMeet(cfg);
    assert IsQuorum(cfg, Voters(chosen));
    ConsensusSafety.AdvanceOk(cfg, WorldOf(cfg), LedgerOf(w.system.histories), w.system, i, chosen);
  }

  lemma QuorumReports(cfg: Config, s: System, i: nat, chosen: seq<Answer>, replies: seq<RecordReply>, k: nat)
    returns (d: Decision)
    requires ClustersAdjacent(cfg) && Reachable(cfg, s)
    requires i in cfg.instances && i in s.proposers && s.proposers[i].Running?
    requires IsPhaseQuorum(cfg, s, i, chosen) && Replies(chosen) == replies
    requires k < |replies| && replies[k].decision.Some?
    ensures exists j :: 0 <= j < |replies| && replies[j].decision == Some(d)
                        && forall x :: 0 <= x < j ==> replies[x].decision.None?
    ensures d in s.decided && d.slot == cfg.slot && d.values != []
  {
    ConsensusSafety.ReachableSafe(cfg, s);
    var j := ConsensusSafety.FirstReported(replies, k);
    d := replies[j].decision.value;
    assert replies[j] == chosen[j].reply;
    assert ConsensusSafety.AnswerOk(cfg, LedgerOf(s.histories), s, chosen[j]);
    assert ConsensusSafety.DecisionOk(cfg, WorldOf(cfg), LedgerOf(s.histories), d);
  }
}
