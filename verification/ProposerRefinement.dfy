/**
 The proposer as the program runs it is the proposer of the protocol: its batches are the
 broadcasts, and what its collector accepts is a phase quorum.
 */
module ProposerRefinement {
  import opened Types
  import opened Membership
  import opened Recorder
  import opened ProposerRules
  import opened Consensus
  import C = Collector
  import P = Proposer

  // ----- Batches are broadcasts -----

  function IndexOf(handles: seq<ReplicaId>, q: ReplicaId): (k: nat)
    requires q in handles
    ensures k < |handles| && handles[k] == q
  {
    if handles[0] == q then 0 else 1 + IndexOf(handles[1..], q)
  }

  /** The priority drawn for each recorder. */
  function DrawnFor(handles: seq<ReplicaId>, draws: seq<nat>): map<ReplicaId, nat>
    requires |draws| == |handles|
  {
    map q | q in handles :: draws[IndexOf(handles, q)]
  }

  function Addressed(i: nat, handles: seq<ReplicaId>, batch: seq<RecordRequest>): set<Envelope>
    requires |batch| == |handles|
  {
    set j | 0 <= j < |handles| :: Envelope(i, handles[j], batch[j])
  }

  /** The requests of one turn, addressed to the handles, are the broadcast of the protocol. */
  lemma BatchIsBroadcast(cfg: Config, i: nat, a: P.Attempt, handles: seq<ReplicaId>, step: Step, p: Proposal,
                         sendKnown: bool, draws: seq<nat>)
    requires i in cfg.instances && a.id == cfg.instances[i].id && a.slot == cfg.slot
             && a.leader == cfg.instances[i].leader
    requires Distinct(handles) && Elements(handles) == Elements(cfg.instances[i].cluster.members)
    requires |draws| == |handles| && forall j :: 0 <= j < |draws| ==> 1 <= draws[j] < LEADER_PRIORITY
    ensures ValidDraws(cfg.instances[i], DrawnFor(handles, draws))
    ensures Addressed(i, handles, P.Batch(a, step, p, sendKnown, draws)) ==
            Broadcast(cfg, i, step, p, if sendKnown then a.known else [], DrawnFor(handles, draws))
  {
    var inst, drawn := cfg.instances[i], DrawnFor(handles, draws);
    var batch, known := P.Batch(a, step, p, sendKnown, draws), if sendKnown then a.known else [];
    forall q ensures q in inst.cluster.members <==> q in handles {
      assert q in Elements(handles) <==> q in Elements(inst.cluster.members);
    }
    forall q | q in handles
      ensures batch[IndexOf(handles, q)] == RequestTo(cfg, inst, step, p, known, drawn[q])
    {
    }
    forall j | 0 <= j < |handles| ensures IndexOf(handles, handles[j]) == j {
    }
    SameEnvelopes(cfg, i, handles, batch, step, p, known, drawn);
  }

  lemma SameEnvelopes(cfg: Config, i: nat, handles: seq<ReplicaId>, batch: seq<RecordRequest>, step: Step, p: Proposal,
                      known: seq<Decision>, drawn: map<ReplicaId, nat>)
    requires i in cfg.instances && ValidDraws(cfg.instances[i], drawn) && |batch| == |handles|
    requires forall q :: q in cfg.instances[i].cluster.members <==> q in handles
    requires forall q :: q in handles ==>
               q in drawn && batch[IndexOf(handles, q)] == RequestTo(cfg, cfg.instances[i], step, p, known, drawn[q])
    requires forall j :: 0 <= j < |handles| ==> IndexOf(handles, handles[j]) == j
    ensures Addressed(i, handles, batch) == Broadcast(cfg, i, step, p, known, drawn)
  {
    var inst := cfg.instances[i];
    forall e ensures e in Addressed(i, handles, batch) <==> e in Broadcast(cfg, i, step, p, known, drawn) {
      if e in Addressed(i, handles, batch) {
        var j :| 0 <= j < |handles| && e == Envelope(i, handles[j], batch[j]);
        assert handles[j] in inst.cluster.members;
        assert e == Envelope(i, handles[j], RequestTo(cfg, inst, step, p, known, drawn[handles[j]]));
      }
      if e in Broadcast(cfg, i, step, p, known, drawn) {
        var q :| q in inst.cluster.members && e == Envelope(i, q, RequestTo(cfg, inst, step, p, known, drawn[q]));
        assert e == Envelope(i, handles[IndexOf(handles, q)], batch[IndexOf(handles, q)]);
      }
    }
  }

  // ----- What the collector accepts is a phase quorum -----

  /** Every reply that arrives answers a request of the proposer's current step. */
  ghost predicate AnswersOf(s: System, i: nat, step: Step, arrivals: seq<C.Arrival>) {
    forall k :: 0 <= k < |arrivals| && arrivals[k].result.Ok? ==> IsAnswer(s, i, step, arrivals[k].result.value)
  }

  ghost predicate IsAnswer(s: System, i: nat, step: Step, reply: RecordReply) {
    exists request :: Answer(i, request, reply) in s.answers && request.step == step
  }

  lemma {:induction false} CollectedAreAnswers(s: System, i: nat, step: Step, arrivals: seq<C.Arrival>, n: nat)
    requires n <= |arrivals| && AnswersOf(s, i, step, arrivals)
    ensures forall k :: 0 <= k < |C.Collected(arrivals[..n])| ==> IsAnswer(s, i, step, C.Collected(arrivals[..n])[k])
  {
    if n > 0 {
      CollectedAreAnswers(s, i, step, arrivals, n - 1);
      C.CollectedNext(arrivals, n - 1);
    }
  }

  lemma {:induction false} FindAnswers(s: System, i: nat, step: Step, replies: seq<RecordReply>)
    returns (chosen: seq<Answer>)
    requires forall k :: 0 <= k < |replies| ==> IsAnswer(s, i, step, replies[k])
    ensures Replies(chosen) == replies
    ensures forall k :: 0 <= k < |chosen| ==>
              chosen[k] in s.answers && chosen[k].instance == i && chosen[k].request.step == step
  {
    if replies == [] {
      chosen := [];
    } else {
      var init := FindAnswers(s, i, step, replies[..|replies| - 1]);
      assert IsAnswer(s, i, step, replies[|replies| - 1]);
      var request :| Answer(i, request, replies[|replies| - 1]) in s.answers && request.step == step;
      chosen := init + [Answer(i, request, replies[|replies| - 1])];
      forall k | 0 <= k < |replies| ensures Replies(chosen)[k] == replies[k] {
        assert k < |init| ==> Replies(init)[k] == init[k].reply && replies[..|replies| - 1][k] == replies[k];
      }
    }
  }

  lemma SameVoters(chosen: seq<Answer>, replies: seq<RecordReply>)
    requires Replies(chosen) == replies
    ensures Voters(chosen) == C.RecordersOf(replies)
  {
    assert forall k :: 0 <= k < |chosen| ==> replies[k] == chosen[k].reply;
  }

  /** Replies that a collector returns are a phase quorum of the protocol. */
  lemma CollectedIsPhaseQuorum(cfg: Config, s: System, i: nat, arrivals: seq<C.Arrival>, launched: nat,
                               exhausted: Error,
                               n: nat, replies: seq<RecordReply>) returns (chosen: seq<Answer>)
    requires i in cfg.instances && WellFormed(cfg.instances[i].cluster)
    requires i in s.proposers && s.proposers[i].Running? && AnswersOf(s, i, s.proposers[i].step, arrivals)
    requires var c := cfg.instances[i].cluster;
             C.Returns(arrivals, launched, QuorumSize(c), Some(c), exhausted, n, Ok(replies))
    ensures Replies(chosen) == replies && IsPhaseQuorum(cfg, s, i, chosen)
  {
    var c := cfg.instances[i].cluster;
    CollectedAreAnswers(s, i, s.proposers[i].step, arrivals, n);
    chosen := FindAnswers(s, i, s.proposers[i].step, replies);
    C.CleanRepliesDiffer(arrivals, n, Some(c));
    SameVoters(chosen, replies);
    assert forall k :: 0 <= k < |chosen| ==> replies[k] == chosen[k].reply;
    forall j, k | 0 <= j < k < |chosen| ensures chosen[j].reply.recorder != chosen[k].reply.recorder {
      assert C.Collected(arrivals[..n])[j].recorder != C.Collected(arrivals[..n])[k].recorder;
    }
  }

  // ----- Where the protocol stands -----

  /** The proposer of the protocol is where the program's attempt is. */
  predicate Follows(s: System, i: nat, now: P.Progress) {
    && i in s.proposers
    && match now
       case Asking(step, p) => s.proposers[i] == Running(step, p)
       case Done(Ok(d)) => s.proposers[i] == Finished(d) && d in s.decided
       case Done(Err(_)) => true
  }
}
