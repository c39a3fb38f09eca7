/**
 Identifiers, proposals and decisions shared by every part of the model, and the
 order by which proposals compete.

 Slots, steps and identifiers are unbounded naturals. The one bound that matters
 to the protocol, the reserved leader priority, is written out.
 */
module Types {

  type ReplicaId = nat
  type LaneId = nat
  type Slot = nat
  type Step = nat
  type Value = nat

  const U64_MAX: nat := 0xFFFF_FFFF_FFFF_FFFF

  /** The priority reserved for the round-one leader. */
  const LEADER_PRIORITY: nat := U64_MAX

  const ROUND_ONE_PHASE_ZERO: Step := 4

  datatype Option<+T> = None | Some(value: T)

  datatype Error =
    | EmptyCluster
    | EmptyProposal
    | EmptyDecision
    | MissingProposal
    | MissingValue
    | DuplicateReplica
    | UnknownReplica(replica: ReplicaId)
    | InvalidSender(replica: ReplicaId)
    | InvalidRecorderReply(expected: ReplicaId, received: ReplicaId)
    | DuplicateRecorderReply(replica: ReplicaId)
    | InvalidQuorum(replicas: nat, quorum: nat)
    | QuorumNotReached(needed: nat, received: nat)
    | InvalidStep(step: Step, limit: Step)
    | ResourceLimit(limit: nat)
    | InvalidProposal
    | TransportError
    | StorageError
    | ConfigurationMismatch
    | ConfigurationEpochOverflow
    | InvalidReconfiguration
    | ConflictingDecision(slot: Slot)
    | ScheduleMismatch(slot: Slot)
    | SlotPruned(slot: Slot)
    | StepLimitExceeded(limit: Step)
    | StepOverflow
    | PolicyError

  datatype Result<+T> = Ok(value: T) | Err(error: Error)

  datatype Key = Key(priority: nat, proposer: ReplicaId, lane: LaneId)

  datatype Proposal = Proposal(key: Key, values: seq<Value>)

  datatype Decision = Decision(slot: Slot, values: seq<Value>, proposer: ReplicaId, decidedStep: Step)

  function Phase(step: Step): nat {
    step % 4
  }

  /** Lexicographic order on (priority, proposer, lane). */
  predicate KeyLe(a: Key, b: Key) {
    || a.priority < b.priority
    || (a.priority == b.priority && a.proposer < b.proposer)
    || (a.priority == b.priority && a.proposer == b.proposer && a.lane <= b.lane)
  }

  function WithPriority(p: Proposal, priority: nat): Proposal {
    Proposal(p.key.(priority := priority), p.values)
  }

  /** Two proposals stand for the same choice: the same values from the same replica. */
  predicate SameChoice(a: Proposal, b: Proposal) {
    a.values == b.values && a.key.proposer == b.key.proposer
  }

  predicate Distinct<T(==)>(s: seq<T>) {
    forall i, j :: 0 <= i < j < |s| ==> s[i] != s[j]
  }

  /** The proposal with the greater key; a tie keeps the one already held. */
  function BestProposal(left: Option<Proposal>, right: Proposal): (best: Proposal)
    ensures KeyLe(right.key, best.key)
    ensures left.Some? ==> KeyLe(left.value.key, best.key)
    ensures best == right || left == Some(best)
    ensures left.Some? && left.value.key == right.key ==> best == left.value
  {
    if left.Some? && KeyLe(right.key, left.value.key) then left.value else right
  }

  /** The first of the proposals with the greatest key. */
  function MaxProposalByKey(ps: seq<Proposal>): (best: Option<Proposal>)
    ensures best.None? <==> ps == []
    ensures best.Some? ==>
              && best.value in ps
              && forall p :: p in ps ==> KeyLe(p.key, best.value.key)
  {
    if ps == [] then None
    else
      var prefix := MaxProposalByKey(ps[..|ps| - 1]);
      var last := ps[|ps| - 1];
      assert ps == ps[..|ps| - 1] + [last];
      Some(BestProposal(prefix, last))
  }

  /** On a tie the earliest proposal wins. */
  lemma {:induction false} MaxProposalIsEarliest(ps: seq<Proposal>, j: nat)
    requires j < |ps|
    requires ps[j].key == MaxProposalByKey(ps).value.key
    requires forall i :: 0 <= i < j ==> ps[i].key != ps[j].key
    ensures MaxProposalByKey(ps) == Some(ps[j])
  {
    var init, last := ps[..|ps| - 1], ps[|ps| - 1];
    if j < |ps| - 1 {
      assert init[j] in init;
      MaxProposalIsEarliest(init, j);
    } else if init != [] {
      assert MaxProposalByKey(init).value in init;
    }
  }

  lemma MaxProposalAppend(ps: seq<Proposal>, p: Proposal)
    ensures MaxProposalByKey(ps + [p]) == Some(BestProposal(MaxProposalByKey(ps), p))
  {
    assert (ps + [p])[..|ps|] == ps;
  }
}
