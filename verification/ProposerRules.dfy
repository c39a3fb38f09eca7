/**
 One iteration of the proposer's loop, on values: what a quorum of replies makes
 of the current step and proposal.
 */
module ProposerRules {
  import opened Types
  import opened IntervalRegister
  import opened Recorder

  datatype Outcome =
    | Decided(decision: Decision)
    | Continue(step: Step, proposal: Proposal)
    | Failed(error: Error)

  /** The proposal an iteration sends to one recorder; `draw` is its private priority. */
  function ProposalToSend(id: ReplicaId, leader: Option<ReplicaId>, step: Step, proposal: Proposal,
                          draw: nat): Proposal {
    if Phase(step) == 0 && (step > ROUND_ONE_PHASE_ZERO || leader != Some(id)) then WithPriority(proposal, draw)
    else proposal
  }

  /** The first decision any reply reports. */
  function ReportedDecision(replies: seq<RecordReply>): (d: Option<Decision>)
    ensures d.Some? ==> exists k :: 0 <= k < |replies| && replies[k].decision == d
    ensures d.None? ==> forall k :: 0 <= k < |replies| ==> replies[k].decision.None?
  {
    if replies == [] then None
    else if replies[0].decision.Some? then replies[0].decision
    else
      var rest := ReportedDecision(replies[1..]);
      assert forall k :: 0 < k < |replies| ==> replies[k] == replies[1..][k - 1];
      rest
  }

  /** The first proposals the replies report, in order. */
  function Firsts(replies: seq<RecordReply>): seq<Proposal> {
    if replies == [] then []
    else
      var last := replies[|replies| - 1].summary.first;
      Firsts(replies[..|replies| - 1]) + if last.Some? then [last.value] else []
  }

  /** The prior aggregates the replies report, in order. */
  function Priors(replies: seq<RecordReply>): seq<Proposal> {
    if replies == [] then []
    else
      var last := replies[|replies| - 1].summary.priorAggregate;
      Priors(replies[..|replies| - 1]) + if last.Some? then [last.value] else []
  }

  lemma {:induction false} FirstsReported(replies: seq<RecordReply>)
    ensures forall p :: p in Firsts(replies) ==> exists k :: 0 <= k < |replies| && replies[k].summary.first == Some(p)
    ensures forall k :: 0 <= k < |replies| && replies[k].summary.first.Some? ==>
                          replies[k].summary.first.value in Firsts(replies)
  {
    if replies != [] {
      FirstsReported(replies[..|replies| - 1]);
    }
  }

  lemma {:induction false} PriorsReported(replies: seq<RecordReply>)
    ensures forall p :: p in Priors(replies) ==>
                          exists k :: 0 <= k < |replies| && replies[k].summary.priorAggregate == Some(p)
    ensures forall k :: 0 <= k < |replies| && replies[k].summary.priorAggregate.Some? ==>
                          replies[k].summary.priorAggregate.value in Priors(replies)
  {
    if replies != [] {
      PriorsReported(replies[..|replies| - 1]);
    }
  }

  /** The last of the replies with the greatest step. */
  function Highest(replies: seq<RecordReply>): (r: RecordReply)
    requires replies != []
    ensures exists k :: 0 <= k < |replies| && replies[k] == r
    ensures forall k :: 0 <= k < |replies| ==> replies[k].summary.step <= r.summary.step
  {
    var last := replies[|replies| - 1];
    if |replies| == 1 then last
    else
      var init := Highest(replies[..|replies| - 1]);
      if last.summary.step >= init.summary.step then last else init
  }

  predicate AllAtStep(replies: seq<RecordReply>, step: Step) {
    forall k :: 0 <= k < |replies| ==> replies[k].summary.step == step
  }

  function FastPathWinner(step: Step, replies: seq<RecordReply>, leader: Option<ReplicaId>): Option<Proposal> {
    if step != ROUND_ONE_PHASE_ZERO || replies == [] || replies[0].summary.first.None? then None
    else
      var winner := replies[0].summary.first.value;
      if winner.key.priority != LEADER_PRIORITY || leader != Some(winner.key.proposer) then None
      else if forall k :: 0 <= k < |replies| ==>
                            replies[k].summary.first.Some? && replies[k].summary.first.value.key == winner.key
        then Some(winner)
      else None
  }

  function Decide(slot: Slot, p: Proposal, step: Step): Outcome {
    if p.values == [] then Failed(EmptyDecision) else Decided(Decision(slot, p.values, p.key.proposer, step))
  }

  function Advance(slot: Slot, leader: Option<ReplicaId>, step: Step, proposal: Proposal,
                   replies: seq<RecordReply>): Outcome {
    var reported := ReportedDecision(replies);
    if reported.Some? then
      if reported.value.slot != slot || reported.value.values == [] then Failed(InvalidProposal)
      else Decided(reported.value)
    else if AllAtStep(replies, step) then PhaseDone(slot, leader, step, proposal, replies)
    else CatchUp(step, proposal, replies)
  }

  /** Every reply is at the proposer's own step. */
  function PhaseDone(slot: Slot, leader: Option<ReplicaId>, step: Step, proposal: Proposal,
                     replies: seq<RecordReply>): Outcome {
    if Phase(step) == 0 then
      var winner := FastPathWinner(step, replies, leader);
      if winner.Some? then Decide(slot, winner.value, step)
      else
        var best := MaxProposalByKey(Firsts(replies));
        if best.None? then Failed(MissingProposal) else Continue(step + 1, best.value)
    else if Phase(step) == 1 then Continue(step + 1, proposal)
    else if Phase(step) == 2 then
      if MaxProposalByKey(Priors(replies)) == Some(proposal) then Decide(slot, proposal, step)
      else Continue(step + 1, proposal)
    else
      var best := MaxProposalByKey(Priors(replies));
      Continue(step + 1, if best.Some? then best.value else proposal)
  }

  /** Some reply is ahead: adopt its step and its first proposal. */
  function CatchUp(step: Step, proposal: Proposal, replies: seq<RecordReply>): Outcome {
    if replies == [] || Highest(replies).summary.step <= step then Continue(step, proposal)
    else if Highest(replies).summary.first.None? then Failed(MissingProposal)
    else Continue(Highest(replies).summary.step, Highest(replies).summary.first.value)
  }

  // ----- What the outcome is -----

  lemma {:induction false} ReportedIsFirst(replies: seq<RecordReply>, k: nat)
    requires k < |replies| && replies[k].decision.Some? && forall j :: 0 <= j < k ==> replies[j].decision.None?
    ensures ReportedDecision(replies) == replies[k].decision
  {
    if k > 0 {
      ReportedIsFirst(replies[1..], k - 1);
    }
  }

  /**
   The first decision that a reply reports ends the attempt, whatever else the replies
   say: with that decision, or with an error if it is for another slot or has no values.
   */
  lemma AdoptsReported(slot: Slot, leader: Option<ReplicaId>, step: Step, p: Proposal, replies: seq<RecordReply>,
                       k: nat)
    requires k < |replies| && replies[k].decision.Some? && forall j :: 0 <= j < k ==> replies[j].decision.None?
    ensures var d := replies[k].decision.value;
            Advance(slot, leader, step, p, replies) ==
            if d.slot == slot && d.values != [] then Decided(d) else Failed(InvalidProposal)
  {
    ReportedIsFirst(replies, k);
  }

  /** The reply shows the decided values and proposer: as the first in phase zero, as the best before in phase two. */
  predicate Shows(reply: RecordReply, step: Step, d: Decision) {
    var shown := if Phase(step) == 0 then reply.summary.first else reply.summary.priorAggregate;
    shown.Some? && shown.value.values == d.values && shown.value.key.proposer == d.proposer
  }

  /** Without a reported decision, a proposer decides at its own step only, for its slot, what a reply shows. */
  lemma DecidesOwnStep(slot: Slot, leader: Option<ReplicaId>, step: Step, p: Proposal, replies: seq<RecordReply>)
    requires forall k :: 0 <= k < |replies| ==> replies[k].decision.None?
    ensures var o := Advance(slot, leader, step, p, replies);
            o.Decided? ==>
              && AllAtStep(replies, step) && o.decision.slot == slot && o.decision.decidedStep == step
              && (step == ROUND_ONE_PHASE_ZERO || Phase(step) == 2)
              && exists k :: 0 <= k < |replies| && Shows(replies[k], step, o.decision)
  {
    var o := Advance(slot, leader, step, p, replies);
    if o.Decided? {
      if Phase(step) == 0 {
        var x := FastPathWinner(step, replies, leader).value;
        assert Shows(replies[0], step, o.decision);
      } else {
        PriorsReported(replies);
        var k :| 0 <= k < |replies| && replies[k].summary.priorAggregate == Some(p);
        assert Shows(replies[k], step, o.decision);
      }
    }
  }

  /** If a reply is ahead and none reports a decision, the proposer takes the greatest step and its first proposal. */
  lemma CatchesUp(slot: Slot, leader: Option<ReplicaId>, step: Step, p: Proposal, replies: seq<RecordReply>, k: nat)
    requires forall j :: 0 <= j < |replies| ==> replies[j].decision.None? && replies[j].summary.first.Some?
    requires k < |replies| && replies[k].summary.step > step
    ensures var o := Advance(slot, leader, step, p, replies);
            && o.Continue?
            && (forall j :: 0 <= j < |replies| ==> replies[j].summary.step <= o.step)
            && exists j :: 0 <= j < |replies| && replies[j].summary.step == o.step
                           && replies[j].summary.first == Some(o.proposal)
  {
  }
}
