/**
 The interval summary register: the constant-space state a recorder keeps for one
 slot, its in-place `record`, and the proof that its four fields summarise the
 whole history of calls.
 */
module IntervalRegister {
  import opened Types

  datatype Register = Register(
    step: Step,
    first: Option<Proposal>,
    currentAggregate: Option<Proposal>,
    priorAggregate: Option<Proposal>)

  datatype Summary = Summary(step: Step, first: Option<Proposal>, priorAggregate: Option<Proposal>)

  datatype Call = Call(step: Step, proposal: Proposal)

  const EMPTY_REGISTER: Register := Register(0, None, None, None)

  /** One `record` call, on values. */
  function Recorded(reg: Register, call: Call): Register {
    if call.step == reg.step then
      reg.(first := if reg.first.Some? then reg.first else Some(call.proposal),
           currentAggregate := Some(BestProposal(reg.currentAggregate, call.proposal)))
    else if call.step > reg.step then
      Register(call.step, Some(call.proposal), Some(call.proposal),
               if call.step == reg.step + 1 then reg.currentAggregate else None)
    else reg
  }

  function Summarize(reg: Register): Summary {
    Summary(reg.step, reg.first, reg.priorAggregate)
  }

  /** The register after a whole history of calls. */
  function Replay(calls: seq<Call>): Register {
    if calls == [] then EMPTY_REGISTER
    else Recorded(Replay(calls[..|calls| - 1]), calls[|calls| - 1])
  }

  // ----- What a history says, independently of the register -----

  /** The greatest step of any call, zero for an empty history. */
  function Top(calls: seq<Call>): Step {
    if calls == [] then 0
    else
      var rest := Top(calls[..|calls| - 1]);
      var last := calls[|calls| - 1].step;
      if last >= rest then last else rest
  }

  /** The proposals of the calls at one step, in order of arrival. */
  function AtStep(calls: seq<Call>, step: Step): seq<Proposal> {
    if calls == [] then []
    else
      var rest := AtStep(calls[..|calls| - 1], step);
      var last := calls[|calls| - 1];
      if last.step == step then rest + [last.proposal] else rest
  }

  /** The part of the history before the first call beyond the step. */
  function Through(calls: seq<Call>, step: Step): seq<Call> {
    if calls == [] then []
    else
      var init := calls[..|calls| - 1];
      if Top(init) <= step && calls[|calls| - 1].step <= step then calls else Through(init, step)
  }

  /** The proposals recorded at the step while the register was at that step. */
  function Taken(calls: seq<Call>, step: Step): seq<Proposal> {
    AtStep(Through(calls, step), step)
  }

  function Head(ps: seq<Proposal>): Option<Proposal> {
    if ps == [] then None else Some(ps[0])
  }

  /**
   The four fields are what the history prescribes: the greatest step, the first and
   the best proposal at it, and the best proposal at the step before it among those
   that arrived in time.
   */
  predicate IsSummaryOf(reg: Register, calls: seq<Call>) {
    && reg.step == Top(calls)
    && reg.first == Head(AtStep(calls, reg.step))
    && reg.currentAggregate == MaxProposalByKey(AtStep(calls, reg.step))
    && reg.priorAggregate == (if reg.step == 0 then None else MaxProposalByKey(Taken(calls, reg.step - 1)))
  }

  // ----- One more call -----

  lemma AfterCall(calls: seq<Call>, c: Call, step: Step)
    ensures Top(calls + [c]) == if c.step >= Top(calls) then c.step else Top(calls)
    ensures AtStep(calls + [c], step) == AtStep(calls, step) + if c.step == step then [c.proposal] else []
    ensures Taken(calls + [c], step) == Taken(calls, step) + if c.step == step && Top(calls) <= step then [c.proposal]
            else []
    ensures Replay(calls + [c]) == Recorded(Replay(calls), c)
  {
    assert (calls + [c])[..|calls|] == calls;
    if Top(calls) <= step {
      ThroughAll(calls, step);
    }
  }

  lemma {:induction false} ThroughAll(calls: seq<Call>, step: Step)
    ensures Top(calls) <= step <==> Through(calls, step) == calls
    ensures |Through(calls, step)| <= |calls|
  {
    if calls != [] {
      ThroughAll(calls[..|calls| - 1], step);
    }
  }

  /** At the greatest step every call counts. */
  lemma TakenAtTop(calls: seq<Call>)
    ensures Taken(calls, Top(calls)) == AtStep(calls, Top(calls))
  {
    ThroughAll(calls, Top(calls));
  }

  lemma {:induction false} TopBounds(calls: seq<Call>)
    ensures forall c :: c in calls ==> c.step <= Top(calls)
    ensures forall c :: c in calls ==> c.proposal in AtStep(calls, c.step)
    ensures forall step, p :: p in AtStep(calls, step) ==> Call(step, p) in calls
    ensures calls != [] ==> AtStep(calls, Top(calls)) != []
  {
    if calls != [] {
      TopBounds(calls[..|calls| - 1]);
      assert calls == calls[..|calls| - 1] + [calls[|calls| - 1]];
    }
  }

  lemma {:induction false} TakenAreCalls(calls: seq<Call>, step: Step, p: Proposal)
    requires p in Taken(calls, step)
    ensures Call(step, p) in calls && step <= Top(calls)
  {
    TopBounds(calls);
    if calls != [] {
      var init := calls[..|calls| - 1];
      if Through(calls, step) == calls {
      } else {
        TakenAreCalls(init, step, p);
      }
    }
  }

  // ----- The register is the summary of its history -----

  lemma SummaryStep(reg: Register, calls: seq<Call>, c: Call)
    requires IsSummaryOf(reg, calls)
    ensures IsSummaryOf(Recorded(reg, c), calls + [c])
  {
    var next := Recorded(reg, c);
    AfterCall(calls, c, next.step);
    if next.step > 0 {
      AfterCall(calls, c, next.step - 1);
    }
    if c.step > reg.step {
      StepRaised(reg, calls, c);
    } else if c.step == reg.step {
      MaxProposalAppend(AtStep(calls, c.step), c.proposal);
    }
  }

  lemma StepRaised(reg: Register, calls: seq<Call>, c: Call)
    requires IsSummaryOf(reg, calls)
    requires c.step > reg.step
    ensures IsSummaryOf(Recorded(reg, c), calls + [c])
  {
    AfterCall(calls, c, c.step);
    AfterCall(calls, c, c.step - 1);
    NothingAbove(calls, c.step);
    MaxProposalAppend([], c.proposal);
    if c.step == reg.step + 1 {
      TakenAtTop(calls);
    } else {
      NothingAbove(calls, c.step - 1);
    }
  }

  lemma NothingAbove(calls: seq<Call>, step: Step)
    requires step > Top(calls)
    ensures AtStep(calls, step) == [] && Taken(calls, step) == []
  {
    TopBounds(calls);
    ThroughAll(calls, step);
    assert forall p :: p in AtStep(calls, step) ==> Call(step, p) in calls;
  }

  /** After any history of calls the register holds exactly what the history prescribes. */
  lemma {:induction false} RegisterSummarizesHistory(calls: seq<Call>)
    ensures IsSummaryOf(Replay(calls), calls)
  {
    if calls != [] {
      var rest := calls[..|calls| - 1];
      RegisterSummarizesHistory(rest);
      SummaryStep(Replay(rest), rest, calls[|calls| - 1]);
      assert calls == rest + [calls[|calls| - 1]];
    }
  }

  lemma {:induction false} ReplayAppend(xs: seq<Call>, ys: seq<Call>, rest: seq<Call>)
    requires Replay(xs) == Replay(ys)
    ensures Replay(xs + rest) == Replay(ys + rest)
  {
    if rest == [] {
      assert xs + rest == xs && ys + rest == ys;
    } else {
      var init := rest[..|rest| - 1];
      ReplayAppend(xs, ys, init);
      assert (xs + rest)[..|xs + rest| - 1] == xs + init;
      assert (ys + rest)[..|ys + rest| - 1] == ys + init;
    }
  }

  /** Delivering an old call again, at any later time, changes nothing then or afterwards. */
  lemma RedeliveryHarmless(calls: seq<Call>, again: Call, rest: seq<Call>)
    requires again in calls
    ensures Replay(calls + [again] + rest) == Replay(calls + rest)
  {
    RegisterSummarizesHistory(calls);
    TopBounds(calls);
    AfterCall(calls, again, again.step);
    assert Replay(calls + [again]) == Replay(calls);
    ReplayAppend(calls + [again], calls, rest);
  }

  // ----- The register object -----

  class IntervalSummaryRegister {
    var step: Step
    var first: Option<Proposal>
    var currentAggregate: Option<Proposal>
    var priorAggregate: Option<Proposal>

    function Fields(): Register
      reads this
    {
      Register(step, first, currentAggregate, priorAggregate)
    }

    constructor ()
      ensures Fields() == Replay([])
    {
      step, first, currentAggregate, priorAggregate := 0, None, None, None;
    }

    /** Rebuilds a register from a snapshot. */
    constructor Restore(snapshot: Register)
      ensures Fields() == snapshot
    {
      step, first := snapshot.step, snapshot.first;
      currentAggregate, priorAggregate := snapshot.currentAggregate, snapshot.priorAggregate;
    }

    /** If the register stood for a history of calls, it now stands for that history and this call. */
    method Record(callStep: Step, proposal: Proposal, ghost calls: seq<Call>) returns (reply: Summary)
      modifies this
      ensures Fields() == Recorded(old(Fields()), Call(callStep, proposal)) && reply == Summarize(Fields())
      ensures old(Fields()) == Replay(calls) ==> IsSummaryOf(Fields(), calls + [Call(callStep, proposal)])
    {
      if old(Fields()) == Replay(calls) {
        AfterCall(calls, Call(callStep, proposal), callStep);
        RegisterSummarizesHistory(calls + [Call(callStep, proposal)]);
      }
      if callStep == step {
        if first.None? {
          first := Some(proposal);
        }
        currentAggregate := Some(BestProposal(currentAggregate, proposal));
      } else if callStep > step {
        priorAggregate := if callStep == step + 1 then currentAggregate else None;
        step := callStep;
        first := Some(proposal);
        currentAggregate := Some(proposal);
      }
      reply := Summary(step, first, priorAggregate);
    }
  }
}
