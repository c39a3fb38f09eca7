/**
 Why QuePaxa decisions agree, stated over recorder histories alone.

 A completed phase leaves evidence in the histories of a quorum of recorders. This
 module says what evidence each phase leaves, when a proposal is justified by the
 evidence of the phase before, and proves that justified histories contain at most
 one decided choice.
 */
module Evidence {
  import opened Types
  import opened IntervalRegister

  /**
   What the recorders' histories show: the proposals each recorder took at each step,
   in order, the step it has reached, and the round-one leader it is bound to.
   */
  datatype Ledger = Ledger(
    taken: (ReplicaId, Step) -> seq<Proposal>,
    top: ReplicaId -> Step,
    bound: ReplicaId -> Option<Option<ReplicaId>>)

  /** What one proposer brings to the slot. */
  datatype Input = Input(id: ReplicaId, lane: LaneId, leader: Option<ReplicaId>, values: seq<Value>)

  /** The quorums that may complete a phase, and the inputs. */
  datatype World = World(quorums: iset<set<ReplicaId>>, inputs: set<Input>)

  ghost predicate Intersecting(w: World) {
    forall x, y :: x in w.quorums && y in w.quorums ==> exists q :: q in x && q in y
  }

  /** A replica and a lane together propose one value list for the slot. */
  predicate KeysUnique(w: World) {
    forall a, b :: a in w.inputs && b in w.inputs && a.id == b.id && a.lane == b.lane ==> a.values == b.values
  }

  predicate IsLeader(input: Input) {
    input.leader == Some(input.id)
  }

  /** A replica that acts as round-one leader proposes one value list for the slot, whatever its lanes. */
  predicate LeadersUnique(w: World) {
    forall a, b :: a in w.inputs && b in w.inputs && IsLeader(a) && IsLeader(b) && a.id == b.id ==> a.values == b.values
  }

  lemma Meet(w: World, x: set<ReplicaId>, y: set<ReplicaId>) returns (q: ReplicaId)
    requires Intersecting(w) && x in w.quorums && y in w.quorums
    ensures q in x && q in y
  {
    q :| q in x && q in y;
  }

  // ----- Evidence: what a completed phase shows about the histories -----

  ghost predicate Bound(h: Ledger, q: ReplicaId, leader: Option<ReplicaId>) {
    h.bound(q) == Some(leader)
  }

  /** p is the best of the first proposals the voters took at the step. */
  ghost predicate Spread(h: Ledger, voters: set<ReplicaId>, leader: Option<ReplicaId>, step: Step, p: Proposal) {
    && (forall q :: q in voters ==>
          && Bound(h, q, leader)
          && h.taken(q, step) != []
          && KeyLe(h.taken(q, step)[0].key, p.key))
    && exists q :: q in voters && h.taken(q, step)[0] == p
  }

  /** Every voter took p at the step. */
  ghost predicate Held(h: Ledger, voters: set<ReplicaId>, leader: Option<ReplicaId>, step: Step, p: Proposal) {
    forall q :: q in voters ==> Bound(h, q, leader) && p in h.taken(q, step)
  }

  /** Every voter has left the step, and p is the best proposal any of them took at it. */
  ghost predicate Gathered(h: Ledger, voters: set<ReplicaId>, leader: Option<ReplicaId>, step: Step, p: Proposal) {
    && (forall q :: q in voters ==>
          && Bound(h, q, leader)
          && h.top(q) > step
          && forall x :: x in h.taken(q, step) ==> KeyLe(x.key, p.key))
    && exists q :: q in voters && p in h.taken(q, step)
  }

  /** The key and the values are those of some proposer's input. */
  predicate IsInput(w: World, p: Proposal) {
    exists a :: a in w.inputs && a.id == p.key.proposer && a.lane == p.key.lane && a.values == p.values
  }

  /** An opening proposal; the reserved priority is only ever used by the leader itself. */
  predicate IsOpening(w: World, leader: Option<ReplicaId>, p: Proposal) {
    exists a :: a in w.inputs && a.id == p.key.proposer && a.values == p.values && a.leader == leader
                && (p.key.priority == LEADER_PRIORITY ==> IsLeader(a))
  }

  ghost predicate IsBestOfRound(w: World, h: Ledger, leader: Option<ReplicaId>, step: Step, p: Proposal) {
    exists voters, best :: voters in w.quorums && Gathered(h, voters, leader, step, best) && SameChoice(best, p)
  }

  ghost predicate IsSpread(w: World, h: Ledger, leader: Option<ReplicaId>, step: Step, p: Proposal) {
    exists voters :: voters in w.quorums && Spread(h, voters, leader, step, p)
  }

  ghost predicate IsHeld(w: World, h: Ledger, leader: Option<ReplicaId>, step: Step, p: Proposal) {
    exists voters :: voters in w.quorums && Held(h, voters, leader, step, p)
  }

  /** Why p may be sent at the step: what the phase before it established. */
  ghost predicate Justified(w: World, h: Ledger, leader: Option<ReplicaId>, step: Step, p: Proposal) {
    && step >= ROUND_ONE_PHASE_ZERO
    && p.key.priority <= LEADER_PRIORITY
    && p.values != []
    && IsInput(w, p)
    && (if step == ROUND_ONE_PHASE_ZERO then IsOpening(w, leader, p)
        else if Phase(step) == 0 then IsBestOfRound(w, h, leader, step - 2, p)
        else if Phase(step) == 1 then IsSpread(w, h, leader, step - 1, p)
        else IsHeld(w, h, leader, step - 1, p))
  }

  /** If the recorder took p at the step, p was justified under the leader it is bound to. */
  ghost predicate TookJustified(w: World, h: Ledger, q: ReplicaId, step: Step, p: Proposal) {
    p in h.taken(q, step) ==> h.bound(q).Some? && Justified(w, h, h.bound(q).value, step, p)
  }

  /** Every proposal any recorder took was justified. */
  ghost predicate AllJustified(w: World, h: Ledger) {
    forall q, step, p :: TookJustified(w, h, q, step, p)
  }

  /** A fast-path decision: a quorum's first proposals all carry the leader's reserved key. */
  ghost predicate FastChosen(w: World, h: Ledger, leader: Option<ReplicaId>, p: Proposal) {
    && p.key.priority == LEADER_PRIORITY
    && leader == Some(p.key.proposer)
    && exists voters :: voters in w.quorums && FastSpread(h, voters, leader, p)
  }

  ghost predicate FastSpread(h: Ledger, voters: set<ReplicaId>, leader: Option<ReplicaId>, p: Proposal) {
    && (forall q :: q in voters ==>
          && Bound(h, q, leader)
          && h.taken(q, ROUND_ONE_PHASE_ZERO) != []
          && h.taken(q, ROUND_ONE_PHASE_ZERO)[0].key == p.key)
    && exists q :: q in voters && h.taken(q, ROUND_ONE_PHASE_ZERO)[0] == p
  }

  /** A phase-two decision at the step. */
  ghost predicate SlowChosen(w: World, h: Ledger, leader: Option<ReplicaId>, step: Step, p: Proposal) {
    && Phase(step) == 2 && step > ROUND_ONE_PHASE_ZERO
    && exists voters ::
         && voters in w.quorums
         && Held(h, voters, leader, step, p)
         && Gathered(h, voters, leader, step - 1, p)
  }

  ghost predicate Chosen(w: World, h: Ledger, leader: Option<ReplicaId>, step: Step, p: Proposal) {
    (step == ROUND_ONE_PHASE_ZERO && FastChosen(w, h, leader, p)) || SlowChosen(w, h, leader, step, p)
  }

  // ----- Lock-in -----

  lemma InputsUnique(w: World, a: Proposal, b: Proposal)
    requires KeysUnique(w)
    requires IsInput(w, a) && IsInput(w, b)
    requires a.key == b.key
    ensures a == b
  {
  }

  lemma KeyLeAntisymmetric(a: Key, b: Key)
    requires KeyLe(a, b) && KeyLe(b, a)
    ensures a == b
  {
  }

  lemma TakenIsJustified(w: World, h: Ledger, q: ReplicaId, leader: Option<ReplicaId>, step: Step, p: Proposal)
    requires AllJustified(w, h) && Bound(h, q, leader) && p in h.taken(q, step)
    ensures Justified(w, h, leader, step, p)
  {
    assert TookJustified(w, h, q, step, p);
  }

  /** A decision at a phase-two step has the greatest key of all proposals ever sent at that step. */
  lemma DecisionIsMaximal(w: World, h: Ledger, leader: Option<ReplicaId>, step: Step, p: Proposal,
                          leader': Option<ReplicaId>, p': Proposal)
    requires Intersecting(w) && AllJustified(w, h)
    requires SlowChosen(w, h, leader, step, p)
    requires Justified(w, h, leader', step, p')
    ensures KeyLe(p'.key, p.key)
  {
    var x :| x in w.quorums && Held(h, x, leader, step, p) && Gathered(h, x, leader, step - 1, p);
    var y :| y in w.quorums && Held(h, y, leader', step - 1, p');
    var q := Meet(w, x, y);
    assert p' in h.taken(q, step - 1);
  }

  lemma ChosenWasTaken(w: World, h: Ledger, leader: Option<ReplicaId>, step: Step, p: Proposal) returns (q: ReplicaId)
    requires Intersecting(w)
    requires Chosen(w, h, leader, step, p)
    ensures Bound(h, q, leader) && p in h.taken(q, step)
  {
    if SlowChosen(w, h, leader, step, p) {
      var x :| x in w.quorums && Held(h, x, leader, step, p) && Gathered(h, x, leader, step - 1, p);
      q := Meet(w, x, x);
      assert Bound(h, q, leader);
    } else {
      var x :| x in w.quorums && FastSpread(h, x, leader, p);
      q :| q in x && h.taken(q, ROUND_ONE_PHASE_ZERO)[0] == p;
      assert Bound(h, q, leader);
    }
  }

  /** After a phase-two decision the best proposal of a quorum at that step is the decided one. */
  lemma BestOfRoundIsDecided(w: World, h: Ledger, leader: Option<ReplicaId>, step: Step, p: Proposal,
                             voters: set<ReplicaId>, leader': Option<ReplicaId>, best: Proposal)
    requires Intersecting(w) && KeysUnique(w) && AllJustified(w, h)
    requires SlowChosen(w, h, leader, step, p)
    requires voters in w.quorums && Gathered(h, voters, leader', step, best)
    ensures best == p
  {
    var q' :| q' in voters && best in h.taken(q', step);
    TakenIsJustified(w, h, q', leader', step, best);
    DecisionIsMaximal(w, h, leader, step, p, leader', best);
    var q := DecidedMeets(w, h, leader, step, p, voters);
    TakenIsJustified(w, h, q, leader, step, p);
    assert KeyLe(p.key, best.key);
    KeyLeAntisymmetric(p.key, best.key);
    InputsUnique(w, p, best);
  }

  lemma DecidedMeets(w: World, h: Ledger, leader: Option<ReplicaId>, step: Step, p: Proposal, voters: set<ReplicaId>)
    returns (q: ReplicaId)
    requires Intersecting(w) && SlowChosen(w, h, leader, step, p) && voters in w.quorums
    ensures q in voters && Bound(h, q, leader) && p in h.taken(q, step)
  {
    var x :| x in w.quorums && Held(h, x, leader, step, p) && Gathered(h, x, leader, step - 1, p);
    q := Meet(w, x, voters);
  }

  /** After a phase-two decision the next round opens with the decided choice only. */
  lemma SlowLocksNextRound(w: World, h: Ledger, leader: Option<ReplicaId>, step: Step, p: Proposal,
                           leader': Option<ReplicaId>, p': Proposal)
    requires Intersecting(w) && KeysUnique(w) && AllJustified(w, h)
    requires SlowChosen(w, h, leader, step, p)
    requires Justified(w, h, leader', step + 2, p')
    ensures SameChoice(p', p)
  {
    assert IsBestOfRound(w, h, leader', step, p');
    var y, best :| y in w.quorums && Gathered(h, y, leader', step, best) && SameChoice(best, p');
    BestOfRoundIsDecided(w, h, leader, step, p, y, leader', best);
  }

  /** Every quorum contains every recorder that took part in the opening. */
  ghost predicate Unanimous(w: World, h: Ledger) {
    forall x, q :: x in w.quorums && h.taken(q, ROUND_ONE_PHASE_ZERO) != [] ==> q in x
  }

  /**
   Why a fast-path decision is the only choice: its leader proposes one value list, or every
   quorum has seen everything.
   */
  ghost predicate OneOpening(w: World, h: Ledger) {
    LeadersUnique(w) || Unanimous(w, h)
  }

  /** After a fast-path decision phase one of the first round carries the decided choice only. */
  lemma FastLocksPhaseOne(w: World, h: Ledger, leader: Option<ReplicaId>, p: Proposal,
                          leader': Option<ReplicaId>, p': Proposal)
    requires Intersecting(w) && KeysUnique(w) && OneOpening(w, h) && AllJustified(w, h)
    requires FastChosen(w, h, leader, p)
    requires Justified(w, h, leader', ROUND_ONE_PHASE_ZERO + 1, p')
    ensures SameChoice(p', p)
  {
    assert IsSpread(w, h, leader', ROUND_ONE_PHASE_ZERO, p');
    var y :| y in w.quorums && Spread(h, y, leader', ROUND_ONE_PHASE_ZERO, p');
    var x :| x in w.quorums && FastSpread(h, x, leader, p);
    FastMeets(w, h, leader, p, x, leader', p', y);
    OpeningsJustified(w, h, leader, p, x, p', y);
    if LeadersUnique(w) {
      LeaderKeysAgree(w, leader, p, p');
    } else {
      InputsUnique(w, p, p');
    }
  }

  /** A fast quorum and a quorum of the opening are bound to one leader, and the best of the opening is no less. */
  lemma FastMeets(w: World, h: Ledger, leader: Option<ReplicaId>, p: Proposal, x: set<ReplicaId>,
                  leader': Option<ReplicaId>, p': Proposal, y: set<ReplicaId>)
    requires Intersecting(w) && x in w.quorums && y in w.quorums
    requires FastSpread(h, x, leader, p) && Spread(h, y, leader', ROUND_ONE_PHASE_ZERO, p')
    ensures leader == leader' && KeyLe(p.key, p'.key)
  {
    var q := Meet(w, x, y);
    assert Bound(h, q, leader) && Bound(h, q, leader');
  }

  lemma OpeningsJustified(w: World, h: Ledger, leader: Option<ReplicaId>, p: Proposal, x: set<ReplicaId>,
                          p': Proposal, y: set<ReplicaId>)
    requires AllJustified(w, h) && x in w.quorums
    requires FastSpread(h, x, leader, p) && Spread(h, y, leader, ROUND_ONE_PHASE_ZERO, p')
    ensures Justified(w, h, leader, ROUND_ONE_PHASE_ZERO, p) && Justified(w, h, leader, ROUND_ONE_PHASE_ZERO, p')
    ensures Unanimous(w, h) ==> p'.key == p.key
  {
    var a :| a in x && h.taken(a, ROUND_ONE_PHASE_ZERO)[0] == p;
    var b :| b in y && h.taken(b, ROUND_ONE_PHASE_ZERO)[0] == p';
    TakenIsJustified(w, h, a, leader, ROUND_ONE_PHASE_ZERO, p);
    TakenIsJustified(w, h, b, leader, ROUND_ONE_PHASE_ZERO, p');
  }

  lemma LeaderKeysAgree(w: World, leader: Option<ReplicaId>, p: Proposal, p': Proposal)
    requires LeadersUnique(w)
    requires IsOpening(w, leader, p) && IsOpening(w, leader, p')
    requires p.key.priority == LEADER_PRIORITY && p'.key.priority <= LEADER_PRIORITY && KeyLe(p.key, p'.key)
    ensures SameChoice(p', p)
  {
  }

  /** Only this choice can be sent at the step. */
  ghost predicate OnlyChoice(w: World, h: Ledger, step: Step, p: Proposal) {
    forall l, x :: Justified(w, h, l, step, x) ==> SameChoice(x, p)
  }

  /** Once only one choice is sent at a step, every later step sends only that choice. */
  lemma {:induction false} ChoicePersists(w: World, h: Ledger, base: Step, p: Proposal,
                                          step: Step, leader': Option<ReplicaId>, p': Proposal)
    requires Intersecting(w) && AllJustified(w, h)
    requires base > ROUND_ONE_PHASE_ZERO && Phase(base) <= 1
    requires OnlyChoice(w, h, base, p)
    requires step >= base && Justified(w, h, leader', step, p')
    ensures SameChoice(p', p)
    decreases step
  {
    if step > base {
      StepBack(base, step);
      var before, from := JustifiedFrom(w, h, step, leader', p');
      ChoicePersists(w, h, base, p, before, leader', from);
    }
  }

  /** The step that justifies a later one is not before a step in phase zero or one. */
  lemma StepBack(base: Step, step: Step)
    requires Phase(base) <= 1 && step > base
    ensures base <= if Phase(step) == 0 then step - 2 else step - 1
  {
  }

  /** Past the opening, every justified proposal repeats a choice taken one or two steps before. */
  lemma JustifiedFrom(w: World, h: Ledger, step: Step, leader: Option<ReplicaId>, p: Proposal)
    returns (before: Step, from: Proposal)
    requires Intersecting(w) && AllJustified(w, h)
    requires step > ROUND_ONE_PHASE_ZERO && Justified(w, h, leader, step, p)
    ensures Justified(w, h, leader, before, from) && SameChoice(from, p)
    ensures before == if Phase(step) == 0 then step - 2 else step - 1
  {
    var q;
    if Phase(step) == 0 {
      q, from := BestOfRoundFrom(w, h, step - 2, leader, p);
      before := step - 2;
    } else {
      q := SpreadOrHeldFrom(w, h, step - 1, leader, p);
      before, from := step - 1, p;
    }
    TakenIsJustified(w, h, q, leader, before, from);
  }

  lemma BestOfRoundFrom(w: World, h: Ledger, step: Step, leader: Option<ReplicaId>, p: Proposal)
    returns (q: ReplicaId, from: Proposal)
    requires IsBestOfRound(w, h, leader, step, p)
    ensures Bound(h, q, leader) && from in h.taken(q, step) && SameChoice(from, p)
  {
    var voters, best :| voters in w.quorums && Gathered(h, voters, leader, step, best) && SameChoice(best, p);
    q :| q in voters && best in h.taken(q, step);
    from := best;
  }

  lemma SpreadOrHeldFrom(w: World, h: Ledger, step: Step, leader: Option<ReplicaId>, p: Proposal) returns (q: ReplicaId)
    requires Intersecting(w)
    requires IsSpread(w, h, leader, step, p) || IsHeld(w, h, leader, step, p)
    ensures Bound(h, q, leader) && p in h.taken(q, step)
  {
    if IsSpread(w, h, leader, step, p) {
      var voters :| voters in w.quorums && Spread(h, voters, leader, step, p);
      q :| q in voters && h.taken(q, step)[0] == p;
    } else {
      var voters :| voters in w.quorums && Held(h, voters, leader, step, p);
      q := Meet(w, voters, voters);
    }
  }

  /** The first step at which only the decided choice can be sent. */
  function LockedFrom(step: Step): Step {
    if step == ROUND_ONE_PHASE_ZERO then step + 1 else step + 2
  }

  /** Lock-in: from there on every proposal sent by anyone carries the decided choice. */
  lemma LockIn(w: World, h: Ledger, leader: Option<ReplicaId>, step: Step, p: Proposal,
               later: Step, leader': Option<ReplicaId>, p': Proposal)
    requires Intersecting(w) && KeysUnique(w) && OneOpening(w, h) && AllJustified(w, h)
    requires Chosen(w, h, leader, step, p)
    requires later >= LockedFrom(step) && Justified(w, h, leader', later, p')
    ensures SameChoice(p', p)
  {
    var base := LockedFrom(step);
    forall l, x | Justified(w, h, l, base, x) ensures SameChoice(x, p) {
      if step == ROUND_ONE_PHASE_ZERO {
        FastLocksPhaseOne(w, h, leader, p, l, x);
      } else {
        SlowLocksNextRound(w, h, leader, step, p, l, x);
      }
    }
    ChoicePersists(w, h, base, p, later, leader', p');
  }

  /** Two decisions of one step. */
  lemma SameStepAgree(w: World, h: Ledger, step: Step, leader: Option<ReplicaId>, p: Proposal,
                      leader': Option<ReplicaId>, p': Proposal)
    requires Intersecting(w) && KeysUnique(w) && AllJustified(w, h)
    requires Chosen(w, h, leader, step, p) && Chosen(w, h, leader', step, p')
    ensures SameChoice(p, p')
  {
    var a := ChosenWasTaken(w, h, leader, step, p);
    var b := ChosenWasTaken(w, h, leader', step, p');
    assert TookJustified(w, h, a, step, p) && TookJustified(w, h, b, step, p');
    if step == ROUND_ONE_PHASE_ZERO {
      var x :| x in w.quorums && FastSpread(h, x, leader, p);
      var y :| y in w.quorums && FastSpread(h, y, leader', p');
      var q := Meet(w, x, y);
    } else {
      DecisionIsMaximal(w, h, leader, step, p, leader', p');
      DecisionIsMaximal(w, h, leader', step, p', leader, p);
      KeyLeAntisymmetric(p.key, p'.key);
    }
    InputsUnique(w, p, p');
  }

  /** Any two choices made in one set of histories are the same choice. */
  lemma ChoicesAgree(w: World, h: Ledger, leader: Option<ReplicaId>, step: Step, p: Proposal,
                     leader': Option<ReplicaId>, step': Step, p': Proposal)
    requires Intersecting(w) && KeysUnique(w) && OneOpening(w, h) && AllJustified(w, h)
    requires Chosen(w, h, leader, step, p) && Chosen(w, h, leader', step', p')
    ensures SameChoice(p, p')
    decreases if step > step' then 1 else 0
  {
    if step == step' {
      SameStepAgree(w, h, step, leader, p, leader', p');
    } else if step > step' {
      ChoicesAgree(w, h, leader', step', p', leader, step, p);
    } else {
      var b := ChosenWasTaken(w, h, leader', step', p');
      assert TookJustified(w, h, b, step', p');
      LockIn(w, h, leader, step, p, step', leader', p');
    }
  }

  // ----- Evidence is never lost -----

  /**
   Histories only grow: recorders take more at the steps they are at, nothing at the
   steps they have left, and never change the leader they are bound to.
   */
  ghost predicate Grows(h: Ledger, h': Ledger) {
    && (forall q, step :: h.taken(q, step) <= h'.taken(q, step))
    && (forall q, step :: h.top(q) > step ==> h'.taken(q, step) == h.taken(q, step))
    && (forall q :: h.top(q) <= h'.top(q))
    && (forall q :: h.bound(q).Some? ==> h'.bound(q) == h.bound(q))
  }

  lemma HeldGrows(h: Ledger, h': Ledger, voters: set<ReplicaId>, leader: Option<ReplicaId>, step: Step, p: Proposal)
    requires Grows(h, h') && Held(h, voters, leader, step, p)
    ensures Held(h', voters, leader, step, p)
  {
    forall q | q in voters ensures Bound(h', q, leader) && p in h'.taken(q, step) {
      assert Bound(h, q, leader);
      assert h.taken(q, step) <= h'.taken(q, step);
    }
  }

  lemma SpreadGrows(h: Ledger, h': Ledger, voters: set<ReplicaId>, leader: Option<ReplicaId>, step: Step, p: Proposal)
    requires Grows(h, h') && Spread(h, voters, leader, step, p)
    ensures Spread(h', voters, leader, step, p)
  {
    forall q | q in voters
      ensures Bound(h', q, leader) && h'.taken(q, step) != [] && h'.taken(q, step)[0] == h.taken(q, step)[0]
    {
      assert Bound(h, q, leader);
      assert h.taken(q, step) <= h'.taken(q, step);
    }
  }

  lemma GatheredGrows(h: Ledger, h': Ledger, voters: set<ReplicaId>, leader: Option<ReplicaId>, step: Step, p: Proposal)
    requires Grows(h, h') && Gathered(h, voters, leader, step, p)
    ensures Gathered(h', voters, leader, step, p)
  {
    forall q | q in voters
      ensures Bound(h', q, leader) && h'.top(q) > step && h'.taken(q, step) == h.taken(q, step)
    {
      assert Bound(h, q, leader);
    }
  }

  lemma FastSpreadGrows(h: Ledger, h': Ledger, voters: set<ReplicaId>, leader: Option<ReplicaId>, p: Proposal)
    requires Grows(h, h') && FastSpread(h, voters, leader, p)
    ensures FastSpread(h', voters, leader, p)
  {
    var step := ROUND_ONE_PHASE_ZERO;
    forall q | q in voters
      ensures Bound(h', q, leader) && h'.taken(q, step) != [] && h'.taken(q, step)[0] == h.taken(q, step)[0]
    {
      assert Bound(h, q, leader);
      assert h.taken(q, step) <= h'.taken(q, step);
    }
  }

  /** What was justified stays justified. */
  lemma JustifiedGrows(w: World, h: Ledger, h': Ledger, leader: Option<ReplicaId>, step: Step, p: Proposal)
    requires Grows(h, h') && Justified(w, h, leader, step, p)
    ensures Justified(w, h', leader, step, p)
  {
    if step == ROUND_ONE_PHASE_ZERO {
    } else if Phase(step) == 0 {
      var voters, best :| voters in w.quorums && Gathered(h, voters, leader, step - 2, best) && SameChoice(best, p);
      GatheredGrows(h, h', voters, leader, step - 2, best);
    } else if Phase(step) == 1 {
      var voters :| voters in w.quorums && Spread(h, voters, leader, step - 1, p);
      SpreadGrows(h, h', voters, leader, step - 1, p);
    } else {
      var voters :| voters in w.quorums && Held(h, voters, leader, step - 1, p);
      HeldGrows(h, h', voters, leader, step - 1, p);
    }
  }

  /** What was chosen stays chosen. */
  lemma ChosenGrows(w: World, h: Ledger, h': Ledger, leader: Option<ReplicaId>, step: Step, p: Proposal)
    requires Grows(h, h') && Chosen(w, h, leader, step, p)
    ensures Chosen(w, h', leader, step, p)
  {
    if SlowChosen(w, h, leader, step, p) {
      var x :| x in w.quorums && Held(h, x, leader, step, p) && Gathered(h, x, leader, step - 1, p);
      HeldGrows(h, h', x, leader, step, p);
      GatheredGrows(h, h', x, leader, step - 1, p);
    } else {
      var x :| x in w.quorums && FastSpread(h, x, leader, p);
      FastSpreadGrows(h, h', x, leader, p);
    }
  }
}
