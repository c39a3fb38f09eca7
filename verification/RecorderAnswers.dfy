/**
 What a recorder answers, and for how long: which decisions and records it accepts, that
 a decision it was told is reported with every later record of its slot, and that
 pruning is for good and touches nothing above its slot.
 */
module RecorderAnswers {
  import opened Types
  import opened IntervalRegister
  import opened Membership
  import opened Recorder
  import opened RecorderRestore

  // ----- Which decisions are accepted -----

  /** A decision by a member, within the limits, with at least one value and none twice. */
  predicate Tellable(st: RecorderState, d: Decision) {
    && d.proposer in st.cluster.members && d.decidedStep <= st.limits.maxStep
    && 1 <= |d.values| <= st.limits.maxValues && Distinct(d.values)
  }

  /** The slots above the floor that the decisions are for. */
  function ToldSlots(st: RecorderState, ds: seq<Decision>): set<Slot> {
    set d | d in ds && d.slot > st.prunedThrough :: d.slot
  }

  /** Above the floor, two decisions for one slot have the same values. */
  predicate SameValues(st: RecorderState, ds: seq<Decision>) {
    && (forall d :: d in ds && d.slot > st.prunedThrough && d.slot in st.decisions ==>
          st.decisions[d.slot].values == d.values)
    && (forall d, d' :: d in ds && d' in ds && d.slot == d'.slot > st.prunedThrough ==> d.values == d'.values)
  }

  predicate AllTellable(st: RecorderState, ds: seq<Decision>) {
    forall d :: d in ds ==> Tellable(st, d)
  }

  predicate Consistent(st: RecorderState, ds: seq<Decision>) {
    && AllTellable(st, ds)
    && SameValues(st, ds)
    && |st.decisions.Keys + ToldSlots(st, ds)| <= st.limits.maxDecisions
  }

  /** What was told above the floor is stored. */
  predicate Stored(st: RecorderState, ds: seq<Decision>, st': RecorderState) {
    && st'.decisions.Keys == st.decisions.Keys + ToldSlots(st, ds)
    && forall d :: d in ds && d.slot > st.prunedThrough ==> st'.decisions[d.slot].values == d.values
  }

  /** The decision is acceptable next to those that are stored. */
  predicate Fits(st: RecorderState, d: Decision) {
    && Tellable(st, d)
    && (d.slot <= st.prunedThrough
        || (if d.slot in st.decisions then st.decisions[d.slot].values == d.values
            else |st.decisions| != st.limits.maxDecisions))
  }

  lemma InformExactly(st: RecorderState, d: Decision)
    ensures Inform(st, d).1.Ok? <==> Fits(st, d)
    ensures Inform(st, d).1.Ok? && d.slot > st.prunedThrough ==>
              && Inform(st, d).0.decisions.Keys == st.decisions.Keys + {d.slot}
              && Inform(st, d).0.decisions[d.slot].values == d.values
    ensures Inform(st, d).1.Ok? && d.slot <= st.prunedThrough ==> Inform(st, d).0 == st
  {
  }

  lemma ToldSlotsMore(st: RecorderState, init: seq<Decision>, last: Decision)
    ensures ToldSlots(st, init + [last]) ==
            ToldSlots(st, init) + if last.slot > st.prunedThrough then {last.slot} else {}
  {
    var ds := init + [last];
    assert last in ds && forall d :: d in init ==> d in ds;
  }

  lemma ConsistentInit(st: RecorderState, init: seq<Decision>, last: Decision)
    requires Consistent(st, init + [last])
    ensures Consistent(st, init)
  {
    assert forall d :: d in init ==> d in init + [last];
    ToldSlotsMore(st, init, last);
    SubsetSize(st.decisions.Keys + ToldSlots(st, init), st.decisions.Keys + ToldSlots(st, init + [last]));
  }

  lemma InformAllMore(st: RecorderState, init: seq<Decision>, last: Decision)
    ensures InformAll(st, init + [last]) ==
            var before := InformAll(st, init); if before.1.Err? then before else Inform(before.0, last)
  {
    assert (init + [last])[..|init|] == init;
  }

  /**
   Several decisions are acknowledged exactly if each is acceptable by itself, none
   contradicts another or one that is stored, and all of them fit; then each is stored.
   */
  lemma {:induction false} InformsExactly(st: RecorderState, ds: seq<Decision>)
    requires |st.decisions| <= st.limits.maxDecisions
    ensures InformAll(st, ds).1.Ok? <==> Consistent(st, ds)
    ensures InformAll(st, ds).1.Ok? ==> Stored(st, ds, InformAll(st, ds).0)
  {
    if ds == [] {
      assert ToldSlots(st, ds) == {} && st.decisions.Keys + {} == st.decisions.Keys;
    } else {
      var init, last := ds[..|ds| - 1], ds[|ds| - 1];
      assert ds == init + [last];
      InformsExactly(st, init);
      InformAllMore(st, init, last);
      if InformAll(st, init).1.Ok? {
        InformAllOnlyAddsDecisions(st, init);
        OneMoreTold(st, init, last, InformAll(st, init).0);
      } else if Consistent(st, ds) {
        ConsistentInit(st, init, last);
      }
    }
  }

  lemma OneMoreTold(st: RecorderState, init: seq<Decision>, last: Decision, mid: RecorderState)
    requires Consistent(st, init) && Stored(st, init, mid) && OnlyAddsDecisions(st, mid, init)
    ensures Inform(mid, last).1.Ok? <==> Consistent(st, init + [last])
    ensures Inform(mid, last).1.Ok? ==> Stored(st, init + [last], Inform(mid, last).0)
  {
    OneMoreConsistent(st, init, last, mid);
    OneMoreStored(st, init, last, mid);
  }

  lemma OneMoreStored(st: RecorderState, init: seq<Decision>, last: Decision, mid: RecorderState)
    requires Stored(st, init, mid) && mid == st.(decisions := mid.decisions)
    requires Consistent(st, init + [last]) <==> Fits(mid, last)
    ensures Inform(mid, last).1.Ok? <==> Consistent(st, init + [last])
    ensures Inform(mid, last).1.Ok? ==> Stored(st, init + [last], Inform(mid, last).0)
  {
    InformExactly(mid, last);
    if Inform(mid, last).1.Ok? {
      if last.slot > st.prunedThrough {
        LastStored(st, init, last, mid, Inform(mid, last).0);
      } else {
        StoredBelow(st, init, last, mid);
      }
    }
  }

  /** What the last decision adds to the conditions, in terms of what is stored by then. */
  lemma OneMoreConsistent(st: RecorderState, init: seq<Decision>, last: Decision, mid: RecorderState)
    requires Consistent(st, init) && Stored(st, init, mid) && OnlyAddsDecisions(st, mid, init)
    ensures Consistent(st, init + [last]) <==> Fits(mid, last)
  {
    TellableMore(st, init, last);
    KeysMore(st, init, last, mid);
    if last.slot > st.prunedThrough {
      LastAgrees(st, init, last, mid);
      ConsistentAbove(st, init, last, mid);
    } else {
      BelowFloor(st, init, last);
    }
  }

  lemma ConsistentAbove(st: RecorderState, init: seq<Decision>, last: Decision, mid: RecorderState)
    requires last.slot > st.prunedThrough && mid == st.(decisions := mid.decisions)
    requires |mid.decisions.Keys| <= st.limits.maxDecisions
    requires st.decisions.Keys + ToldSlots(st, init + [last]) == mid.decisions.Keys + {last.slot}
    requires AllTellable(st, init + [last]) <==> Tellable(st, last)
    requires SameValues(st, init + [last]) <==>
               (last.slot in mid.decisions ==> mid.decisions[last.slot].values == last.values)
    ensures Consistent(st, init + [last]) <==> Fits(mid, last)
  {
    OneMoreKey(mid.decisions, last.slot, st.limits.maxDecisions);
  }

  lemma KeysMore(st: RecorderState, init: seq<Decision>, last: Decision, mid: RecorderState)
    requires mid.decisions.Keys == st.decisions.Keys + ToldSlots(st, init)
    ensures st.decisions.Keys + ToldSlots(st, init + [last]) ==
            if last.slot > st.prunedThrough then mid.decisions.Keys + {last.slot} else mid.decisions.Keys
  {
    ToldSlotsMore(st, init, last);
  }

  lemma OneMoreKey(m: map<Slot, Decision>, slot: Slot, max: nat)
    requires |m.Keys| <= max
    ensures |m.Keys + {slot}| <= max <==> slot in m || |m| != max
  {
    assert |m| == |m.Keys|;
    if slot in m {
      assert m.Keys + {slot} == m.Keys;
    }
  }

  lemma TellableMore(st: RecorderState, init: seq<Decision>, last: Decision)
    ensures AllTellable(st, init + [last]) <==> AllTellable(st, init) && Tellable(st, last)
  {
    assert last in init + [last] && forall d :: d in init ==> d in init + [last];
  }

  lemma BelowFloor(st: RecorderState, init: seq<Decision>, last: Decision)
    requires last.slot <= st.prunedThrough
    ensures SameValues(st, init + [last]) <==> SameValues(st, init)
  {
    assert forall d :: d in init ==> d in init + [last];
  }

  lemma StoredBelow(st: RecorderState, init: seq<Decision>, last: Decision, mid: RecorderState)
    requires last.slot <= st.prunedThrough && Stored(st, init, mid)
    ensures Stored(st, init + [last], mid)
  {
    ToldSlotsMore(st, init, last);
  }

  lemma LastStored(st: RecorderState, init: seq<Decision>, last: Decision, mid: RecorderState, st': RecorderState)
    requires Stored(st, init, mid) && last.slot > st.prunedThrough && SameValues(st, init + [last])
    requires st'.decisions == mid.decisions[last.slot := last]
             || (st'.decisions == mid.decisions && last.slot in mid.decisions)
    requires st'.decisions[last.slot].values == last.values
    ensures Stored(st, init + [last], st')
  {
    ToldSlotsMore(st, init, last);
    forall d | d in init + [last] && d.slot > st.prunedThrough
      ensures d.slot in st'.decisions && st'.decisions[d.slot].values == d.values
    {
      assert last in init + [last];
    }
  }

  /** The last decision agrees with all others exactly if it agrees with what is stored by then. */
  lemma LastAgrees(st: RecorderState, init: seq<Decision>, last: Decision, mid: RecorderState)
    requires SameValues(st, init) && Stored(st, init, mid) && OnlyAddsDecisions(st, mid, init)
    requires last.slot > st.prunedThrough
    ensures SameValues(st, init + [last]) <==>
              (last.slot in mid.decisions ==> mid.decisions[last.slot].values == last.values)
  {
    var ds := init + [last];
    assert last in ds && forall d :: d in init ==> d in ds;
    if last.slot in mid.decisions && last.slot !in st.decisions {
      assert mid.decisions[last.slot] in init && mid.decisions[last.slot].slot == last.slot;
    }
  }

  // ----- Which records are accepted -----

  /** A request by a member, for a proposal of a member within the limits, at a step from round one on. */
  predicate Recordable(st: RecorderState, req: RecordRequest) {
    && req.sender in st.cluster.members
    && (req.leader.Some? ==> req.leader.value in st.cluster.members)
    && req.proposal.key.proposer in st.cluster.members
    && 1 <= |req.proposal.values| <= st.limits.maxValues && Distinct(req.proposal.values)
    && ROUND_ONE_PHASE_ZERO <= req.step <= st.limits.maxStep
    && |req.known| <= st.limits.maxKnown
  }

  lemma RequestExactly(st: RecorderState, req: RecordRequest)
    ensures RequestError(st, req).None? <==> Recordable(st, req)
  {
  }

  /**
   A record is acknowledged exactly if it is well formed, above the floor, under the
   leader the slot is bound to, with its payload at hand, with known decisions that are
   acceptable, and for a slot that has a register or room for one.
   */
  lemma RecordExactly(st: RecorderState, req: RecordRequest, available: bool)
    requires Structural(st)
    ensures Record(st, req, available).1.Ok? <==>
              && Recordable(st, req) && req.slot > st.prunedThrough && available
              && (req.slot in st.leaders ==> st.leaders[req.slot] == req.leader)
              && Consistent(st, req.known)
              && (req.slot in st.slots || |st.slots| < st.limits.maxActiveSlots)
  {
    RequestExactly(st, req);
    InformsExactly(st, req.known);
    InformAllOnlyAddsDecisions(st, req.known);
  }

  // ----- A decision that was told is reported -----

  /** The operation tells the recorder the decision. */
  predicate Tells(op: Op, d: Decision) {
    (op.OpInform? && d in op.decisions) || (op.OpRecord? && d in op.request.known)
  }

  /** A decision with these values is stored for the slot. */
  predicate Knows(st: RecorderState, d: Decision) {
    d.slot in st.decisions && st.decisions[d.slot].slot == d.slot && st.decisions[d.slot].values == d.values
  }

  lemma {:induction false} InformedKnows(st: RecorderState, ds: seq<Decision>, d: Decision)
    requires Structural(st) && InformAll(st, ds).1.Ok? && d in ds && d.slot > st.prunedThrough
    ensures Knows(InformAll(st, ds).0, d)
  {
    InformsExactly(st, ds);
    InformAllOnlyAddsDecisions(st, ds);
  }

  lemma ToldIsKnown(st: RecorderState, op: Op, d: Decision)
    requires Structural(st) && Apply(st, op).1.Ok? && Tells(op, d) && d.slot > st.prunedThrough
    ensures Knows(Apply(st, op).0, d)
  {
    InformedKnows(st, if op.OpInform? then op.decisions else op.request.known, d);
  }

  lemma KnownStays(st: RecorderState, op: Op, d: Decision)
    requires Knows(st, d) && (op.OpPrune? ==> op.slot < d.slot)
    ensures Knows(Apply(st, op).0, d)
  {
    if op.OpRecord? {
      InformAllOnlyAddsDecisions(st, op.request.known);
    } else if op.OpInform? {
      InformAllOnlyAddsDecisions(st, op.decisions);
    }
  }

  lemma {:induction false} KnownForGood(st: RecorderState, ops: seq<Op>, d: Decision)
    requires Knows(st, d) && forall k :: 0 <= k < |ops| && ops[k].OpPrune? ==> ops[k].slot < d.slot
    ensures Knows(ApplyAll(st, ops), d)
  {
    if ops != [] {
      KnownForGood(st, ops[..|ops| - 1], d);
      KnownStays(ApplyAll(st, ops[..|ops| - 1]), ops[|ops| - 1], d);
    }
  }

  /**
   Over every run: once a decision above the floor has been acknowledged, by itself or
   with a record, every record of its slot that is acknowledged later, until the slot is
   pruned, reports a decision for that slot with the same values.
   */
  lemma ToldIsReported(id: ReplicaId, limits: Limits, cluster: Cluster, before: seq<Op>, op: Op, after: seq<Op>,
                       d: Decision, req: RecordRequest, available: bool)
    requires var st := ApplyAll(NewRecorder(id, limits, cluster), before);
             && Apply(st, op).1.Ok? && Tells(op, d) && d.slot > st.prunedThrough && req.slot == d.slot
             && Record(ApplyAll(Apply(st, op).0, after), req, available).1.Ok?
    requires forall k :: 0 <= k < |after| && after[k].OpPrune? ==> after[k].slot < d.slot
    ensures var st := ApplyAll(NewRecorder(id, limits, cluster), before);
            var reply := Record(ApplyAll(Apply(st, op).0, after), req, available).1.value;
            reply.decision.Some? && reply.decision.value.slot == d.slot && reply.decision.value.values == d.values
  {
    var st := ApplyAll(NewRecorder(id, limits, cluster), before);
    ReachableIsStructural(id, limits, cluster, before);
    ToldIsKnown(st, op, d);
    KnownForGood(Apply(st, op).0, after, d);
    RecordReports(ApplyAll(Apply(st, op).0, after), req, available);
  }

  /** Nothing that the recorder was told is for this slot. */
  ghost predicate Untold(op: Op, slot: Slot) {
    forall d :: Tells(op, d) ==> d.slot != slot
  }

  lemma {:induction false} UntoldIsUnknown(id: ReplicaId, limits: Limits, cluster: Cluster, ops: seq<Op>, slot: Slot)
    requires forall k :: 0 <= k < |ops| ==> Untold(ops[k], slot)
    ensures slot !in ApplyAll(NewRecorder(id, limits, cluster), ops).decisions
  {
    if ops != [] {
      UntoldIsUnknown(id, limits, cluster, ops[..|ops| - 1], slot);
      var st, op := ApplyAll(NewRecorder(id, limits, cluster), ops[..|ops| - 1]), ops[|ops| - 1];
      StoredDecisionsAreTold(st, op, slot);
      assert slot in Apply(st, op).0.decisions ==> Tells(op, Apply(st, op).0.decisions[slot]);
    }
  }

  /** A slot that no operation and not the record itself brings a decision for is reported as undecided. */
  lemma UntoldIsNotReported(id: ReplicaId, limits: Limits, cluster: Cluster, ops: seq<Op>, req: RecordRequest,
                            available: bool)
    requires forall k :: 0 <= k < |ops| ==> Untold(ops[k], req.slot)
    requires Untold(OpRecord(req, available), req.slot)
    requires Record(ApplyAll(NewRecorder(id, limits, cluster), ops), req, available).1.Ok?
    ensures Record(ApplyAll(NewRecorder(id, limits, cluster), ops), req, available).1.value.decision.None?
  {
    var last := OpRecord(req, available);
    UntoldIsUnknown(id, limits, cluster, ops + [last], req.slot);
    assert (ops + [last])[..|ops|] == ops;
    RecordReports(ApplyAll(NewRecorder(id, limits, cluster), ops), req, available);
  }

  // ----- Pruning -----

  /** Nothing at or below the slot is retained. */
  predicate ClearedThrough(st: RecorderState, slot: Slot) {
    && st.prunedThrough >= slot
    && (forall s :: s in st.slots ==> s > slot)
    && (forall s :: s in st.leaders ==> s > slot)
    && (forall s :: s in st.decisions ==> s > slot)
  }

  lemma ClearedStays(st: RecorderState, op: Op, slot: Slot)
    requires ClearedThrough(st, slot)
    ensures ClearedThrough(Apply(st, op).0, slot)
  {
    if op.OpRecord? {
      InformAllOnlyAddsDecisions(st, op.request.known);
    } else if op.OpInform? {
      InformAllOnlyAddsDecisions(st, op.decisions);
    }
  }

  lemma {:induction false} ClearedForGood(st: RecorderState, ops: seq<Op>, slot: Slot)
    requires ClearedThrough(st, slot)
    ensures ClearedThrough(ApplyAll(st, ops), slot)
  {
    if ops != [] {
      ClearedForGood(st, ops[..|ops| - 1], slot);
      ClearedStays(ApplyAll(st, ops[..|ops| - 1]), ops[|ops| - 1], slot);
    }
  }

  /**
   After a prune and whatever comes later, nothing at or below the slot is retained, and a
   record for such a slot changes nothing and fails: because it is malformed, or else
   because its slot is pruned.
   */
  lemma PrunedForGood(st: RecorderState, slot: Slot, ops: seq<Op>, req: RecordRequest, available: bool)
    requires req.slot <= slot
    ensures Apply(st, OpPrune(slot)).1.Ok?
    ensures var now := ApplyAll(Apply(st, OpPrune(slot)).0, ops);
            && ClearedThrough(now, slot)
            && Record(now, req, available).0 == now
            && Record(now, req, available).1 ==
               Err(if RequestError(now, req).Some? then RequestError(now, req).value else SlotPruned(req.slot))
  {
    ClearedForGood(Apply(st, OpPrune(slot)).0, ops, slot);
  }

  /** Above the slot everything is as it was. */
  lemma PruneKeepsAbove(st: RecorderState, slot: Slot, s: Slot)
    requires s > slot
    ensures var now := Apply(st, OpPrune(slot)).0;
            && now == st.(slots := now.slots, leaders := now.leaders, decisions := now.decisions,
                          prunedThrough := now.prunedThrough)
            && (s in now.slots <==> s in st.slots) && (s in st.slots ==> now.slots[s] == st.slots[s])
            && (s in now.leaders <==> s in st.leaders) && (s in st.leaders ==> now.leaders[s] == st.leaders[s])
            && (s in now.decisions <==> s in st.decisions)
            && (s in st.decisions ==> now.decisions[s] == st.decisions[s])
  {
  }

  /** Over every run the floor is the greatest slot that was pruned through, and 0 without a prune. */
  lemma {:induction false} FloorIsGreatestPrune(id: ReplicaId, limits: Limits, cluster: Cluster, ops: seq<Op>)
    ensures var floor := ApplyAll(NewRecorder(id, limits, cluster), ops).prunedThrough;
            && (forall k :: 0 <= k < |ops| && ops[k].OpPrune? ==> ops[k].slot <= floor)
            && (floor == 0 || exists k :: 0 <= k < |ops| && ops[k] == OpPrune(floor))
  {
    if ops != [] {
      var n := |ops| - 1;
      FloorIsGreatestPrune(id, limits, cluster, ops[..n]);
      var st := ApplyAll(NewRecorder(id, limits, cluster), ops[..n]);
      FloorMoves(st, ops[n]);
      if Apply(st, ops[n]).0.prunedThrough != st.prunedThrough {
        assert ops[n] == OpPrune(Apply(st, ops[n]).0.prunedThrough);
      } else if st.prunedThrough != 0 {
        var k :| 0 <= k < n && ops[..n][k] == OpPrune(st.prunedThrough);
        assert ops[k] == OpPrune(st.prunedThrough);
      }
    }
  }

  lemma FloorMoves(st: RecorderState, op: Op)
    ensures Apply(st, op).0.prunedThrough ==
            if op.OpPrune? && op.slot > st.prunedThrough then op.slot else st.prunedThrough
  {
    if op.OpRecord? {
      InformAllOnlyAddsDecisions(st, op.request.known);
    } else if op.OpInform? {
      InformAllOnlyAddsDecisions(st, op.decisions);
    }
  }
}
