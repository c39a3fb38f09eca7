/**
 What the replica accepts, and what comes of it: which values, proposals and decisions
 are taken in, that the committed prefix is exactly as long as the accepted decisions
 allow, in whatever order they arrive, and that pruned slots stay pruned.
 */
module ReplicaAnswers {
  import opened Types
  import opened Membership
  import opened Replica
  import opened ReplicaSafety

  // ----- Which decisions are accepted -----

  /** Room in the log for the slot, and in the tracked values for these. */
  predicate Fits(st: ReplicaState, slot: Slot, values: seq<Value>) {
    && |st.seen + Elements(values)| <= st.config.maxTracked
    && (slot in st.log || |st.log.Keys - {GENESIS}| < st.config.maxLogSlots)
  }

  predicate Valid(values: seq<Value>) {
    values != [] && Distinct(values)
  }

  /** The same values are decided there already, or nothing is and what loses fits in the queue. */
  predicate Compatible(st: ReplicaState, d: Decision) {
    match EntryAt(st.log, d.slot).decision
    case Some(e) => e.values == d.values
    case None => |st.pending| + |Losing(EntryAt(st.log, d.slot).proposed, d.values)| <= st.config.maxPending
  }

  lemma LosesNothing(values: seq<Value>)
    ensures Losing(values, values) == [] && Losing([], values) == []
  {
    LosingAreProposed(values, values);
    if Losing(values, values) != [] {
      assert Losing(values, values)[0] in Losing(values, values);
    }
  }

  /**
   A decision is accepted exactly if it has values, none twice, fits in the tracked
   values and the log, and contradicts neither a stored decision nor the queue's limit.
   */
  lemma DecideExactly(st: ReplicaState, d: Decision)
    requires WithinLimits(st)
    ensures ApplyDecision(st, d).1.Ok? <==> Valid(d.values) && Fits(st, d.slot, d.values) && Compatible(st, d)
    ensures ApplyDecision(st, d).1.Err? ==> ApplyDecision(st, d).0 == st
  {
    DistinctExactly(d.values);
    SeenGrows(st.seen, d.values);
    LosesNothing(d.values);
  }

  /** The same for a proposal that is noted for a slot. */
  lemma NoteExactly(st: ReplicaState, slot: Slot, values: seq<Value>)
    ensures NoteProposed(st, slot, values).1.Ok? <==> Valid(values) && Fits(st, slot, values)
    ensures NoteProposed(st, slot, values).1.Err? ==> NoteProposed(st, slot, values).0 == st
    ensures NoteProposed(st, slot, values).1.Ok? ==>
              var st' := NoteProposed(st, slot, values).0;
              && st'.log.Keys == st.log.Keys + {slot} && st'.seen == st.seen + Elements(values)
              && st'.log[slot].proposed == values && st'.log[slot].decision == EntryAt(st.log, slot).decision
              && (forall s :: s in st.log && s != slot ==> st'.log[s] == st.log[s])
              && st'.pending == st.pending && st'.nextCommit == st.nextCommit
  {
    DistinctExactly(values);
    SeenGrows(st.seen, values);
  }

  // ----- Which values are queued -----

  /** Where a value first occurs. */
  function FirstIndex(values: seq<Value>, v: Value): (i: nat)
    requires v in values
    ensures i < |values| && values[i] == v && forall j :: 0 <= j < i ==> values[j] != v
  {
    if values[0] == v then 0
    else
      assert values == [values[0]] + values[1..];
      FirstIndex(values[1..], v) + 1
  }

  /** In the order in which the values first occur. */
  predicate InOrder(added: seq<Value>, values: seq<Value>)
    requires forall v :: v in added ==> v in values
  {
    forall i, j :: 0 <= i < j < |added| ==> FirstIndex(values, added[i]) < FirstIndex(values, added[j])
  }

  lemma FirstIndexStays(init: seq<Value>, last: Value, v: Value)
    requires v in init
    ensures v in init + [last] && FirstIndex(init + [last], v) == FirstIndex(init, v)
  {
    var all := init + [last];
    var i, j := FirstIndex(init, v), FirstIndex(all, v);
    assert all[i] == v;
    assert j < |init| && init[j] == v;
  }

  lemma {:induction false} UnseenInOrder(seen: set<Value>, values: seq<Value>)
    ensures forall v :: v in Unseen(seen, values) ==> v in values
    ensures InOrder(Unseen(seen, values), values)
  {
    UnseenIsTracked(seen, values);
    if values != [] {
      var init, last := values[..|values| - 1], values[|values| - 1];
      assert values == init + [last];
      UnseenInOrder(seen, init);
      UnseenIsTracked(seen, init);
      var before, added := Unseen(seen, init), Unseen(seen, values);
      forall i, j | 0 <= i < j < |added| ensures FirstIndex(values, added[i]) < FirstIndex(values, added[j]) {
        assert added[i] == before[i] && added[i] in before;
        FirstIndexStays(init, last, added[i]);
        if j < |before| {
          assert added[j] == before[j] && added[j] in before;
          FirstIndexStays(init, last, added[j]);
        } else {
          assert last !in init;
        }
      }
    }
  }

  lemma UnseenSize(seen: set<Value>, values: seq<Value>)
    ensures Elements(Unseen(seen, values)) == Elements(values) - seen
    ensures |Unseen(seen, values)| == |Elements(values) - seen|
  {
    UnseenIsTracked(seen, values);
    ElementsSize(Unseen(seen, values));
  }

  /**
   Values are queued exactly if the new ones fit in the queue and in the tracked values;
   then exactly the values not seen before are appended, each once, in the order given.
   */
  lemma EnqueueExactly(st: ReplicaState, values: seq<Value>) returns (added: seq<Value>)
    ensures Enqueue(st, values).1.Ok? <==>
              && |st.pending| + |Elements(values) - st.seen| <= st.config.maxPending
              && |st.seen + Elements(values)| <= st.config.maxTracked
    ensures Enqueue(st, values).1.Err? ==> Enqueue(st, values).0 == st
    ensures Enqueue(st, values).1.Ok? ==>
              Enqueue(st, values).0 == st.(pending := st.pending + added, seen := st.seen + Elements(values))
    ensures Elements(added) == Elements(values) - st.seen && Distinct(added)
    ensures forall v :: v in added ==> v in values
    ensures InOrder(added, values)
  {
    added := Unseen(st.seen, values);
    UnseenIsTracked(st.seen, values);
    UnseenSize(st.seen, values);
    UnseenInOrder(st.seen, values);
    SeenGrows(st.seen, values);
    assert st.seen + Elements(added) == st.seen + Elements(values);
  }

  // ----- The frontier is where the accepted decisions say -----

  function Accepts(st: ReplicaState, op: Op): set<Slot> {
    if op.OpDecide? && ApplyDecision(st, op.decision).1.Ok? then {op.decision.slot} else {}
  }

  /** The slots of the decisions that a run has accepted. */
  function AcceptedSlots(config: ReplicaConfig, ops: seq<Op>): set<Slot> {
    if ops == [] then {}
    else
      var init, last := ops[..|ops| - 1], ops[|ops| - 1];
      AcceptedSlots(config, init) + Accepts(After(config, init), last)
  }

  /** The slot is behind the frontier, or its decision waits in the log. */
  predicate Settled(log: Log, next: Slot, s: Slot) {
    s < next || (s in log && log[s].decision.Some?)
  }

  /** Exactly these slots are settled. */
  ghost predicate SettledAre(log: Log, next: Slot, slots: set<Slot>) {
    forall s :: s >= 1 ==> (Settled(log, next, s) <==> s in slots)
  }

  lemma NoteSettles(st: ReplicaState, slot: Slot, values: seq<Value>, slots: set<Slot>)
    requires SettledAre(st.log, st.nextCommit, slots)
    ensures var st' := NoteProposed(st, slot, values).0; SettledAre(st'.log, st'.nextCommit, slots)
  {
    var st' := NoteProposed(st, slot, values).0;
    forall s | s >= 1 ensures Settled(st'.log, st'.nextCommit, s) <==> s in slots {
      assert Settled(st.log, st.nextCommit, s) <==> s in slots;
    }
  }

  lemma PruneSettles(st: ReplicaState, slot: Slot, slots: set<Slot>)
    requires FrontierOk(st) && SettledAre(st.log, st.nextCommit, slots)
    ensures var st' := PruneThrough(st, slot); SettledAre(st'.log, st'.nextCommit, slots)
  {
    var st' := PruneThrough(st, slot);
    forall s | s >= 1 ensures Settled(st'.log, st'.nextCommit, s) <==> s in slots {
      assert Settled(st.log, st.nextCommit, s) <==> s in slots;
    }
  }

  lemma CommitSettles(log: Log, next: Slot, log': Log, next': Slot, committed: seq<Decision>, s: Slot)
    requires Commits(log, next, log', next', committed)
    ensures Settled(log', next', s) <==> Settled(log, next, s)
  {
    if next <= s < next' {
      assert SlotCommits(log, next, log', committed, s);
    }
  }

  /** An accepted decision for an undecided slot is taken in; any other decision changes nothing. */
  lemma DecideOutcome(st: ReplicaState, d: Decision)
    requires FrontierOk(st)
    ensures var (st', committed) := Perform(st, OpDecide(d));
            if ApplyDecision(st, d).1.Ok? && EntryAt(st.log, d.slot).decision.None? then Decides(st, d, st', committed)
            else st' == st
  {
    if EntryAt(st.log, d.slot).decision.None? {
      CommitReadyCommits(WithDecision(st.log, d), st.nextCommit);
    }
  }

  lemma DecideSettles(st: ReplicaState, d: Decision, slots: set<Slot>)
    requires FrontierOk(st) && SettledAre(st.log, st.nextCommit, slots)
    ensures var st' := Perform(st, OpDecide(d)).0;
            SettledAre(st'.log, st'.nextCommit, slots + Accepts(st, OpDecide(d)))
  {
    var (st', committed) := Perform(st, OpDecide(d));
    DecideOutcome(st, d);
    if ApplyDecision(st, d).1.Err? {
      assert slots + Accepts(st, OpDecide(d)) == slots;
    } else if EntryAt(st.log, d.slot).decision.Some? {
      AlreadySettled(st, d.slot, slots);
    } else {
      NewDecisionSettles(st, d, st', committed, slots);
    }
  }

  lemma AlreadySettled(st: ReplicaState, slot: Slot, slots: set<Slot>)
    requires SettledAre(st.log, st.nextCommit, slots) && slot in st.log && st.log[slot].decision.Some?
    ensures SettledAre(st.log, st.nextCommit, slots + {slot})
  {
    assert Settled(st.log, st.nextCommit, slot);
  }

  lemma NewDecisionSettles(st: ReplicaState, d: Decision, st': ReplicaState, committed: seq<Decision>, slots: set<Slot>)
    requires SettledAre(st.log, st.nextCommit, slots)
    requires Commits(WithDecision(st.log, d), st.nextCommit, st'.log, st'.nextCommit, committed)
    ensures SettledAre(st'.log, st'.nextCommit, slots + {d.slot})
  {
    forall s | s >= 1 ensures Settled(st'.log, st'.nextCommit, s) <==> s in slots + {d.slot} {
      CommitSettles(WithDecision(st.log, d), st.nextCommit, st'.log, st'.nextCommit, committed, s);
      assert Settled(st.log, st.nextCommit, s) <==> s in slots;
    }
  }

  lemma PerformSettles(st: ReplicaState, op: Op, slots: set<Slot>)
    requires FrontierOk(st) && SettledAre(st.log, st.nextCommit, slots)
    ensures var st' := Perform(st, op).0; SettledAre(st'.log, st'.nextCommit, slots + Accepts(st, op))
  {
    assert !op.OpDecide? ==> slots + Accepts(st, op) == slots;
    match op
    case OpEnqueue(values) =>
    case OpPropose =>
      if WillPropose(st) {
        NoteSettles(st.(pending := st.pending[BatchLength(st)..]), NextOpen(st.log, st.nextCommit),
                    st.pending[..BatchLength(st)], slots);
      }
    case OpNote(slot, values) => NoteSettles(st, slot, values, slots);
    case OpDecide(d) => DecideSettles(st, d, slots);
    case OpPrune(slot) => PruneSettles(st, slot, slots);
  }

  lemma {:induction false} RunSettles(config: ReplicaConfig, ops: seq<Op>)
    ensures var st := After(config, ops); SettledAre(st.log, st.nextCommit, AcceptedSlots(config, ops))
  {
    if ops != [] {
      var init, last := ops[..|ops| - 1], ops[|ops| - 1];
      RunSettles(config, init);
      CommitOrder(config, init);
      PerformSettles(After(config, init), last, AcceptedSlots(config, init));
    }
  }

  /**
   Over every run, in whatever order decisions arrive and whatever happens in between, the
   committed prefix is the longest prefix of slots whose decisions were accepted.
   */
  lemma FrontierIsLongestPrefix(config: ReplicaConfig, ops: seq<Op>)
    ensures var n := |Committed(config, ops)|;
            && After(config, ops).nextCommit == n + 1
            && (forall s :: 1 <= s <= n ==> s in AcceptedSlots(config, ops))
            && n + 1 !in AcceptedSlots(config, ops)
  {
    CommitOrder(config, ops);
    RunSettles(config, ops);
    var st := After(config, ops);
    forall s | 1 <= s < st.nextCommit ensures s in AcceptedSlots(config, ops) {
      assert Settled(st.log, st.nextCommit, s);
    }
    assert !Settled(st.log, st.nextCommit, st.nextCommit);
  }

  // ----- Any order commits all -----

  function Deciding(ds: seq<Decision>): seq<Op> {
    seq(|ds|, k requires 0 <= k < |ds| => OpDecide(ds[k]))
  }

  function ValuesOf(ds: seq<Decision>): set<Value> {
    set k, v | 0 <= k < |ds| && v in ds[k].values :: v
  }

  function SlotsUpTo(n: nat): (slots: set<Slot>)
    ensures forall s :: s in slots <==> 1 <= s <= n
    ensures |slots| == n
  {
    if n == 0 then {} else SlotsUpTo(n - 1) + {n}
  }

  /** Decisions for slots 1 to n, with values, none twice, and one value list per slot. */
  predicate Agreeing(ds: seq<Decision>, n: nat) {
    && (forall k :: 0 <= k < |ds| ==> 1 <= ds[k].slot <= n && Valid(ds[k].values))
    && (forall j, k :: 0 <= j < |ds| && 0 <= k < |ds| && ds[j].slot == ds[k].slot ==> ds[j].values == ds[k].values)
  }

  predicate HasSlot(ds: seq<Decision>, s: Slot) {
    exists k :: 0 <= k < |ds| && ds[k].slot == s
  }

  predicate Covering(ds: seq<Decision>, n: nat) {
    forall s :: 1 <= s <= n ==> HasSlot(ds, s)
  }

  /** Nothing but decisions of these slots and values has reached the replica. */
  ghost predicate Quiet(st: ReplicaState, n: nat, values: set<Value>) {
    && st.pending == [] && st.seen <= values
    && st.log.Keys <= SlotsUpTo(n) + {GENESIS}
    && forall s :: s in st.log ==> st.log[s].proposed == []
  }

  lemma QuietDecide(st: ReplicaState, d: Decision, n: nat, values: set<Value>)
    requires FrontierOk(st) && Quiet(st, n, values) && 1 <= d.slot <= n && Elements(d.values) <= values
    ensures Quiet(Perform(st, OpDecide(d)).0, n, values)
  {
    var (st', committed) := Perform(st, OpDecide(d));
    DecideOutcome(st, d);
    if st' != st {
      QuietDecides(st, d, st', committed, n, values);
    }
  }

  lemma QuietDecides(st: ReplicaState, d: Decision, st': ReplicaState, committed: seq<Decision>, n: nat,
                     values: set<Value>)
    requires Quiet(st, n, values) && Decides(st, d, st', committed)
    requires 1 <= d.slot <= n && Elements(d.values) <= values
    ensures Quiet(st', n, values)
  {
    LosesNothing(d.values);
    QuietCommit(WithDecision(st.log, d), st.nextCommit, st'.log, st'.nextCommit, committed);
  }

  lemma QuietCommit(log: Log, next: Slot, log': Log, next': Slot, committed: seq<Decision>)
    requires Commits(log, next, log', next', committed) && forall s :: s in log ==> log[s].proposed == []
    ensures forall s :: s in log' ==> log'[s].proposed == []
  {
    forall s | s in log' ensures log'[s].proposed == [] {
      assert next <= s < next' ==> SlotCommits(log, next, log', committed, s);
    }
  }

  lemma DecisionValues(ds: seq<Decision>, k: nat)
    requires k < |ds|
    ensures Elements(ds[k].values) <= ValuesOf(ds)
  {
  }

  lemma DecidingMore(ds: seq<Decision>, n: nat)
    requires n < |ds|
    ensures Deciding(ds[..n + 1])[..n] == Deciding(ds[..n]) && Deciding(ds[..n + 1])[n] == OpDecide(ds[n])
    ensures |Deciding(ds[..n + 1])| == n + 1
  {
  }

  lemma {:induction false} QuietRun(config: ReplicaConfig, ds: seq<Decision>, n: nat, m: nat)
    requires Agreeing(ds, n) && m <= |ds|
    ensures Quiet(After(config, Deciding(ds[..m])), n, ValuesOf(ds))
  {
    if m == 0 {
      assert Deciding(ds[..0]) == [];
    } else {
      QuietRun(config, ds, n, m - 1);
      DecidingMore(ds, m - 1);
      CommitOrder(config, Deciding(ds[..m - 1]));
      DecisionValues(ds, m - 1);
      QuietDecide(After(config, Deciding(ds[..m - 1])), ds[m - 1], n, ValuesOf(ds));
    }
  }

  /** With nothing else going on, limits that fit the slots and values let every decision in. */
  lemma QuietAccepts(config: ReplicaConfig, ds: seq<Decision>, n: nat, m: nat)
    requires Agreeing(ds, n) && m < |ds|
    requires config.maxLogSlots >= n && config.maxTracked >= |ValuesOf(ds)|
    ensures ApplyDecision(After(config, Deciding(ds[..m])), ds[m]).1.Ok?
  {
    var st, d := After(config, Deciding(ds[..m])), ds[m];
    QuietRun(config, ds, n, m);
    AlwaysSound(config, Deciding(ds[..m]));
    ConfigStays(config, Deciding(ds[..m]));
    DecisionValues(ds, m);
    SubsetSize(st.seen + Elements(d.values), ValuesOf(ds));
    RoomFor(st, d.slot, n);
    StoredAgrees(config, ds, n, m);
    LosesNothing(d.values);
    DecideExactly(st, d);
  }

  lemma RoomFor(st: ReplicaState, slot: Slot, n: nat)
    requires st.log.Keys <= SlotsUpTo(n) + {GENESIS} && slot in SlotsUpTo(n) && st.config.maxLogSlots >= n
    ensures slot in st.log || |st.log.Keys - {GENESIS}| < st.config.maxLogSlots
  {
    if slot !in st.log {
      SubsetSize(st.log.Keys - {GENESIS}, SlotsUpTo(n) - {slot});
    }
  }

  lemma StoredAgrees(config: ReplicaConfig, ds: seq<Decision>, n: nat, m: nat)
    requires Agreeing(ds, n) && m < |ds|
    ensures var entry := EntryAt(After(config, Deciding(ds[..m])).log, ds[m].slot);
            entry.decision.Some? ==> entry.decision.value.values == ds[m].values
  {
    var ops := Deciding(ds[..m]);
    var entry := EntryAt(After(config, ops).log, ds[m].slot);
    CommitOrder(config, ops);
    CommittedWereApplied(config, ops, Applied(ops));
    if entry.decision.Some? {
      assert entry.decision.value in Applied(ops);
      var k :| 0 <= k < |ops| && ops[k].decision == entry.decision.value;
      assert ds[k] == entry.decision.value;
    }
  }

  lemma {:induction false} AllAccepted(config: ReplicaConfig, ds: seq<Decision>, n: nat, m: nat, k: nat)
    requires Agreeing(ds, n) && k < m <= |ds|
    requires config.maxLogSlots >= n && config.maxTracked >= |ValuesOf(ds)|
    ensures ds[k].slot in AcceptedSlots(config, Deciding(ds[..m]))
    decreases m
  {
    DecidingMore(ds, m - 1);
    if k == m - 1 {
      QuietAccepts(config, ds, n, k);
    } else {
      AllAccepted(config, ds, n, m - 1, k);
    }
  }

  lemma {:induction false} AcceptedBelow(config: ReplicaConfig, ops: seq<Op>, n: nat)
    requires forall k :: 0 <= k < |ops| && ops[k].OpDecide? ==> ops[k].decision.slot <= n
    ensures forall s :: s in AcceptedSlots(config, ops) ==> s <= n
  {
    if ops != [] {
      AcceptedBelow(config, ops[..|ops| - 1], n);
      AcceptsOnly(After(config, ops[..|ops| - 1]), ops[|ops| - 1]);
    }
  }

  lemma AcceptsOnly(st: ReplicaState, op: Op)
    ensures Accepts(st, op) <= if op.OpDecide? then {op.decision.slot} else {}
  {
  }

  lemma AllSlotsAccepted(config: ReplicaConfig, ds: seq<Decision>, n: nat)
    requires Agreeing(ds, n) && Covering(ds, n)
    requires config.maxLogSlots >= n && config.maxTracked >= |ValuesOf(ds)|
    ensures forall s :: 1 <= s <= n ==> s in AcceptedSlots(config, Deciding(ds))
  {
    assert ds[..|ds|] == ds;
    forall s | 1 <= s <= n ensures s in AcceptedSlots(config, Deciding(ds)) {
      assert HasSlot(ds, s);
      var k :| 0 <= k < |ds| && ds[k].slot == s;
      AllAccepted(config, ds, n, |ds|, k);
    }
  }

  lemma LongestPrefixIs(slots: set<Slot>, m: nat, n: nat)
    requires (forall s :: 1 <= s <= m ==> s in slots) && m + 1 !in slots
    requires (forall s :: 1 <= s <= n ==> s in slots) && forall s :: s in slots ==> s <= n
    ensures m == n
  {
    assert m > n ==> m in slots;
  }

  lemma CommitsCount(config: ReplicaConfig, ds: seq<Decision>, n: nat)
    requires Agreeing(ds, n) && Covering(ds, n)
    requires config.maxLogSlots >= n && config.maxTracked >= |ValuesOf(ds)|
    ensures |Committed(config, Deciding(ds))| == n
  {
    var ops := Deciding(ds);
    AllSlotsAccepted(config, ds, n);
    AcceptedBelow(config, ops, n);
    FrontierIsLongestPrefix(config, ops);
    LongestPrefixIs(AcceptedSlots(config, ops), |Committed(config, ops)|, n);
  }

  lemma CommitsThese(config: ReplicaConfig, ds: seq<Decision>, d: Decision)
    requires d in Committed(config, Deciding(ds))
    ensures d in ds
  {
    var ops := Deciding(ds);
    CommittedWereApplied(config, ops, Applied(ops));
    var j :| 0 <= j < |ops| && ops[j].decision == d;
    assert ds[j] == d;
  }

  /**
   Agreeing decisions for slots 1 to n, repeated and in any order, commit all n slots, in
   order and with their values, if the log and the tracked values have room for them.
   */
  lemma AnyOrderCommitsAll(config: ReplicaConfig, ds: seq<Decision>, n: nat)
    requires Agreeing(ds, n) && Covering(ds, n)
    requires config.maxLogSlots >= n && config.maxTracked >= |ValuesOf(ds)|
    ensures var committed := Committed(config, Deciding(ds));
            && |committed| == n
            && forall k :: 0 <= k < n ==> committed[k].slot == k + 1 && committed[k] in ds
  {
    var committed := Committed(config, Deciding(ds));
    CommitsCount(config, ds, n);
    CommitOrder(config, Deciding(ds));
    forall k | 0 <= k < n ensures committed[k] in ds {
      CommitsThese(config, ds, committed[k]);
    }
  }

  // ----- Pruning -----

  /**
   A prune moves the checkpoint up to the slot, but not past the committed prefix and
   never back, and drops exactly the committed slots at or below it.
   */
  lemma PruneExactly(st: ReplicaState, slot: Slot)
    requires FrontierOk(st)
    ensures var st' := PruneThrough(st, slot);
            && st' == st.(log := st'.log, checkpointedThrough := st'.checkpointedThrough)
            && st.checkpointedThrough <= st'.checkpointedThrough < st.nextCommit
            && (slot < st.nextCommit ==> st'.checkpointedThrough >= slot)
            && (st'.checkpointedThrough > st.checkpointedThrough ==> st'.checkpointedThrough <= slot)
            && (slot >= st.nextCommit ==> st'.checkpointedThrough == st.nextCommit - 1)
            && (forall s :: s in st'.log <==>
                  s in st.log && !(1 <= s <= st'.checkpointedThrough && st.log[s].committed))
            && (forall s :: s in st'.log ==> st'.log[s] == st.log[s])
  {
  }

  /** No committed slot at or below the checkpoint is retained. */
  predicate Dropped(st: ReplicaState) {
    forall s :: s in st.log && s != GENESIS && st.log[s].committed ==> s > st.checkpointedThrough
  }

  lemma DecideDropped(st: ReplicaState, d: Decision)
    requires FrontierOk(st) && Dropped(st)
    ensures Dropped(Perform(st, OpDecide(d)).0)
  {
    var (st', committed) := Perform(st, OpDecide(d));
    DecideCases(st, d);
    if Decides(st, d, st', committed) {
      var log := WithDecision(st.log, d);
      forall s | s in st'.log && s != GENESIS && st'.log[s].committed ensures s > st'.checkpointedThrough {
        if !(st.nextCommit <= s < st'.nextCommit) {
          assert st'.log[s] == log[s] && log[s].committed;
        }
      }
    }
  }

  /** Over every run, what has been pruned stays away. */
  lemma {:induction false} PrunedForGood(config: ReplicaConfig, ops: seq<Op>)
    ensures Dropped(After(config, ops))
  {
    if ops != [] {
      var init, last := ops[..|ops| - 1], ops[|ops| - 1];
      PrunedForGood(config, init);
      CommitOrder(config, init);
      var st := After(config, init);
      match last
      case OpEnqueue(values) =>
      case OpPropose =>
        if WillPropose(st) {
          NoteDropped(st.(pending := st.pending[BatchLength(st)..]), NextOpen(st.log, st.nextCommit),
                      st.pending[..BatchLength(st)]);
        }
      case OpNote(slot, values) => NoteDropped(st, slot, values);
      case OpDecide(d) => DecideDropped(st, d);
      case OpPrune(slot) => PruneExactly(st, slot);
    }
  }

  lemma NoteDropped(st: ReplicaState, slot: Slot, values: seq<Value>)
    requires Dropped(st)
    ensures Dropped(NoteProposed(st, slot, values).0)
  {
  }
}
