/**
 What goes wrong when a checkpoint drops values that were not executed, and when an old
 transfer replaces the executor but not the book: two runs that end in a state which is
 the effect of no prefix of the agreed order.
 */
module RuntimeLimits {
  import opened Types
  import opened Membership
  import R = Replica
  import opened ExactlyOnce
  import opened Runtime

  /** An application that keeps the values it was handed, and two slots of one value each. */
  function Journal(): Setup<seq<Value>> {
    Setup((a: seq<Value>, slot: Slot, v: Value) => Some(a + [v]), [], [[7], [8]])
  }

  const CONFIG := R.ReplicaConfig(1, 2, 2, 2, 2)
  const FIRST := Decision(1, [7], 1, 4)
  const SECOND := Decision(2, [8], 1, 4)

  function OneLearned(): Book {
    var st := R.NewReplica(CONFIG);
    Book(st.(log := st.log[1 := R.LogSlot([], Some(FIRST), true)], nextCommit := 2, seen := {7}), map[1 := FIRST], {},
        {})
  }

  function BothLearned(): Book {
    var b := OneLearned();
    b.(replica := b.replica.(log := b.replica.log[2 := R.LogSlot([], Some(SECOND), true)], nextCommit := 3,
        seen := {7, 8}),
       decisions := map[1 := FIRST, 2 := SECOND])
  }

  lemma CommitsNext(log: R.Log, next: Slot, d: Decision)
    requires next in log && log[next] == R.LogSlot([], Some(d), false) && next + 1 !in log
    ensures R.CommitReady(log, next) == (log[next := R.LogSlot([], Some(d), true)], next + 1, [d])
  {
    assert R.CommitReady(log[next := R.LogSlot([], Some(d), true)], next + 1).2 == [];
    assert [d] + [] == [d];
  }

  lemma LearnFirst()
    ensures Accept(NewBook(CONFIG), FIRST) == (OneLearned(), Ok(true))
  {
    var st := R.NewReplica(CONFIG);
    var log := st.log[1 := R.LogSlot([], Some(FIRST), false)];
    CommitsNext(log, 1, FIRST);
    assert log[1 := R.LogSlot([], Some(FIRST), true)] == st.log[1 := R.LogSlot([], Some(FIRST), true)];
    assert Elements([7]) == {7} && st.log.Keys - {R.GENESIS} == {} && st.seen + {7} == {7};
    assert R.Requeued(R.EMPTY_SLOT, FIRST) + st.pending == [];
  }

  lemma LearnSecond()
    ensures Accept(OneLearned(), SECOND) == (BothLearned(), Ok(true))
  {
    var st := OneLearned().replica;
    var log := st.log[2 := R.LogSlot([], Some(SECOND), false)];
    CommitsNext(log, 2, SECOND);
    assert log[2 := R.LogSlot([], Some(SECOND), true)] == st.log[2 := R.LogSlot([], Some(SECOND), true)];
    assert Elements([8]) == {8} && Elements([8]) - st.seen == {8} && st.log.Keys - {R.GENESIS} == {1};
    assert st.seen + {8} == {7, 8} && R.Requeued(R.EMPTY_SLOT, SECOND) + st.pending == [];
  }

  // ----- No prefix has this effect -----

  lemma JournalCalls()
    ensures Calls(Journal().agreed) == [Call(1, 7), Call(2, 8)]
  {
    var agreed := Journal().agreed;
    assert agreed[..1] == [[7]] && [[7]][..0] == [];
    assert SlotCalls(1, [7]) == [Call(1, 7)] && SlotCalls(2, [8]) == [Call(2, 8)];
    assert Calls([[7]]) == [Call(1, 7)];
  }

  lemma AfterOne()
    ensures Firsts([Call(1, 7)]) == [Call(1, 7)] && Fold(Journal().apply, [], [Call(1, 7)]) == Some([7])
  {
    FirstsMore([], Call(1, 7));
    FoldMore(Journal().apply, [], [], Call(1, 7));
    assert [] + [Call(1, 7)] == [Call(1, 7)] && [] + [7] == [7];
  }

  lemma AfterTwo()
    ensures Fold(Journal().apply, [], Firsts([Call(1, 7), Call(2, 8)])) == Some([7, 8])
  {
    AfterOne();
    assert [Call(1, 7)] + [Call(2, 8)] == [Call(1, 7), Call(2, 8)] && [7] + [8] == [7, 8];
    FirstsMore([Call(1, 7)], Call(2, 8));
    FoldMore(Journal().apply, [], [Call(1, 7)], Call(2, 8));
  }

  /** The states a prefix can lead to. */
  lemma JournalPrefixes(p: nat)
    requires p <= 2
    ensures Fold(Journal().apply, [], Firsts(Calls(Journal().agreed)[..p])) in {Some([]), Some([7]), Some([7, 8])}
  {
    JournalCalls();
    var calls := Calls(Journal().agreed);
    if p == 0 {
      assert calls[..p] == [];
    } else if p == 1 {
      assert calls[..p] == [Call(1, 7)];
      AfterOne();
    } else {
      assert calls[..p] == [Call(1, 7), Call(2, 8)];
      AfterTwo();
    }
  }

  /** The state is not the fold over any prefix of the agreed order. */
  ghost predicate OffTheOrder(m: Machine<seq<Value>>) {
    var c := Journal();
    forall p: nat :: p <= |Calls(c.agreed)| ==>
        Fold(c.apply, c.initial, Firsts(Calls(c.agreed)[..p])) != Some(m.exec.app)
  }

  lemma EightAloneIsOff(m: Machine<seq<Value>>)
    requires m.exec.app == [8]
    ensures OffTheOrder(m)
  {
    JournalCalls();
    forall p: nat | p <= 2 ensures Fold(Journal().apply, [], Firsts(Calls(Journal().agreed)[..p])) != Some([8]) {
      JournalPrefixes(p);
    }
  }

  // ----- The runs -----

  type Events = seq<Event<seq<Value>>>
  type States = seq<Machine<seq<Value>>>

  /** One more event, from the state the run stands in. */
  lemma Extend(events: Events, states: States, e: Event<seq<Value>>, m: Machine<seq<Value>>)
    requires IsRun(Journal(), CONFIG, events, states) && StepOf(Journal(), e, states[|events|], m)
    ensures IsRun(Journal(), CONFIG, events + [e], states + [m])
    ensures (states + [m])[|events + [e]|] == m
  {
    var es, ms := events + [e], states + [m];
    forall k | 0 <= k < |es| ensures StepOf(Journal(), es[k], ms[k], ms[k + 1]) {
      if k < |events| {
        assert StepOf(Journal(), events[k], states[k], states[k + 1]);
      }
    }
  }

  /** Both slots are committed; nothing has been executed. */
  function Learned(): Machine<seq<Value>> {
    Start(Journal(), CONFIG).(book := BothLearned(), bookFile := BothLearned())
  }

  lemma LearnBoth() returns (states: States)
    ensures IsRun(Journal(), CONFIG, [Learn(FIRST, Saved), Learn(SECOND, Saved)], states) && states[2] == Learned()
  {
    var m := Start(Journal(), CONFIG);
    var one := m.(book := OneLearned(), bookFile := OneLearned());
    LearnFirst();
    LearnSecond();
    Extend([], [m], Learn(FIRST, Saved), one);
    Extend([Learn(FIRST, Saved)], [m, one], Learn(SECOND, Saved), Learned());
    states := [m, one, Learned()];
  }

  /** Both slots are learned, slot 1 is checkpointed without having been executed, and slot 2 is executed. */
  const EARLY_CHECKPOINT: Events :=
    [Learn(FIRST, Saved), Learn(SECOND, Saved)] + [Checkpoint(1, Saved)] + [Dispatch] + [Execute(Saved)]

  lemma EarlyCheckpointBreaks() returns (states: States)
    ensures IsRun(Journal(), CONFIG, EARLY_CHECKPOINT, states)
    ensures OffTheOrder(states[|EARLY_CHECKPOINT|])
    ensures !DropsOnlyExecuted(states[2].book, states[2].exec, 1)
  {
    var events: Events := [Learn(FIRST, Saved), Learn(SECOND, Saved)];
    states := LearnBoth();
    assert 7 in Learned().book.decisions[1].values;
    var m := Checkpoint1(Learned());
    Extend(events, states, Checkpoint(1, Saved), m);
    events, states := events + [Checkpoint(1, Saved)], states + [m];
    Extend(events, states, Dispatch, m.(cursor := At(2, 2, 0)));
    events, states := events + [Dispatch], states + [m.(cursor := At(2, 2, 0))];
    var exec := Executor(0, {8}, [8]);
    assert m.exec.seen + {8} == {8} && m.exec.app + [8] == [8];
    Extend(events, states, Execute(Saved), m.(cursor := At(2, 2, 1), exec := exec, execFile := exec));
    states := states + [m.(cursor := At(2, 2, 1), exec := exec, execFile := exec)];
    EightAloneIsOff(states[|EARLY_CHECKPOINT|]);
    NotExecuted(states[2]);
  }

  lemma NotExecuted(m: Machine<seq<Value>>)
    requires m == Learned()
    ensures !DropsOnlyExecuted(m.book, m.exec, 1)
  {
    assert 1 in m.book.decisions && 7 in m.book.decisions[1].values && 7 !in m.exec.seen;
  }

  function Checkpoint1(m: Machine<seq<Value>>): Machine<seq<Value>> {
    m.(book := Checkpointed(m.book, 1), bookFile := Checkpointed(m.book, 1))
  }

  /** Slot 1 is executed and marked; then a transfer from before it replaces the executor, and the book is not saved. */
  const OLD_TRANSFER: Events :=
    [Learn(FIRST, Saved), Learn(SECOND, Saved)] + [Dispatch] + [Execute(Saved)] + [MarkExecuted(Landed)]
    + [Transfer(Executor(0, {}, []), NewBook(CONFIG), Saved, Lost)]
    + [Dispatch] + [Notify(true, Saved)] + [MoveOn] + [Execute(Saved)]

  lemma MarkFirst() returns (states: States)
    ensures IsRun(Journal(), CONFIG, OLD_TRANSFER[..5], states) && states[5] == Marked()
  {
    var events: Events := [Learn(FIRST, Saved), Learn(SECOND, Saved)];
    states := LearnBoth();
    var m := Learned().(cursor := At(2, 1, 0));
    Extend(events, states, Dispatch, m);
    events, states := events + [Dispatch], states + [m];
    var exec := Executor(0, {7}, [7]);
    assert m.exec.seen + {7} == {7} && m.exec.app + [7] == [7];
    m := m.(cursor := At(2, 1, 1), exec := exec, execFile := exec);
    Extend(events, states, Execute(Saved), m);
    events, states := events + [Execute(Saved)], states + [m];
    assert m.book.executed + {1} == {1};
    Extend(events, states, MarkExecuted(Landed), Marked());
    events, states := events + [MarkExecuted(Landed)], states + [Marked()];
    assert events == OLD_TRANSFER[..5];
  }

  function Marked(): Machine<seq<Value>> {
    var book := BothLearned().(executed := {1});
    Machine(book, book, Executor(0, {7}, [7]), Executor(0, {7}, [7]), Idle)
  }

  lemma OldTransferBreaks() returns (states: States)
    ensures IsRun(Journal(), CONFIG, OLD_TRANSFER, states)
    ensures OffTheOrder(states[|OLD_TRANSFER|])
    ensures !Covers(Journal(), OLD_TRANSFER[5].exec, states[5].book)
  {
    var events := OLD_TRANSFER[..5];
    states := MarkFirst();
    var start := Executor(0, {}, []);
    StartInv(Journal(), CONFIG);
    var m := Marked().(exec := start, execFile := start);
    Extend(events, states, OLD_TRANSFER[5], m);
    assert states[5] == Marked() && Behind(Marked().book, 1) && 7 in Journal().agreed[0];
    assert !SlotSeen(Journal().agreed, start, 1) by {
      assert 7 !in start.seen;
    }
    states := SkipFirst(events + [OLD_TRANSFER[5]], states + [m]);
  }

  /** With slot 1 marked, dispatch passes it over and executes slot 2. */
  lemma SkipFirst(before: Events, so: States) returns (states: States)
    requires IsRun(Journal(), CONFIG, before, so)
    requires so[|before|] == Marked().(exec := Executor(0, {}, []), execFile := Executor(0, {}, []))
    ensures IsRun(Journal(), CONFIG, before + [Dispatch] + [Notify(true, Saved)] + [MoveOn] + [Execute(Saved)], states)
    ensures OffTheOrder(states[|before| + 4]) && so <= states
  {
    var m := so[|before|].(cursor := At(2, 1, 0));
    Extend(before, so, Dispatch, m);
    var events, book := before + [Dispatch], m.book.(notified := {1});
    states := so + [m];
    assert m.book.notified + {1} == {1};
    m := m.(book := book, bookFile := book);
    Extend(events, states, Notify(true, Saved), m);
    events, states := events + [Notify(true, Saved)], states + [m];
    m := m.(cursor := At(2, 2, 0));
    Extend(events, states, MoveOn, m);
    events, states := events + [MoveOn], states + [m];
    assert m.exec.seen + {8} == {8} && m.exec.app + [8] == [8];
    var exec := Executor(0, {8}, [8]);
    m := m.(cursor := At(2, 2, 1), exec := exec, execFile := exec);
    Extend(events, states, Execute(Saved), m);
    states := states + [m];
    EightAloneIsOff(m);
  }
}
