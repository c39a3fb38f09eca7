/**
 The runtime around the replica: it learns decisions, executes the committed prefix,
 notifies, checkpoints, transfers state and recovers, with a save after each change and
 a crash possible between any two of them.
 */
module Runtime {
  import opened Types
  import opened Membership
  import R = Replica
  import opened ReplicaSafety
  import opened ExactlyOnce

  /** What the runtime's file holds about decisions and their execution. */
  datatype Book = Book(
    replica: R.ReplicaState,
    decisions: map<Slot, Decision>,
    executed: set<Slot>,
    notified: set<Slot>)

  function CommittedThrough(b: Book): Slot {
    if b.replica.nextCommit == 0 then 0 else b.replica.nextCommit - 1
  }

  function NewBook(config: R.ReplicaConfig): Book {
    Book(R.NewReplica(config), map[], {}, {})
  }

  // ----- Operations -----

  /** The first half of `accept_decision`; the flag says that there is something to persist. */
  function Accept(b: Book, d: Decision): (Book, Result<bool>) {
    if d.slot <= b.replica.checkpointedThrough then (b, Ok(false))
    else if d.slot in b.decisions then
      (b, if b.decisions[d.slot].values != d.values then Err(ConflictingDecision(d.slot)) else Ok(false))
    else
      var (replica, r) := R.ApplyDecision(b.replica, d);
      if r.Err? then (b, Err(r.error))
      else (b.(replica := replica, decisions := b.decisions[d.slot := d]), Ok(true))
  }

  /** What `checkpoint_through` drops. */
  function Checkpointed(b: Book, slot: Slot): Book {
    Book(R.PruneThrough(b.replica, slot),
         map s | s in b.decisions && s > slot :: b.decisions[s],
         set s | s in b.executed && s > slot,
         set s | s in b.notified && s > slot)
  }

  /** Where `dispatch_committed` is: at a slot, with this many of its values executed in this pass. */
  datatype Cursor = Idle | At(upTo: Slot, slot: Slot, index: nat)

  datatype Machine<A> = Machine(book: Book, bookFile: Book, exec: Executor<A>, execFile: Executor<A>, cursor: Cursor)

  datatype Event<A> =
    | Learn(decision: Decision, save: Save)
    | Dispatch
    | Execute(save: Save)
    | MarkExecuted(save: Save)
    | Notify(delivered: bool, save: Save)
    | MoveOn
    | Export(through: Slot, save: Save)
    | Checkpoint(slot: Slot, save: Save)
    | Transfer(exec: Executor<A>, book: Book, execSave: Save, bookSave: Save)
    | Crash

  /** Memory changes first; a failed save ends the operation that asked for it. */
  function Persist<A>(m: Machine<A>, b: Book, save: Save, cursor: Cursor): Machine<A> {
    m.(book := b, bookFile := if save.Lost? then m.bookFile else b, cursor := if save.Saved? then cursor else Idle)
  }

  function ReplaceExecutor<A>(m: Machine<A>, e: Executor<A>, save: Save): Machine<A> {
    m.(exec := if save.Saved? then e else m.exec, execFile := if save.Lost? then m.execFile else e)
  }

  function Enter<A>(m: Machine<A>, upTo: Slot, slot: Slot): Machine<A> {
    m.(cursor := if slot <= upTo then At(upTo, slot, 0) else Idle)
  }

  predicate Enabled<A>(c: Setup<A>, m: Machine<A>, e: Event<A>) {
    match e
    case Learn(d, _) => m.cursor.Idle? && 1 <= d.slot <= |c.agreed| && d.values == c.agreed[d.slot - 1]
    case Dispatch => m.cursor.Idle?
    case Execute(_) =>
      && m.cursor.At? && m.cursor.slot !in m.book.executed
      && m.cursor.slot in m.book.decisions && m.cursor.index < |m.book.decisions[m.cursor.slot].values|
    case MarkExecuted(_) =>
      && m.cursor.At? && m.cursor.slot !in m.book.executed
      && m.cursor.slot in m.book.decisions && m.cursor.index == |m.book.decisions[m.cursor.slot].values|
    case Notify(_, _) => m.cursor.At? && m.cursor.slot in m.book.executed && m.cursor.slot !in m.book.notified
    case MoveOn => m.cursor.At? && m.cursor.slot in m.book.executed && m.cursor.slot in m.book.notified
    case Export(_, _) => m.cursor.Idle?
    case Checkpoint(slot, _) => m.cursor.Idle? && slot <= CommittedThrough(m.book)
    case Transfer(_, _, _, _) => m.cursor.Idle?
    case Crash => true
  }

  function Next<A>(c: Setup<A>, m: Machine<A>, e: Event<A>): Machine<A>
    requires Enabled(c, m, e)
  {
    match e
    case Learn(d, save) =>
      var (b, r) := Accept(m.book, d);
      if r == Ok(true) then Persist(m, b, save, Idle) else m
    case Dispatch => Enter(m, CommittedThrough(m.book), m.book.replica.checkpointedThrough + 1)
    case Execute(save) =>
      var slot, index := m.cursor.slot, m.cursor.index;
      var call := Call(slot, m.book.decisions[slot].values[index]);
      var (exec, execFile, r) := ExecuteOnce(c.apply, m.exec, m.execFile, call, save);
      m.(exec := exec, execFile := execFile, cursor := if r.Ok? then m.cursor.(index := index + 1) else Idle)
    case MarkExecuted(save) => Persist(m, m.book.(executed := m.book.executed + {m.cursor.slot}), save, m.cursor)
    case Notify(delivered, save) =>
      if !delivered then m.(cursor := Idle)
      else Persist(m, m.book.(notified := m.book.notified + {m.cursor.slot}), save, m.cursor)
    case MoveOn => Enter(m, m.cursor.upTo, m.cursor.slot + 1)
    case Export(through, save) => ReplaceExecutor(m, m.exec.(checkpointedThrough := through), save)
    case Checkpoint(slot, save) => Persist(m, Checkpointed(m.book, slot), save, Idle)
    case Transfer(exec, book, execSave, bookSave) =>
      if exec.checkpointedThrough != book.replica.checkpointedThrough then m
      else
        var m' := ReplaceExecutor(m, exec, execSave);
        if !execSave.Saved? then m'
        else m'.(book := if bookSave.Saved? then book else m'.book, bookFile := if bookSave.Lost? then m'.bookFile
            else book)
    case Crash => m.(book := m.bookFile, exec := m.execFile, cursor := Idle)
  }

  // ----- The invariant -----

  /** Every decided slot of the log above the checkpoint is in the book. */
  predicate Linked(b: Book) {
    forall s :: s in b.replica.log && s > b.replica.checkpointedThrough && b.replica.log[s].decision.Some? ==>
      s in b.decisions
  }

  /** The book knows the agreed values of every committed slot above its checkpoint, and marks only what is executed. */
  ghost predicate BookOk<A>(c: Setup<A>, b: Book, p: nat) {
    && FrontierOk(b.replica)
    && b.replica.checkpointedThrough <= |c.agreed| && End(c.agreed, b.replica.checkpointedThrough) <= p
    && (forall s :: s in b.decisions ==>
          b.replica.checkpointedThrough < s <= |c.agreed| && b.decisions[s].values == c.agreed[s - 1])
    && Linked(b)
    && (forall s :: s in b.executed ==> 1 <= s <= |c.agreed| && End(c.agreed, s) <= p)
    && b.notified <= b.executed
  }

  /** Dispatch works on a committed slot, with everything before its position executed. */
  ghost predicate CursorOk<A>(c: Setup<A>, b: Book, cursor: Cursor, p: nat) {
    cursor.At? ==>
      && b.replica.checkpointedThrough < cursor.slot <= cursor.upTo && cursor.upTo == CommittedThrough(b)
      && cursor.slot in b.decisions && 1 <= cursor.slot <= |c.agreed|
      && cursor.index <= |c.agreed[cursor.slot - 1]|
      && End(c.agreed, cursor.slot - 1) + cursor.index <= p
  }

  /** The executor, its file, the book and its file agree on how far the agreed order has been executed. */
  ghost predicate Consistent<A>(c: Setup<A>, exec: Executor<A>, execFile: Executor<A>, book: Book, bookFile: Book,
                                pm: nat, pd: nat) {
    && pm <= pd
    && ExecutedThrough(c, exec, pm) && ExecutedThrough(c, execFile, pd)
    && BookOk(c, book, pm) && BookOk(c, bookFile, pm)
  }

  ghost predicate InvAt<A>(c: Setup<A>, m: Machine<A>, pm: nat, pd: nat) {
    && Consistent(c, m.exec, m.execFile, m.book, m.bookFile, pm, pd)
    && CursorOk(c, m.book, m.cursor, pm)
  }

  /** This executor and this book stand at the same place of the agreed order. */
  ghost predicate PairOk<A>(c: Setup<A>, e: Executor<A>, b: Book) {
    exists p: nat :: ExecutedThrough(c, e, p) && BookOk(c, b, p)
  }

  /** The machine is on the agreed order. */
  ghost predicate Inv<A>(c: Setup<A>, m: Machine<A>) {
    exists pm: nat, pd: nat :: InvAt(c, m, pm, pd)
  }

  lemma BookOkGrows<A>(c: Setup<A>, b: Book, p: nat, q: nat)
    requires BookOk(c, b, p) && p <= q
    ensures BookOk(c, b, q)
  {
  }

  lemma CommittedIsKnown<A>(c: Setup<A>, b: Book, p: nat, s: Slot)
    requires BookOk(c, b, p) && b.replica.checkpointedThrough < s <= CommittedThrough(b)
    ensures s in b.decisions && 1 <= s <= |c.agreed| && b.decisions[s].values == c.agreed[s - 1]
  {
  }

  // ----- Learning a decision -----

  lemma AcceptCases(b: Book, d: Decision)
    requires FrontierOk(b.replica)
    requires Linked(b)
    ensures var b' := Accept(b, d).0;
            || b' == b
            || (&& d.slot > b.replica.checkpointedThrough
                && b' == b.(replica := b'.replica, decisions := b.decisions[d.slot := d])
                && b'.replica == R.Perform(b.replica, R.OpDecide(d)).0
                && Decides(b.replica, d, b'.replica, R.Perform(b.replica, R.OpDecide(d)).1))
  {
    DecideCases(b.replica, d);
  }

  lemma AcceptKeeps<A>(c: Setup<A>, b: Book, d: Decision, p: nat)
    requires BookOk(c, b, p) && 1 <= d.slot <= |c.agreed| && d.values == c.agreed[d.slot - 1]
    ensures BookOk(c, Accept(b, d).0, p)
  {
    var b' := Accept(b, d).0;
    AcceptCases(b, d);
    if b' != b {
      DecideFrontier(b.replica, d);
      DecidedLink(b, d, b', R.Perform(b.replica, R.OpDecide(d)).1);
      AcceptedOk(c, b, d, b', p);
    }
  }

  lemma AcceptedOk<A>(c: Setup<A>, b: Book, d: Decision, b': Book, p: nat)
    requires BookOk(c, b, p) && 1 <= d.slot <= |c.agreed| && d.values == c.agreed[d.slot - 1]
    requires d.slot > b.replica.checkpointedThrough
    requires b' == b.(replica := b'.replica, decisions := b.decisions[d.slot := d])
    requires FrontierOk(b'.replica) && b'.replica.checkpointedThrough == b.replica.checkpointedThrough
    requires Linked(b')
    ensures BookOk(c, b', p)
  {
  }

  lemma DecidedLink(b: Book, d: Decision, b': Book, committed: seq<Decision>)
    requires Decides(b.replica, d, b'.replica, committed) && b'.decisions == b.decisions[d.slot := d]
    requires Linked(b)
    ensures Linked(b')
  {
    var log, next := WithDecision(b.replica.log, d), b.replica.nextCommit;
    forall s | s in b'.replica.log && b'.replica.log[s].decision.Some? && s > b'.replica.checkpointedThrough
      ensures s in b'.decisions
    {
      assert next <= s < b'.replica.nextCommit ==> SlotCommits(log, next, b'.replica.log, committed, s);
      assert log[s].decision.Some?;
    }
  }

  // ----- Checkpointing -----

  /** A checkpoint drops what is at or below its slot, and keeps everything above as it was. */
  lemma CheckpointedShape(b: Book, slot: Slot)
    requires FrontierOk(b.replica) && slot <= CommittedThrough(b)
    ensures var b' := Checkpointed(b, slot);
            && b'.replica.checkpointedThrough == (if slot > b.replica.checkpointedThrough then slot
                 else b.replica.checkpointedThrough)
            && FrontierOk(b'.replica)
            && (forall s :: s in b'.replica.log ==> s in b.replica.log && b'.replica.log[s] == b.replica.log[s])
            && (forall s :: s in b'.replica.log <==>
                  s in b.replica.log
                  && !(1 <= s <= b'.replica.checkpointedThrough && b.replica.log[s].committed))
            && (forall s :: s in b'.decisions <==> s in b.decisions && s > slot)
            && (forall s :: s in b'.decisions ==> b'.decisions[s] == b.decisions[s])
            && (forall s :: s in b'.executed <==> s in b.executed && s > slot)
            && (forall s :: s in b'.notified <==> s in b.notified && s > slot)
  {
    PruneFrontier(b.replica, slot);
  }

  lemma CheckpointedOk<A>(c: Setup<A>, b: Book, p: nat, slot: Slot)
    requires BookOk(c, b, p) && slot <= CommittedThrough(b)
    ensures slot <= |c.agreed|
    ensures forall q: nat :: q >= p ==>
              (BookOk(c, Checkpointed(b, slot), q) <==>
                  slot <= b.replica.checkpointedThrough || End(c.agreed, slot) <= q)
  {
    if slot > b.replica.checkpointedThrough {
      CommittedIsKnown(c, b, p, slot);
    }
    CheckpointedShape(b, slot);
  }

  /** The executor has executed every value that a checkpoint through this slot drops. */
  predicate DropsOnlyExecuted<A>(b: Book, e: Executor<A>, slot: Slot) {
    forall s, v :: s in b.decisions && s <= slot && v in b.decisions[s].values ==> v in e.seen
  }

  lemma DropsOnlyExecutedReaches<A>(c: Setup<A>, b: Book, e: Executor<A>, p: nat, slot: Slot) returns (q: nat)
    requires ExecutedThrough(c, e, p) && BookOk(c, b, p) && slot <= CommittedThrough(b) && DropsOnlyExecuted(b, e, slot)
    ensures q >= p && ExecutedThrough(c, e, q) && BookOk(c, Checkpointed(b, slot), q)
  {
    CheckpointedOk(c, b, p, slot);
    q := p;
    var from := b.replica.checkpointedThrough;
    if slot > from {
      forall s | from < s <= slot ensures SlotSeen(c.agreed, e, s) {
        CommittedIsKnown(c, b, p, s);
      }
      q := Reach(c, e, p, from, slot);
    }
  }

  lemma ReachedDropsOnlyExecuted<A>(c: Setup<A>, b: Book, e: Executor<A>, p: nat, slot: Slot, q: nat)
    requires BookOk(c, b, p) && slot <= CommittedThrough(b)
    requires ExecutedThrough(c, e, q) && BookOk(c, Checkpointed(b, slot), q)
    ensures DropsOnlyExecuted(b, e, slot)
  {
    CheckpointedShape(b, slot);
    forall s, v | s in b.decisions && s <= slot && v in b.decisions[s].values ensures v in e.seen {
      ReachedIsSeen(c, e, q, s, slot, v);
    }
  }

  // ----- Every event -----

  lemma LearnKeeps<A>(c: Setup<A>, m: Machine<A>, e: Event<A>, pm: nat, pd: nat)
    requires e.Learn? && InvAt(c, m, pm, pd) && Enabled(c, m, e)
    ensures InvAt(c, Next(c, m, e), pm, pd)
  {
    AcceptKeeps(c, m.book, e.decision, pm);
    PersistKeeps(c, m, Accept(m.book, e.decision).0, e.save, Idle, pm, pd);
  }

  lemma EnterKeeps<A>(c: Setup<A>, m: Machine<A>, slot: Slot, pm: nat, pd: nat)
    requires InvAt(c, m.(cursor := Idle), pm, pd) && m.book.replica.checkpointedThrough < slot
    requires slot - 1 <= |c.agreed| && End(c.agreed, slot - 1) <= pm
    ensures InvAt(c, Enter(m, CommittedThrough(m.book), slot), pm, pd)
  {
    if slot <= CommittedThrough(m.book) {
      CommittedIsKnown(c, m.book, pm, slot);
    }
  }

  /** The value at the cursor is the next call of the agreed order, or one that has been executed. */
  lemma CursorCall<A>(c: Setup<A>, b: Book, cursor: Cursor, p: nat) returns (q: nat)
    requires BookOk(c, b, p) && CursorOk(c, b, cursor, p) && cursor.At?
             && cursor.index < |b.decisions[cursor.slot].values|
    ensures q <= p && q < |Calls(c.agreed)| && q == End(c.agreed, cursor.slot - 1) + cursor.index
    ensures Calls(c.agreed)[q] == Call(cursor.slot, b.decisions[cursor.slot].values[cursor.index])
    ensures cursor.index < |c.agreed[cursor.slot - 1]|
  {
    assert b.decisions[cursor.slot].values == c.agreed[cursor.slot - 1];
    CallAt(c.agreed, cursor.slot, cursor.index);
    q := End(c.agreed, cursor.slot - 1) + cursor.index;
  }

  lemma ExecuteKeeps<A>(c: Setup<A>, m: Machine<A>, e: Event<A>, pm: nat, pd: nat) returns (pm': nat, pd': nat)
    requires e.Execute? && InvAt(c, m, pm, pd) && Enabled(c, m, e)
    ensures InvAt(c, Next(c, m, e), pm', pd') && pm <= pm'
  {
    var q := CursorCall(c, m.book, m.cursor, pm);
    pm', pd' := ExecuteOnceKeeps(c, m.exec, m.execFile, pm, pd, q, e.save);
    var (exec, execFile, r) := ExecuteOnce(c.apply, m.exec, m.execFile, Calls(c.agreed)[q], e.save);
    ExecutedOn(c, m, exec, execFile, r.Ok?, pm, pd, pm', pd');
  }

  lemma ExecutedOn<A>(c: Setup<A>, m: Machine<A>, exec: Executor<A>, execFile: Executor<A>, ok: bool,
                      pm: nat, pd: nat, pm': nat, pd': nat)
    requires InvAt(c, m, pm, pd) && m.cursor.At? && m.cursor.index < |c.agreed[m.cursor.slot - 1]|
    requires ExecutedThrough(c, exec, pm') && ExecutedThrough(c, execFile, pd') && pm <= pm' <= pd'
    requires ok ==> End(c.agreed, m.cursor.slot - 1) + m.cursor.index < pm'
    ensures InvAt(c, m.(exec := exec, execFile := execFile,
                        cursor := if ok then m.cursor.(index := m.cursor.index + 1) else Idle), pm', pd')
  {
    BookOkGrows(c, m.book, pm, pm');
    BookOkGrows(c, m.bookFile, pm, pm');
  }

  lemma PersistKeeps<A>(c: Setup<A>, m: Machine<A>, b: Book, save: Save, cursor: Cursor, pm: nat, pd: nat)
    requires InvAt(c, m, pm, pd) && BookOk(c, b, pm) && CursorOk(c, b, cursor, pm)
    ensures InvAt(c, Persist(m, b, save, cursor), pm, pd)
  {
  }

  lemma MarkKeeps<A>(c: Setup<A>, m: Machine<A>, e: Event<A>, pm: nat, pd: nat)
    requires e.MarkExecuted? && InvAt(c, m, pm, pd) && Enabled(c, m, e)
    ensures InvAt(c, Next(c, m, e), pm, pd)
  {
    CallAt(c.agreed, m.cursor.slot, 0);
    MarkedOk(c, m.book, m.cursor.slot, pm);
    PersistKeeps(c, m, m.book.(executed := m.book.executed + {m.cursor.slot}), e.save, m.cursor, pm, pd);
  }

  lemma MarkedOk<A>(c: Setup<A>, b: Book, slot: Slot, p: nat)
    requires BookOk(c, b, p) && 1 <= slot <= |c.agreed| && End(c.agreed, slot) <= p
    ensures BookOk(c, b.(executed := b.executed + {slot}), p)
  {
  }

  lemma NotifyKeeps<A>(c: Setup<A>, m: Machine<A>, e: Event<A>, pm: nat, pd: nat)
    requires e.Notify? && InvAt(c, m, pm, pd) && Enabled(c, m, e)
    ensures InvAt(c, Next(c, m, e), pm, pd)
  {
    PersistKeeps(c, m, m.book.(notified := m.book.notified + {m.cursor.slot}), e.save, m.cursor, pm, pd);
  }

  lemma MoveOnKeeps<A>(c: Setup<A>, m: Machine<A>, pm: nat, pd: nat)
    requires InvAt(c, m, pm, pd) && Enabled(c, m, MoveOn)
    ensures InvAt(c, Next(c, m, MoveOn), pm, pd)
  {
    assert m.cursor.upTo == CommittedThrough(m.book);
    EnterKeeps(c, m, m.cursor.slot + 1, pm, pd);
  }

  lemma DispatchKeeps<A>(c: Setup<A>, m: Machine<A>, pm: nat, pd: nat)
    requires InvAt(c, m, pm, pd) && m.cursor.Idle?
    ensures InvAt(c, Next(c, m, Dispatch), pm, pd)
  {
    EnterKeeps(c, m, m.book.replica.checkpointedThrough + 1, pm, pd);
  }

  // ----- Checkpoints -----

  /** Moves both executors on to a place where the memory's executor stands as well. */
  lemma MoveTo<A>(c: Setup<A>, m: Machine<A>, pm: nat, pd: nat, q: nat) returns (pd': nat)
    requires InvAt(c, m, pm, pd) && pm <= q && ExecutedThrough(c, m.exec, q)
    ensures InvAt(c, m, q, pd')
  {
    pd' := if q <= pd then pd else q;
    if pd < q {
      ValsOfPrefix(Calls(c.agreed), pm, pd);
      Lift(c, m.execFile, pd, q);
    }
    BookOkGrows(c, m.book, pm, q);
    BookOkGrows(c, m.bookFile, pm, q);
  }

  lemma CheckpointKeeps<A>(c: Setup<A>, m: Machine<A>, slot: Slot, save: Save, pm: nat, pd: nat)
    returns (pm': nat, pd': nat)
    requires InvAt(c, m, pm, pd) && Enabled(c, m, Checkpoint(slot, save)) && DropsOnlyExecuted(m.book, m.exec, slot)
    ensures InvAt(c, Next(c, m, Checkpoint(slot, save)), pm', pd') && pm <= pm'
  {
    pm' := DropsOnlyExecutedReaches(c, m.book, m.exec, pm, slot);
    pd' := MoveTo(c, m, pm, pd, pm');
    PersistKeeps(c, m, Checkpointed(m.book, slot), save, Idle, pm', pd');
  }

  /**
   A checkpoint keeps execution on the agreed order exactly if the executor has executed
   every value that the checkpoint drops, whatever becomes of the save.
   */
  lemma CheckpointExactly<A>(c: Setup<A>, m: Machine<A>, slot: Slot, save: Save)
    requires Inv(c, m) && Enabled(c, m, Checkpoint(slot, save))
    ensures Inv(c, Next(c, m, Checkpoint(slot, save))) <==> DropsOnlyExecuted(m.book, m.exec, slot)
  {
    var pm: nat, pd: nat :| InvAt(c, m, pm, pd);
    var m' := Next(c, m, Checkpoint(slot, save));
    if DropsOnlyExecuted(m.book, m.exec, slot) {
      var pm', pd' := CheckpointKeeps(c, m, slot, save, pm, pd);
    }
    if Inv(c, m') {
      var pm': nat, pd': nat :| InvAt(c, m', pm', pd');
      ReachedDropsOnlyExecuted(c, m.book, m.exec, pm, slot, pm');
    }
  }

  /** What a replica hands out stands on the agreed order exactly if it had executed what it dropped. */
  lemma HandedOutExactly<A>(c: Setup<A>, m: Machine<A>, slot: Slot)
    requires Inv(c, m) && m.cursor.Idle? && slot <= CommittedThrough(m.book)
    ensures PairOk(c, m.exec.(checkpointedThrough := slot), Checkpointed(m.book, slot)) <==>
            DropsOnlyExecuted(m.book, m.exec, slot)
  {
    var pm: nat, pd: nat :| InvAt(c, m, pm, pd);
    var e, b := m.exec.(checkpointedThrough := slot), Checkpointed(m.book, slot);
    if DropsOnlyExecuted(m.book, m.exec, slot) {
      var q := DropsOnlyExecutedReaches(c, m.book, m.exec, pm, slot);
      assert ExecutedThrough(c, e, q);
    }
    if PairOk(c, e, b) {
      var q: nat :| ExecutedThrough(c, e, q) && BookOk(c, b, q);
      ReachedDropsOnlyExecuted(c, m.book, m.exec, pm, slot, q);
    }
  }

  // ----- State transfer -----

  /** The slot is checkpointed, or at or below one that is marked executed. */
  predicate Behind(b: Book, s: Slot) {
    s <= b.replica.checkpointedThrough || exists t :: t in b.executed && s <= t
  }

  /** The executor has executed every slot that the book is past. */
  ghost predicate Covers<A>(c: Setup<A>, e: Executor<A>, b: Book) {
    forall s :: 1 <= s <= |c.agreed| && Behind(b, s) ==> SlotSeen(c.agreed, e, s)
  }

  lemma Greatest(slots: set<Slot>, low: Slot) returns (top: Slot)
    ensures (top == low || top in slots) && top >= low && forall s :: s in slots ==> s <= top
    decreases slots
  {
    top := low;
    if slots != {} {
      var s :| s in slots;
      top := Greatest(slots - {s}, low);
      assert slots == slots - {s} + {s};
      if top < s {
        top := s;
      }
    }
  }

  lemma CoversReaches<A>(c: Setup<A>, e: Executor<A>, p: nat, b: Book, was: nat) returns (q: nat)
    requires ExecutedThrough(c, e, p) && BookOk(c, b, was) && Covers(c, e, b)
    ensures q >= p && ExecutedThrough(c, e, q) && BookOk(c, b, q)
  {
    var top := Greatest(b.executed, b.replica.checkpointedThrough);
    assert forall s :: 0 < s <= top ==> Behind(b, s);
    q := Reach(c, e, p, 0, top);
    forall s | s in b.executed ensures End(c.agreed, s) <= q {
      EndGrows(c.agreed, s, top);
    }
    EndGrows(c.agreed, b.replica.checkpointedThrough, top);
  }

  lemma BehindWhich(b: Book, s: Slot) returns (t: Slot)
    requires Behind(b, s)
    ensures (t == b.replica.checkpointedThrough || t in b.executed) && s <= t
  {
    t := b.replica.checkpointedThrough;
    if t < s {
      t :| t in b.executed && s <= t;
    }
  }

  lemma ReachedCovers<A>(c: Setup<A>, e: Executor<A>, b: Book, q: nat)
    requires ExecutedThrough(c, e, q) && BookOk(c, b, q)
    ensures Covers(c, e, b)
  {
    forall s | 1 <= s <= |c.agreed| && Behind(b, s) ensures SlotSeen(c.agreed, e, s) {
      var t := BehindWhich(b, s);
      forall v | v in c.agreed[s - 1] ensures v in e.seen {
        ReachedIsSeen(c, e, q, s, t, v);
      }
    }
  }

  /**
   When a transfer may be installed. One that is behind this replica is harmless if both
   of its saves succeed, or if nothing of it reaches a file; otherwise it has to cover
   what it meets there.
   */
  ghost predicate SafeTransfer<A>(c: Setup<A>, m: Machine<A>, e: Event<A>)
    requires e.Transfer?
  {
    || e.exec.checkpointedThrough != e.book.replica.checkpointedThrough
    || match (e.execSave, e.bookSave)
       case (Lost, _) => true
       case (Landed, _) => m.exec.seen <= e.exec.seen
       case (Saved, Saved) => true
       case (Saved, Landed) => Covers(c, e.exec, m.book)
       case (Saved, Lost) => Covers(c, e.exec, m.book) && Covers(c, e.exec, m.bookFile)
  }

  lemma TransferKeeps<A>(c: Setup<A>, m: Machine<A>, e: Event<A>, pm: nat, pd: nat) returns (pm': nat, pd': nat)
    requires e.Transfer? && InvAt(c, m, pm, pd) && Enabled(c, m, e) && PairOk(c, e.exec, e.book)
             && SafeTransfer(c, m, e)
    ensures InvAt(c, Next(c, m, e), pm', pd')
  {
    pm', pd' := pm, pd;
    if e.exec.checkpointedThrough == e.book.replica.checkpointedThrough && !e.execSave.Lost? {
      var p: nat :| ExecutedThrough(c, e.exec, p) && BookOk(c, e.book, p);
      if e.execSave.Landed? {
        pd' := if p < pm then pm else p;
        if p < pm {
          Lift(c, e.exec, p, pm);
        }
      } else {
        pm' := p;
        if !e.bookSave.Saved? {
          pm' := CoversReaches(c, e.exec, p, m.book, pm);
          BookOkGrows(c, e.book, p, pm');
          if e.bookSave.Lost? {
            var q := CoversReaches(c, e.exec, pm', m.bookFile, pm);
            BookOkGrows(c, m.book, pm', q);
            pm' := q;
          }
        }
        pd' := pm';
      }
    }
  }

  /** A sound transfer keeps execution on the agreed order exactly under these conditions. */
  lemma TransferExactly<A>(c: Setup<A>, m: Machine<A>, e: Event<A>)
    requires e.Transfer? && Inv(c, m) && Enabled(c, m, e) && PairOk(c, e.exec, e.book)
    ensures Inv(c, Next(c, m, e)) <==> SafeTransfer(c, m, e)
  {
    var pm: nat, pd: nat :| InvAt(c, m, pm, pd);
    if SafeTransfer(c, m, e) {
      var pm', pd' := TransferKeeps(c, m, e, pm, pd);
    }
    if Inv(c, Next(c, m, e)) && e.exec.checkpointedThrough == e.book.replica.checkpointedThrough {
      var pm': nat, pd': nat :| InvAt(c, Next(c, m, e), pm', pd');
      if e.execSave.Landed? {
        ValsOfPrefix(Calls(c.agreed), pm', pd');
      } else if e.execSave.Saved? && !e.bookSave.Saved? {
        ReachedCovers(c, e.exec, m.book, pm');
        if e.bookSave.Lost? {
          ReachedCovers(c, e.exec, m.bookFile, pm');
        }
      }
    }
  }

  // ----- Every step -----

  lemma ExportKeeps<A>(c: Setup<A>, m: Machine<A>, e: Event<A>, pm: nat, pd: nat) returns (pd': nat)
    requires e.Export? && InvAt(c, m, pm, pd) && Enabled(c, m, e)
    ensures InvAt(c, Next(c, m, e), pm, pd')
  {
    pd' := if e.save.Lost? then pd else pm;
  }

  /** The conditions under which checkpoints and transfers keep the agreed order; no other event has one. */
  ghost predicate Safe<A>(c: Setup<A>, m: Machine<A>, e: Event<A>) {
    && (e.Checkpoint? ==> DropsOnlyExecuted(m.book, m.exec, e.slot))
    && (e.Transfer? ==> SafeTransfer(c, m, e))
  }

  /** A transfer comes from a replica that stood on the agreed order. */
  ghost predicate Sound<A>(c: Setup<A>, e: Event<A>) {
    e.Transfer? ==> PairOk(c, e.exec, e.book)
  }

  lemma StepKeeps<A>(c: Setup<A>, m: Machine<A>, e: Event<A>, pm: nat, pd: nat) returns (pm': nat, pd': nat)
    requires InvAt(c, m, pm, pd) && Enabled(c, m, e) && Sound(c, e) && Safe(c, m, e)
    ensures InvAt(c, Next(c, m, e), pm', pd')
    ensures if e.Crash? then pm' == pd else e.Transfer? || pm <= pm'
  {
    pm', pd' := pm, pd;
    match e
    case Learn(_, _) => LearnKeeps(c, m, e, pm, pd);
    case Execute(_) => pm', pd' := ExecuteKeeps(c, m, e, pm, pd);
    case MarkExecuted(_) => MarkKeeps(c, m, e, pm, pd);
    case Notify(_, _) => NotifyKeeps(c, m, e, pm, pd);
    case Dispatch => DispatchKeeps(c, m, pm, pd);
    case MoveOn => MoveOnKeeps(c, m, pm, pd);
    case Export(_, _) => pd' := ExportKeeps(c, m, e, pm, pd);
    case Checkpoint(slot, save) => pm', pd' := CheckpointKeeps(c, m, slot, save, pm, pd);
    case Transfer(_, _, _, _) => pm', pd' := TransferKeeps(c, m, e, pm, pd);
    case Crash =>
      pm' := pd;
      BookOkGrows(c, m.bookFile, pm, pd);
  }

  // ----- Over whole runs -----

  function Start<A>(c: Setup<A>, config: R.ReplicaConfig): Machine<A> {
    var exec := Executor(0, {}, c.initial);
    Machine(NewBook(config), NewBook(config), exec, exec, Idle)
  }

  /** A run through the given states. */
  ghost predicate IsRun<A>(c: Setup<A>, config: R.ReplicaConfig, events: seq<Event<A>>, states: seq<Machine<A>>) {
    && |states| == |events| + 1 && states[0] == Start(c, config)
    && forall k :: 0 <= k < |events| ==> StepOf(c, events[k], states[k], states[k + 1])
  }

  ghost predicate StepOf<A>(c: Setup<A>, e: Event<A>, m: Machine<A>, m': Machine<A>) {
    Enabled(c, m, e) && Sound(c, e) && m' == Next(c, m, e)
  }

  ghost predicate SafeAt<A>(c: Setup<A>, events: seq<Event<A>>, states: seq<Machine<A>>, k: nat)
    requires k < |events| <= |states|
  {
    Safe(c, states[k], events[k])
  }

  lemma StartInv<A>(c: Setup<A>, config: R.ReplicaConfig)
    ensures InvAt(c, Start(c, config), 0, 0)
  {
    assert Calls(c.agreed)[..0] == [] && c.agreed[..0] == [];
  }

  /** A step keeps the agreed order exactly if it is safe. */
  lemma StepExactly<A>(c: Setup<A>, m: Machine<A>, e: Event<A>)
    requires Inv(c, m) && Enabled(c, m, e) && Sound(c, e)
    ensures Inv(c, Next(c, m, e)) <==> Safe(c, m, e)
  {
    if e.Checkpoint? {
      CheckpointExactly(c, m, e.slot, e.save);
    } else if e.Transfer? {
      TransferExactly(c, m, e);
    } else {
      var pm: nat, pd: nat :| InvAt(c, m, pm, pd);
      var pm', pd' := StepKeeps(c, m, e, pm, pd);
    }
  }

  lemma {:induction false} SafeRunKeeps<A>(c: Setup<A>, config: R.ReplicaConfig, events: seq<Event<A>>,
                                           states: seq<Machine<A>>, n: nat)
    requires IsRun(c, config, events, states) && n <= |events|
    requires forall k :: 0 <= k < n ==> SafeAt(c, events, states, k)
    ensures Inv(c, states[n])
  {
    if n == 0 {
      StartInv(c, config);
    } else {
      SafeRunKeeps(c, config, events, states, n - 1);
      assert StepOf(c, events[n - 1], states[n - 1], states[n]) && SafeAt(c, events, states, n - 1);
      StepExactly(c, states[n - 1], events[n - 1]);
    }
  }

  /** A run stays on the agreed order throughout exactly if each of its checkpoints and transfers is safe. */
  lemma RunExactly<A>(c: Setup<A>, config: R.ReplicaConfig, events: seq<Event<A>>, states: seq<Machine<A>>)
    requires IsRun(c, config, events, states)
    ensures (forall k :: 0 <= k <= |events| ==> Inv(c, states[k])) <==>
            (forall k :: 0 <= k < |events| ==> SafeAt(c, events, states, k))
  {
    if forall k :: 0 <= k < |events| ==> SafeAt(c, events, states, k) {
      forall n | 0 <= n <= |events| ensures Inv(c, states[n]) {
        SafeRunKeeps(c, config, events, states, n);
      }
    }
    if forall k :: 0 <= k <= |events| ==> Inv(c, states[k]) {
      forall k | 0 <= k < |events| ensures SafeAt(c, events, states, k) {
        assert StepOf(c, events[k], states[k], states[k + 1]) && Inv(c, states[k + 1]);
        StepExactly(c, states[k], events[k]);
      }
    }
  }

  /**
   After every such run, whatever was lost to crashes and failed saves, the application
   state is the fold of `apply` over the first occurrences of the values of a prefix of
   the agreed order; every slot marked executed lies in that prefix, and so does everything
   that has been checkpointed. The same holds of the executor's file.
   */
  lemma ExactlyOnceEffect<A>(c: Setup<A>, config: R.ReplicaConfig, events: seq<Event<A>>, states: seq<Machine<A>>)
    requires IsRun(c, config, events, states)
    requires forall k :: 0 <= k < |events| ==> SafeAt(c, events, states, k)
    ensures var m := states[|events|];
            exists pm, pd :: pm <= pd && Effect(c, m.exec, m.book, pm) && Effect(c, m.execFile, m.bookFile, pd)
  {
    SafeRunKeeps(c, config, events, states, |events|);
    var m := states[|events|];
    var pm: nat, pd: nat :| InvAt(c, m, pm, pd);
    BookOkGrows(c, m.bookFile, pm, pd);
    assert Effect(c, m.exec, m.book, pm) && Effect(c, m.execFile, m.bookFile, pd);
  }

  /** Everything through the slot before this one is checkpointed or marked executed, as far as a pass has come. */
  predicate Ready(b: Book, slot: Slot) {
    slot == b.replica.checkpointedThrough + 1 || (slot >= 1 && slot - 1 in b.executed)
  }

  /** Once every committed slot is marked executed, the state covers the whole committed prefix. */
  lemma CaughtUpCoversCommitted<A>(c: Setup<A>, b: Book, p: nat)
    requires BookOk(c, b, p)
    requires forall s :: b.replica.checkpointedThrough < s <= CommittedThrough(b) ==> s in b.executed
    ensures CommittedThrough(b) <= |c.agreed| && End(c.agreed, CommittedThrough(b)) <= p
  {
    if CommittedThrough(b) > b.replica.checkpointedThrough {
      assert CommittedThrough(b) in b.executed;
    }
  }

  ghost predicate Effect<A>(c: Setup<A>, e: Executor<A>, b: Book, p: nat) {
    && p <= |Calls(c.agreed)|
    && Some(e.app) == Fold(c.apply, c.initial, Firsts(Calls(c.agreed)[..p]))
    && b.replica.checkpointedThrough <= |c.agreed| && End(c.agreed, b.replica.checkpointedThrough) <= p
    && forall s :: s in b.executed ==> 1 <= s <= |c.agreed| && End(c.agreed, s) <= p
  }
}
