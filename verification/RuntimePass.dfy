/**
 One pass of the runtime over its committed slots, as a function of the state and of how
 the saves and notifications turn out; and what every pass keeps, wherever it stops.
 */
module RuntimePass {
  import opened Types
  import opened ExactlyOnce
  import S = ReplicaSafety
  import RA = ReplicaAnswers
  import opened Runtime

  /** How the saves and the notification of one slot turn out. */
  datatype Outcomes = Outcomes(values: nat -> Save, mark: Save, delivered: bool, note: Save)

  type Apply<!A> = (A, Slot, Value) -> Option<A>

  /** The first n values of a slot, executed one after the other as far as nothing fails. */
  function Executed<A>(apply: Apply<A>, mem: Executor<A>, disk: Executor<A>, slot: Slot, values: seq<Value>,
                       saves: nat -> Save, n: nat)
    : (Executor<A>, Executor<A>, Result<()>)
    requires n <= |values|
  {
    if n == 0 then (mem, disk, Ok(()))
    else
      var before := Executed(apply, mem, disk, slot, values, saves, n - 1);
      if before.2.Err? then before
      else
        var (mem', disk', r) := ExecuteOnce(apply, before.0, before.1, Call(slot, values[n - 1]), saves(n - 1));
        (mem', disk', if r.Err? then Err(r.error) else Ok(()))
  }

  /** Changes the book and saves it. */
  function Saving<A>(m: Machine<A>, b: Book, save: Save): (Machine<A>, Result<()>) {
    (Persist(m, b, save, Idle), if save.Saved? then Ok(()) else Err(StorageError))
  }

  /** `accept_decision`, up to the save. */
  function Learned<A>(m: Machine<A>, d: Decision, save: Save): (Machine<A>, Result<()>) {
    var (accepted, news) := Accept(m.book, d);
    match news
    case Err(e) => (m, Err(e))
    case Ok(changed) => if changed then Saving(m, accepted, save) else (m, Ok(()))
  }

  function SlotExecuted<A>(apply: Apply<A>, m: Machine<A>, slot: Slot, o: Outcomes): (Machine<A>, Result<()>) {
    if slot in m.book.executed || slot !in m.book.decisions then (m, Ok(()))
    else
      var values := m.book.decisions[slot].values;
      var (exec, execFile, r) := Executed(apply, m.exec, m.execFile, slot, values, o.values, |values|);
      var m' := m.(exec := exec, execFile := execFile);
      if r.Err? then (m', r) else Saving(m', m.book.(executed := m.book.executed + {slot}), o.mark)
  }

  function SlotNotified<A>(m: Machine<A>, slot: Slot, o: Outcomes): (Machine<A>, Result<seq<Decision>>) {
    if slot in m.book.notified || slot !in m.book.decisions then (m, Ok([]))
    else if !o.delivered then (m, Err(TransportError))
    else
      var (m', r) := Saving(m, m.book.(notified := m.book.notified + {slot}), o.note);
      (m', if r.Err? then Err(r.error) else Ok([m.book.decisions[slot]]))
  }

  /** One committed slot: execute it, then tell the client; both only once. */
  function Visited<A>(apply: Apply<A>, m: Machine<A>, slot: Slot, o: Outcomes): (Machine<A>, Result<seq<Decision>>) {
    var (m', r) := SlotExecuted(apply, m, slot, o);
    if r.Err? then (m', Err(r.error)) else SlotNotified(m', slot, o)
  }

  type Visit<!A> = (Machine<A>, Slot) -> (Machine<A>, Result<seq<Decision>>)

  /**
   The slots from this one up to, but not including, the last, with these decisions told
   before; stops at the first failure.
   */
  function Passed<A>(visit: Visit<A>, m: Machine<A>, slot: Slot, last: Slot, told: seq<Decision>)
    : (Machine<A>, Result<seq<Decision>>)
    decreases last - slot
  {
    if last <= slot then (m, Ok(told))
    else
      var (m', r) := visit(m, slot);
      if r.Err? then (m', r) else Passed(visit, m', slot + 1, last, told + r.value)
  }

  /** A visit of each slot, with the outcomes given for it. */
  function Visiting<A>(apply: Apply<A>, outcomes: Slot -> Outcomes): Visit<A> {
    (m: Machine<A>, slot: Slot) => Visited(apply, m, slot, outcomes(slot))
  }

  /** `dispatch_committed`. */
  function Dispatched<A>(visit: Visit<A>, m: Machine<A>): (Machine<A>, Result<seq<Decision>>) {
    Passed(visit, m, m.book.replica.checkpointedThrough + 1, CommittedThrough(m.book) + 1, [])
  }

  lemma {:induction false} ExecutionStops<A>(apply: Apply<A>, mem: Executor<A>, disk: Executor<A>, slot: Slot,
                                             values: seq<Value>, saves: nat -> Save, i: nat, n: nat)
    requires i <= n <= |values| && Executed(apply, mem, disk, slot, values, saves, i).2.Err?
    ensures Executed(apply, mem, disk, slot, values, saves, n) == Executed(apply, mem, disk, slot, values, saves, i)
    decreases n
  {
    if i < n {
      ExecutionStops(apply, mem, disk, slot, values, saves, i, n - 1);
    }
  }

  // ----- Learning -----

  lemma AcceptKnows(b: Book, d: Decision)
    ensures var (b', r) := Accept(b, d);
            && b'.executed == b.executed && b'.notified == b.notified
            && (r.Ok? && d.slot > b.replica.checkpointedThrough ==>
                  d.slot in b'.decisions && b'.decisions[d.slot].values == d.values)
            && (r == Ok(false) || r.Err? ==> b' == b)
  {
  }

  /**
   A decision is accepted exactly if it is at or below the checkpoint, repeats a known
   one, or is new and the replica accepts it; only then is there something to persist.
   */
  lemma AcceptExactly(b: Book, d: Decision)
    requires S.WithinLimits(b.replica)
    ensures Accept(b, d).1.Ok? <==>
              || d.slot <= b.replica.checkpointedThrough
              || (if d.slot in b.decisions then b.decisions[d.slot].values == d.values
                  else RA.Valid(d.values) && RA.Fits(b.replica, d.slot, d.values) && RA.Compatible(b.replica, d))
    ensures Accept(b, d).1 == Ok(true) ==> d.slot > b.replica.checkpointedThrough && d.slot !in b.decisions
    ensures Accept(b, d).1 == Ok(true) ==> Accept(b, d).0.decisions == b.decisions[d.slot := d]
    ensures Accept(b, d).1.Ok? && Accept(b, d).1 != Ok(true) ==>
              d.slot <= b.replica.checkpointedThrough || d.slot in b.decisions
  {
    RA.DecideExactly(b.replica, d);
  }

  /** Learning an agreed decision keeps the order; if it succeeds above the checkpoint, the decision is known. */
  lemma LearnedKeeps<A>(c: Setup<A>, m: Machine<A>, d: Decision, save: Save)
    requires Inv(c, m) && m.cursor.Idle? && 1 <= d.slot <= |c.agreed| && d.values == c.agreed[d.slot - 1]
    ensures var (m', r) := Learned(m, d, save);
            && Inv(c, m')
            && m'.book.executed == m.book.executed && m'.book.notified == m.book.notified
            && (r.Ok? && d.slot > m.book.replica.checkpointedThrough ==>
                  d.slot in m'.book.decisions && m'.book.decisions[d.slot].values == d.values)
  {
    AcceptKnows(m.book, d);
    if Accept(m.book, d).1 == Ok(true) {
      AcceptedSaved(c, m, d, save);
    }
  }

  lemma AcceptedSaved<A>(c: Setup<A>, m: Machine<A>, d: Decision, save: Save)
    requires Inv(c, m) && m.cursor.Idle? && 1 <= d.slot <= |c.agreed| && d.values == c.agreed[d.slot - 1]
    ensures Inv(c, Persist(m, Accept(m.book, d).0, save, Idle))
  {
    var p: nat, pf: nat :| InvAt(c, m, p, pf);
    var b := Accept(m.book, d).0;
    assert BookOk(c, b, p) by {
      AcceptKeeps(c, m.book, d, p);
    }
    PersistKeeps(c, m, b, save, Idle, p, pf);
  }

  // ----- What one slot keeps -----

  /** Memory and file are on the agreed order, at these places. */
  ghost predicate BothThrough<A>(c: Setup<A>, mem: Executor<A>, disk: Executor<A>, p: nat, pf: nat) {
    ExecutedThrough(c, mem, p) && ExecutedThrough(c, disk, pf) && p <= pf
  }

  lemma ValueKeeps<A>(c: Setup<A>, mem: Executor<A>, disk: Executor<A>, slot: Slot, i: nat, save: Save, p: nat, pf: nat)
    returns (p': nat, pf': nat)
    requires 1 <= slot <= |c.agreed| && i < |c.agreed[slot - 1]|
    requires BothThrough(c, mem, disk, p, pf) && End(c.agreed, slot - 1) + i <= p
    ensures var (mem', disk', r) := ExecuteOnce(c.apply, mem, disk, Call(slot, c.agreed[slot - 1][i]), save);
            BothThrough(c, mem', disk', p', pf') && p <= p' && (r.Ok? ==> End(c.agreed, slot - 1) + i < p')
  {
    CallAt(c.agreed, slot, i);
    p', pf' := ExecuteOnceKeeps(c, mem, disk, p, pf, End(c.agreed, slot - 1) + i, save);
  }

  /** Executing values keeps memory and file on the agreed order; if nothing fails, all of them are done. */
  lemma {:induction false} ExecutedKeeps<A>(c: Setup<A>, mem: Executor<A>, disk: Executor<A>, slot: Slot,
                                            saves: nat -> Save, n: nat, p: nat, pf: nat)
    returns (p': nat, pf': nat)
    requires 1 <= slot <= |c.agreed| && n <= |c.agreed[slot - 1]|
    requires BothThrough(c, mem, disk, p, pf) && End(c.agreed, slot - 1) <= p
    ensures var (mem', disk', r) := Executed(c.apply, mem, disk, slot, c.agreed[slot - 1], saves, n);
            BothThrough(c, mem', disk', p', pf') && p <= p' && (r.Ok? ==> End(c.agreed, slot - 1) + n <= p')
  {
    p', pf' := p, pf;
    if n > 0 {
      p', pf' := ExecutedKeeps(c, mem, disk, slot, saves, n - 1, p, pf);
      var before := Executed(c.apply, mem, disk, slot, c.agreed[slot - 1], saves, n - 1);
      if before.2.Ok? {
        p', pf' := ValueKeeps(c, before.0, before.1, slot, n - 1, saves(n - 1), p', pf');
      }
    }
  }

  lemma SlotExecutedKeeps<A>(c: Setup<A>, m: Machine<A>, slot: Slot, o: Outcomes, p: nat, pf: nat)
    returns (p': nat, pf': nat)
    requires InvAt(c, m, p, pf) && m.cursor.Idle? && 1 <= slot <= |c.agreed| && End(c.agreed, slot - 1) <= p
    ensures var (m', r) := SlotExecuted(c.apply, m, slot, o);
            && InvAt(c, m', p', pf') && m'.cursor.Idle? && p <= p'
            && m'.book == m.book.(executed := m'.book.executed)
            && (r.Ok? && slot in m.book.decisions ==> slot in m'.book.executed)
  {
    p', pf' := p, pf;
    if slot !in m.book.executed && slot in m.book.decisions {
      var values := m.book.decisions[slot].values;
      p', pf' := ExecutedKeeps(c, m.exec, m.execFile, slot, o.values, |values|, p, pf);
      var (exec, execFile, r) := Executed(c.apply, m.exec, m.execFile, slot, values, o.values, |values|);
      BookOkGrows(c, m.book, p, p');
      BookOkGrows(c, m.bookFile, p, p');
      if r.Ok? {
        CallAt(c.agreed, slot, 0);
        MarkedOk(c, m.book, slot, p');
      }
    }
  }

  lemma SlotNotifiedKeeps<A>(c: Setup<A>, m: Machine<A>, slot: Slot, o: Outcomes, p: nat, pf: nat)
    requires InvAt(c, m, p, pf) && m.cursor.Idle? && (slot in m.book.decisions ==> slot in m.book.executed)
    ensures var (m', r) := SlotNotified(m, slot, o);
            && InvAt(c, m', p, pf) && m'.cursor.Idle?
            && m'.book == m.book.(notified := m'.book.notified)
            && (r.Ok? && slot in m.book.decisions ==>
                  && m'.book.notified == m.book.notified + {slot}
                  && r.value == if slot in m.book.notified then [] else [m.book.decisions[slot]])
  {
  }

  lemma VisitedKeeps<A>(c: Setup<A>, m: Machine<A>, slot: Slot, o: Outcomes, p: nat, pf: nat)
    returns (p': nat, pf': nat)
    requires InvAt(c, m, p, pf) && m.cursor.Idle? && Ready(m.book, slot)
    requires m.book.replica.checkpointedThrough < slot <= CommittedThrough(m.book)
    ensures var (m', r) := Visited(c.apply, m, slot, o);
            && InvAt(c, m', p', pf') && m'.cursor.Idle? && p <= p'
            && m'.book.replica == m.book.replica && m'.book.decisions == m.book.decisions && slot in m.book.decisions
            && (r.Ok? ==>
                  && slot in m'.book.executed && m'.book.notified == m.book.notified + {slot}
                  && r.value == if slot in m.book.notified then [] else [m.book.decisions[slot]])
  {
    CommittedIsKnown(c, m.book, p, slot);
    p', pf' := SlotExecutedKeeps(c, m, slot, o, p, pf);
    var (m', r) := SlotExecuted(c.apply, m, slot, o);
    if r.Ok? {
      SlotNotifiedKeeps(c, m', slot, o, p', pf');
    }
  }

  // ----- What a pass keeps -----

  /** The decided slots strictly between two slots. */
  function Between(decisions: map<Slot, Decision>, lo: Slot, hi: Slot): set<Slot> {
    set s | s in decisions && lo < s < hi
  }

  /** A pass over the committed slots has told the clients of all slots before the given one. */
  ghost predicate PassedTo(start: Book, now: Book, slot: Slot, told: seq<Decision>) {
    && now.replica == start.replica && now.decisions == start.decisions
    && now.notified == start.notified + Between(start.decisions, start.replica.checkpointedThrough, slot)
    && Ready(now, slot)
    && told == Untold(start.decisions, start.notified, start.replica.checkpointedThrough + 1, slot)
  }

  lemma PassBegins(start: Book)
    ensures PassedTo(start, start, start.replica.checkpointedThrough + 1, [])
  {
  }

  lemma PassMovesOn(start: Book, now: Book, next: Book, slot: Slot, told: seq<Decision>, told': seq<Decision>)
    requires PassedTo(start, now, slot, told) && slot > start.replica.checkpointedThrough
    requires next.replica == now.replica && next.decisions == now.decisions
    requires next.notified == now.notified + {slot} && slot in next.executed && slot in next.decisions
    requires told' == told + if slot in now.notified then [] else [next.decisions[slot]]
    ensures PassedTo(start, next, slot + 1, told')
  {
    var lo := start.replica.checkpointedThrough;
    assert Between(start.decisions, lo, slot + 1) == Between(start.decisions, lo, slot) + {slot};
  }

  /** A finished pass has executed the whole committed prefix, and every client of it has been told. */
  lemma PassCoversCommitted<A>(c: Setup<A>, start: Book, now: Book, p: nat, told: seq<Decision>)
    requires BookOk(c, now, p)
    requires PassedTo(start, now, CommittedThrough(start) + 1, told)
    ensures CommittedThrough(now) <= |c.agreed| && End(c.agreed, CommittedThrough(now)) <= p
    ensures forall s :: now.replica.checkpointedThrough < s <= CommittedThrough(now) ==>
              s in now.notified && s in now.executed
  {
  }

  /** The decisions of the slots from `lo` up to `hi` whose clients have not been told, in order. */
  function Untold(decisions: map<Slot, Decision>, notified: set<Slot>, lo: Slot, hi: Slot): seq<Decision> {
    if hi <= lo then []
    else
      Untold(decisions, notified, lo, hi - 1)
      + if hi - 1 in decisions && hi - 1 !in notified then [decisions[hi - 1]] else []
  }

  /** On the agreed order, at rest, and with nothing forgotten that had been executed. */
  ghost predicate Kept<A>(c: Setup<A>, seen: set<Value>, m: Machine<A>) {
    Inv(c, m) && m.cursor.Idle? && seen <= m.exec.seen
  }

  /**
   If a pass has come to a committed slot, this outcome of the visit keeps what is kept, and
   carries the pass on if it is a success.
   */
  ghost predicate Keeps<A>(kept: Machine<A> -> bool, start: Book, m: Machine<A>, slot: Slot, told: seq<Decision>,
                           visited: (Machine<A>, Result<seq<Decision>>))
  {
    kept(m) && PassedTo(start, m.book, slot, told)
        && start.replica.checkpointedThrough < slot <= CommittedThrough(start) ==>
      kept(visited.0) && (visited.1.Ok? ==> PassedTo(start, visited.0.book, slot + 1, told + visited.1.value))
  }

  ghost predicate CarriesOn<A>(kept: Machine<A> -> bool, start: Book, visit: Visit<A>, m: Machine<A>, slot: Slot,
                               told: seq<Decision>) {
    Keeps(kept, start, m, slot, told, visit(m, slot))
  }

  lemma {:induction false} PassKeeps<A>(kept: Machine<A> -> bool, start: Book, visit: Visit<A>, m: Machine<A>,
                                        slot: Slot, last: Slot, told: seq<Decision>)
    returns (m': Machine<A>, r: Result<seq<Decision>>)
    requires forall x, s, t :: CarriesOn(kept, start, visit, x, s, t)
    requires kept(m) && PassedTo(start, m.book, slot, told)
    requires start.replica.checkpointedThrough < slot <= last == CommittedThrough(start) + 1
    ensures (m', r) == Passed(visit, m, slot, last, told)
    ensures kept(m') && (r.Ok? ==> PassedTo(start, m'.book, last, r.value))
    decreases last - slot
  {
    if slot == last {
      m', r := m, Ok(told);
    } else {
      assert CarriesOn(kept, start, visit, m, slot, told);
      var visited := visit(m, slot);
      m', r := visited.0, visited.1;
      if r.Ok? {
        m', r := PassKeeps(kept, start, visit, m', slot + 1, last, told + r.value);
      }
    }
  }

  lemma DispatchKeeps<A>(kept: Machine<A> -> bool, m: Machine<A>, visit: Visit<A>)
    returns (m': Machine<A>, r: Result<seq<Decision>>)
    requires kept(m) && m.book.replica.checkpointedThrough <= CommittedThrough(m.book)
    requires forall x, s, t :: CarriesOn(kept, m.book, visit, x, s, t)
    ensures (m', r) == Dispatched(visit, m)
    ensures kept(m') && (r.Ok? ==> PassedTo(m.book, m'.book, CommittedThrough(m.book) + 1, r.value))
  {
    var start := m.book;
    PassBegins(start);
    m', r := PassKeeps(kept, start, visit, m, start.replica.checkpointedThrough + 1, CommittedThrough(start) + 1, []);
  }

  lemma VisitKeeps<A>(c: Setup<A>, start: Book, seen: set<Value>, m: Machine<A>, slot: Slot, o: Outcomes,
                      told: seq<Decision>, visited: (Machine<A>, Result<seq<Decision>>))
    requires Kept(c, seen, m) && PassedTo(start, m.book, slot, told)
    requires start.replica.checkpointedThrough < slot <= CommittedThrough(start)
             && visited == Visited(c.apply, m, slot, o)
    ensures Kept(c, seen, visited.0)
    ensures visited.1.Ok? ==> PassedTo(start, visited.0.book, slot + 1, told + visited.1.value)
  {
    var p: nat, pf: nat :| InvAt(c, m, p, pf);
    var p', pf' := VisitedKeeps(c, m, slot, o, p, pf);
    ValsOfPrefix(Calls(c.agreed), p, p');
    if visited.1.Ok? {
      PassMovesOn(start, m.book, visited.0.book, slot, told, told + visited.1.value);
    }
  }

  lemma VisitingCarriesOn<A>(c: Setup<A>, start: Book, seen: set<Value>, kept: Machine<A> -> bool, o: Outcomes,
                             x: Machine<A>, slot: Slot, told: seq<Decision>,
                             visited: (Machine<A>, Result<seq<Decision>>))
    requires (kept(x) ==> Kept(c, seen, x)) && (Kept(c, seen, visited.0) ==> kept(visited.0))
    requires visited == Visited(c.apply, x, slot, o)
    ensures Keeps(kept, start, x, slot, told, visited)
  {
    if kept(x) && PassedTo(start, x.book, slot, told)
        && start.replica.checkpointedThrough < slot <= CommittedThrough(start) {
      VisitKeeps(c, start, seen, x, slot, o, told, visited);
    }
  }

  /**
   A pass keeps the runtime on the agreed order and forgets nothing, wherever it stops. If
   nothing fails, every committed slot is then executed and its client told, and what was
   told in this pass is returned in slot order.
   */
  lemma DispatchKeepsOrder<A>(c: Setup<A>, m: Machine<A>, outcomes: Slot -> Outcomes)
    returns (m': Machine<A>, r: Result<seq<Decision>>)
    requires Inv(c, m) && m.cursor.Idle?
    ensures (m', r) == Dispatched(Visiting(c.apply, outcomes), m)
    ensures Kept(c, m.exec.seen, m') && (r.Ok? ==> PassedTo(m.book, m'.book, CommittedThrough(m.book) + 1, r.value))
  {
    var kept := (x: Machine<A>) => Kept(c, m.exec.seen, x);
    var visit := Visiting(c.apply, outcomes);
    forall x, s, t ensures CarriesOn(kept, m.book, visit, x, s, t) {
      VisitingCarriesOn(c, m.book, m.exec.seen, kept, outcomes(s), x, s, t, visit(x, s));
    }
    FrontierAhead(c, m);
    m', r := DispatchKeeps(kept, m, visit);
  }

  lemma FrontierAhead<A>(c: Setup<A>, m: Machine<A>)
    requires Inv(c, m)
    ensures m.book.replica.checkpointedThrough <= CommittedThrough(m.book)
  {
  }

  // ----- A pass in which nothing fails -----

  /** The saves succeed and the client can be reached. */
  ghost predicate Smooth(o: Outcomes) {
    o.mark.Saved? && o.delivered && o.note.Saved? && forall i :: o.values(i).Saved?
  }

  lemma {:induction false} ExecutedSmoothly<A(!new)>(apply: Apply<A>, mem: Executor<A>, disk: Executor<A>, slot: Slot,
                                               values: seq<Value>, saves: nat -> Save, n: nat)
    requires n <= |values| && (forall i :: saves(i).Saved?) && forall a, v :: apply(a, slot, v).Some?
    ensures Executed(apply, mem, disk, slot, values, saves, n).2.Ok?
  {
    if n > 0 {
      ExecutedSmoothly(apply, mem, disk, slot, values, saves, n - 1);
      var before := Executed(apply, mem, disk, slot, values, saves, n - 1);
      assert saves(n - 1).Saved? && apply(before.0.app, slot, values[n - 1]).Some?;
    }
  }

  lemma VisitedSmoothly<A(!new)>(apply: Apply<A>, m: Machine<A>, slot: Slot, o: Outcomes)
    requires Smooth(o) && forall a, v :: apply(a, slot, v).Some?
    ensures Visited(apply, m, slot, o).1.Ok?
  {
    if slot in m.book.decisions {
      var values := m.book.decisions[slot].values;
      ExecutedSmoothly(apply, m.exec, m.execFile, slot, values, o.values, |values|);
    }
  }

  lemma {:induction false} PassedSmoothly<A>(visit: Visit<A>, m: Machine<A>, slot: Slot, last: Slot,
                                             told: seq<Decision>)
    requires forall x, s :: visit(x, s).1.Ok?
    ensures Passed(visit, m, slot, last, told).1.Ok?
    decreases last - slot
  {
    if slot < last {
      var (m', r) := visit(m, slot);
      assert r.Ok?;
      PassedSmoothly(visit, m', slot + 1, last, told + r.value);
    }
  }

  /**
   If the application accepts every value, no save fails and every client can be reached,
   a pass succeeds, and then every committed slot is executed and its client told.
   */
  lemma DispatchCompletes<A(!new)>(c: Setup<A>, m: Machine<A>, outcomes: Slot -> Outcomes)
    requires Inv(c, m) && m.cursor.Idle?
    requires (forall s :: Smooth(outcomes(s))) && forall a, s, v :: c.apply(a, s, v).Some?
    ensures var (m', r) := Dispatched(Visiting(c.apply, outcomes), m);
            && r.Ok? && Inv(c, m') && CommittedThrough(m'.book) == CommittedThrough(m.book)
            && forall s :: m.book.replica.checkpointedThrough < s <= CommittedThrough(m.book) ==>
                 s in m'.book.executed && s in m'.book.notified
  {
    SmoothPassSucceeds(c.apply, m, outcomes);
    var m', r := DispatchKeepsOrder(c, m, outcomes);
    PassTold(c, m.book, m', r.value);
  }

  lemma SmoothPassSucceeds<A(!new)>(apply: Apply<A>, m: Machine<A>, outcomes: Slot -> Outcomes)
    requires (forall s :: Smooth(outcomes(s))) && forall a, s, v :: apply(a, s, v).Some?
    ensures Dispatched(Visiting(apply, outcomes), m).1.Ok?
  {
    var visit := Visiting(apply, outcomes);
    forall x, s ensures visit(x, s).1.Ok? {
      VisitedSmoothly(apply, x, s, outcomes(s));
    }
    PassedSmoothly(visit, m, m.book.replica.checkpointedThrough + 1, CommittedThrough(m.book) + 1, []);
  }

  lemma PassTold<A>(c: Setup<A>, start: Book, m: Machine<A>, told: seq<Decision>)
    requires Inv(c, m) && PassedTo(start, m.book, CommittedThrough(start) + 1, told)
    ensures CommittedThrough(m.book) == CommittedThrough(start)
    ensures forall s :: start.replica.checkpointedThrough < s <= CommittedThrough(start) ==>
              s in m.book.executed && s in m.book.notified
  {
    var p: nat, pf: nat :| InvAt(c, m, p, pf);
    PassCoversCommitted(c, start, m.book, p, told);
  }
}
