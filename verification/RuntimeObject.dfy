/**
 The executor and the runtime as objects: the loop over the values of a decision, and
 the loop over the committed slots with a save after each change. Every save may fail,
 before or after it replaced the file.
 */
module RuntimeObject {
  import opened Types
  import R = Replica
  import EO = ExactlyOnce
  import opened Runtime
  import opened RuntimePass

  class FileExactlyOnceExecutor<A> {
    const apply: (A, Slot, Value) -> Option<A>
    var snapshot: EO.Executor<A>
    var file: EO.Executor<A>

    constructor (apply: (A, Slot, Value) -> Option<A>, initial: A)
      ensures this.apply == apply && snapshot == file == EO.Executor(0, {}, initial)
    {
      this.apply := apply;
      snapshot := EO.Executor(0, {}, initial);
      file := EO.Executor(0, {}, initial);
    }

    method ExecuteOnce(slot: Slot, value: Value, save: EO.Save) returns (r: Result<bool>)
      modifies this
      ensures (snapshot, file, r) == EO.ExecuteOnce(apply, old(snapshot), old(file), EO.Call(slot, value), save)
    {
      if value in snapshot.seen {
        return Ok(false);
      }
      var applied := apply(snapshot.app, slot, value);
      if applied.None? {
        return Err(StorageError);
      }
      var next := snapshot.(seen := snapshot.seen + {value}, app := applied.value);
      if !save.Lost? {
        file := next;
      }
      if !save.Saved? {
        return Err(StorageError);
      }
      snapshot := next;
      return Ok(true);
    }

    /** Executes the values of a decision one after the other. */
    method Execute(slot: Slot, values: seq<Value>, saves: nat -> EO.Save) returns (r: Result<()>)
      modifies this
      ensures (snapshot, file, r) == Executed(apply, old(snapshot), old(file), slot, values, saves, |values|)
    {
      r := Ok(());
      for i := 0 to |values|
        invariant r.Ok? && (snapshot, file, r) == Executed(apply, old(snapshot), old(file), slot, values, saves, i)
      {
        var done := ExecuteOnce(slot, values[i], saves(i));
        if done.Err? {
          r := Err(done.error);
          ExecutionStops(apply, old(snapshot), old(file), slot, values, saves, i + 1, |values|);
          return;
        }
      }
    }
  }

  class ReplicaRuntime<A> {
    const executor: FileExactlyOnceExecutor<A>
    var book: Book
    var file: Book

    constructor (config: R.ReplicaConfig, executor: FileExactlyOnceExecutor<A>)
      ensures book == file == NewBook(config) && this.executor == executor
    {
      this.executor := executor;
      book, file := NewBook(config), NewBook(config);
    }

    /** The runtime between two operations, as a machine at rest. */
    ghost function State(): Machine<A>
      reads this, executor
    {
      Machine(book, file, executor.snapshot, executor.file, Idle)
    }

    method Persist(save: EO.Save) returns (r: Result<()>)
      modifies this`file
      ensures file == if save.Lost? then old(file) else book
      ensures r == if save.Saved? then Ok(()) else Err(StorageError)
    {
      if !save.Lost? {
        file := book;
      }
      r := if save.Saved? then Ok(()) else Err(StorageError);
    }

    /** One decided slot: execute it, then tell the client; both only once. */
    method VisitSlot(slot: Slot, o: Outcomes) returns (r: Result<seq<Decision>>)
      modifies this, executor
      ensures (State(), r) == Visited(executor.apply, old(State()), slot, o)
    {
      if slot !in book.decisions {
        return Ok([]);
      }
      if slot !in book.executed {
        var done := executor.Execute(slot, book.decisions[slot].values, o.values);
        if done.Err? {
          return Err(done.error);
        }
        book := book.(executed := book.executed + {slot});
        done := Persist(o.mark);
        if done.Err? {
          return Err(done.error);
        }
      }
      if slot in book.notified {
        return Ok([]);
      }
      if !o.delivered {
        return Err(TransportError);
      }
      book := book.(notified := book.notified + {slot});
      var done := Persist(o.note);
      r := if done.Err? then Err(done.error) else Ok([book.decisions[slot]]);
    }

    /** One pass over the committed slots. */
    method DispatchCommitted(outcomes: Slot -> Outcomes) returns (r: Result<seq<Decision>>)
      modifies this, executor
      ensures (State(), r) == Dispatched(Visiting(executor.apply, outcomes), old(State()))
    {
      var slot, last, told := book.replica.checkpointedThrough + 1, CommittedThrough(book) + 1, [];
      ghost var visit := Visiting(executor.apply, outcomes);
      while slot < last
        invariant Passed(visit, State(), slot, last, told) == Dispatched(visit, old(State()))
        decreases last - slot
      {
        r := VisitSlot(slot, outcomes(slot));
        if r.Err? {
          return;
        }
        slot, told := slot + 1, told + r.value;
      }
      r := Ok(told);
    }

    /** Records a decision and persists it if it is new. */
    method LearnDecision(d: Decision, save: EO.Save) returns (r: Result<()>)
      modifies this
      ensures (State(), r) == Learned(old(State()), d, save)
    {
      var (accepted, news) := Accept(book, d);
      if news.Err? {
        return Err(news.error);
      }
      r := Ok(());
      if news.value {
        book := accepted;
        r := Persist(save);
      }
    }
  }
}
