/**
 The exactly-once executor: the application state is the fold of `apply` over the first
 occurrences of value identifiers in the order in which they were executed.
 */
module ExactlyOnce {
  import opened Types

  /** One value of one slot, as handed to the application. */
  datatype Call = Call(slot: Slot, value: Value)

  /** What the executor's file holds. */
  datatype Executor<A> = Executor(checkpointedThrough: Slot, seen: set<Value>, app: A)

  /** A save succeeds, fails without a trace, or fails after the file was replaced. */
  datatype Save = Saved | Lost | Landed

  /** The application and the agreed values of slots 1, 2, 3 and so on. */
  datatype Setup<!A> = Setup(apply: (A, Slot, Value) -> Option<A>, initial: A, agreed: seq<seq<Value>>)

  // ----- The agreed order of calls -----

  function SlotCalls(slot: Slot, values: seq<Value>): (calls: seq<Call>)
    ensures |calls| == |values|
  {
    seq(|values|, i requires 0 <= i < |values| => Call(slot, values[i]))
  }

  /** All calls of all slots, slot by slot. */
  function Calls(agreed: seq<seq<Value>>): seq<Call> {
    if agreed == [] then [] else Calls(agreed[..|agreed| - 1]) + SlotCalls(|agreed|, agreed[|agreed| - 1])
  }

  /** The number of calls of the slots through the given one. */
  function End(agreed: seq<seq<Value>>, slot: Slot): nat
    requires slot <= |agreed|
  {
    if slot == 0 then 0 else End(agreed, slot - 1) + |agreed[slot - 1]|
  }

  lemma {:induction false} EndCounts(agreed: seq<seq<Value>>, slot: Slot)
    requires slot <= |agreed|
    ensures End(agreed, slot) == |Calls(agreed[..slot])|
  {
    if slot > 0 {
      EndCounts(agreed, slot - 1);
      assert agreed[..slot][..slot - 1] == agreed[..slot - 1];
    }
  }

  lemma {:induction false} CallsPrefix(agreed: seq<seq<Value>>, slot: Slot)
    requires slot <= |agreed|
    ensures |Calls(agreed[..slot])| <= |Calls(agreed)|
    ensures Calls(agreed)[..|Calls(agreed[..slot])|] == Calls(agreed[..slot])
    decreases |agreed| - slot
  {
    if slot == |agreed| {
      assert agreed[..slot] == agreed;
    } else {
      CallsPrefix(agreed, slot + 1);
      assert agreed[..slot + 1][..slot] == agreed[..slot];
      var longer, shorter := Calls(agreed[..slot + 1]), Calls(agreed[..slot]);
      assert longer[..|shorter|] == shorter;
      assert Calls(agreed)[..|shorter|] == longer[..|shorter|];
    }
  }

  /** The i-th value of a slot is the i-th call after those of the slots before it. */
  lemma CallAt(agreed: seq<seq<Value>>, slot: Slot, i: nat)
    requires 1 <= slot <= |agreed| && i <= |agreed[slot - 1]|
    ensures End(agreed, slot) == End(agreed, slot - 1) + |agreed[slot - 1]| <= |Calls(agreed)|
    ensures i < |agreed[slot - 1]| ==> Calls(agreed)[End(agreed, slot - 1) + i] == Call(slot, agreed[slot - 1][i])
  {
    assert agreed[..slot][..slot - 1] == agreed[..slot - 1] && agreed[..slot][slot - 1] == agreed[slot - 1];
    EndCounts(agreed, slot - 1);
    EndCounts(agreed, slot);
    CallsPrefix(agreed, slot);
    var upTo := Calls(agreed[..slot]);
    if i < |agreed[slot - 1]| {
      var k := End(agreed, slot - 1) + i;
      assert Calls(agreed)[..|upTo|][k] == upTo[k];
    }
  }

  // ----- First occurrences and the fold over them -----

  function Vals(calls: seq<Call>): set<Value> {
    set k | 0 <= k < |calls| :: calls[k].value
  }

  /** The calls whose value occurs for the first time, in order. */
  function Firsts(calls: seq<Call>): seq<Call> {
    if calls == [] then []
    else
      var init, last := calls[..|calls| - 1], calls[|calls| - 1];
      if last.value in Vals(init) then Firsts(init) else Firsts(init) + [last]
  }

  /** Applies the calls one after the other, if the application accepts them all. */
  function Fold<A>(apply: (A, Slot, Value) -> Option<A>, initial: A, calls: seq<Call>): Option<A> {
    if calls == [] then Some(initial)
    else
      var before, last := Fold(apply, initial, calls[..|calls| - 1]), calls[|calls| - 1];
      if before.None? then None else apply(before.value, last.slot, last.value)
  }

  lemma ValsMore(calls: seq<Call>, c: Call)
    ensures Vals(calls + [c]) == Vals(calls) + {c.value}
  {
    assert (calls + [c])[|calls|] == c;
    assert forall k :: 0 <= k < |calls| ==> (calls + [c])[k] == calls[k];
  }

  lemma FirstsMore(calls: seq<Call>, c: Call)
    ensures Firsts(calls + [c]) == if c.value in Vals(calls) then Firsts(calls) else Firsts(calls) + [c]
  {
    assert (calls + [c])[..|calls|] == calls;
  }

  lemma FoldMore<A>(apply: (A, Slot, Value) -> Option<A>, initial: A, calls: seq<Call>, c: Call)
    ensures Fold(apply, initial, calls + [c]) ==
            match Fold(apply, initial, calls) case None => None case Some(app) => apply(app, c.slot, c.value)
  {
    assert (calls + [c])[..|calls|] == calls;
  }

  /** Every value that occurs is kept, at its first occurrence and only there. */
  lemma {:induction false} FirstsKeepEachValueOnce(calls: seq<Call>)
    ensures Vals(Firsts(calls)) == Vals(calls)
    ensures forall i, j :: 0 <= i < j < |Firsts(calls)| ==> Firsts(calls)[i].value != Firsts(calls)[j].value
  {
    if calls != [] {
      var init, last := calls[..|calls| - 1], calls[|calls| - 1];
      assert calls == init + [last];
      FirstsKeepEachValueOnce(init);
      ValsMore(init, last);
      ValsMore(Firsts(init), last);
      forall i | 0 <= i < |Firsts(init)| ensures Firsts(init)[i].value in Vals(init) {
        assert Firsts(init)[i].value in Vals(Firsts(init));
      }
    }
  }

  // ----- The executor -----

  /** The executor has executed exactly the first p calls of the agreed order. */
  ghost predicate ExecutedThrough<A>(c: Setup<A>, e: Executor<A>, p: nat) {
    && p <= |Calls(c.agreed)|
    && e.seen == Vals(Calls(c.agreed)[..p])
    && Fold(c.apply, c.initial, Firsts(Calls(c.agreed)[..p])) == Some(e.app)
  }

  /** One `execute_once`: the executor in memory, its file, and what is returned. */
  function ExecuteOnce<A>(apply: (A, Slot, Value) -> Option<A>, mem: Executor<A>, disk: Executor<A>, call: Call,
                          save: Save)
    : (Executor<A>, Executor<A>, Result<bool>)
  {
    if call.value in mem.seen then (mem, disk, Ok(false))
    else
      match apply(mem.app, call.slot, call.value)
      case None => (mem, disk, Err(StorageError))
      case Some(app) =>
        var next := mem.(seen := mem.seen + {call.value}, app := app);
        match save
        case Saved => (next, next, Ok(true))
        case Lost => (mem, disk, Err(StorageError))
        case Landed => (mem, next, Err(StorageError))
  }

  /**
   A value is done exactly if it was seen before, or the application accepts it and the
   save succeeds; afterwards it has been seen, and applied only if it was new.
   */
  lemma ExecuteOnceExactly<A>(apply: (A, Slot, Value) -> Option<A>, mem: Executor<A>, disk: Executor<A>, call: Call,
                              save: Save)
    ensures var (mem', disk', r) := ExecuteOnce(apply, mem, disk, call, save);
            && (r.Ok? <==> call.value in mem.seen || (apply(mem.app, call.slot, call.value).Some? && save.Saved?))
            && (r.Ok? ==> r.value == (call.value !in mem.seen) && mem'.seen == mem.seen + {call.value})
            && (r == Ok(true) ==> disk' == mem' && Some(mem'.app) == apply(mem.app, call.slot, call.value))
            && (r == Ok(false) ==> mem' == mem && disk' == disk)
            && (r.Err? ==> mem' == mem)
  {
  }

  lemma PrefixMore<T>(s: seq<T>, p: nat)
    requires p < |s|
    ensures s[..p + 1] == s[..p] + [s[p]]
  {
  }

  /** A value seen before can be passed over. */
  lemma PassOver<A>(c: Setup<A>, e: Executor<A>, p: nat)
    requires ExecutedThrough(c, e, p) && p < |Calls(c.agreed)| && Calls(c.agreed)[p].value in e.seen
    ensures ExecutedThrough(c, e, p + 1)
  {
    var calls := Calls(c.agreed);
    PrefixMore(calls, p);
    ValsMore(calls[..p], calls[p]);
    FirstsMore(calls[..p], calls[p]);
  }

  /** A new value is applied. */
  lemma ApplyNext<A>(c: Setup<A>, e: Executor<A>, p: nat, app: A)
    requires ExecutedThrough(c, e, p) && p < |Calls(c.agreed)| && Calls(c.agreed)[p].value !in e.seen
    requires c.apply(e.app, Calls(c.agreed)[p].slot, Calls(c.agreed)[p].value) == Some(app)
    ensures ExecutedThrough(c, e.(seen := e.seen + {Calls(c.agreed)[p].value}, app := app), p + 1)
  {
    var calls := Calls(c.agreed);
    PrefixMore(calls, p);
    ValsMore(calls[..p], calls[p]);
    FirstsMore(calls[..p], calls[p]);
    FoldMore(c.apply, c.initial, Firsts(calls[..p]), calls[p]);
  }

  /** The executor may have executed more than it needs to know: repeated values change nothing. */
  lemma {:induction false} Lift<A>(c: Setup<A>, e: Executor<A>, p: nat, q: nat)
    requires ExecutedThrough(c, e, p) && p <= q <= |Calls(c.agreed)|
    requires Vals(Calls(c.agreed)[..q]) <= e.seen
    ensures ExecutedThrough(c, e, q)
    decreases q - p
  {
    if p < q {
      assert Calls(c.agreed)[..q][p] == Calls(c.agreed)[p];
      PassOver(c, e, p);
      Lift(c, e, p + 1, q);
    }
  }

  lemma {:induction false} EndGrows(agreed: seq<seq<Value>>, s: Slot, t: Slot)
    requires s <= t <= |agreed|
    ensures End(agreed, s) <= End(agreed, t)
    decreases t
  {
    if s < t {
      EndGrows(agreed, s, t - 1);
    }
  }

  lemma ValsOfPrefix(calls: seq<Call>, p: nat, q: nat)
    requires p <= q <= |calls|
    ensures Vals(calls[..p]) <= Vals(calls[..q])
  {
    assert forall k :: 0 <= k < p ==> calls[..p][k] == calls[..q][k];
  }

  /** The executor has executed every value of this slot. */
  predicate SlotSeen<A>(agreed: seq<seq<Value>>, e: Executor<A>, s: Slot) {
    1 <= s <= |agreed| && forall v :: v in agreed[s - 1] ==> v in e.seen
  }

  /** Knowing the values of the slots above one that was reached, an executor stands past them. */
  lemma {:induction false} Reach<A>(c: Setup<A>, e: Executor<A>, p: nat, from: Slot, slot: Slot) returns (q: nat)
    requires ExecutedThrough(c, e, p) && from <= slot <= |c.agreed| && End(c.agreed, from) <= p
    requires forall s :: from < s <= slot ==> SlotSeen(c.agreed, e, s)
    ensures q >= p && End(c.agreed, slot) <= q && ExecutedThrough(c, e, q)
    decreases slot
  {
    q := p;
    if from < slot {
      q := Reach(c, e, p, from, slot - 1);
      var end := End(c.agreed, slot);
      CallAt(c.agreed, slot, 0);
      if q < end {
        assert SlotSeen(c.agreed, e, slot);
        LastSlotSeen(c, e, q, slot);
        Lift(c, e, q, end);
        q := end;
      }
    }
  }

  lemma LastSlotSeen<A>(c: Setup<A>, e: Executor<A>, q: nat, slot: Slot)
    requires ExecutedThrough(c, e, q) && 1 <= slot <= |c.agreed|
             && End(c.agreed, slot - 1) <= q <= End(c.agreed, slot) <= |Calls(c.agreed)|
    requires forall v :: v in c.agreed[slot - 1] ==> v in e.seen
    ensures Vals(Calls(c.agreed)[..End(c.agreed, slot)]) <= e.seen
  {
    var calls, end := Calls(c.agreed), End(c.agreed, slot);
    forall k | 0 <= k < end ensures calls[..end][k].value in e.seen {
      if k < q {
        assert calls[..q][k] == calls[k];
      } else {
        CallAt(c.agreed, slot, k - End(c.agreed, slot - 1));
      }
    }
  }

  lemma ReachedIsSeen<A>(c: Setup<A>, e: Executor<A>, q: nat, s: Slot, slot: Slot, v: Value)
    requires ExecutedThrough(c, e, q) && 1 <= s <= slot <= |c.agreed| && End(c.agreed, slot) <= q
             && v in c.agreed[s - 1]
    ensures v in e.seen
  {
    var i :| 0 <= i < |c.agreed[s - 1]| && c.agreed[s - 1][i] == v;
    CallAt(c.agreed, s, i);
    EndGrows(c.agreed, s, slot);
    assert Calls(c.agreed)[..q][End(c.agreed, s - 1) + i].value == v;
  }

  /**
   Executing again what has been executed changes nothing; executing what comes next moves
   one call on. Memory and file both stay on the agreed order whatever becomes of the save.
   */
  lemma ExecuteOnceKeeps<A>(c: Setup<A>, mem: Executor<A>, disk: Executor<A>, pm: nat, pd: nat, q: nat, save: Save)
    returns (pm': nat, pd': nat)
    requires ExecutedThrough(c, mem, pm) && ExecutedThrough(c, disk, pd) && pm <= pd
    requires q <= pm && q < |Calls(c.agreed)|
    ensures var (mem', disk', r) := ExecuteOnce(c.apply, mem, disk, Calls(c.agreed)[q], save);
            && ExecutedThrough(c, mem', pm') && ExecutedThrough(c, disk', pd')
            && pm <= pm' <= pd'
            && (r.Ok? ==> q < pm')
  {
    var calls := Calls(c.agreed);
    pm', pd' := pm, pd;
    if q < pm {
      assert calls[..pm][q] == calls[q];
    } else if calls[q].value in mem.seen {
      PassOver(c, mem, pm);
      pm' := pm + 1;
      if pd == pm {
        PassOver(c, disk, pd);
        pd' := pd + 1;
      }
    } else if c.apply(mem.app, calls[q].slot, calls[q].value).Some? {
      ApplyNext(c, mem, pm, c.apply(mem.app, calls[q].slot, calls[q].value).value);
      if save.Saved? {
        pm', pd' := pm + 1, pm + 1;
      } else if save.Landed? {
        pd' := pm + 1;
      }
    }
  }
}
