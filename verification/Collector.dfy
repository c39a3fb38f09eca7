/**
 Waiting for a quorum of recorder replies: the threaded collector and the asynchronous
 one, and the proof that both succeed exactly when a quorum of sound replies arrives.

 Threads, channels and clocks are abstracted to the list of arrivals in the order in
 which the collector sees them before its deadline.
 */
module Collector {
  import opened Types
  import opened Membership
  import opened Recorder

  /** The outcome of the call to one recorder, as it reaches the collector. */
  datatype Arrival = Arrival(from: ReplicaId, result: Result<RecordReply>)

  /** The replies among the arrivals, in order. */
  function Collected(arrivals: seq<Arrival>): seq<RecordReply> {
    if arrivals == [] then []
    else
      var last := arrivals[|arrivals| - 1].result;
      Collected(arrivals[..|arrivals| - 1]) + if last.Ok? then [last.value] else []
  }

  function RecordersOf(replies: seq<RecordReply>): set<ReplicaId> {
    set k | 0 <= k < |replies| :: replies[k].recorder
  }

  predicate Sound(quorum: nat, expected: Option<Cluster>) {
    expected.Some? ==> WellFormed(expected.value) && quorum == QuorumSize(expected.value)
  }

  predicate QuorumReached(replies: seq<RecordReply>, quorum: nat, expected: Option<Cluster>)
    requires Sound(quorum, expected)
  {
    match expected
    case None => |replies| >= quorum
    case Some(c) => HasQuorum(c, RecordersOf(replies))
  }

  /** Errors that end the proposal attempt whatever the other recorders say. */
  predicate Fatal(e: Error) {
    e.ConflictingDecision? || e.SlotPruned? || e.ScheduleMismatch? || e.ConfigurationMismatch?
  }

  /** What is wrong with an arrival, given those before it. */
  function Objection(arrivals: seq<Arrival>, k: nat, expected: Option<Cluster>): Option<Error>
    requires k < |arrivals|
  {
    match arrivals[k].result
    case Err(e) => if Fatal(e) then Some(e) else None
    case Ok(reply) =>
      if reply.recorder != arrivals[k].from then Some(InvalidRecorderReply(arrivals[k].from, reply.recorder))
      else if expected.Some? && reply.cluster != expected.value then Some(ConfigurationMismatch)
      else if reply.recorder in RecordersOf(Collected(arrivals[..k])) then Some(DuplicateRecorderReply(reply.recorder))
      else None
  }

  /** The first n arrivals are in order. */
  predicate Clean(arrivals: seq<Arrival>, n: nat, expected: Option<Cluster>)
    requires n <= |arrivals|
  {
    forall j :: 0 <= j < n ==> Objection(arrivals, j, expected).None?
  }

  predicate ReachedAt(arrivals: seq<Arrival>, n: nat, quorum: nat, expected: Option<Cluster>)
    requires n <= |arrivals| && Sound(quorum, expected)
  {
    QuorumReached(Collected(arrivals[..n]), quorum, expected)
  }

  /** Too few calls are outstanding after the first n arrivals. */
  predicate TooFewLeft(arrivals: seq<Arrival>, n: nat, launched: nat, quorum: nat)
    requires n <= |arrivals|
  {
    |Collected(arrivals[..n])| + launched - n < quorum
  }

  // ----- What a collector returns -----

  /** The collector is still waiting after n arrivals. */
  predicate Waiting(arrivals: seq<Arrival>, n: nat, quorum: nat, expected: Option<Cluster>)
    requires n <= |arrivals| && Sound(quorum, expected)
  {
    Clean(arrivals, n, expected) && forall j :: 0 <= j < n ==> !ReachedAt(arrivals, j, quorum, expected)
  }

  /** A quorum of sound replies arrives at some point. */
  predicate QuorumArrives(arrivals: seq<Arrival>, quorum: nat, expected: Option<Cluster>)
    requires Sound(quorum, expected)
  {
    exists n :: 0 <= n <= |arrivals| && Clean(arrivals, n, expected) && ReachedAt(arrivals, n, quorum, expected)
  }

  /** The collector stops after n arrivals with result r; the last arrival is what stops it. */
  predicate Returns(arrivals: seq<Arrival>, launched: nat, quorum: nat, expected: Option<Cluster>, exhausted: Error,
                    n: nat, r: Result<seq<RecordReply>>)
    requires Sound(quorum, expected)
  {
    n <= |arrivals| <= launched &&
    match r
    case Ok(replies) =>
      && Waiting(arrivals, n, quorum, expected)
      && ReachedAt(arrivals, n, quorum, expected)
      && replies == Collected(arrivals[..n])
    case Err(e) =>
      || (n > 0 && Waiting(arrivals, n - 1, quorum, expected) && !ReachedAt(arrivals, n - 1, quorum, expected)
          && Objection(arrivals, n - 1, expected) == Some(e))
      || (Waiting(arrivals, n, quorum, expected) && !ReachedAt(arrivals, n, quorum, expected)
          && TooFewLeft(arrivals, n, launched, quorum) && e.QuorumNotReached?)
      || (n == |arrivals| && Waiting(arrivals, n, quorum, expected) && !ReachedAt(arrivals, n, quorum, expected)
          && e == exhausted)
  }

  lemma {:induction false} CollectedBound(arrivals: seq<Arrival>, m: nat, n: nat)
    requires m <= n <= |arrivals|
    ensures |Collected(arrivals[..m])| <= |Collected(arrivals[..n])| <= |Collected(arrivals[..m])| + n - m
    decreases n
  {
    if m < n {
      CollectedBound(arrivals, m, n - 1);
      assert arrivals[..n][..n - 1] == arrivals[..n - 1];
    }
  }

  lemma RecordersOfAppend(replies: seq<RecordReply>, reply: RecordReply)
    ensures RecordersOf(replies + [reply]) == RecordersOf(replies) + {reply.recorder}
  {
    var all := replies + [reply];
    assert all[|replies|] == reply;
    assert forall k :: 0 <= k < |replies| ==> all[k] == replies[k];
  }

  lemma {:induction false} RecordersOfSize(replies: seq<RecordReply>)
    ensures |RecordersOf(replies)| <= |replies|
  {
    if replies != [] {
      var init, last := replies[..|replies| - 1], replies[|replies| - 1];
      RecordersOfSize(init);
      RecordersOfAppend(init, last);
      assert replies == init + [last];
    }
  }

  lemma ReachedIsLarge(replies: seq<RecordReply>, quorum: nat, expected: Option<Cluster>)
    requires Sound(quorum, expected) && QuorumReached(replies, quorum, expected)
    ensures |replies| >= quorum
  {
    if expected.Some? {
      QuorumSizeIsLowerBound(expected.value, RecordersOf(replies));
      RecordersOfSize(replies);
    }
  }

  /** A collector that gives up for lack of outstanding calls gives up nothing. */
  lemma GivesUpOnlyWhenHopeless(arrivals: seq<Arrival>, m: nat, n: nat, launched: nat, quorum: nat,
                                expected: Option<Cluster>)
    requires Sound(quorum, expected)
    requires m <= n <= |arrivals| <= launched && TooFewLeft(arrivals, m, launched, quorum)
    ensures !ReachedAt(arrivals, n, quorum, expected)
  {
    CollectedBound(arrivals, m, n);
    if ReachedAt(arrivals, n, quorum, expected) {
      ReachedIsLarge(Collected(arrivals[..n]), quorum, expected);
    }
  }

  /** A collector succeeds exactly when a quorum of sound replies arrives, and then with the earliest one. */
  lemma CollectsExactly(arrivals: seq<Arrival>, launched: nat, quorum: nat, expected: Option<Cluster>, exhausted: Error,
                        n: nat, r: Result<seq<RecordReply>>)
    requires Sound(quorum, expected) && Returns(arrivals, launched, quorum, expected, exhausted, n, r)
    ensures r.Ok? <==> QuorumArrives(arrivals, quorum, expected)
  {
    if QuorumArrives(arrivals, quorum, expected) && r.Err? {
      var k :| 0 <= k <= |arrivals| && Clean(arrivals, k, expected) && ReachedAt(arrivals, k, quorum, expected);
      if TooFewLeft(arrivals, n, launched, quorum) && n <= k {
        GivesUpOnlyWhenHopeless(arrivals, n, k, launched, quorum, expected);
      }
    }
  }

  // ----- What arrives, without the collector's books -----

  /** The recorders whose calls returned a reply among the first n arrivals. */
  function Repliers(arrivals: seq<Arrival>, n: nat): set<ReplicaId>
    requires n <= |arrivals|
  {
    set k | 0 <= k < n && arrivals[k].result.Ok? :: arrivals[k].from
  }

  /** No fatal error; every reply names its recorder, has the expected configuration and is its recorder's only one. */
  predicate InOrder(arrivals: seq<Arrival>, n: nat, expected: Option<Cluster>)
    requires n <= |arrivals|
  {
    && (forall k :: 0 <= k < n ==>
          match arrivals[k].result
          case Err(e) => !Fatal(e)
          case Ok(reply) => reply.recorder == arrivals[k].from && (expected.Some? ==> reply.cluster == expected.value))
    && (forall j, k :: 0 <= j < k < n && arrivals[j].result.Ok? && arrivals[k].result.Ok? ==>
                         arrivals[j].from != arrivals[k].from)
  }

  lemma RepliersNext(arrivals: seq<Arrival>, n: nat)
    requires n < |arrivals|
    ensures Repliers(arrivals, n + 1) ==
            Repliers(arrivals, n) + if arrivals[n].result.Ok? then {arrivals[n].from} else {}
  {
  }

  /** The last arrival keeps the order exactly if there is nothing to object to. */
  lemma NoObjectionExactly(arrivals: seq<Arrival>, n: nat, expected: Option<Cluster>)
    requires n < |arrivals| && InOrder(arrivals, n, expected)
    requires RecordersOf(Collected(arrivals[..n])) == Repliers(arrivals, n)
    ensures Objection(arrivals, n, expected).None? <==> InOrder(arrivals, n + 1, expected)
  {
    if arrivals[n].result.Ok? && arrivals[n].from in Repliers(arrivals, n) {
      var j :| 0 <= j < n && arrivals[j].result.Ok? && arrivals[j].from == arrivals[n].from;
    }
    forall j | 0 <= j < n && arrivals[j].result.Ok? ensures arrivals[j].from in Repliers(arrivals, n) {
    }
  }

  /** As long as the arrivals are in order, the collected replies are one for each recorder that replied. */
  lemma {:induction false} CollectedRepliers(arrivals: seq<Arrival>, n: nat, expected: Option<Cluster>)
    requires n <= |arrivals| && InOrder(arrivals, n, expected)
    ensures RecordersOf(Collected(arrivals[..n])) == Repliers(arrivals, n)
    ensures |Collected(arrivals[..n])| == |Repliers(arrivals, n)|
  {
    if n > 0 {
      CollectedRepliers(arrivals, n - 1, expected);
      CollectedNext(arrivals, n - 1);
      RepliersNext(arrivals, n - 1);
      if arrivals[n - 1].result.Ok? {
        assert arrivals[n - 1].from !in Repliers(arrivals, n - 1);
      }
    }
  }

  lemma {:induction false} CleanExactly(arrivals: seq<Arrival>, n: nat, expected: Option<Cluster>)
    requires n <= |arrivals|
    ensures Clean(arrivals, n, expected) <==> InOrder(arrivals, n, expected)
  {
    if n > 0 {
      CleanExactly(arrivals, n - 1, expected);
      if InOrder(arrivals, n - 1, expected) {
        CollectedRepliers(arrivals, n - 1, expected);
        NoObjectionExactly(arrivals, n - 1, expected);
      }
      CleanNext(arrivals, n - 1, expected);
      InOrderBefore(arrivals, n - 1, expected);
    }
  }

  lemma CleanNext(arrivals: seq<Arrival>, n: nat, expected: Option<Cluster>)
    requires n < |arrivals|
    ensures Clean(arrivals, n + 1, expected) <==> Clean(arrivals, n, expected) && Objection(arrivals, n, expected).None?
  {
  }

  lemma InOrderBefore(arrivals: seq<Arrival>, n: nat, expected: Option<Cluster>)
    requires n < |arrivals|
    ensures InOrder(arrivals, n + 1, expected) ==> InOrder(arrivals, n, expected)
  {
  }

  /** Enough recorders: a quorum of the configuration, or the configured number. */
  predicate Enough(voters: set<ReplicaId>, quorum: nat, expected: Option<Cluster>)
    requires Sound(quorum, expected)
  {
    match expected
    case None => |voters| >= quorum
    case Some(c) => HasQuorum(c, voters)
  }

  predicate EnoughReply(arrivals: seq<Arrival>, n: nat, quorum: nat, expected: Option<Cluster>)
    requires n <= |arrivals| && Sound(quorum, expected)
  {
    InOrder(arrivals, n, expected) && Enough(Repliers(arrivals, n), quorum, expected)
  }

  /** A collector succeeds exactly when, before anything is out of order, enough different recorders have replied. */
  lemma SucceedsExactly(arrivals: seq<Arrival>, launched: nat, quorum: nat, expected: Option<Cluster>, exhausted: Error,
                        n: nat, r: Result<seq<RecordReply>>)
    requires Sound(quorum, expected) && Returns(arrivals, launched, quorum, expected, exhausted, n, r)
    ensures r.Ok? <==> exists k :: 0 <= k <= |arrivals| && EnoughReply(arrivals, k, quorum, expected)
  {
    CollectsExactly(arrivals, launched, quorum, expected, exhausted, n, r);
    forall k | 0 <= k <= |arrivals|
      ensures Clean(arrivals, k, expected) && ReachedAt(arrivals, k, quorum, expected)
              <==> EnoughReply(arrivals, k, quorum, expected)
    {
      CleanExactly(arrivals, k, expected);
      if InOrder(arrivals, k, expected) {
        CollectedRepliers(arrivals, k, expected);
      }
    }
  }

  /** Any two collectors that see the same arrivals accept the same replies. */
  lemma CollectorsAgree(arrivals: seq<Arrival>, launched: nat, launched': nat, quorum: nat, expected: Option<Cluster>,
                        exhausted: Error, exhausted': Error, n: nat, n': nat,
                        r: Result<seq<RecordReply>>, r': Result<seq<RecordReply>>)
    requires Sound(quorum, expected)
    requires Returns(arrivals, launched, quorum, expected, exhausted, n, r)
    requires Returns(arrivals, launched', quorum, expected, exhausted', n', r')
    ensures r.Ok? <==> r'.Ok?
    ensures r.Ok? ==> r == r'
  {
    CollectsExactly(arrivals, launched, quorum, expected, exhausted, n, r);
    CollectsExactly(arrivals, launched', quorum, expected, exhausted', n', r');
    if r.Ok? {
      assert n <= n' <= n;
    }
  }

  // ----- What an accepted quorum is -----

  lemma {:induction false} CleanRepliesDiffer(arrivals: seq<Arrival>, n: nat, expected: Option<Cluster>)
    requires n <= |arrivals| && Clean(arrivals, n, expected)
    ensures var replies := Collected(arrivals[..n]);
            forall j, k :: 0 <= j < k < |replies| ==> replies[j].recorder != replies[k].recorder
    ensures forall k :: 0 <= k < |Collected(arrivals[..n])| && expected.Some? ==>
                          Collected(arrivals[..n])[k].cluster == expected.value
  {
    if n > 0 {
      CleanRepliesDiffer(arrivals, n - 1, expected);
      CollectedNext(arrivals, n - 1);
      var init := Collected(arrivals[..n - 1]);
      assert Objection(arrivals, n - 1, expected).None?;
      assert forall j :: 0 <= j < |init| ==> init[j].recorder in RecordersOf(init);
    }
  }

  // ----- The threaded collector -----

  lemma CollectedNext(arrivals: seq<Arrival>, i: nat)
    requires i < |arrivals|
    ensures arrivals[i].result.Err? ==> Collected(arrivals[..i + 1]) == Collected(arrivals[..i])
    ensures arrivals[i].result.Ok? ==>
              && Collected(arrivals[..i + 1]) == Collected(arrivals[..i]) + [arrivals[i].result.value]
              && RecordersOf(Collected(arrivals[..i + 1])) ==
                 RecordersOf(Collected(arrivals[..i])) + {arrivals[i].result.value.recorder}
  {
    assert arrivals[..i + 1][..i] == arrivals[..i];
    if arrivals[i].result.Ok? {
      RecordersOfAppend(Collected(arrivals[..i]), arrivals[i].result.value);
    }
  }

  /** `timedOut` says whether the deadline passes after the last arrival. */
  method CollectQuorum(arrivals: seq<Arrival>, launched: nat, timedOut: bool, quorum: nat, expected: Option<Cluster>)
    returns (r: Result<seq<RecordReply>>, ghost stop: nat)
    requires Sound(quorum, expected)
    requires |arrivals| <= launched && (!timedOut ==> |arrivals| == launched)
    ensures r.Ok? <==> QuorumArrives(arrivals, quorum, expected)
    ensures var exhausted := if timedOut then QuorumNotReached(quorum, |Collected(arrivals)|) else TransportError;
            Returns(arrivals, launched, quorum, expected, exhausted, stop, r)
  {
    ghost var exhausted := if timedOut then QuorumNotReached(quorum, |Collected(arrivals)|) else TransportError;
    var replies: seq<RecordReply> := [];
    assert arrivals[..0] == [];
    if launched < quorum {
      GivesUpOnlyWhenHopeless(arrivals, 0, 0, launched, quorum, expected);
      r, stop := Err(QuorumNotReached(quorum, launched)), 0;
      CollectsExactly(arrivals, launched, quorum, expected, exhausted, stop, r);
      return;
    }
    var seen: set<ReplicaId> := {};
    var pending, i := launched, 0;
    while !QuorumReached(replies, quorum, expected)
      invariant 0 <= i <= |arrivals| && pending == launched - i
      invariant replies == Collected(arrivals[..i]) && seen == RecordersOf(replies)
      invariant Waiting(arrivals, i, quorum, expected)
      decreases |arrivals| - i
    {
      if i == |arrivals| {
        assert arrivals[..i] == arrivals;
        r, stop := Err(if timedOut then QuorumNotReached(quorum, |replies|) else TransportError), i;
        CollectsExactly(arrivals, launched, quorum, expected, exhausted, stop, r);
        return;
      }
      var arrival := arrivals[i];
      CollectedNext(arrivals, i);
      assert ReachedAt(arrivals, i, quorum, expected) == QuorumReached(replies, quorum, expected);
      pending := pending - 1;
      i := i + 1;
      match arrival.result {
        case Ok(reply) =>
          var objection :=
            if reply.recorder != arrival.from then Some(InvalidRecorderReply(arrival.from, reply.recorder))
            else if expected.Some? && reply.cluster != expected.value then Some(ConfigurationMismatch)
            else if reply.recorder in seen then Some(DuplicateRecorderReply(reply.recorder))
            else None;
          if objection.Some? {
            r, stop := Err(objection.value), i;
            CollectsExactly(arrivals, launched, quorum, expected, exhausted, stop, r);
            return;
          }
          seen := seen + {reply.recorder};
          replies := replies + [reply];
        case Err(e) =>
          if Fatal(e) || |replies| + pending < quorum {
            r, stop := Err(if Fatal(e) then e else QuorumNotReached(quorum, |replies|)), i;
            CollectsExactly(arrivals, launched, quorum, expected, exhausted, stop, r);
            return;
          }
      }
    }
    r, stop := Ok(replies), i;
    CollectsExactly(arrivals, launched, quorum, expected, exhausted, stop, r);
  }

  // ----- The asynchronous collector -----

  lemma NothingIsNoQuorum(c: Cluster)
    requires WellFormed(c)
    ensures !HasQuorum(c, RecordersOf([]))
  {
    if HasQuorum(c, RecordersOf([])) {
      QuorumSizeIsLowerBound(c, RecordersOf([]));
    }
  }

  method CollectQuorumAsync(arrivals: seq<Arrival>, quorum: nat, cluster: Cluster)
    returns (r: Result<seq<RecordReply>>, ghost stop: nat)
    requires Sound(quorum, Some(cluster))
    ensures r.Ok? <==> QuorumArrives(arrivals, quorum, Some(cluster))
    ensures var exhausted := QuorumNotReached(quorum, |Collected(arrivals)|);
            Returns(arrivals, |arrivals|, quorum, Some(cluster), exhausted, stop, r)
  {
    var expected := Some(cluster);
    ghost var exhausted := QuorumNotReached(quorum, |Collected(arrivals)|);
    var replies: seq<RecordReply> := [];
    assert arrivals[..0] == [];
    NothingIsNoQuorum(cluster);
    var seen: set<ReplicaId> := {};
    var i := 0;
    while i < |arrivals|
      invariant 0 <= i <= |arrivals|
      invariant replies == Collected(arrivals[..i]) && seen == RecordersOf(replies)
      invariant Waiting(arrivals, i, quorum, expected) && !ReachedAt(arrivals, i, quorum, expected)
    {
      var arrival := arrivals[i];
      CollectedNext(arrivals, i);
      i := i + 1;
      match arrival.result {
        case Ok(reply) =>
          var objection :=
            if reply.recorder != arrival.from then Some(InvalidRecorderReply(arrival.from, reply.recorder))
            else if reply.cluster != cluster then Some(ConfigurationMismatch)
            else if reply.recorder in seen then Some(DuplicateRecorderReply(reply.recorder))
            else None;
          if objection.Some? {
            r, stop := Err(objection.value), i;
            CollectsExactly(arrivals, |arrivals|, quorum, expected, exhausted, stop, r);
            return;
          }
          seen := seen + {reply.recorder};
          replies := replies + [reply];
          if HasQuorum(cluster, RecordersOf(replies)) {
            r, stop := Ok(replies), i;
            CollectsExactly(arrivals, |arrivals|, quorum, expected, exhausted, stop, r);
            return;
          }
        case Err(e) =>
          if Fatal(e) {
            r, stop := Err(e), i;
            CollectsExactly(arrivals, |arrivals|, quorum, expected, exhausted, stop, r);
            return;
          }
      }
      if |replies| + |arrivals| - i < quorum {
        r, stop := Err(QuorumNotReached(quorum, |replies|)), i;
        CollectsExactly(arrivals, |arrivals|, quorum, expected, exhausted, stop, r);
        return;
      }
    }
    assert arrivals[..i] == arrivals;
    r, stop := Err(QuorumNotReached(quorum, |replies|)), i;
    CollectsExactly(arrivals, |arrivals|, quorum, expected, exhausted, stop, r);
  }
}
