/**
 Versioned membership: stable and joint epochs, their quorum tests, the two legal
 transitions, and why quorums of neighbouring epochs always meet.
 */
module Membership {
  import opened Types

  datatype Joint = Joint(oldMembers: seq<ReplicaId>, oldMaxFaults: nat, newMembers: seq<ReplicaId>)

  /** `members` is the union of the active voters; `joint` is set in a joint epoch. */
  datatype Cluster = Cluster(members: seq<ReplicaId>, maxFaults: nat, epoch: nat, joint: Option<Joint>)

  function Elements(s: seq<ReplicaId>): set<ReplicaId> {
    set x | x in s
  }

  predicate Increasing(s: seq<ReplicaId>) {
    forall i, j :: 0 <= i < j < |s| ==> s[i] < s[j]
  }

  predicate Normalized(members: seq<ReplicaId>) {
    members != [] && Increasing(members)
  }

  /** n replicas tolerate f crash faults. An overflow of 2f + 1 implies n < 2f + 1. */
  predicate Tolerates(n: nat, f: nat) {
    n >= 2 * f + 1
  }

  function Greatest(s: set<ReplicaId>): (m: ReplicaId)
    requires s != {}
    ensures m in s && forall x :: x in s ==> x <= m
  {
    GreatestExists(s);
    var m :| m in s && forall x :: x in s ==> x <= m;
    m
  }

  lemma GreatestExists(s: set<ReplicaId>)
    requires s != {}
    ensures exists m :: m in s && forall x :: x in s ==> x <= m
  {
    var m := FindGreatest(s);
  }

  lemma {:induction false} FindGreatest(s: set<ReplicaId>) returns (m: ReplicaId)
    requires s != {}
    ensures m in s && forall x :: x in s ==> x <= m
  {
    m :| m in s;
    var rest := s - {m};
    if rest != {} {
      var top := FindGreatest(rest);
      assert s == rest + {m};
      m := if m <= top then top else m;
    }
  }

  /** The elements of a set in increasing order: what sorting and deduplicating yields. */
  function Ascending(s: set<ReplicaId>): (r: seq<ReplicaId>)
    ensures forall x :: x in r <==> x in s
    ensures |r| == |s|
    ensures Increasing(r)
  {
    if s == {} then []
    else
      var m := Greatest(s);
      Ascending(s - {m}) + [m]
  }

  /** Sorts a member list; an empty list and a repeated member are errors. */
  function NormalizeMembers(members: seq<ReplicaId>): (r: Result<seq<ReplicaId>>)
    ensures r.Ok? <==> members != [] && |Elements(members)| == |members|
    ensures r.Ok? ==> Normalized(r.value) && Elements(r.value) == Elements(members)
  {
    if members == [] then Err(EmptyCluster)
    else if |Elements(members)| < |members| then Err(DuplicateReplica)
    else
      ElementsSize(members);
      assert members[0] in Elements(members);
      Ok(Ascending(Elements(members)))
  }

  function NewStable(epoch: nat, members: seq<ReplicaId>, maxFaults: nat): Result<Cluster> {
    var normalized := NormalizeMembers(members);
    if normalized.Err? then Err(normalized.error)
    else if !Tolerates(|normalized.value|, maxFaults) then Err(InvalidProposal)
    else Ok(Cluster(normalized.value, maxFaults, epoch, None))
  }

  function BeginJoint(c: Cluster, newMembers: seq<ReplicaId>, newMaxFaults: nat): Result<Cluster> {
    if c.joint.Some? then Err(InvalidReconfiguration)
    else
      var normalized := NormalizeMembers(newMembers);
      if normalized.Err? then Err(normalized.error)
      else if !Tolerates(|normalized.value|, newMaxFaults) then Err(InvalidProposal)
      else if c.epoch + 1 > U64_MAX then Err(ConfigurationEpochOverflow)
      else
        Ok(Cluster(Ascending(Elements(c.members) + Elements(normalized.value)), newMaxFaults, c.epoch + 1,
                   Some(Joint(c.members, c.maxFaults, normalized.value))))
  }

  function FinalizeJoint(c: Cluster): Result<Cluster> {
    if c.joint.None? then Err(InvalidReconfiguration)
    else if c.epoch + 1 > U64_MAX then Err(ConfigurationEpochOverflow)
    else NewStable(c.epoch + 1, c.joint.value.newMembers, c.maxFaults)
  }

  predicate Contains(c: Cluster, r: ReplicaId) {
    r in c.members
  }

  /** For an increasing list, the same as being the sorted, deduplicated concatenation. */
  predicate IsUnion(members: seq<ReplicaId>, a: seq<ReplicaId>, b: seq<ReplicaId>) {
    && (forall x :: x in members ==> x in a || x in b)
    && (forall x :: x in a ==> x in members)
    && (forall x :: x in b ==> x in members)
  }

  predicate WellFormed(c: Cluster) {
    && Normalized(c.members)
    && match c.joint
       case None => Tolerates(|c.members|, c.maxFaults)
       case Some(j) =>
         && Normalized(j.oldMembers)
         && Normalized(j.newMembers)
         && Tolerates(|j.oldMembers|, j.oldMaxFaults)
         && Tolerates(|j.newMembers|, c.maxFaults)
         && IsUnion(c.members, j.oldMembers, j.newMembers)
  }

  /** How many of the listed members are among the voters. */
  function CountIn(members: seq<ReplicaId>, voters: set<ReplicaId>): nat {
    if members == [] then 0
    else CountIn(members[..|members| - 1], voters) + if members[|members| - 1] in voters then 1 else 0
  }

  function Min(a: nat, b: nat): nat {
    if a <= b then a else b
  }

  function QuorumSize(c: Cluster): nat
    requires WellFormed(c)
  {
    match c.joint
    case None => |c.members| - c.maxFaults
    case Some(j) =>
      var oldQuorum := |j.oldMembers| - j.oldMaxFaults;
      var newQuorum := |j.newMembers| - c.maxFaults;
      var shared := Min(Min(CountIn(j.oldMembers, Elements(j.newMembers)), oldQuorum), newQuorum);
      oldQuorum + newQuorum - shared
  }

  predicate HasQuorum(c: Cluster, voters: set<ReplicaId>)
    requires WellFormed(c)
  {
    match c.joint
    case None => |voters| >= QuorumSize(c) && forall v :: v in voters ==> Contains(c, v)
    case Some(j) =>
      && CountIn(j.oldMembers, voters) >= |j.oldMembers| - j.oldMaxFaults
      && CountIn(j.newMembers, voters) >= |j.newMembers| - c.maxFaults
  }

  predicate IsSuccessorOf(next: Cluster, previous: Cluster) {
    && WellFormed(next)
    && WellFormed(previous)
    && previous.epoch + 1 <= U64_MAX
    && next.epoch == previous.epoch + 1
    && match next.joint
       case Some(j) =>
         && previous.joint.None?
         && j.oldMembers == previous.members
         && j.oldMaxFaults == previous.maxFaults
       case None =>
         && previous.joint.Some?
         && next.members == previous.joint.value.newMembers
         && next.maxFaults == previous.maxFaults
  }

  // ----- Counting -----

  lemma {:induction false} ElementsSize(s: seq<ReplicaId>)
    ensures |Elements(s)| <= |s|
    ensures Distinct(s) ==> |Elements(s)| == |s|
  {
    if s != [] {
      var init, last := s[..|s| - 1], s[|s| - 1];
      ElementsSize(init);
      assert s == init + [last];
      assert Elements(s) == Elements(init) + {last};
    }
  }

  lemma ElementsSplit(s: seq<ReplicaId>)
    requires s != [] && Distinct(s)
    ensures Elements(s) == Elements(s[..|s| - 1]) + {s[|s| - 1]}
    ensures s[|s| - 1] !in Elements(s[..|s| - 1])
  {
    assert s == s[..|s| - 1] + [s[|s| - 1]];
  }

  lemma {:induction false} CountInIsIntersection(members: seq<ReplicaId>, voters: set<ReplicaId>)
    requires Distinct(members)
    ensures CountIn(members, voters) == |Elements(members) * voters|
  {
    if members == [] {
      assert Elements(members) * voters == {};
    } else {
      var init, last := members[..|members| - 1], members[|members| - 1];
      CountInIsIntersection(init, voters);
      ElementsSplit(members);
      IntersectionGrows(Elements(init), last, voters);
    }
  }

  lemma IntersectionGrows(a: set<ReplicaId>, x: ReplicaId, voters: set<ReplicaId>)
    requires x !in a
    ensures |(a + {x}) * voters| == |a * voters| + if x in voters then 1 else 0
  {
    if x in voters {
      assert (a + {x}) * voters == (a * voters) + {x};
    } else {
      assert (a + {x}) * voters == a * voters;
    }
  }

  lemma {:induction false} SubsetSize(a: set<ReplicaId>, b: set<ReplicaId>)
    requires a <= b
    ensures |a| <= |b|
  {
    assert a * b == a;
    assert |b - a| == |b| - |a|;
  }

  /** The membership test compares with the sorted union; the predicate `IsUnion` says the same. */
  lemma UnionIsSorted(members: seq<ReplicaId>, a: seq<ReplicaId>, b: seq<ReplicaId>)
    requires Increasing(members)
    ensures IsUnion(members, a, b) <==> members == Ascending(Elements(a) + Elements(b))
  {
    if IsUnion(members, a, b) {
      AscendingUnique(members, Ascending(Elements(a) + Elements(b)));
    }
  }

  /** Two large enough parts of one set share an element. */
  lemma LargePartsMeet(whole: set<ReplicaId>, a: set<ReplicaId>, b: set<ReplicaId>)
    requires |whole * a| + |whole * b| > |whole|
    ensures exists r :: r in whole && r in a && r in b
  {
    var x, y := whole * a, whole * b;
    SubsetSize(x + y, whole);
    assert |x + y| + |x * y| == |x| + |y|;
    var r :| r in x * y;
    assert r in whole && r in a && r in b;
  }

  /** Two strictly increasing lists with the same elements are the same list. */
  lemma {:induction false} AscendingUnique(a: seq<ReplicaId>, b: seq<ReplicaId>)
    requires forall x :: x in a <==> x in b
    requires Increasing(a) && Increasing(b)
    ensures a == b
  {
    assert b != [] ==> b[0] in b;
    if a == [] {
    } else {
      assert a[0] in a;
      assert b != [];
      var x, y := a[|a| - 1], b[|b| - 1];
      var a', b' := a[..|a| - 1], b[..|b| - 1];
      assert x in a && y in b;
      assert x == y;
      WithoutLast(a);
      WithoutLast(b);
      assert forall z :: z in a' <==> z in a && z != x;
      assert forall z :: z in b' <==> z in b && z != x;
      AscendingUnique(a', b');
    }
  }

  lemma WithoutLast(s: seq<ReplicaId>)
    requires Normalized(s)
    ensures forall z :: z in s[..|s| - 1] <==> z in s && z != s[|s| - 1]
  {
    assert s == s[..|s| - 1] + [s[|s| - 1]];
  }

  // ----- Quorums meet -----

  /** Equal configurations, or one directly following the other. */
  predicate Adjacent(a: Cluster, b: Cluster) {
    a == b || IsSuccessorOf(a, b) || IsSuccessorOf(b, a)
  }

  /** A quorum holds n - f voters of the current voter set, and of the old one in a joint epoch. */
  lemma QuorumParts(c: Cluster, voters: set<ReplicaId>)
    requires WellFormed(c) && HasQuorum(c, voters)
    ensures c.joint.None? ==>
              2 * |Elements(c.members) * voters| > |Elements(c.members)|
    ensures c.joint.Some? ==>
              && 2 * |Elements(c.joint.value.oldMembers) * voters| > |Elements(c.joint.value.oldMembers)|
              && 2 * |Elements(c.joint.value.newMembers) * voters| > |Elements(c.joint.value.newMembers)|
  {
    if c.joint.None? {
      ElementsSize(c.members);
      assert Elements(c.members) * voters == voters;
    } else {
      var j := c.joint.value;
      ElementsSize(j.oldMembers);
      ElementsSize(j.newMembers);
      CountInIsIntersection(j.oldMembers, voters);
      CountInIsIntersection(j.newMembers, voters);
    }
  }

  /** Any two quorums of the same or of neighbouring configurations share a member of both. */
  lemma QuorumsMeet(a: Cluster, b: Cluster, x: set<ReplicaId>, y: set<ReplicaId>)
    requires WellFormed(a) && WellFormed(b) && Adjacent(a, b)
    requires HasQuorum(a, x) && HasQuorum(b, y)
    ensures exists r :: r in x && r in y && Contains(a, r) && Contains(b, r)
  {
    QuorumParts(a, x);
    QuorumParts(b, y);
    var voters :=
      if a.joint.Some? && b.joint.None? && IsSuccessorOf(b, a) then a.joint.value.newMembers
      else if a.joint.Some? then a.joint.value.oldMembers
      else if b.joint.Some? && IsSuccessorOf(a, b) then b.joint.value.newMembers
      else if b.joint.Some? then b.joint.value.oldMembers
      else a.members;
    LargePartsMeet(Elements(voters), x, y);
    var r :| r in Elements(voters) && r in x && r in y;
    assert Contains(a, r) && Contains(b, r);
  }

  ghost predicate IsChain(chain: seq<Cluster>) {
    && chain != []
    && WellFormed(chain[0])
    && forall i, k :: 0 <= i && k == i + 1 && k < |chain| ==> IsSuccessorOf(chain[k], chain[i])
  }

  /** Along every chain epochs count up by one and stable and joint epochs alternate. */
  lemma {:induction false} ChainAlternates(chain: seq<Cluster>, i: nat, k: nat)
    requires IsChain(chain)
    requires i <= k < |chain|
    ensures chain[k].epoch == chain[i].epoch + (k - i)
    ensures chain[k].joint.Some? <==> (if (k - i) % 2 == 0 then chain[i].joint.Some? else chain[i].joint.None?)
  {
    if k > i {
      assert IsSuccessorOf(chain[k], chain[k - 1]);
      ChainAlternates(chain, i, k - 1);
    }
  }

  /** Along every chain two quorums of the same or of neighbouring epochs share a common member. */
  lemma ChainQuorumsMeet(chain: seq<Cluster>, i: nat, k: nat, x: set<ReplicaId>, y: set<ReplicaId>)
    requires IsChain(chain)
    requires i <= k <= i + 1 && k < |chain|
    requires WellFormed(chain[i]) && WellFormed(chain[k])
    requires HasQuorum(chain[i], x) && HasQuorum(chain[k], y)
    ensures exists r :: r in x && r in y && Contains(chain[i], r) && Contains(chain[k], r)
  {
    assert k == i || IsSuccessorOf(chain[k], chain[k - 1]);
    QuorumsMeet(chain[i], chain[k], x, y);
  }

  /** Two transitions apart nothing is promised: the two voter sets may be disjoint. */
  lemma DistantQuorumsMayMiss() returns (a: Cluster, b: Cluster, c: Cluster, x: set<ReplicaId>, y: set<ReplicaId>)
    ensures IsSuccessorOf(b, a) && IsSuccessorOf(c, b)
    ensures HasQuorum(a, x) && HasQuorum(c, y) && x * y == {}
  {
    a, c := Cluster([1], 0, 0, None), Cluster([2], 0, 2, None);
    b := Cluster([1, 2], 0, 1, Some(Joint([1], 0, [2])));
    x, y := {1}, {2};
  }

  // ----- The successor test accepts exactly the two constructions -----

  lemma BeginJointIsSuccessor(previous: Cluster, newMembers: seq<ReplicaId>, newMaxFaults: nat)
    requires WellFormed(previous)
    ensures var r := BeginJoint(previous, newMembers, newMaxFaults); r.Ok? ==> IsSuccessorOf(r.value, previous)
  {
    var r := BeginJoint(previous, newMembers, newMaxFaults);
    if r.Ok? {
      assert previous.members[0] in Elements(previous.members) + Elements(r.value.joint.value.newMembers);
    }
  }

  /** A stable epoch exists exactly for distinct members, at least one, that tolerate the faults, and it has them. */
  lemma NewStableExactly(epoch: nat, members: seq<ReplicaId>, maxFaults: nat)
    ensures var r := NewStable(epoch, members, maxFaults);
            && (r.Ok? <==> members != [] && Distinct(members) && Tolerates(|members|, maxFaults))
            && (r.Ok? ==>
                  && WellFormed(r.value) && r.value.joint.None? && r.value.epoch == epoch
                  && Elements(r.value.members) == Elements(members) && r.value.maxFaults == maxFaults)
  {
    DistinctExactly(members);
    var normalized := NormalizeMembers(members);
    if normalized.Ok? {
      ElementsSize(normalized.value);
    }
  }

  /**
   For every list of members, sorted or not, a joint epoch begins exactly from a stable
   epoch that has a next one, if the list names at least one replica, none twice, and
   tolerates the faults; its new voters are the requested ones and its old voters stay.
   */
  lemma BeginJointExactly(previous: Cluster, newMembers: seq<ReplicaId>, newMaxFaults: nat)
    requires WellFormed(previous)
    ensures var r := BeginJoint(previous, newMembers, newMaxFaults);
            && (r.Ok? <==>
                  && previous.joint.None? && previous.epoch < U64_MAX
                  && newMembers != [] && Distinct(newMembers) && Tolerates(|newMembers|, newMaxFaults))
            && (r.Ok? ==>
                  && r.value.joint.Some? && r.value.epoch == previous.epoch + 1
                  && Elements(r.value.members) == Elements(previous.members) + Elements(newMembers)
                  && Elements(r.value.joint.value.newMembers) == Elements(newMembers)
                  && r.value.maxFaults == newMaxFaults
                  && r.value.joint.value.oldMembers == previous.members
                  && r.value.joint.value.oldMaxFaults == previous.maxFaults)
  {
    DistinctExactly(newMembers);
    var normalized := NormalizeMembers(newMembers);
    if normalized.Ok? {
      ElementsSize(normalized.value);
    }
  }

  /** A list names nobody twice exactly if it has as many elements as places. */
  lemma {:induction false} DistinctExactly(s: seq<ReplicaId>)
    ensures Distinct(s) <==> |Elements(s)| == |s|
  {
    if s != [] {
      var init, last := s[..|s| - 1], s[|s| - 1];
      DistinctExactly(init);
      ElementsSize(init);
      assert s == init + [last] && Elements(s) == Elements(init) + {last};
    }
  }

  lemma FinalizeJointIsSuccessor(previous: Cluster)
    requires WellFormed(previous)
    ensures var r := FinalizeJoint(previous); r.Ok? ==> IsSuccessorOf(r.value, previous)
    ensures FinalizeJoint(previous).Ok? <==> previous.joint.Some? && previous.epoch < U64_MAX
  {
    if previous.joint.Some? {
      NormalizedStays(previous.joint.value.newMembers);
    }
  }

  lemma SuccessorIsConstructed(next: Cluster, previous: Cluster)
    requires IsSuccessorOf(next, previous)
    ensures next.joint.None? ==> FinalizeJoint(previous) == Ok(next)
    ensures next.joint.Some? ==> BeginJoint(previous, next.joint.value.newMembers, next.maxFaults) == Ok(next)
  {
    if next.joint.Some? {
      var j := next.joint.value;
      NormalizedStays(j.newMembers);
      UnionIsSorted(next.members, j.oldMembers, j.newMembers);
    } else {
      NormalizedStays(next.members);
    }
  }

  lemma NormalizedStays(members: seq<ReplicaId>)
    requires Normalized(members)
    ensures NormalizeMembers(members) == Ok(members)
  {
    ElementsSize(members);
    AscendingUnique(NormalizeMembers(members).value, members);
  }

  /** `is_successor_of` is the graph of `begin_joint` and `finalize_joint` together. */
  lemma SuccessorsAreConstructed(next: Cluster, previous: Cluster)
    requires WellFormed(previous)
    ensures IsSuccessorOf(next, previous) <==>
              || FinalizeJoint(previous) == Ok(next)
              || exists members, faults :: BeginJoint(previous, members, faults) == Ok(next)
  {
    if IsSuccessorOf(next, previous) {
      SuccessorIsConstructed(next, previous);
    } else if FinalizeJoint(previous) == Ok(next) {
      FinalizeJointIsSuccessor(previous);
    } else if exists members, faults :: BeginJoint(previous, members, faults) == Ok(next) {
      var members, faults :| BeginJoint(previous, members, faults) == Ok(next);
      BeginJointIsSuccessor(previous, members, faults);
    }
  }

  // ----- What a quorum is for -----

  lemma MissingCount(part: seq<ReplicaId>, voters: set<ReplicaId>)
    requires Distinct(part)
    ensures CountIn(part, voters) == |part| - |Elements(part) - voters|
  {
    CountInIsIntersection(part, voters);
    ElementsSize(part);
    assert Elements(part) == (Elements(part) * voters) + (Elements(part) - voters);
  }

  /**
   Members form a quorum exactly if no more of them are missing than may fail, in a joint
   epoch of the old voters and of the new voters alike.
   */
  lemma QuorumExactly(c: Cluster, voters: set<ReplicaId>)
    requires WellFormed(c) && voters <= Elements(c.members)
    ensures HasQuorum(c, voters) <==>
              match c.joint
              case None => |Elements(c.members) - voters| <= c.maxFaults
              case Some(j) =>
                && |Elements(j.oldMembers) - voters| <= j.oldMaxFaults
                && |Elements(j.newMembers) - voters| <= c.maxFaults
  {
    match c.joint
    case None =>
      ElementsSize(c.members);
      assert Elements(c.members) == voters + (Elements(c.members) - voters);
    case Some(j) =>
      MissingCount(j.oldMembers, voters);
      MissingCount(j.newMembers, voters);
  }

  // ----- quorum_size is the least size of a quorum -----

  lemma {:induction false} TakeSubset(s: set<ReplicaId>, n: nat) returns (t: set<ReplicaId>)
    requires n <= |s|
    ensures t <= s && |t| == n
  {
    if n == 0 {
      t := {};
    } else {
      var x :| x in s;
      t := TakeSubset(s - {x}, n - 1);
      t := t + {x};
    }
  }

  lemma QuorumSizeIsLowerBound(c: Cluster, voters: set<ReplicaId>)
    requires WellFormed(c) && HasQuorum(c, voters)
    ensures |voters| >= QuorumSize(c)
  {
    if c.joint.Some? {
      var j := c.joint.value;
      var before, after := Elements(j.oldMembers), Elements(j.newMembers);
      CountInIsIntersection(j.oldMembers, voters);
      CountInIsIntersection(j.newMembers, voters);
      CountInIsIntersection(j.oldMembers, after);
      var x, y := before * voters, after * voters;
      SubsetSize(x + y, voters);
      SubsetSize(x * y, before * after);
      SubsetSize(x * y, x);
      SubsetSize(x * y, y);
      assert |x + y| + |x * y| == |x| + |y|;
    }
  }

  lemma QuorumSizeIsReached(c: Cluster) returns (voters: set<ReplicaId>)
    requires WellFormed(c)
    ensures HasQuorum(c, voters) && |voters| == QuorumSize(c)
  {
    if c.joint.None? {
      ElementsSize(c.members);
      voters := TakeSubset(Elements(c.members), QuorumSize(c));
    } else {
      voters := JointQuorumSizeIsReached(c);
    }
  }

  lemma JointQuorumSizeIsReached(c: Cluster) returns (voters: set<ReplicaId>)
    requires WellFormed(c) && c.joint.Some?
    ensures HasQuorum(c, voters) && |voters| == QuorumSize(c)
  {
    var j := c.joint.value;
    ElementsSize(j.oldMembers);
    ElementsSize(j.newMembers);
    CountInIsIntersection(j.oldMembers, Elements(j.newMembers));
    voters := JointWitness(j, |j.oldMembers| - j.oldMaxFaults, |j.newMembers| - c.maxFaults);
  }

  lemma JointWitness(j: Joint, oldQuorum: nat, newQuorum: nat) returns (voters: set<ReplicaId>)
    requires Distinct(j.oldMembers) && Distinct(j.newMembers)
    requires oldQuorum <= |Elements(j.oldMembers)| && newQuorum <= |Elements(j.newMembers)|
    ensures CountIn(j.oldMembers, voters) >= oldQuorum
    ensures CountIn(j.newMembers, voters) >= newQuorum
    ensures |voters| ==
              oldQuorum + newQuorum - Min(Min(|Elements(j.oldMembers) * Elements(j.newMembers)|, oldQuorum), newQuorum)
  {
    var before, after := Elements(j.oldMembers), Elements(j.newMembers);
    var k := Min(Min(|before * after|, oldQuorum), newQuorum);
    var shared := TakeSubset(before * after, k);
    var a := TakeOutside(before, shared, oldQuorum - k);
    var b := TakeOutside(after, shared, newQuorum - k);
    voters := shared + a + b;
    WitnessCounts(j, voters, shared, a, b, k);
    WitnessSize(before, after, shared, a, b);
  }

  lemma TakeOutside(s: set<ReplicaId>, out: set<ReplicaId>, n: nat) returns (t: set<ReplicaId>)
    requires out <= s && n + |out| <= |s|
    ensures t <= s - out && |t| == n
  {
    assert s * out == out;
    t := TakeSubset(s - out, n);
  }

  lemma WitnessSize(before: set<ReplicaId>, after: set<ReplicaId>,
                    shared: set<ReplicaId>, a: set<ReplicaId>, b: set<ReplicaId>)
    requires shared <= before * after && a <= before - shared && b <= after - shared
    requires |shared| == |before * after| || |a| == 0 || |b| == 0
    ensures |shared + a + b| == |shared| + |a| + |b|
  {
    if |shared| == |before * after| {
      SameSizeSubset(shared, before * after);
    }
    assert a * b == {};
    assert shared * a == {};
    assert (shared + a) * b == {};
  }

  lemma SameSizeSubset(a: set<ReplicaId>, b: set<ReplicaId>)
    requires a <= b && |a| == |b|
    ensures a == b
  {
    assert a * b == a;
    assert |b - a| == 0;
  }

  lemma WitnessCounts(j: Joint, voters: set<ReplicaId>, shared: set<ReplicaId>, a: set<ReplicaId>, b: set<ReplicaId>,
                      k: nat)
    requires Distinct(j.oldMembers) && Distinct(j.newMembers)
    requires voters == shared + a + b && |shared| == k
    requires shared <= Elements(j.oldMembers) * Elements(j.newMembers)
    requires a <= Elements(j.oldMembers) - shared && b <= Elements(j.newMembers) - shared
    ensures CountIn(j.oldMembers, voters) >= k + |a|
    ensures CountIn(j.newMembers, voters) >= k + |b|
  {
    CountInIsIntersection(j.oldMembers, voters);
    CountInIsIntersection(j.newMembers, voters);
    SubsetSize(shared + a, Elements(j.oldMembers) * voters);
    SubsetSize(shared + b, Elements(j.newMembers) * voters);
    assert |shared + a| == |shared| + |a| by { assert shared * a == {}; }
    assert |shared + b| == |shared| + |b| by { assert shared * b == {}; }
  }

  /** `quorum_size` is exactly the least size of a voter set that passes `has_quorum`. */
  lemma QuorumSizeIsLeast(c: Cluster)
    requires WellFormed(c)
    ensures forall voters :: HasQuorum(c, voters) ==> |voters| >= QuorumSize(c)
    ensures exists voters :: HasQuorum(c, voters) && |voters| == QuorumSize(c)
  {
    forall voters | HasQuorum(c, voters) ensures |voters| >= QuorumSize(c) {
      QuorumSizeIsLowerBound(c, voters);
    }
    var voters := QuorumSizeIsReached(c);
  }
}
