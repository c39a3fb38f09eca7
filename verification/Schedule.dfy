/**
 Deterministic epoch schedules: the tuner that derives the proposer order of an epoch
 from the committed log and caches it, the ranking behind it, and the reference
 derivation that does not depend on when the tuner is asked.
 */
module Schedule {
  import opened Types

  const RETAINED_STAT_EPOCHS: nat := 64
  const AUTO_REEXPLORE_EPOCHS: nat := 32

  datatype EpochStat = EpochStat(leader: ReplicaId, slots: nat, total: nat)

  /** Committed slots and summed decided steps of one leader. */
  datatype Sample = Sample(slots: nat, total: nat)

  type Totals = map<ReplicaId, Sample>

  datatype Tuner = Tuner(
    epochSize: nat,
    members: seq<ReplicaId>,
    auto: bool,
    schedules: map<nat, seq<ReplicaId>>,
    stats: map<nat, EpochStat>,
    statsThrough: Slot)

  function NewTuner(epochSize: nat, members: seq<ReplicaId>, auto: bool): Tuner {
    Tuner(if epochSize == 0 then 1 else epochSize, members, auto, map[], map[], 0)
  }

  function SaturatingAdd(a: nat, b: nat): nat {
    if a + b > U64_MAX then U64_MAX else a + b
  }

  // ----- Comparing leaders -----

  datatype Ordering = Less | Equal | Greater

  function Compare(a: nat, b: nat): Ordering {
    if a < b then Less else if a == b then Equal else Greater
  }

  function Lookup(totals: Totals, r: ReplicaId): Option<Sample> {
    if r in totals then Some(totals[r]) else None
  }

  function CompareFitness(left: Option<Sample>, right: Option<Sample>): Ordering {
    match (left, right)
    case (Some(a), Some(b)) => Compare(a.total * b.slots, b.total * a.slots)
    case (Some(_), None) => Less
    case (None, Some(_)) => Greater
    case (None, None) => Equal
  }

  /** The order by which leaders are ranked: fitness, then identifier. */
  predicate Before(totals: Totals, a: ReplicaId, b: ReplicaId) {
    var fitness := CompareFitness(Lookup(totals, a), Lookup(totals, b));
    fitness == Less || (fitness == Equal && a < b)
  }

  predicate Sampled(totals: Totals) {
    forall r :: r in totals ==> totals[r].slots > 0
  }

  /** Cross multiplication compares the averages total/slots, so the comparison composes. */
  lemma AveragesCompose(a: Sample, b: Sample, c: Sample)
    requires a.slots > 0 && b.slots > 0 && c.slots > 0
    requires a.total * b.slots <= b.total * a.slots && b.total * c.slots <= c.total * b.slots
    ensures a.total * c.slots <= c.total * a.slots
    ensures a.total * c.slots == c.total * a.slots ==>
              a.total * b.slots == b.total * a.slots && b.total * c.slots == c.total * b.slots
  {
    MulKeeps(a.total * b.slots, b.total * a.slots, c.slots);
    MulKeeps(b.total * c.slots, c.total * b.slots, a.slots);
    SwapFactors(a.total, b.slots, c.slots);
    SwapFactors(b.total, a.slots, c.slots);
    SwapFactors(c.total, b.slots, a.slots);
    CancelKeeps(a.total * c.slots, c.total * a.slots, b.slots);
  }

  lemma SwapFactors(x: nat, y: nat, z: nat)
    ensures (x * y) * z == (x * z) * y
  {
  }

  lemma MulKeeps(x: nat, y: nat, k: nat)
    requires x <= y && k > 0
    ensures x * k <= y * k && (x < y ==> x * k < y * k)
  {
  }

  lemma CancelKeeps(x: nat, y: nat, k: nat)
    requires x * k <= y * k && k > 0
    ensures x <= y && (x * k < y * k ==> x < y)
  {
    if x > y {
      MulKeeps(y, x, k);
    }
  }

  /** With positive sample sizes the ranking order is a strict total order. */
  lemma BeforeIsStrictOrder(totals: Totals, a: ReplicaId, b: ReplicaId, c: ReplicaId)
    requires Sampled(totals)
    ensures !Before(totals, a, a)
    ensures a != b ==> (Before(totals, a, b) <==> !Before(totals, b, a))
    ensures Before(totals, a, b) && Before(totals, b, c) ==> Before(totals, a, c)
  {
    if a in totals && b in totals && c in totals && Before(totals, a, b) && Before(totals, b, c) {
      AveragesCompose(totals[a], totals[b], totals[c]);
    }
  }

  /** A leader with an empty sample would tie with everyone, and the order would no longer be transitive. */
  lemma EmptySampleBreaksOrder()
    ensures var totals: Totals := map[1 := Sample(1, 9), 2 := Sample(0, 0), 3 := Sample(1, 4)];
            Before(totals, 1, 2) && Before(totals, 2, 3) && !Before(totals, 1, 3)
  {
  }

  // ----- Ranking -----

  function Insert(totals: Totals, r: ReplicaId, ranked: seq<ReplicaId>): seq<ReplicaId> {
    if ranked == [] then [r]
    else if Before(totals, ranked[0], r) then [ranked[0]] + Insert(totals, r, ranked[1..])
    else [r] + ranked
  }

  /** The members in ranking order. */
  function Rank(members: seq<ReplicaId>, totals: Totals): seq<ReplicaId> {
    if members == [] then [] else Insert(totals, members[|members| - 1], Rank(members[..|members| - 1], totals))
  }

  predicate Ranked(totals: Totals, s: seq<ReplicaId>) {
    forall i, j :: 0 <= i < j < |s| ==> Before(totals, s[i], s[j])
  }

  predicate Permutes(a: seq<ReplicaId>, b: seq<ReplicaId>) {
    multiset(a) == multiset(b)
  }

  lemma {:induction false} InsertPermutes(totals: Totals, r: ReplicaId, ranked: seq<ReplicaId>)
    ensures multiset(Insert(totals, r, ranked)) == multiset(ranked) + multiset{r}
  {
    if ranked != [] {
      assert ranked == [ranked[0]] + ranked[1..];
      if Before(totals, ranked[0], r) {
        InsertPermutes(totals, r, ranked[1..]);
      }
    }
  }

  lemma {:induction false} InsertRanks(totals: Totals, r: ReplicaId, ranked: seq<ReplicaId>)
    requires Sampled(totals) && Ranked(totals, ranked) && r !in ranked
    ensures Ranked(totals, Insert(totals, r, ranked))
  {
    if ranked != [] {
      var first, rest := ranked[0], ranked[1..];
      if Before(totals, first, r) {
        InsertRanks(totals, r, rest);
        InsertPermutes(totals, r, rest);
        forall x | x in Insert(totals, r, rest) ensures Before(totals, first, x) {
          assert x in multiset(Insert(totals, r, rest));
          assert x == r || x in rest;
        }
      } else {
        forall j | 0 <= j < |ranked| ensures Before(totals, r, ranked[j]) {
          BeforeIsStrictOrder(totals, first, r, r);
          BeforeIsStrictOrder(totals, r, first, ranked[j]);
        }
      }
    }
  }

  /** The ranking is the members in strictly increasing order of rank. */
  lemma {:induction false} RankSorts(members: seq<ReplicaId>, totals: Totals)
    ensures Permutes(Rank(members, totals), members)
    ensures Sampled(totals) && Distinct(members) ==> Ranked(totals, Rank(members, totals))
  {
    if members != [] {
      var init, last := members[..|members| - 1], members[|members| - 1];
      assert members == init + [last];
      RankSorts(init, totals);
      InsertPermutes(totals, last, Rank(init, totals));
      if Sampled(totals) && Distinct(members) {
        assert last !in Rank(init, totals) by {
          assert last !in multiset(init);
        }
        InsertRanks(totals, last, Rank(init, totals));
      }
    }
  }

  lemma SameFirst(totals: Totals, a: seq<ReplicaId>, b: seq<ReplicaId>)
    requires Sampled(totals) && Ranked(totals, a) && Ranked(totals, b) && Permutes(a, b) && a != [] && b != []
    ensures a[0] == b[0]
  {
    assert a[0] in multiset(b) && b[0] in multiset(a);
    var i :| 0 <= i < |a| && a[i] == b[0];
    var j :| 0 <= j < |b| && b[j] == a[0];
    BeforeIsStrictOrder(totals, a[0], b[0], a[0]);
  }

  lemma DropFirst(a: seq<ReplicaId>)
    requires a != []
    ensures multiset(a[1..]) == multiset(a) - multiset{a[0]}
  {
    assert a == [a[0]] + a[1..];
  }

  /** Only one order of the members is ranked, so any sorting procedure gives this one. */
  lemma {:induction false} RankingIsUnique(totals: Totals, a: seq<ReplicaId>, b: seq<ReplicaId>)
    requires Sampled(totals) && Ranked(totals, a) && Ranked(totals, b) && Permutes(a, b)
    ensures a == b
  {
    assert |a| == |multiset(a)| == |multiset(b)| == |b|;
    if a != [] {
      SameFirst(totals, a, b);
      DropFirst(a);
      DropFirst(b);
      RankingIsUnique(totals, a[1..], b[1..]);
      assert a == [a[0]] + a[1..] && b == [b[0]] + b[1..];
    }
  }

  // ----- Deriving -----

  function Rotated(members: seq<ReplicaId>, offset: nat): seq<ReplicaId>
    requires offset <= |members|
  {
    members[offset..] + members[..offset]
  }

  function Without(s: seq<ReplicaId>, r: ReplicaId): seq<ReplicaId> {
    if s == [] then [] else if s[0] == r then s[1..] else [s[0]] + Without(s[1..], r)
  }

  function WarmupEpochs(members: seq<ReplicaId>): nat {
    2 * |members| + 1
  }

  predicate Reexplores(members: seq<ReplicaId>, epoch: nat) {
    epoch > WarmupEpochs(members) && (epoch - WarmupEpochs(members)) % AUTO_REEXPLORE_EPOCHS == 0
  }

  /** The member whose turn it is to be tried again. */
  function Candidate(members: seq<ReplicaId>, epoch: nat): ReplicaId
    requires members != [] && epoch >= WarmupEpochs(members)
  {
    members[((epoch - WarmupEpochs(members)) / AUTO_REEXPLORE_EPOCHS) % |members|]
  }

  /** Every so often the next member in turn is put first. */
  function Reexplored(members: seq<ReplicaId>, epoch: nat, ranked: seq<ReplicaId>): seq<ReplicaId>
    requires members != [] && epoch >= WarmupEpochs(members)
  {
    if Reexplores(members, epoch) then [Candidate(members, epoch)] + Without(ranked, Candidate(members, epoch))
        else ranked
  }

  /** Adds up the samples of the epochs before n, by leader. */
  function TotalsOf(stats: map<nat, EpochStat>, n: nat): Totals {
    if n == 0 then map[]
    else
      var before := TotalsOf(stats, n - 1);
      if n - 1 !in stats then before
      else
        var stat := stats[n - 1];
        var sofar := if stat.leader in before then before[stat.leader] else Sample(0, 0);
        before[stat.leader := Sample(sofar.slots + stat.slots, sofar.total + stat.total)]
  }

  /** The order of an epoch after the warmup, from the statistics of the epochs at least two before it. */
  function RankedOrder(members: seq<ReplicaId>, stats: map<nat, EpochStat>, epoch: nat): seq<ReplicaId>
    requires members != [] && epoch >= WarmupEpochs(members)
  {
    Reexplored(members, epoch, Rank(members, TotalsOf(stats, epoch - 1)))
  }

  function WarmupOrder(members: seq<ReplicaId>, epoch: nat): seq<ReplicaId>
    requires members != []
  {
    Rotated(members, epoch % |members|)
  }

  /** The last slot that must be committed before an epoch's order can be derived. */
  function Required(epochSize: nat, epoch: nat): nat
    requires epoch >= 2
  {
    var start := (epoch - 1) * epochSize;
    if start == 0 then 0 else start - 1
  }

  function Derive(t: Tuner, epoch: nat): Result<seq<ReplicaId>>
    requires t.members != []
  {
    if epoch < WarmupEpochs(t.members) then Ok(WarmupOrder(t.members, epoch))
    else if t.statsThrough < Required(t.epochSize, epoch) then Err(PolicyError)
    else Ok(RankedOrder(t.members, t.stats, epoch))
  }

  lemma {:induction false} WithoutPermutes(s: seq<ReplicaId>, r: ReplicaId)
    requires r in s
    ensures multiset([r] + Without(s, r)) == multiset(s)
  {
    assert s == [s[0]] + s[1..];
    if s[0] != r {
      WithoutPermutes(s[1..], r);
    }
  }

  lemma RotatedPermutes(members: seq<ReplicaId>, offset: nat)
    requires offset <= |members|
    ensures Permutes(Rotated(members, offset), members)
  {
    assert members == members[..offset] + members[offset..];
  }

  /** Every derived order, re-exploration included, is a permutation of the members. */
  lemma DerivedPermutes(t: Tuner, epoch: nat)
    requires t.members != []
    ensures Derive(t, epoch).Ok? ==> Permutes(Derive(t, epoch).value, t.members)
  {
    if epoch < WarmupEpochs(t.members) {
      RotatedPermutes(t.members, epoch % |t.members|);
    } else {
      RankedPermutes(t.members, t.stats, epoch);
    }
  }

  lemma RankedPermutes(members: seq<ReplicaId>, stats: map<nat, EpochStat>, epoch: nat)
    requires members != [] && epoch >= WarmupEpochs(members)
    ensures Permutes(RankedOrder(members, stats, epoch), members)
  {
    var ranked := Rank(members, TotalsOf(stats, epoch - 1));
    RankSorts(members, TotalsOf(stats, epoch - 1));
    if Reexplores(members, epoch) {
      assert Candidate(members, epoch) in multiset(members);
      WithoutPermutes(ranked, Candidate(members, epoch));
    }
  }

  // ----- The tuner's operations -----

  function EnsureSchedule(t: Tuner, epoch: nat): (Tuner, Result<seq<ReplicaId>>)
    requires t.members != []
  {
    if epoch in t.schedules then (t, Ok(t.schedules[epoch]))
    else if !t.auto then (t, Err(PolicyError))
    else
      var order := Derive(t, epoch);
      if order.Err? then (t, order) else (t.(schedules := t.schedules[epoch := order.value]), order)
  }

  function EpochOf(epochSize: nat, slot: Slot): nat
    requires epochSize > 0
  {
    slot / epochSize
  }

  /** What is forgotten once a slot of the given epoch has been recorded. */
  function Forget(t: Tuner, epoch: nat): Tuner {
    if epoch < RETAINED_STAT_EPOCHS then t
    else
      var floor := epoch - RETAINED_STAT_EPOCHS;
      t.(stats := map e | e in t.stats && e >= floor :: t.stats[e],
         schedules := map e | e in t.schedules && e >= floor :: t.schedules[e])
  }

  function Recorded(t: Tuner, epoch: nat, leader: ReplicaId, slot: Slot, step: Step): Tuner {
    var stat := if epoch in t.stats then t.stats[epoch] else EpochStat(leader, 0, 0);
    t.(stats := t.stats[epoch := EpochStat(stat.leader, SaturatingAdd(stat.slots, 1), SaturatingAdd(stat.total, step))],
       statsThrough := slot)
  }

  function NoteCommitted(t: Tuner, slot: Slot, step: Step): (Tuner, Result<bool>)
    requires t.members != [] && t.epochSize > 0
  {
    if !t.auto || slot <= t.statsThrough then (t, Ok(false))
    else if slot != t.statsThrough + 1 then (t, Err(PolicyError))
    else
      var epoch := EpochOf(t.epochSize, slot);
      var (t', order) := EnsureSchedule(t, epoch);
      if order.Err? then (t', Err(order.error))
      else if order.value == [] then (t', Err(EmptyCluster))
      else (Forget(Recorded(t', epoch, order.value[0], slot, step), epoch), Ok(true))
  }

  function Install(t: Tuner, epoch: nat, order: seq<ReplicaId>): (Tuner, Result<bool>) {
    if t.auto then (t, Err(PolicyError))
    else if epoch in t.schedules then (t, if t.schedules[epoch] != order then Err(PolicyError) else Ok(false))
    else (t.(schedules := t.schedules[epoch := order]), Ok(true))
  }

  function Reconfigure(t: Tuner, members: seq<ReplicaId>, committedThrough: Slot): Tuner {
    t.(members := members, schedules := map[], stats := map[], statsThrough := committedThrough)
  }

  // ----- Installed orders -----

  datatype Call = Ensure(epoch: nat) | Record(slot: Slot, step: Step) | Put(epoch: nat, order: seq<ReplicaId>)

  function Called(t: Tuner, c: Call): (t': Tuner)
    requires t.members != [] && t.epochSize > 0
    ensures t'.members == t.members && t'.epochSize == t.epochSize && t'.auto == t.auto
  {
    match c
    case Ensure(epoch) => EnsureSchedule(t, epoch).0
    case Record(slot, step) => NoteCommitted(t, slot, step).0
    case Put(epoch, order) => Install(t, epoch, order).0
  }

  function AllCalled(t: Tuner, calls: seq<Call>): (t': Tuner)
    requires t.members != [] && t.epochSize > 0
    ensures t'.members == t.members && t'.epochSize == t.epochSize && t'.auto == t.auto
  {
    if calls == [] then t else Called(AllCalled(t, calls[..|calls| - 1]), calls[|calls| - 1])
  }

  /** An order can be installed exactly in manual mode, where no other order is given for the epoch. */
  lemma InstallExactly(t: Tuner, epoch: nat, order: seq<ReplicaId>)
    requires t.members != []
    ensures Install(t, epoch, order).1.Ok? <==> !t.auto && EnsureSchedule(t, epoch).1 in {Err(PolicyError), Ok(order)}
    ensures !Install(t, epoch, order).1.Ok? ==> Install(t, epoch, order).0 == t
  {
  }

  /** Once installed, an order is the answer for its epoch whatever is called afterwards. */
  lemma {:induction false} InstalledForGood(t: Tuner, epoch: nat, order: seq<ReplicaId>, calls: seq<Call>)
    requires t.members != [] && t.epochSize > 0 && Install(t, epoch, order).1.Ok?
    ensures EnsureSchedule(AllCalled(Install(t, epoch, order).0, calls), epoch).1 == Ok(order)
  {
    if calls != [] {
      InstalledForGood(t, epoch, order, calls[..|calls| - 1]);
    }
  }
}
