/**
 Committed steps under which one epoch tips the ranking: with the epoch counted, the
 member that led it is fastest; without it, some other member is. Everybody else decides
 at step 10 on average, so only the epochs singled out here have a say.
 */
module ScheduleTilt {
  import opened Types
  import opened Schedule
  import opened ScheduleTiming

  // ----- Ranking by the distance from the common average -----

  const AVERAGE: nat := 10

  function Excess(s: Sample): int {
    s.total - AVERAGE * s.slots
  }

  lemma ExcessDecides(totals: Totals, a: ReplicaId, b: ReplicaId)
    requires Sampled(totals) && a in totals && b in totals
    requires Excess(totals[a]) <= 0 <= Excess(totals[b]) && Excess(totals[a]) < Excess(totals[b])
    ensures Before(totals, a, b)
  {
    var l, r := totals[a], totals[b];
    CrossMultiply(l.total, l.slots, r.total, r.slots);
  }

  lemma CrossMultiply(t: nat, s: nat, t': nat, s': nat)
    requires s > 0 && s' > 0 && t <= AVERAGE * s && AVERAGE * s' <= t' && (t < AVERAGE * s || AVERAGE * s' < t')
    ensures t * s' < t' * s
  {
    if t < AVERAGE * s {
      MulKeeps(t, AVERAGE * s, s');
      Scaled(AVERAGE * s', t', s);
    } else {
      Scaled(t, AVERAGE * s, s');
      MulKeeps(AVERAGE * s', t', s);
    }
    assert (AVERAGE * s) * s' == (AVERAGE * s') * s;
  }

  lemma FastestLeads(members: seq<ReplicaId>, totals: Totals, a: ReplicaId)
    requires Distinct(members) && Sampled(totals) && a in members
    requires forall r :: r in members && r != a ==> Before(totals, a, r)
    ensures First(Rank(members, totals)) == a
  {
    RankSorts(members, totals);
    var ranked := Rank(members, totals);
    assert a in multiset(ranked) && ranked[0] in multiset(members);
    var i :| 0 <= i < |ranked| && ranked[i] == a;
    if i > 0 {
      BeforeIsStrictOrder(totals, ranked[0], a, a);
    }
  }

  lemma SlowerTrails(members: seq<ReplicaId>, totals: Totals, a: ReplicaId, b: ReplicaId)
    requires Distinct(members) && Sampled(totals) && b in members && Before(totals, b, a)
    ensures First(Rank(members, totals)) != a
  {
    RankSorts(members, totals);
    var ranked := Rank(members, totals);
    assert b in multiset(ranked);
    var i :| 0 <= i < |ranked| && ranked[i] == b;
    BeforeIsStrictOrder(totals, a, b, a);
  }

  // ----- Adding up -----

  /** What an epoch's statistics contribute to a member's distance from the average. */
  function Term(stats: map<nat, EpochStat>, r: ReplicaId, x: nat): int {
    if x in stats && stats[x].leader == r then stats[x].total - AVERAGE * stats[x].slots else 0
  }

  function Sum(stats: map<nat, EpochStat>, r: ReplicaId, n: nat): int {
    if n == 0 then 0 else Sum(stats, r, n - 1) + Term(stats, r, n - 1)
  }

  predicate Led(stats: map<nat, EpochStat>, r: ReplicaId, x: nat) {
    x in stats && stats[x].leader == r
  }

  lemma {:induction false} TotalsAddUp(stats: map<nat, EpochStat>, r: ReplicaId, n: nat)
    requires forall x :: x in stats ==> stats[x].slots > 0
    ensures Sampled(TotalsOf(stats, n))
    ensures r in TotalsOf(stats, n) <==> exists x: nat :: x < n && Led(stats, r, x)
    ensures r in TotalsOf(stats, n) ==> Excess(TotalsOf(stats, n)[r]) == Sum(stats, r, n)
    ensures r !in TotalsOf(stats, n) ==> Sum(stats, r, n) == 0
  {
    if n > 0 {
      TotalsAddUp(stats, r, n - 1);
      if r in TotalsOf(stats, n) && r !in TotalsOf(stats, n - 1) {
        assert Led(stats, r, n - 1);
      }
    }
  }

  lemma {:induction false} SumOfTwo(stats: map<nat, EpochStat>, r: ReplicaId, n: nat, i: nat, j: nat)
    requires i < j && forall x: nat :: x < n && x != i && x != j ==> Term(stats, r, x) == 0
    ensures Sum(stats, r, n) == (if i < n then Term(stats, r, i) else 0) + (if j < n then Term(stats, r, j) else 0)
  {
    if n > 0 {
      SumOfTwo(stats, r, n - 1, i, j);
    }
  }

  // ----- The tilted plan -----

  /** Fast in the two epochs singled out, slow once at the start of a third, average otherwise. */
  function TiltedStep(size: nat, fast: nat, fast': nat, slow: nat, slot: Slot): Step
    requires size > 0
  {
    var x := EpochOf(size, slot);
    if x == fast || x == fast' then 4 else if slot == slow * size then 14 else AVERAGE
  }

  /** The plan singles out these epochs, and its numbers fit 64 bits. */
  ghost predicate Tilted(p: Plan, fast: nat, fast': nat, slow: nat) {
    && Sound(p) && 14 * p.size <= U64_MAX && slow != fast && slow != fast' && Base(p) < slow
    && forall slot :: p.from < slot <= Last(p) ==> StepOf(p, slot) == TiltedStep(p.size, fast, fast', slow, slot)
  }

  function Tilt(size: nat, members: seq<ReplicaId>, from: Slot, fast: nat, fast': nat, slow: nat, last: Slot): Plan
    requires size > 0 && from <= last
  {
    Plan(size, members, from, seq<nat>(last - from,
        i requires 0 <= i < last - from => TiltedStep(size, fast, fast', slow, from + 1 + i)))
  }

  lemma {:induction false} SlotsFit(p: Plan, x: nat, n: Slot)
    requires p.size > 0 && n <= Last(p)
    ensures SlotsIn(p, x, n) <= p.size
    ensures Ep(p, n) == x ==> SlotsIn(p, x, n) <= n + 1 - x * p.size
  {
    ReachedExactly(p, n, x);
    ReachedExactly(p, n, x + 1);
    if n > p.from {
      SlotsFit(p, x, n - 1);
      if Ep(p, n) == x && Ep(p, n - 1) != x {
        EpochsGrow(p, n - 1, n);
        NothingYet(p, x, n - 1);
      }
    }
  }

  /** The first slot of the slow epoch has been recorded. */
  predicate Slowed(p: Plan, slow: nat, x: nat, n: Slot) {
    x == slow && n >= slow * p.size
  }

  /** The summed steps of an epoch with the given number of slots. */
  function Steps(fast: bool, slowed: bool, slots: nat): nat {
    (if fast then 4 * slots else AVERAGE * slots) + if slowed then 4 else 0
  }

  lemma {:induction false} StepsFit(p: Plan, fast: nat, fast': nat, slow: nat, x: nat, n: Slot)
    requires Tilted(p, fast, fast', slow) && n <= Last(p)
    ensures StepsIn(p, x, n) == Steps(x == fast || x == fast', Slowed(p, slow, x, n), SlotsIn(p, x, n))
  {
    if n <= p.from {
      ReachedExactly(p, p.from + 1, slow);
    } else {
      StepsFit(p, fast, fast', slow, x, n - 1);
      if Ep(p, n) == x {
        SlotsFit(p, x, n);
        NextStep(p, fast, fast', slow, x, n, SlotsIn(p, x, n - 1));
      } else if x == slow {
        SlowStaysSlow(p, slow, n);
      }
    }
  }

  lemma NextStep(p: Plan, fast: nat, fast': nat, slow: nat, x: nat, n: Slot, slots: nat)
    requires Tilted(p, fast, fast', slow) && p.from < n <= Last(p) && Ep(p, n) == x && SaturatingAdd(slots, 1) <= p.size
    ensures SaturatingAdd(slots, 1) == slots + 1
    ensures SaturatingAdd(Steps(x == fast || x == fast', Slowed(p, slow, x, n - 1), slots), StepOf(p, n))
            == Steps(x == fast || x == fast', Slowed(p, slow, x, n), slots + 1)
  {
    ReachedExactly(p, n, slow);
    ReachedExactly(p, slow * p.size, slow);
    ReachedExactly(p, slow * p.size, slow + 1);
    assert StepOf(p, n) == TiltedStep(p.size, fast, fast', slow, n);
    assert n == slow * p.size ==> x == slow;
  }

  lemma SlowStaysSlow(p: Plan, slow: nat, n: Slot)
    requires p.size > 0 && n > 0 && Ep(p, n) != slow
    ensures n >= slow * p.size <==> n - 1 >= slow * p.size
  {
    ReachedExactly(p, n, slow);
    ReachedExactly(p, n, slow + 1);
  }

  // ----- Windows over the tilted plan -----

  function Bias(p: Plan, x: nat): int
    requires p.size > 0
  {
    StepsIn(p, x, Last(p)) - AVERAGE * SlotsIn(p, x, Last(p))
  }

  lemma BiasIs(p: Plan, fast: nat, fast': nat, slow: nat, x: nat)
    requires Tilted(p, fast, fast', slow)
    ensures Bias(p, x) == if x == fast || x == fast' then -6 * SlotsIn(p, x, Last(p))
            else if Slowed(p, slow, x, Last(p)) then 4 else 0
  {
    StepsFit(p, fast, fast', slow, x, Last(p));
  }

  function Leader(p: Plan, early: nat -> bool, x: nat): ReplicaId
    requires Sound(p)
  {
    First(Order(p, early, x))
  }

  lemma LeaderIsMember(p: Plan, early: nat -> bool, x: nat)
    requires Sound(p)
    ensures Leader(p, early, x) in p.members
  {
    OrderNonempty(p, early, x);
    assert Order(p, early, x)[0] in multiset(p.members);
  }

  /** The epoch counts towards the order of z. */
  predicate Counts(p: Plan, early: nat -> bool, z: nat, x: nat)
    requires p.size > 0 && z >= 2
  {
    WindowStart(early, z) <= x < z - 1 && SlotsIn(p, x, Last(p)) > 0
  }

  lemma WindowTerm(p: Plan, early: nat -> bool, z: nat, r: ReplicaId, x: nat)
    requires Sound(p) && z >= 2 && x < z - 1
    ensures Led(Window(p, early, z), r, x) <==> Counts(p, early, z, x) && Leader(p, early, x) == r
    ensures Term(Window(p, early, z), r, x) == if Counts(p, early, z, x) && Leader(p, early, x) == r then Bias(p, x)
            else 0
  {
    assert Counts(p, early, z, x) ==> Window(p, early, z)[x] == StatOf(p, early, x);
  }

  lemma WindowSampled(p: Plan, early: nat -> bool, z: nat)
    requires Sound(p) && z >= 2
    ensures forall x :: x in Window(p, early, z) ==> Window(p, early, z)[x].slots > 0
  {
    forall x | x in Window(p, early, z) ensures Window(p, early, z)[x].slots > 0 {
      assert Window(p, early, z)[x] == StatOf(p, early, x);
    }
  }

  /** The distance of a member from the average, in the window of z. */
  function Total(p: Plan, early: nat -> bool, z: nat, r: ReplicaId): int
    requires Sound(p) && z >= 2
  {
    Sum(Window(p, early, z), r, z - 1)
  }

  /** The order of the epoch is the ranking itself. */
  predicate Plain(p: Plan, z: nat) {
    z >= WarmupEpochs(p.members) && !Reexplores(p.members, z)
  }

  lemma BelowLeads(members: seq<ReplicaId>, stats: map<nat, EpochStat>, n: nat, a: ReplicaId)
    requires Distinct(members) && a in members && forall x :: x in stats ==> stats[x].slots > 0
    requires Sum(stats, a, n) < 0 && forall r :: r in members && r != a ==> Sum(stats, r, n) >= 0
    ensures First(Rank(members, TotalsOf(stats, n))) == a
  {
    TotalsAddUp(stats, a, n);
    forall r | r in members && r != a ensures Before(TotalsOf(stats, n), a, r) {
      TotalsAddUp(stats, r, n);
      if r in TotalsOf(stats, n) {
        ExcessDecides(TotalsOf(stats, n), a, r);
      }
    }
    FastestLeads(members, TotalsOf(stats, n), a);
  }

  lemma AboveTrails(members: seq<ReplicaId>, stats: map<nat, EpochStat>, n: nat, a: ReplicaId, b: ReplicaId, x: nat)
    requires Distinct(members) && b in members && forall x :: x in stats ==> stats[x].slots > 0
    requires x < n && Led(stats, b, x) && a != b && Sum(stats, b, n) <= 0
    requires Sum(stats, a, n) > 0 || forall y: nat :: y < n ==> !Led(stats, a, y)
    ensures First(Rank(members, TotalsOf(stats, n))) != a
  {
    TotalsAddUp(stats, a, n);
    TotalsAddUp(stats, b, n);
    if a in TotalsOf(stats, n) {
      ExcessDecides(TotalsOf(stats, n), b, a);
    }
    SlowerTrails(members, TotalsOf(stats, n), a, b);
  }

  lemma BelowAverageLeads(p: Plan, early: nat -> bool, z: nat, a: ReplicaId)
    requires Sound(p) && Plain(p, z) && a in p.members && Total(p, early, z, a) < 0
    requires forall r :: r in p.members && r != a ==> Total(p, early, z, r) >= 0
    ensures Leader(p, early, z) == a
  {
    WindowSampled(p, early, z);
    BelowLeads(p.members, Window(p, early, z), z - 1, a);
  }

  lemma AboveAverageTrails(p: Plan, early: nat -> bool, z: nat, a: ReplicaId, x: nat)
    requires Sound(p) && Plain(p, z) && Counts(p, early, z, x) && Leader(p, early, x) != a
    requires Total(p, early, z, Leader(p, early, x)) <= 0
    requires Total(p, early, z, a) > 0 || forall y: nat :: y < z - 1 && Counts(p, early, z, y) ==>
             Leader(p, early, y) != a
    ensures Leader(p, early, z) != a
  {
    var stats := Window(p, early, z);
    forall y: nat, r | y < z - 1 ensures Led(stats, r, y) <==> Counts(p, early, z, y) && Leader(p, early, y) == r {
      WindowTerm(p, early, z, r, y);
    }
    LeaderIsMember(p, early, x);
    WindowSampled(p, early, z);
    AboveTrails(p.members, stats, z - 1, a, Leader(p, early, x), x);
  }

  /** If only two epochs of the window are out of line, they decide. */
  lemma TotalIs(p: Plan, early: nat -> bool, z: nat, r: ReplicaId, i: nat, j: nat)
    requires Sound(p) && z >= 2 && i < j
    requires forall x: nat :: x < z - 1 && Counts(p, early, z, x) && x != i && x != j ==> Bias(p, x) == 0
    ensures Total(p, early, z, r) == Share(p, early, z, r, i) + Share(p, early, z, r, j)
  {
    forall x: nat | x < z - 1 ensures Term(Window(p, early, z), r, x) == Share(p, early, z, r, x) {
      WindowTerm(p, early, z, r, x);
    }
    SumOfTwo(Window(p, early, z), r, z - 1, i, j);
  }

  function Share(p: Plan, early: nat -> bool, z: nat, r: ReplicaId, x: nat): int
    requires Sound(p) && z >= 2
  {
    if x < z - 1 && Counts(p, early, z, x) && Leader(p, early, x) == r then Bias(p, x) else 0
  }
}
