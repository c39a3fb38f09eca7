/**
 Over the tilted plan, an epoch asked for early is led by the member that led the oldest
 epoch it can see, and asked for later by another one; and whoever leads it also leads
 the next epochs that rank on it.
 */
module ScheduleTipping {
  import opened Types
  import opened Schedule
  import opened ScheduleTiming
  import opened ScheduleTilt

  // ----- Whose turn it is -----

  lemma ModNext(i: nat, n: nat)
    requires n >= 2
    ensures (i + 1) % n == if i % n + 1 == n then 0 else i % n + 1
  {
    var q, r := i / n, i % n;
    assert i == q * n + r;
    if r + 1 == n {
      assert i + 1 == (q + 1) * n;
      ModIs(i + 1, n, q + 1, 0);
    } else {
      ModIs(i + 1, n, q, r + 1);
    }
  }

  lemma ModIs(a: nat, n: nat, q: nat, r: nat)
    requires n > 0 && r < n && a == q * n + r
    ensures a % n == r
  {
    var d := a / n;
    assert a == d * n + a % n;
    if d < q {
      MulKeeps(d + 1, q, n);
    } else if q < d {
      MulKeeps(q + 1, d, n);
    }
  }

  lemma ModWhole(i: nat, n: nat)
    requires n > 0
    ensures (i + n) % n == i % n
  {
    assert i == (i / n) * n + i % n;
    assert i + n == (i / n + 1) * n + i % n;
    ModIs(i + n, n, i / n + 1, i % n);
  }

  /** Within one round of turns, nobody comes twice. */
  lemma ModDiffers(i: nat, j: nat, n: nat)
    requires i < j < i + n
    ensures i % n != j % n
  {
    var q, d, r := i / n, j / n, i % n;
    assert i == q * n + r && j == d * n + j % n;
    if j % n == r {
      assert (d - q) * n == j - i;
      Scaled(if d > q then 1 else 0, if d > q then d - q else 0, n);
    }
  }

  lemma WarmupLeader(p: Plan, f: nat -> bool, x: nat)
    requires Sound(p) && x < WarmupEpochs(p.members)
    ensures Leader(p, f, x) == p.members[x % |p.members|]
  {
  }

  /** Among the epochs that always count there is one led by somebody else than the oldest. */
  lemma Rival(p: Plan, f: nat -> bool, e: nat) returns (x: nat)
    requires Sound(p) && |p.members| >= 2 && e >= WarmupEpochs(p.members) && e >= RETAINED_STAT_EPOCHS + 2
    ensures Oldest(e) < x < e - 1 && Leader(p, f, x) != Leader(p, f, Oldest(e))
  {
    if Oldest(e) + 1 < WarmupEpochs(p.members) {
      x := Oldest(e) + 1;
      NextInWarmup(p, f, Oldest(e));
    } else {
      x := RivalByTurn(p, f, Oldest(e));
    }
  }

  lemma NextInWarmup(p: Plan, f: nat -> bool, x: nat)
    requires Sound(p) && |p.members| >= 2 && x + 1 < WarmupEpochs(p.members)
    ensures Leader(p, f, x) != Leader(p, f, x + 1)
  {
    WarmupLeader(p, f, x);
    WarmupLeader(p, f, x + 1);
    ModNext(x, |p.members|);
  }

  lemma RivalByTurn(p: Plan, f: nat -> bool, oldest: nat) returns (x: nat)
    requires Sound(p) && |p.members| >= 2 && oldest + 1 >= WarmupEpochs(p.members)
    ensures oldest < x <= oldest + 64 && Leader(p, f, x) != Leader(p, f, oldest)
  {
    var turn := 1;
    if oldest + 1 == WarmupEpochs(p.members) {
      FirstTurn(p, f, oldest);
    } else {
      turn := NextTurn(p.members, oldest, Leader(p, f, oldest));
    }
    TurnLeader(p, f, turn);
    x := WarmupEpochs(p.members) + turn * AUTO_REEXPLORE_EPOCHS;
  }

  /** The warmup ends with the first member; the second is the first to be tried again. */
  lemma FirstTurn(p: Plan, f: nat -> bool, x: nat)
    requires Sound(p) && |p.members| >= 2 && x + 1 == WarmupEpochs(p.members)
    ensures Leader(p, f, x) != p.members[1 % |p.members|]
  {
    WarmupLeader(p, f, x);
    ModIs(x, |p.members|, 2, 0);
    ModIs(1, |p.members|, 0, 1);
  }

  /** The member that is tried again in the given turn. */
  lemma TurnLeader(p: Plan, f: nat -> bool, turn: nat)
    requires Sound(p) && turn >= 1
    ensures Leader(p, f, WarmupEpochs(p.members) + turn * AUTO_REEXPLORE_EPOCHS) == p.members[turn % |p.members|]
  {
    ReexploredLeader(p, f, WarmupEpochs(p.members) + turn * AUTO_REEXPLORE_EPOCHS);
  }

  /** Two members are tried again in turn; at least one of them is not the given one. */
  lemma NextTurn(members: seq<ReplicaId>, oldest: nat, a: ReplicaId) returns (turn: nat)
    requires Distinct(members) && |members| >= 2 && oldest >= WarmupEpochs(members)
    ensures turn >= 1 && oldest < WarmupEpochs(members) + turn * AUTO_REEXPLORE_EPOCHS <= oldest + 64
    ensures members[turn % |members|] != a
  {
    turn := (oldest - WarmupEpochs(members)) / AUTO_REEXPLORE_EPOCHS + 1;
    ModNext(turn, |members|);
    if members[turn % |members|] == a {
      turn := turn + 1;
    }
  }

  // ----- The epoch that tips the ranking back -----

  /**
   The slow epoch: one that the oldest leader leads again, late enough that it has no say
   in who leads the epochs up to e - 2. If there is none, an epoch out of reach.
   */
  function SlowEpoch(members: seq<ReplicaId>, e: nat): nat
    requires e >= RETAINED_STAT_EPOCHS + 2
  {
    if e >= WarmupEpochs(members) + 2 then
      if Reexplores(members, e - 2) then e - 3 else e - 2
    else if |members| <= RETAINED_STAT_EPOCHS then Oldest(e) + |members|
    else e + 5
  }

  /** The plan is tilted around the sensitive epoch e and long enough to ask for it. */
  ghost predicate Around(p: Plan, e: nat) {
    && Sound(p) && Sensitive(p, e) && Tilted(p, Oldest(e), e, SlowEpoch(p.members, e))
    && Ep(p, Last(p)) >= e - 1 && Last(p) > p.from
  }

  lemma Recorded(p: Plan, e: nat, x: nat)
    requires Around(p, e) && Oldest(e) <= x <= Ep(p, Last(p))
    ensures SlotsIn(p, x, Last(p)) > 0
  {
    ReachedHasSlots(p, x, Last(p));
  }

  /** Nobody asks early for an epoch before e. */
  ghost predicate LateBefore(f: nat -> bool, e: nat) {
    forall x: nat :: x < e ==> !f(x)
  }

  /** Out of the window of z, all epochs but two are average. */
  lemma Decided(p: Plan, f: nat -> bool, e: nat, z: nat, r: ReplicaId, i: nat, j: nat)
    requires Around(p, e) && z >= 2 && i < j
    requires forall x: nat :: x < z - 1 && Counts(p, f, z, x) && x in {Oldest(e), e, SlowEpoch(p.members, e)} ==>
             x in {i, j}
    ensures Total(p, f, z, r) == Share(p, f, z, r, i) + Share(p, f, z, r, j)
  {
    forall x: nat | x < z - 1 && Counts(p, f, z, x) && x != i && x != j ensures Bias(p, x) == 0 {
      BiasIs(p, Oldest(e), e, SlowEpoch(p.members, e), x);
    }
    TotalIs(p, f, z, r, i, j);
  }

  lemma Biases(p: Plan, e: nat)
    requires Around(p, e)
    ensures Bias(p, Oldest(e)) <= -6
    ensures e <= Ep(p, Last(p)) ==> Bias(p, e) <= -6
    ensures 0 <= Bias(p, SlowEpoch(p.members, e)) <= 4
    ensures SlowEpoch(p.members, e) <= e - 2 ==> Bias(p, SlowEpoch(p.members, e)) == 4
  {
    var slow := SlowEpoch(p.members, e);
    BiasIs(p, Oldest(e), e, slow, Oldest(e));
    BiasIs(p, Oldest(e), e, slow, e);
    BiasIs(p, Oldest(e), e, slow, slow);
    Recorded(p, e, Oldest(e));
    if e <= Ep(p, Last(p)) {
      Recorded(p, e, e);
    }
    ReachedExactly(p, Last(p), slow);
  }

  lemma SlowIsPlain(p: Plan, e: nat)
    requires Sound(p) && e >= RETAINED_STAT_EPOCHS + 2 && e >= WarmupEpochs(p.members) + 2
    ensures Plain(p, SlowEpoch(p.members, e))
  {
  }

  /** The slow epoch, if there is one, is led by the leader of the oldest. */
  lemma SlowLed(p: Plan, f: nat -> bool, e: nat)
    requires Around(p, e) && LateBefore(f, e) && SlowEpoch(p.members, e) <= e - 2
    ensures Leader(p, f, SlowEpoch(p.members, e)) == Leader(p, f, Oldest(e))
  {
    var slow, oldest := SlowEpoch(p.members, e), Oldest(e);
    if e >= WarmupEpochs(p.members) + 2 {
      SlowIsPlain(p, e);
      Recorded(p, e, oldest);
      Biases(p, e);
      LeaderIsMember(p, f, oldest);
      forall r ensures Total(p, f, slow, r) == Share(p, f, slow, r, oldest) {
        Decided(p, f, e, slow, r, oldest, slow);
      }
      assert Counts(p, f, slow, oldest);
      BelowAverageLeads(p, f, slow, Leader(p, f, oldest));
    } else {
      WarmupLeader(p, f, oldest);
      WarmupLeader(p, f, slow);
      ModWhole(oldest, |p.members|);
    }
  }

  /** If there is none, the leader of the oldest epoch leads no epoch after it that counts. */
  lemma NotLedAgain(p: Plan, f: nat -> bool, e: nat, x: nat)
    requires Around(p, e) && SlowEpoch(p.members, e) > e - 2 && Oldest(e) < x < e - 1
    ensures Leader(p, f, x) != Leader(p, f, Oldest(e))
  {
    WarmupLeader(p, f, Oldest(e));
    WarmupLeader(p, f, x);
    ModDiffers(Oldest(e), x, |p.members|);
  }

  // ----- Early and late -----

  /** Asked for early, the epoch is led by the leader of the oldest. */
  lemma EarlyLeader(p: Plan, f: nat -> bool, e: nat)
    requires Around(p, e) && LateBefore(f, e) && f(e)
    ensures Leader(p, f, e) == Leader(p, f, Oldest(e))
  {
    var slow, oldest := SlowEpoch(p.members, e), Oldest(e);
    var a := Leader(p, f, oldest);
    Recorded(p, e, oldest);
    Biases(p, e);
    LeaderIsMember(p, f, oldest);
    if slow <= e - 2 {
      SlowLed(p, f, e);
    }
    forall r ensures Total(p, f, e, r) == Share(p, f, e, r, oldest) + Share(p, f, e, r, slow) {
      Decided(p, f, e, e, r, oldest, slow);
    }
    assert Counts(p, f, e, oldest);
    BelowAverageLeads(p, f, e, a);
  }

  /** Asked for late, it is led by somebody else. */
  lemma LateLeader(p: Plan, f: nat -> bool, e: nat)
    requires Around(p, e) && LateBefore(f, e + 1)
    ensures Leader(p, f, e) != Leader(p, f, Oldest(e))
  {
    var slow, oldest := SlowEpoch(p.members, e), Oldest(e);
    var a := Leader(p, f, oldest);
    var x := Rival(p, f, e);
    Biases(p, e);
    Recorded(p, e, x);
    forall r ensures Total(p, f, e, r) == Share(p, f, e, r, slow) {
      Decided(p, f, e, e, r, oldest, slow);
      assert !Counts(p, f, e, oldest);
    }
    if slow <= e - 2 {
      SlowLed(p, f, e);
      Recorded(p, e, slow);
      assert Counts(p, f, e, slow);
    } else {
      forall y: nat | y < e - 1 && Counts(p, f, e, y) ensures Leader(p, f, y) != a {
        NotLedAgain(p, f, e, y);
      }
    }
    AboveAverageTrails(p, f, e, a, x);
  }

  /** Whoever leads the fast epoch e leads the next plain epochs that rank on it. */
  lemma LaterLeader(p: Plan, f: nat -> bool, e: nat, z: nat)
    requires Around(p, e) && e + 2 <= z <= e + 3 && Plain(p, z) && !f(z) && Ep(p, Last(p)) >= e
    ensures Leader(p, f, z) == Leader(p, f, e)
  {
    var slow := SlowEpoch(p.members, e);
    var i, j := if slow < e then slow else e, if slow < e then e else slow;
    Recorded(p, e, e);
    Biases(p, e);
    LeaderIsMember(p, f, e);
    assert !Counts(p, f, z, Oldest(e)) && Counts(p, f, z, e);
    forall r ensures Total(p, f, z, r) == Share(p, f, z, r, slow) + Share(p, f, z, r, e) {
      Decided(p, f, e, z, r, i, j);
    }
    BelowAverageLeads(p, f, z, Leader(p, f, e));
  }
}
