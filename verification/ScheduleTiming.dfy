/**
 When a cached schedule does not depend on when it was asked for. The reference order of
 an epoch is a function of the committed steps since the tuner was created or last
 reconfigured, and of which epochs were first asked for at the earliest possible moment.
 */
module ScheduleTiming {
  import opened Types
  import opened Schedule

  /**
   What all replicas share: the epoch size, the members, the slot after which recording
   starts (0, or the anchor of the last reconfiguration) and the steps of the slots after it.
   */
  datatype Plan = Plan(size: nat, members: seq<ReplicaId>, from: Slot, steps: seq<Step>)

  function Last(p: Plan): Slot {
    p.from + |p.steps|
  }

  function StepOf(p: Plan, slot: Slot): Step
    requires p.from < slot <= Last(p)
  {
    p.steps[slot - p.from - 1]
  }

  predicate Sound(p: Plan) {
    p.size > 0 && p.members != [] && Distinct(p.members)
  }

  function Ep(p: Plan, slot: Slot): nat
    requires p.size > 0
  {
    EpochOf(p.size, slot)
  }

  // ----- Epochs -----

  lemma Scaled(x: nat, y: nat, k: nat)
    ensures x <= y ==> x * k <= y * k
  {
  }

  lemma QuotientBounds(a: nat, k: nat)
    requires k > 0
    ensures (a / k) * k <= a < (a / k + 1) * k
  {
    assert a == k * (a / k) + a % k;
  }

  /** A slot lies in an epoch or a later one exactly if the epoch's first slot is not beyond it. */
  lemma ReachedExactly(p: Plan, slot: Slot, epoch: nat)
    requires p.size > 0
    ensures Ep(p, slot) >= epoch <==> epoch * p.size <= slot
  {
    QuotientBounds(slot, p.size);
    MultiplesBelow(slot, Ep(p, slot), epoch, p.size);
  }

  lemma MultiplesBelow(a: nat, q: nat, x: nat, k: nat)
    requires q * k <= a < (q + 1) * k
    ensures q >= x <==> x * k <= a
  {
    Scaled(x, q, k);
    Scaled(q + 1, x, k);
  }

  lemma EpochsGrow(p: Plan, a: Slot, b: Slot)
    requires p.size > 0 && a <= b
    ensures Ep(p, a) <= Ep(p, b)
  {
    ReachedExactly(p, a, Ep(p, a));
    ReachedExactly(p, b, Ep(p, a));
  }

  lemma NextEpoch(p: Plan, n: Slot)
    requires p.size > 0
    ensures Ep(p, n) <= Ep(p, n + 1) <= Ep(p, n) + 1
  {
    EpochsGrow(p, n, n + 1);
    var q := Ep(p, n);
    assert (q + 2) * p.size == (q + 1) * p.size + p.size;
    ReachedExactly(p, n, q + 1);
    ReachedExactly(p, n + 1, q + 2);
  }

  /** The commit requirement in terms of epochs: the next slot lies in the epoch before, or later. */
  lemma RequirementMet(p: Plan, epoch: nat, n: Slot)
    requires p.size > 0 && epoch >= 2
    ensures n >= Required(p.size, epoch) <==> Ep(p, n + 1) >= epoch - 1
  {
    Scaled(1, epoch - 1, p.size);
    ReachedExactly(p, n + 1, epoch - 1);
  }

  // ----- What the committed steps say about an epoch -----

  /** The recorded slot count of an epoch after n slots. */
  function SlotsIn(p: Plan, epoch: nat, n: Slot): nat
    requires p.size > 0 && n <= Last(p)
  {
    if n <= p.from then 0
    else if Ep(p, n) == epoch then SaturatingAdd(SlotsIn(p, epoch, n - 1), 1)
    else SlotsIn(p, epoch, n - 1)
  }

  function StepsIn(p: Plan, epoch: nat, n: Slot): nat
    requires p.size > 0 && n <= Last(p)
  {
    if n <= p.from then 0
    else if Ep(p, n) == epoch then SaturatingAdd(StepsIn(p, epoch, n - 1), StepOf(p, n))
    else StepsIn(p, epoch, n - 1)
  }

  /** Once the next slot is in a later epoch, an epoch's counts are final. */
  lemma {:induction false} CountsFinal(p: Plan, epoch: nat, n: Slot, m: Slot)
    requires p.size > 0 && n <= m <= Last(p) && Ep(p, n + 1) > epoch
    ensures SlotsIn(p, epoch, n) == SlotsIn(p, epoch, m) && StepsIn(p, epoch, n) == StepsIn(p, epoch, m)
    decreases m
  {
    if n < m {
      EpochsGrow(p, n + 1, m);
      CountsFinal(p, epoch, n, m - 1);
    }
  }

  lemma {:induction false} NothingYet(p: Plan, epoch: nat, n: Slot)
    requires p.size > 0 && n <= Last(p) && Ep(p, n) < epoch
    ensures SlotsIn(p, epoch, n) == 0 && StepsIn(p, epoch, n) == 0
  {
    if n > 0 {
      EpochsGrow(p, n - 1, n);
      NothingYet(p, epoch, n - 1);
    }
  }

  /** The first epoch that can have a recorded slot. */
  function Base(p: Plan): nat
    requires p.size > 0
  {
    Ep(p, p.from + 1)
  }

  /** An epoch that has been reached since has a recorded slot. */
  lemma {:induction false} ReachedHasSlots(p: Plan, epoch: nat, n: Slot)
    requires p.size > 0 && p.from < n <= Last(p) && Base(p) <= epoch <= Ep(p, n)
    ensures SlotsIn(p, epoch, n) > 0
  {
    if Ep(p, n) != epoch {
      NextEpoch(p, n - 1);
      ReachedHasSlots(p, epoch, n - 1);
    }
  }

  lemma {:induction false} NoSlotsBefore(p: Plan, epoch: nat, n: Slot)
    requires p.size > 0 && n <= Last(p) && epoch < Base(p)
    ensures SlotsIn(p, epoch, n) == 0
  {
    if n > p.from {
      EpochsGrow(p, p.from + 1, n);
      NoSlotsBefore(p, epoch, n - 1);
    }
  }

  // ----- The reference order -----

  function Floor(epoch: nat): nat {
    if epoch < RETAINED_STAT_EPOCHS then 0 else epoch - RETAINED_STAT_EPOCHS
  }

  /** The first epoch whose statistics count, for an order derived early or late. */
  function WindowStart(early: nat -> bool, epoch: nat): nat
    requires epoch >= 2
  {
    Floor(if early(epoch) then epoch - 2 else epoch - 1)
  }

  function First(order: seq<ReplicaId>): ReplicaId {
    if order == [] then 0 else order[0]
  }

  /** The order of an epoch, from the committed steps alone. */
  function Order(p: Plan, early: nat -> bool, epoch: nat): seq<ReplicaId>
    requires Sound(p)
    decreases epoch, 1
  {
    if epoch < WarmupEpochs(p.members) then WarmupOrder(p.members, epoch)
    else RankedOrder(p.members, Window(p, early, epoch), epoch)
  }

  function StatOf(p: Plan, early: nat -> bool, epoch: nat): EpochStat
    requires Sound(p)
    decreases epoch, 2
  {
    EpochStat(First(Order(p, early, epoch)), SlotsIn(p, epoch, Last(p)), StepsIn(p, epoch, Last(p)))
  }

  function Window(p: Plan, early: nat -> bool, epoch: nat): map<nat, EpochStat>
    requires Sound(p) && epoch >= 2
    decreases epoch, 0
  {
    map x | WindowStart(early, epoch) <= x < epoch - 1 && SlotsIn(p, x, Last(p)) > 0 :: StatOf(p, early, x)
  }

  lemma {:induction false} TotalsDependOn(a: map<nat, EpochStat>, b: map<nat, EpochStat>, n: nat)
    requires forall x :: 0 <= x < n ==> (x in a <==> x in b)
    requires forall x :: 0 <= x < n && x in a ==> a[x] == b[x]
    ensures TotalsOf(a, n) == TotalsOf(b, n)
  {
    if n > 0 {
      TotalsDependOn(a, b, n - 1);
    }
  }

  // ----- Where the moment can make a difference -----

  /** The epoch that counts only if this one is asked for at the first possible moment. */
  function Oldest(epoch: nat): nat
    requires epoch >= RETAINED_STAT_EPOCHS + 2
  {
    epoch - RETAINED_STAT_EPOCHS - 2
  }

  /** The order is ranked, and the moment decides whether a recorded epoch counts. */
  predicate Tips(p: Plan, epoch: nat)
    requires p.size > 0
  {
    epoch >= WarmupEpochs(p.members) && epoch >= RETAINED_STAT_EPOCHS + 2 && Base(p) <= Oldest(epoch)
  }

  /** The leader of this epoch can depend on the moment at which it is asked for. */
  predicate Sensitive(p: Plan, epoch: nat)
    requires p.size > 0
  {
    |p.members| >= 2 && Tips(p, epoch) && !Reexplores(p.members, epoch)
  }

  ghost predicate SameTiming(p: Plan, a: nat -> bool, b: nat -> bool, epoch: nat)
    requires p.size > 0
  {
    && (Tips(p, epoch) ==> a(epoch) == b(epoch))
    && forall e: nat :: e + 1 < epoch && Sensitive(p, e) ==> a(e) == b(e)
  }

  lemma SameWindow(p: Plan, a: nat -> bool, b: nat -> bool, epoch: nat, x: nat)
    requires Sound(p) && epoch >= WarmupEpochs(p.members) && (Tips(p, epoch) ==> a(epoch) == b(epoch))
    requires x < epoch - 1 && First(Order(p, a, x)) == First(Order(p, b, x))
    ensures x in Window(p, a, epoch) <==> x in Window(p, b, epoch)
    ensures x in Window(p, a, epoch) ==> Window(p, a, epoch)[x] == Window(p, b, epoch)[x]
  {
    if x < Base(p) {
      NoSlotsBefore(p, x, Last(p));
    }
    assert x in Window(p, a, epoch) ==> Window(p, a, epoch)[x] == StatOf(p, a, x);
    assert x in Window(p, b, epoch) ==> Window(p, b, epoch)[x] == StatOf(p, b, x);
  }

  /** A re-explored epoch is led by the member whose turn it is, whatever the statistics say. */
  lemma ReexploredLeader(p: Plan, early: nat -> bool, epoch: nat)
    requires Sound(p) && epoch >= WarmupEpochs(p.members) && Reexplores(p.members, epoch)
    ensures First(Order(p, early, epoch)) == Candidate(p.members, epoch)
  {
  }

  lemma OnlyLeader(p: Plan, early: nat -> bool, epoch: nat)
    requires Sound(p) && |p.members| == 1
    ensures First(Order(p, early, epoch)) == p.members[0]
  {
    OrderNonempty(p, early, epoch);
    assert Order(p, early, epoch)[0] in multiset(p.members);
  }

  lemma {:induction false} OrderDependsOn(p: Plan, a: nat -> bool, b: nat -> bool, epoch: nat)
    requires Sound(p) && SameTiming(p, a, b, epoch)
    ensures Order(p, a, epoch) == Order(p, b, epoch)
    decreases epoch, 0
  {
    if epoch >= WarmupEpochs(p.members) {
      forall x | 0 <= x < epoch - 1
        ensures x in Window(p, a, epoch) <==> x in Window(p, b, epoch)
        ensures x in Window(p, a, epoch) ==> Window(p, a, epoch)[x] == Window(p, b, epoch)[x]
      {
        LeaderDependsOn(p, a, b, x);
        SameWindow(p, a, b, epoch, x);
      }
      TotalsDependOn(Window(p, a, epoch), Window(p, b, epoch), epoch - 1);
    }
  }

  /** The leader depends on the moment of fewer epochs than the order behind it. */
  lemma {:induction false} LeaderDependsOn(p: Plan, a: nat -> bool, b: nat -> bool, epoch: nat)
    requires Sound(p) && forall e: nat :: e <= epoch && e + 1 != epoch && Sensitive(p, e) ==> a(e) == b(e)
    ensures First(Order(p, a, epoch)) == First(Order(p, b, epoch))
    decreases epoch, 1
  {
    if |p.members| == 1 {
      OnlyLeader(p, a, epoch);
      OnlyLeader(p, b, epoch);
    } else if epoch >= WarmupEpochs(p.members) && Reexplores(p.members, epoch) {
      ReexploredLeader(p, a, epoch);
      ReexploredLeader(p, b, epoch);
    } else {
      OrderDependsOn(p, a, b, epoch);
    }
  }

  // ----- The tuner against the reference -----

  /** A reference: the order of every epoch. */
  type Orders = nat -> seq<ReplicaId>

  /** The reference for a way of asking. */
  ghost predicate IsReference(p: Plan, early: nat -> bool, orders: Orders)
    requires Sound(p)
  {
    forall e :: orders(e) == Order(p, early, e)
  }

  /** The statistics are those of the reference, as far as they are recorded and retained. */
  ghost predicate StatsFrom(p: Plan, orders: Orders, t: Tuner, floor: nat)
    requires p.size > 0 && p.from <= t.statsThrough <= Last(p)
  {
    var n := t.statsThrough;
    && (forall x :: x in t.stats <==> floor <= x && SlotsIn(p, x, n) > 0)
    && (forall x :: x in t.stats ==> t.stats[x] == EpochStat(First(orders(x)), SlotsIn(p, x, n), StepsIn(p, x, n)))
  }

  /** What is cached and retained is the reference order. */
  ghost predicate CachedRight(orders: Orders, schedules: map<nat, seq<ReplicaId>>, floor: nat) {
    forall e :: e in schedules && e >= floor ==> schedules[e] == orders(e)
  }

  /** Every retained epoch with a recorded slot is cached. */
  ghost predicate RecordedCached(p: Plan, schedules: map<nat, seq<ReplicaId>>, floor: nat, n: Slot)
    requires p.size > 0 && n <= Last(p)
  {
    forall x :: x >= floor && SlotsIn(p, x, n) > 0 ==> x in schedules
  }

  /** Nothing is cached before it could be derived. */
  predicate CachedInTime(p: Plan, schedules: map<nat, seq<ReplicaId>>, next: nat) {
    forall e :: e in schedules && e >= WarmupEpochs(p.members) ==> next >= e - 1
  }

  ghost predicate SchedulesOk(p: Plan, orders: Orders, t: Tuner)
    requires p.size > 0 && p.from <= t.statsThrough <= Last(p)
  {
    var n := t.statsThrough;
    && CachedRight(orders, t.schedules, Floor(Ep(p, n)))
    && RecordedCached(p, t.schedules, Floor(Ep(p, n)), n)
    && CachedInTime(p, t.schedules, Ep(p, n + 1))
  }

  ghost predicate Matches(p: Plan, orders: Orders, t: Tuner) {
    && Sound(p) && p.from <= t.statsThrough <= Last(p)
    && t.epochSize == p.size && t.members == p.members && t.auto
    && StatsFrom(p, orders, t, Floor(Ep(p, t.statsThrough))) && SchedulesOk(p, orders, t)
  }

  /** The epoch is retained, and asking for it now derives it. */
  predicate DerivesNow(p: Plan, t: Tuner, epoch: nat)
    requires p.size > 0 && t.members != []
  {
    epoch !in t.schedules && epoch >= Floor(Ep(p, t.statsThrough)) && Derive(t, epoch).Ok?
  }

  lemma DeriveNeeds(p: Plan, t: Tuner, epoch: nat)
    requires p.size > 0 && t.epochSize == p.size && t.members != [] && epoch >= WarmupEpochs(t.members)
    ensures Derive(t, epoch).Ok? <==> Ep(p, t.statsThrough + 1) >= epoch - 1
  {
    RequirementMet(p, epoch, t.statsThrough);
  }

  /** An epoch is derived in one of the two epochs before its own, unless recording started after it. */
  lemma DerivedInTime(p: Plan, t: Tuner, epoch: nat)
    requires p.size > 0 && p.from <= t.statsThrough <= Last(p)
    requires t.epochSize == p.size && t.members == p.members && t.members != [] && epoch >= WarmupEpochs(t.members)
    requires DerivesNow(p, t, epoch) && RecordedCached(p, t.schedules, Floor(Ep(p, t.statsThrough)), t.statsThrough)
    ensures Ep(p, t.statsThrough) < epoch || epoch <= Base(p)
    ensures epoch - 2 <= Ep(p, t.statsThrough) && epoch - 1 <= Ep(p, t.statsThrough + 1)
  {
    var n := t.statsThrough;
    DeriveNeeds(p, t, epoch);
    NextEpoch(p, n);
    if Base(p) < epoch <= Ep(p, n) {
      EpochsGrow(p, p.from, p.from + 1);
      ReachedHasSlots(p, epoch, n);
    }
  }

  /** What the tuner derives is the reference order. */
  lemma DerivesReference(p: Plan, early: nat -> bool, orders: Orders, t: Tuner, epoch: nat)
    requires Matches(p, orders, t) && IsReference(p, early, orders) && DerivesNow(p, t, epoch)
    requires epoch >= WarmupEpochs(p.members) ==> (early(epoch) <==> Ep(p, t.statsThrough) == epoch - 2)
    ensures Derive(t, epoch).value == orders(epoch)
  {
    if epoch >= WarmupEpochs(p.members) {
      DerivedInTime(p, t, epoch);
      TotalsMatch(p, early, orders, t, epoch);
    }
    assert orders(epoch) == Order(p, early, epoch);
  }

  lemma TotalsMatch(p: Plan, early: nat -> bool, orders: Orders, t: Tuner, epoch: nat)
    requires Sound(p) && p.from <= t.statsThrough <= Last(p) && IsReference(p, early, orders)
    requires StatsFrom(p, orders, t, Floor(Ep(p, t.statsThrough)))
    requires 2 <= epoch && epoch - 1 <= Ep(p, t.statsThrough + 1)
    requires WindowStart(early, epoch) == Floor(Ep(p, t.statsThrough)) || epoch <= Base(p)
    ensures TotalsOf(t.stats, epoch - 1) == TotalsOf(Window(p, early, epoch), epoch - 1)
  {
    forall x | 0 <= x < epoch - 1
      ensures x in t.stats <==> x in Window(p, early, epoch)
      ensures x in t.stats ==> t.stats[x] == Window(p, early, epoch)[x]
    {
      SameStat(p, early, orders, t, epoch, x);
    }
    TotalsDependOn(t.stats, Window(p, early, epoch), epoch - 1);
  }

  lemma SameStat(p: Plan, early: nat -> bool, orders: Orders, t: Tuner, epoch: nat, x: nat)
    requires Sound(p) && p.from <= t.statsThrough <= Last(p) && IsReference(p, early, orders)
    requires StatsFrom(p, orders, t, Floor(Ep(p, t.statsThrough)))
    requires x < epoch - 1 <= Ep(p, t.statsThrough + 1)
    requires WindowStart(early, epoch) == Floor(Ep(p, t.statsThrough)) || epoch <= Base(p)
    ensures x in t.stats <==> x in Window(p, early, epoch)
    ensures x in t.stats ==> t.stats[x] == Window(p, early, epoch)[x]
  {
    CountsFinal(p, x, t.statsThrough, Last(p));
    if x < Base(p) {
      NoSlotsBefore(p, x, Last(p));
    }
    assert orders(x) == Order(p, early, x);
    assert x in Window(p, early, epoch) ==> Window(p, early, epoch)[x] == StatOf(p, early, x);
  }

  lemma OrderNonempty(p: Plan, early: nat -> bool, epoch: nat)
    requires Sound(p)
    ensures Permutes(Order(p, early, epoch), p.members) && Order(p, early, epoch) != []
  {
    var order := Order(p, early, epoch);
    if epoch < WarmupEpochs(p.members) {
      RotatedPermutes(p.members, epoch % |p.members|);
    } else {
      RankedPermutes(p.members, Window(p, early, epoch), epoch);
    }
    assert |order| == |multiset(order)| == |multiset(p.members)|;
  }

  // ----- What every call keeps -----

  lemma CachedOk(p: Plan, orders: Orders, s: map<nat, seq<ReplicaId>>, floor: nat, n: Slot, next: nat, epoch: nat,
                 order: seq<ReplicaId>)
    requires p.size > 0 && n <= Last(p)
    requires CachedRight(orders, s, floor) && RecordedCached(p, s, floor, n) && CachedInTime(p, s, next)
    requires epoch >= floor ==> order == orders(epoch)
    requires epoch >= WarmupEpochs(p.members) ==> next >= epoch - 1
    ensures var s' := s[epoch := order];
            CachedRight(orders, s', floor) && RecordedCached(p, s', floor, n) && CachedInTime(p, s', next)
  {
  }

  /** Asking keeps the tuner on the reference and answers with it, unless the epoch has been forgotten. */
  lemma QueryKeeps(p: Plan, orders: Orders, t: Tuner, epoch: nat)
    requires Matches(p, orders, t) && (DerivesNow(p, t, epoch) ==> Derive(t, epoch).value == orders(epoch))
    ensures var (t', r) := EnsureSchedule(t, epoch);
            && Matches(p, orders, t')
            && (r.Ok? && epoch >= Floor(Ep(p, t.statsThrough)) ==> r.value == orders(epoch))
  {
    var n := t.statsThrough;
    if epoch !in t.schedules && Derive(t, epoch).Ok? {
      if epoch >= WarmupEpochs(p.members) {
        DeriveNeeds(p, t, epoch);
      }
      CachedOk(p, orders, t.schedules, Floor(Ep(p, n)), n, Ep(p, n + 1), epoch, Derive(t, epoch).value);
    }
  }

  lemma RecordKeeps(p: Plan, orders: Orders, t: Tuner, epoch: nat, leader: ReplicaId, floor: nat)
    requires p.size > 0 && p.from <= t.statsThrough < Last(p) && StatsFrom(p, orders, t, floor) && floor <= epoch
    requires epoch == Ep(p, t.statsThrough + 1) && leader == First(orders(epoch))
    ensures var t' := Recorded(t, epoch, leader, t.statsThrough + 1, StepOf(p, t.statsThrough + 1));
            StatsFrom(p, orders, t', floor)
  {
    if epoch !in t.stats {
      assert SlotsIn(p, epoch, t.statsThrough) == 0;
      NoSlotsNoSteps(p, epoch, t.statsThrough);
    }
  }

  lemma {:induction false} NoSlotsNoSteps(p: Plan, epoch: nat, n: Slot)
    requires p.size > 0 && n <= Last(p) && SlotsIn(p, epoch, n) == 0
    ensures StepsIn(p, epoch, n) == 0
  {
    if n > p.from {
      NoSlotsNoSteps(p, epoch, n - 1);
    }
  }

  lemma ForgetKeeps(p: Plan, orders: Orders, t: Tuner, floor: nat, epoch: nat)
    requires p.size > 0 && p.from <= t.statsThrough <= Last(p) && StatsFrom(p, orders, t, floor)
             && floor <= Floor(epoch)
    ensures StatsFrom(p, orders, Forget(t, epoch), Floor(epoch))
  {
  }

  /** The tuner is on the reference, one slot further, and has kept what it still retains. */
  ghost predicate NotedTo(p: Plan, orders: Orders, t: Tuner, t': Tuner)
    requires p.size > 0
  {
    && Matches(p, orders, t') && t'.statsThrough == t.statsThrough + 1
    && forall e :: e in t.schedules && e >= Floor(Ep(p, t'.statsThrough)) ==> e in t'.schedules
  }

  /** Recording the next slot keeps the tuner on the reference, and always succeeds. */
  lemma NoteKeeps(p: Plan, orders: Orders, t: Tuner)
    requires Matches(p, orders, t) && t.statsThrough < Last(p)
    requires var epoch := Ep(p, t.statsThrough + 1);
             orders(epoch) != [] && (DerivesNow(p, t, epoch) ==> Derive(t, epoch).value == orders(epoch))
    ensures var (t', r) := NoteCommitted(t, t.statsThrough + 1, StepOf(p, t.statsThrough + 1));
            r == Ok(true) && NotedTo(p, orders, t, t')
  {
    var n := t.statsThrough;
    var epoch := Ep(p, n + 1);
    NextEpoch(p, n);
    NoteDerives(p, t);
    QueryKeeps(p, orders, t, epoch);
    var t1 := EnsureSchedule(t, epoch).0;
    RecordedTo(p, orders, t1);
    NotedTo1(p, orders, t, t1, Forget(Recorded(t1, epoch, orders(epoch)[0], n + 1, StepOf(p, n + 1)), epoch));
  }

  lemma NotedTo1(p: Plan, orders: Orders, t: Tuner, t1: Tuner, t': Tuner)
    requires p.size > 0 && NotedTo(p, orders, t1, t') && t1.statsThrough == t.statsThrough
    requires forall e :: e in t.schedules ==> e in t1.schedules
    ensures NotedTo(p, orders, t, t')
  {
  }

  lemma RecordedTo(p: Plan, orders: Orders, t: Tuner)
    requires Matches(p, orders, t) && t.statsThrough < Last(p)
    requires var epoch := Ep(p, t.statsThrough + 1); epoch in t.schedules && orders(epoch) != []
    ensures var n, epoch := t.statsThrough + 1, Ep(p, t.statsThrough + 1);
            NotedTo(p, orders, t, Forget(Recorded(t, epoch, orders(epoch)[0], n, StepOf(p, n)), epoch))
  {
    var n, epoch, floor := t.statsThrough + 1, Ep(p, t.statsThrough + 1), Floor(Ep(p, t.statsThrough));
    NextEpoch(p, t.statsThrough);
    var t2 := Recorded(t, epoch, orders(epoch)[0], n, StepOf(p, n));
    RecordKeeps(p, orders, t, epoch, orders(epoch)[0], floor);
    ForgetKeeps(p, orders, t2, floor, epoch);
    NotedSchedules(p, orders, t, t2);
    ForgetSchedules(t2, epoch);
  }

  lemma NoteDerives(p: Plan, t: Tuner)
    requires p.size > 0 && t.epochSize == p.size && t.members == p.members && t.members != [] && t.auto
    ensures var epoch := Ep(p, t.statsThrough + 1);
            EnsureSchedule(t, epoch).1.Ok? && epoch in EnsureSchedule(t, epoch).0.schedules
  {
    var epoch := Ep(p, t.statsThrough + 1);
    if epoch >= WarmupEpochs(p.members) {
      DeriveNeeds(p, t, epoch);
    }
  }

  lemma NotedSchedules(p: Plan, orders: Orders, t1: Tuner, t2: Tuner)
    requires p.size > 0 && p.from <= t1.statsThrough < Last(p) && SchedulesOk(p, orders, t1)
    requires t2.statsThrough == t1.statsThrough + 1 && t2.schedules == t1.schedules
    requires Ep(p, t2.statsThrough) in t1.schedules
    ensures SchedulesOk(p, orders, Forget(t2, Ep(p, t2.statsThrough)))
  {
    var n := t2.statsThrough;
    var floor, epoch, next := Floor(Ep(p, n - 1)), Ep(p, n), Ep(p, n + 1);
    EpochsGrow(p, n - 1, n);
    EpochsGrow(p, n, n + 1);
    ForgetSchedules(t2, epoch);
    RetainedSchedules(p, orders, t1.schedules, Forget(t2, epoch).schedules, floor, Floor(epoch), epoch, next);
    RetainedRecorded(p, t1.schedules, Forget(t2, epoch).schedules, floor, Floor(epoch), n);
  }

  lemma RetainedRecorded(p: Plan, s: map<nat, seq<ReplicaId>>, s': map<nat, seq<ReplicaId>>, floor: nat, floor': nat,
                         n: Slot)
    requires p.size > 0 && p.from < n <= Last(p) && RecordedCached(p, s, floor, n - 1) && floor <= floor'
             && Ep(p, n) in s
    requires forall e :: e in s && e >= floor' ==> e in s'
    ensures RecordedCached(p, s', floor', n)
  {
    forall x | x >= floor' && SlotsIn(p, x, n) > 0 ensures x in s' {
      assert x == Ep(p, n) || SlotsIn(p, x, n) == SlotsIn(p, x, n - 1);
    }
  }

  lemma ForgetSchedules(t: Tuner, epoch: nat)
    ensures var t' := Forget(t, epoch);
            && (forall e :: e in t'.schedules <==> e in t.schedules && e >= Floor(epoch))
            && forall e :: e in t'.schedules ==> t'.schedules[e] == t.schedules[e]
  {
  }

  lemma RetainedSchedules(p: Plan, orders: Orders, s: map<nat, seq<ReplicaId>>, s': map<nat, seq<ReplicaId>>,
                          floor: nat, floor': nat, next: nat, next': nat)
    requires CachedRight(orders, s, floor) && CachedInTime(p, s, next) && floor <= floor' && next <= next'
    requires forall e :: e in s' ==> e in s && s'[e] == s[e]
    ensures CachedRight(orders, s', floor') && CachedInTime(p, s', next')
  {
  }

  // ----- Histories -----

  /** The next slot is recorded, or somebody asks for an epoch. */
  datatype Event = Note | Query(epoch: nat)

  function Noted(events: seq<Event>): nat {
    if events == [] then 0 else Noted(events[..|events| - 1]) + if events[|events| - 1].Note? then 1 else 0
  }

  function Happens(p: Plan, t: Tuner, e: Event): Tuner
    requires Sound(p) && t.members != [] && t.epochSize > 0
  {
    match e
    case Note =>
      if p.from <= t.statsThrough < Last(p) then NoteCommitted(t, t.statsThrough + 1, StepOf(p, t.statsThrough + 1)).0
          else t
    case Query(epoch) => EnsureSchedule(t, epoch).0
  }

  /** The moment at which an order can first be derived: the last slot of the epoch two before is recorded. */
  predicate AtBoundary(p: Plan, n: Slot, epoch: nat)
    requires p.size > 0
  {
    epoch >= 2 && Ep(p, n) == epoch - 2 && Ep(p, n + 1) == epoch - 1
  }

  ghost predicate Early(p: Plan, events: seq<Event>, epoch: nat)
    requires p.size > 0
  {
    exists k :: 0 <= k < |events| && AsksAtBoundary(p, events, k, epoch)
  }

  predicate AsksAtBoundary(p: Plan, events: seq<Event>, k: nat, epoch: nat)
    requires p.size > 0 && k < |events|
  {
    events[k] == Query(epoch) && AtBoundary(p, Reached(p, events[..k]), epoch)
  }

  /** A tuner that has just been created, or reconfigured at the plan's first slot. */
  function Started(p: Plan): Tuner {
    Tuner(p.size, p.members, true, map[], map[], p.from)
  }

  function Run(p: Plan, start: Tuner, events: seq<Event>): (t: Tuner)
    requires Sound(p) && start.members == p.members && start.epochSize == p.size
    ensures t.members == p.members && t.epochSize == p.size
  {
    if events == [] then start else Happens(p, Run(p, start, events[..|events| - 1]), events[|events| - 1])
  }

  function After(p: Plan, events: seq<Event>): (t: Tuner)
    requires Sound(p)
    ensures t.members == p.members && t.epochSize == p.size
  {
    Run(p, Started(p), events)
  }

  /** The last slot recorded in a history. */
  function Reached(p: Plan, events: seq<Event>): Slot {
    p.from + Noted(events)
  }

  lemma {:induction false} NotedGrows(events: seq<Event>, j: nat, k: nat)
    requires j <= k <= |events|
    ensures Noted(events[..j]) <= Noted(events[..k])
    decreases k
  {
    if j < k {
      NotedGrows(events, j, k - 1);
      assert events[..k][..k - 1] == events[..k - 1];
    }
  }

  /** Everything asked for at its boundary so far, and not forgotten since, is cached. */
  ghost predicate AskedIsCached(p: Plan, events: seq<Event>, k: nat, t: Tuner)
    requires p.size > 0 && k <= |events|
  {
    forall j: nat, e: nat :: j < k && AsksAtBoundary(p, events, j, e) && e >= Floor(Ep(p, t.statsThrough)) ==>
        e in t.schedules
  }

  /** When the k-th event derives an epoch, it is early exactly if this is its boundary. */
  lemma EventTimed(p: Plan, events: seq<Event>, k: nat, t: Tuner, orders: Orders, early: nat -> bool, epoch: nat)
    requires Matches(p, orders, t) && k < |events| && t.statsThrough == Reached(p, events[..k])
    requires forall e :: early(e) <==> Early(p, events, e)
    requires AskedIsCached(p, events, k, t)
    requires events[k] == Query(epoch) || epoch == Ep(p, t.statsThrough + 1)
    requires DerivesNow(p, t, epoch) && epoch >= WarmupEpochs(p.members)
    ensures early(epoch) <==> Ep(p, t.statsThrough) == epoch - 2
  {
    var n := t.statsThrough;
    DerivedInTime(p, t, epoch);
    NextEpoch(p, n);
    if Ep(p, n) == epoch - 2 {
      assert AsksAtBoundary(p, events, k, epoch);
    } else {
      forall j | 0 <= j < |events| ensures !AsksAtBoundary(p, events, j, epoch) {
        if j >= k {
          NotedGrows(events, k, j);
          EpochsGrow(p, n, Reached(p, events[..j]));
        }
      }
    }
  }

  /** What the k-th event derives is the reference order. */
  lemma EventDerives(p: Plan, events: seq<Event>, k: nat, t: Tuner, orders: Orders, early: nat -> bool, epoch: nat)
    requires Matches(p, orders, t) && k < |events| && t.statsThrough == Reached(p, events[..k])
    requires IsReference(p, early, orders) && forall e :: early(e) <==> Early(p, events, e)
    requires AskedIsCached(p, events, k, t)
    requires events[k] == Query(epoch) || epoch == Ep(p, t.statsThrough + 1)
    ensures DerivesNow(p, t, epoch) ==> Derive(t, epoch).value == orders(epoch)
  {
    if DerivesNow(p, t, epoch) {
      if epoch >= WarmupEpochs(p.members) {
        EventTimed(p, events, k, t, orders, early, epoch);
      }
      DerivesReference(p, early, orders, t, epoch);
    }
  }

  lemma StartMatches(p: Plan, orders: Orders)
    requires Sound(p)
    ensures Matches(p, orders, Started(p))
  {
  }

  /** Along every history the tuner is on the reference of that history. */
  lemma {:induction false} HistoryMatches(p: Plan, events: seq<Event>, early: nat -> bool, orders: Orders, k: nat)
    requires Sound(p) && k <= |events| && Noted(events[..k]) <= |p.steps|
    requires IsReference(p, early, orders) && forall e :: early(e) <==> Early(p, events, e)
    ensures Matches(p, orders, After(p, events[..k])) && After(p, events[..k]).statsThrough == Reached(p, events[..k])
    ensures AskedIsCached(p, events, k, After(p, events[..k]))
    decreases k
  {
    if k == 0 {
      StartMatches(p, orders);
    } else {
      assert events[..k][..k - 1] == events[..k - 1];
      NotedGrows(events, k - 1, k);
      HistoryMatches(p, events, early, orders, k - 1);
      StepMatches(p, events, early, orders, k - 1, After(p, events[..k - 1]));
    }
  }

  lemma StepMatches(p: Plan, events: seq<Event>, early: nat -> bool, orders: Orders, k: nat, t: Tuner)
    requires Matches(p, orders, t) && k < |events| && t.statsThrough == Reached(p, events[..k])
    requires IsReference(p, early, orders) && forall e :: early(e) <==> Early(p, events, e)
    requires AskedIsCached(p, events, k, t) && (events[k].Note? ==> t.statsThrough < Last(p))
    ensures var t' := Happens(p, t, events[k]);
            && Matches(p, orders, t') && t'.statsThrough == t.statsThrough + (if events[k].Note? then 1 else 0)
            && AskedIsCached(p, events, k + 1, t')
  {
    if events[k].Note? {
      NoteStepTo(p, events, early, orders, k, t);
      NoteStepMatches(p, events, orders, k, t, Happens(p, t, Note));
    } else {
      EventDerives(p, events, k, t, orders, early, events[k].epoch);
      QueryStepMatches(p, events, orders, k, t);
    }
  }

  lemma NoteStepTo(p: Plan, events: seq<Event>, early: nat -> bool, orders: Orders, k: nat, t: Tuner)
    requires Matches(p, orders, t) && k < |events| && events[k].Note? && t.statsThrough == Reached(p, events[..k])
    requires IsReference(p, early, orders) && forall e :: early(e) <==> Early(p, events, e)
    requires AskedIsCached(p, events, k, t) && t.statsThrough < Last(p)
    ensures NotedTo(p, orders, t, Happens(p, t, Note))
  {
    var epoch := Ep(p, t.statsThrough + 1);
    EventDerives(p, events, k, t, orders, early, epoch);
    OrderNonempty(p, early, epoch);
    assert orders(epoch) == Order(p, early, epoch);
    NoteKeeps(p, orders, t);
  }

  lemma NoteStepMatches(p: Plan, events: seq<Event>, orders: Orders, k: nat, t: Tuner, t': Tuner)
    requires p.size > 0 && k < |events| && events[k].Note? && AskedIsCached(p, events, k, t)
             && NotedTo(p, orders, t, t')
    ensures Matches(p, orders, t') && t'.statsThrough == t.statsThrough + 1 && AskedIsCached(p, events, k + 1, t')
  {
    AskedStaysCached(p, events, k, orders, t, t');
  }

  lemma AskedStaysCached(p: Plan, events: seq<Event>, k: nat, orders: Orders, t: Tuner, t': Tuner)
    requires p.size > 0 && k < |events| && events[k].Note? && AskedIsCached(p, events, k, t)
             && NotedTo(p, orders, t, t')
    ensures AskedIsCached(p, events, k + 1, t')
  {
    EpochsGrow(p, t.statsThrough, t'.statsThrough);
    forall j: nat, e: nat | j < k + 1 && AsksAtBoundary(p, events, j, e) && e >= Floor(Ep(p, t'.statsThrough))
      ensures e in t'.schedules
    {
      assert j < k;
    }
  }

  lemma QueryStepMatches(p: Plan, events: seq<Event>, orders: Orders, k: nat, t: Tuner)
    requires Matches(p, orders, t) && k < |events| && events[k].Query? && t.statsThrough == Reached(p, events[..k])
    requires DerivesNow(p, t, events[k].epoch) ==> Derive(t, events[k].epoch).value == orders(events[k].epoch)
    requires AskedIsCached(p, events, k, t)
    ensures var t' := Happens(p, t, events[k]);
            Matches(p, orders, t') && t'.statsThrough == t.statsThrough && AskedIsCached(p, events, k + 1, t')
  {
    var epoch := events[k].epoch;
    QueryKeeps(p, orders, t, epoch);
    if AsksAtBoundary(p, events, k, epoch) {
      BoundaryAnswers(p, t, epoch);
    }
  }

  lemma BoundaryAnswers(p: Plan, t: Tuner, epoch: nat)
    requires Sound(p) && t.epochSize == p.size && t.members == p.members && t.auto
    requires AtBoundary(p, t.statsThrough, epoch)
    ensures epoch in EnsureSchedule(t, epoch).0.schedules
  {
    RequirementMet(p, epoch, t.statsThrough);
  }

  /** The tuner answers, with an epoch it still retains. */
  predicate Answers(p: Plan, events: seq<Event>, epoch: nat)
    requires Sound(p)
  {
    && Noted(events) <= |p.steps| && epoch >= Floor(Ep(p, Reached(p, events)))
    && EnsureSchedule(After(p, events), epoch).1.Ok?
  }

  function Answer(p: Plan, events: seq<Event>, epoch: nat): seq<ReplicaId>
    requires Sound(p) && Answers(p, events, epoch)
  {
    EnsureSchedule(After(p, events), epoch).1.value
  }

  /** Whether an epoch has been asked for at the first possible moment, the question for `epoch` included. */
  ghost predicate AskedEarly(p: Plan, events: seq<Event>, epoch: nat, e: nat)
    requires p.size > 0
  {
    Early(p, events + [Query(epoch)], e)
  }

  /** The same epochs were asked for at the boundary, as far as that can make a difference. */
  ghost predicate AskedAlike(p: Plan, a: seq<Event>, b: seq<Event>, epoch: nat)
    requires p.size > 0
  {
    && (Tips(p, epoch) ==> (AskedEarly(p, a, epoch, epoch) <==> AskedEarly(p, b, epoch, epoch)))
    && forall e: nat :: e + 1 < epoch && Sensitive(p, e) ==>
         (AskedEarly(p, a, epoch, e) <==> AskedEarly(p, b, epoch, e))
  }

  lemma AskedAlikeIsSame(p: Plan, a: seq<Event>, b: seq<Event>, epoch: nat, earlyA: nat -> bool, earlyB: nat -> bool)
    requires p.size > 0 && AskedAlike(p, a, b, epoch)
    requires forall e :: earlyA(e) <==> AskedEarly(p, a, epoch, e)
    requires forall e :: earlyB(e) <==> AskedEarly(p, b, epoch, e)
    ensures SameTiming(p, earlyA, earlyB, epoch)
  {
  }

  /** Answers are the reference order of the history that ends with the question. */
  lemma AnswerIsReference(p: Plan, events: seq<Event>, epoch: nat, early: nat -> bool)
    requires Sound(p) && Answers(p, events, epoch)
    requires forall e :: early(e) <==> AskedEarly(p, events, epoch, e)
    ensures Answer(p, events, epoch) == Order(p, early, epoch)
  {
    var all := events + [Query(epoch)];
    assert all[..|events|] == events;
    var orders := (e: nat) => Order(p, early, e);
    HistoryMatches(p, all, early, orders, |events|);
    EventDerives(p, all, |events|, After(p, events), orders, early, epoch);
    QueryKeeps(p, orders, After(p, events), epoch);
  }

  /**
   Two tuners fed from the same committed steps, however far each has got and whatever
   else each was asked, answer alike, if they were asked at the boundary for the same
   epochs among the sensitive ones up to two before, and for the epoch itself if its
   order is ranked and a recorded epoch hangs on it.
   */
  lemma TimingIndependent(p: Plan, a: seq<Event>, b: seq<Event>, epoch: nat)
    requires Sound(p) && Answers(p, a, epoch) && Answers(p, b, epoch)
    requires AskedAlike(p, a, b, epoch)
    ensures Answer(p, a, epoch) == Answer(p, b, epoch)
  {
    var earlyA := (e: nat) => AskedEarly(p, a, epoch, e);
    var earlyB := (e: nat) => AskedEarly(p, b, epoch, e);
    AnswerIsReference(p, a, epoch, earlyA);
    AnswerIsReference(p, b, epoch, earlyB);
    AskedAlikeIsSame(p, a, b, epoch, earlyA, earlyB);
    OrderDependsOn(p, earlyA, earlyB, epoch);
  }

  /** Through epoch 65 the moment never matters. */
  lemma FirstEpochsTimingIndependent(p: Plan, a: seq<Event>, b: seq<Event>, epoch: nat)
    requires Sound(p) && Answers(p, a, epoch) && Answers(p, b, epoch)
    requires epoch < Base(p) + RETAINED_STAT_EPOCHS + 2
    ensures Answer(p, a, epoch) == Answer(p, b, epoch)
  {
    TimingIndependent(p, a, b, epoch);
  }

  /** Reconfiguring discards everything that went before, so the tuners' pasts do not matter either. */
  lemma ReconfiguredTimingIndependent(s: Tuner, t: Tuner, p: Plan, a: seq<Event>, b: seq<Event>, epoch: nat)
    requires Sound(p) && s.auto && t.auto && s.epochSize == t.epochSize == p.size
    requires Answers(p, a, epoch) && Answers(p, b, epoch)
    requires AskedAlike(p, a, b, epoch)
    ensures EnsureSchedule(Run(p, Reconfigure(s, p.members, p.from), a), epoch).1
            == EnsureSchedule(Run(p, Reconfigure(t, p.members, p.from), b), epoch).1
  {
    assert Reconfigure(s, p.members, p.from) == Reconfigure(t, p.members, p.from) == Started(p);
    TimingIndependent(p, a, b, epoch);
  }

  /** The last recorded slot tells whether an answer that was not given before is early. */
  lemma FirstAskIsEarly(p: Plan, events: seq<Event>, epoch: nat)
    requires Sound(p) && !Early(p, events, epoch)
    ensures AskedEarly(p, events, epoch, epoch) <==> AtBoundary(p, Reached(p, events), epoch)
  {
    var all := events + [Query(epoch)];
    assert all[..|events|] == events;
    if AtBoundary(p, Reached(p, events), epoch) {
      assert AsksAtBoundary(p, all, |events|, epoch);
    }
    forall j | 0 <= j < |events| ensures !AsksAtBoundary(p, all, j, epoch) {
      assert all[..j] == events[..j] && !AsksAtBoundary(p, events, j, epoch);
    }
  }

  lemma AnsweredOnTime(p: Plan, events: seq<Event>, epoch: nat)
    requires Sound(p) && epoch >= WarmupEpochs(p.members) && Answers(p, events, epoch)
             && epoch > Ep(p, Reached(p, events))
    ensures AtBoundary(p, Reached(p, events), epoch) <==> Ep(p, Reached(p, events)) == epoch - 2
  {
    HistoryInTime(p, events);
    AnsweredInTime(p, After(p, events), epoch);
    NextEpoch(p, Reached(p, events));
  }

  lemma HistoryInTime(p: Plan, events: seq<Event>)
    requires Sound(p) && Noted(events) <= |p.steps|
    ensures After(p, events).statsThrough == Reached(p, events)
    ensures CachedInTime(p, After(p, events).schedules, Ep(p, Reached(p, events) + 1))
  {
    var orders := HistoryHasReference(p, events);
    MatchesInTime(p, orders, After(p, events));
  }

  lemma MatchesInTime(p: Plan, orders: Orders, t: Tuner)
    requires Matches(p, orders, t)
    ensures CachedInTime(p, t.schedules, Ep(p, t.statsThrough + 1))
  {
  }

  lemma HistoryHasReference(p: Plan, events: seq<Event>) returns (orders: Orders)
    requires Sound(p) && Noted(events) <= |p.steps|
    ensures Matches(p, orders, After(p, events)) && After(p, events).statsThrough == Reached(p, events)
  {
    var early := (e: nat) => Early(p, events, e);
    orders := (e: nat) => Order(p, early, e);
    assert events[..|events|] == events;
    HistoryMatches(p, events, early, orders, |events|);
  }

  lemma AnsweredInTime(p: Plan, t: Tuner, epoch: nat)
    requires p.size > 0 && t.epochSize == p.size && t.members == p.members && t.members != []
    requires CachedInTime(p, t.schedules, Ep(p, t.statsThrough + 1))
    requires epoch >= WarmupEpochs(p.members) && EnsureSchedule(t, epoch).1.Ok?
    ensures Ep(p, t.statsThrough + 1) >= epoch - 1
  {
    if epoch !in t.schedules {
      DeriveNeeds(p, t, epoch);
    }
  }
}
