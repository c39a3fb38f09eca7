/**
 Exactly where timing matters for schedules: a forgotten epoch is answered by identifier
 order; the leader of an epoch depends on the moment of asking for it exactly if the
 epoch is sensitive; and having recorded slots of the same epoch is enough for the same
 leader exactly if no sensitive epoch comes two or more before.
 */
module ScheduleTimingLimits {
  import opened Types
  import opened Schedule
  import opened ScheduleTiming
  import opened ScheduleTilt
  import opened ScheduleTipping

  // ----- Forgotten epochs -----

  lemma {:induction false} NoStatsNoTotals(stats: map<nat, EpochStat>, n: nat)
    requires forall x :: x in stats ==> x >= n
    ensures TotalsOf(stats, n) == map[]
  {
    if n > 0 {
      NoStatsNoTotals(stats, n - 1);
    }
  }

  /** An epoch that is no longer retained is ranked without any sample. */
  lemma ForgottenRankedBlindly(p: Plan, orders: Orders, t: Tuner, epoch: nat)
    requires Matches(p, orders, t) && WarmupEpochs(p.members) <= epoch < Floor(Ep(p, t.statsThrough))
    requires Derive(t, epoch).Ok?
    ensures Derive(t, epoch).value == RankedOrder(p.members, map[], epoch)
  {
    BlindRank(p.members, t.stats, epoch);
  }

  lemma BlindRank(members: seq<ReplicaId>, stats: map<nat, EpochStat>, epoch: nat)
    requires members != [] && epoch >= WarmupEpochs(members) && forall x :: x in stats ==> x >= epoch - 1
    ensures RankedOrder(members, stats, epoch) == RankedOrder(members, map[], epoch)
  {
    NoStatsNoTotals(stats, epoch - 1);
    NoStatsNoTotals(map[], epoch - 1);
  }

  // ----- Two histories that differ in one question -----

  function Notes(n: nat): seq<Event> {
    seq(n, _ => Note)
  }

  /** The slots are recorded one after the other; after the first k of them, somebody asks for e. */
  function Asking(n: nat, k: nat, e: nat): seq<Event>
    requires k <= n
  {
    Notes(k) + [Query(e)] + Notes(n - k)
  }

  lemma {:induction false} NotesCount(n: nat)
    ensures Noted(Notes(n)) == n
  {
    if n > 0 {
      assert Notes(n)[..n - 1] == Notes(n - 1);
      NotesCount(n - 1);
    }
  }

  lemma {:induction false} NotesAfter(events: seq<Event>, n: nat)
    ensures Noted(events + Notes(n)) == Noted(events) + n
  {
    if n == 0 {
      assert events + Notes(0) == events;
    } else {
      assert (events + Notes(n))[..|events| + n - 1] == events + Notes(n - 1);
      NotesAfter(events, n - 1);
    }
  }

  lemma AskingCount(n: nat, k: nat, e: nat)
    requires k <= n
    ensures Noted(Asking(n, k, e)) == n
  {
    NotesCount(k);
    assert (Notes(k) + [Query(e)])[..k] == Notes(k);
    NotesAfter(Notes(k) + [Query(e)], n - k);
  }

  /** Without any other question, only an epoch asked for at its boundary at the end is early. */
  lemma NotesEarly(p: Plan, n: nat, z: nat, x: nat)
    requires p.size > 0 && !AtBoundary(p, p.from + n, z)
    ensures !AskedEarly(p, Notes(n), z, x)
  {
    var all := Notes(n) + [Query(z)];
    NotesCount(n);
    assert all[..n] == Notes(n);
    assert forall j :: 0 <= j < n ==> all[j] == Note;
  }

  lemma AskingEarly(p: Plan, n: nat, k: nat, e: nat, z: nat, x: nat)
    requires p.size > 0 && k <= n && AtBoundary(p, p.from + k, e) && !AtBoundary(p, p.from + n, z)
    ensures AskedEarly(p, Asking(n, k, e), z, x) <==> x == e
  {
    var events := Asking(n, k, e);
    var all := events + [Query(z)];
    NotesCount(k);
    AskingCount(n, k, e);
    assert all[..k] == Notes(k) && all[k] == Query(e);
    assert all[..n + 1] == events && all[n + 1] == Query(z);
    assert AsksAtBoundary(p, all, k, e);
    forall j | 0 <= j < |all| ensures AsksAtBoundary(p, all, j, x) ==> x == e {
      assert j != k && j != n + 1 ==> all[j] == Note;
    }
  }

  // ----- Asking one slot before an epoch begins -----

  /** The last slot of the epoch before z - 1. */
  function Eve(p: Plan, z: nat): Slot
    requires z >= 2 && p.size > 0
  {
    (z - 1) * p.size - 1
  }

  lemma EveIsBoundary(p: Plan, z: nat)
    requires p.size > 0 && z >= 2
    ensures (z - 1) * p.size >= 1
    ensures AtBoundary(p, Eve(p, z), z) && Ep(p, Eve(p, z) + 1) == z - 1
  {
    var first := (z - 1) * p.size;
    Scaled(1, z - 1, p.size);
    assert (z - 2) * p.size == first - p.size && z * p.size == first + p.size;
    ReachedExactly(p, first, z - 1);
    ReachedExactly(p, first, z);
    ReachedExactly(p, first - 1, z - 2);
    ReachedExactly(p, first - 1, z - 1);
  }

  /** The plan tilted around e, as far as the first slot of the epoch before z. */
  function TiltedTo(size: nat, members: seq<ReplicaId>, from: Slot, e: nat, z: nat): Plan
    requires size > 0 && e >= RETAINED_STAT_EPOCHS + 2 && z >= 2 && from <= (z - 1) * size
  {
    Tilt(size, members, from, Oldest(e), e, SlowEpoch(members, e), (z - 1) * size)
  }

  lemma StartsBefore(p: Plan, e: nat, z: nat)
    requires p.size > 0 && Sensitive(p, e) && e <= z
    ensures p.from < Eve(p, e) < (z - 1) * p.size
  {
    ReachedExactly(p, p.from + 1, e - 2);
    Scaled(e - 1, z - 1, p.size);
    assert (e - 1) * p.size == (e - 2) * p.size + p.size;
  }

  lemma TiltedAround(base: Plan, e: nat, z: nat)
    requires Sound(base) && Sensitive(base, e) && e <= z && e * base.size <= U64_MAX && base.from <= (z - 1) * base.size
    ensures var p := TiltedTo(base.size, base.members, base.from, e, z);
            Around(p, e) && Last(p) == (z - 1) * p.size && Ep(p, Last(p)) == z - 1
  {
    var p := TiltedTo(base.size, base.members, base.from, e, z);
    StartsBefore(base, e, z);
    Scaled(RETAINED_STAT_EPOCHS + 2, e, base.size);
    EveIsBoundary(p, z);
    assert Base(p) == Base(base);
    forall slot | p.from < slot <= Last(p)
      ensures StepOf(p, slot) == TiltedStep(p.size, Oldest(e), e, SlowEpoch(p.members, e), slot)
    {
      assert p.steps[slot - p.from - 1] == TiltedStep(p.size, Oldest(e), e, SlowEpoch(p.members, e),
             p.from + 1 + (slot - p.from - 1));
    }
  }

  lemma AnsweredAt(p: Plan, events: seq<Event>, z: nat)
    requires Sound(p) && z >= WarmupEpochs(p.members) && Noted(events) == |p.steps| && Ep(p, Last(p)) == z - 1
    ensures Answers(p, events, z)
  {
    var orders := HistoryHasReference(p, events);
    EpochsGrow(p, Last(p), Last(p) + 1);
    DeriveNeeds(p, After(p, events), z);
  }

  // ----- Where they disagree -----

  /** Both answer, and name different leaders. */
  predicate LeadersDiffer(p: Plan, a: seq<Event>, b: seq<Event>, z: nat)
    requires Sound(p)
  {
    Answers(p, a, z) && Answers(p, b, z) && First(Answer(p, a, z)) != First(Answer(p, b, z))
  }

  /** Over the tilted plan, asking early for e changes the leader of e and of the next plain epochs that rank on it. */
  lemma OneQuestionTips(p: Plan, e: nat, z: nat, n: nat, k: nat)
    requires Around(p, e) && z in {e, e + 2, e + 3} && Plain(p, z) && Last(p) == (z - 1) * p.size
             && Ep(p, Last(p)) == z - 1
    requires k < n == |p.steps| && p.from + k == Eve(p, e)
    ensures LeadersDiffer(p, Asking(n, k, e), Notes(n), z)
    ensures forall x :: AskedEarly(p, Asking(n, k, e), z, x) <==> x == e
    ensures forall x :: !AskedEarly(p, Notes(n), z, x)
  {
    var a, b := Asking(n, k, e), Notes(n);
    AskingCount(n, k, e);
    NotesCount(n);
    EveIsBoundary(p, e);
    forall x ensures AskedEarly(p, a, z, x) <==> x == e {
      AskingEarly(p, n, k, e, z, x);
    }
    forall x ensures !AskedEarly(p, b, z, x) {
      NotesEarly(p, n, z, x);
    }
    AnsweredAt(p, a, z);
    AnsweredAt(p, b, z);
    var early, late := (x: nat) => x == e, (x: nat) => false;
    AnswerIsReference(p, a, z, early);
    AnswerIsReference(p, b, z, late);
    LeadersTip(p, early, late, e, z);
  }

  lemma LeadersTip(p: Plan, early: nat -> bool, late: nat -> bool, e: nat, z: nat)
    requires Around(p, e) && z in {e, e + 2, e + 3} && Plain(p, z) && Ep(p, Last(p)) == z - 1
    requires (forall x :: early(x) <==> x == e) && forall x :: !late(x)
    ensures Leader(p, early, z) != Leader(p, late, z)
  {
    EarlyLeader(p, early, e);
    LateLeader(p, late, e);
    LeaderDependsOn(p, early, late, Oldest(e));
    if z != e {
      LaterLeader(p, early, e, z);
      LaterLeader(p, late, e, z);
    }
  }

  /** Up to the given epoch itself, both were asked for the same epochs early; they name different leaders for it. */
  ghost predicate DifferByMoment(p: Plan, a: seq<Event>, b: seq<Event>, e: nat)
    requires Sound(p)
  {
    LeadersDiffer(p, a, b, e) && forall x: nat :: x != e ==> (AskedEarly(p, a, e, x) <==> AskedEarly(p, b, e, x))
  }

  /** There are committed steps and two such histories. */
  ghost predicate MomentMatters(base: Plan, e: nat)
    requires Sound(base)
  {
    exists steps, a, b :: DifferByMoment(base.(steps := steps), a, b, e)
  }

  /** The leader of an epoch depends on the moment of asking for it exactly if the epoch is sensitive. */
  lemma MomentMattersExactly(base: Plan, e: nat)
    requires Sound(base) && e * base.size <= U64_MAX
    ensures MomentMatters(base, e) <==> Sensitive(base, e)
  {
    if Sensitive(base, e) {
      MomentTips(base, e);
    }
    if MomentMatters(base, e) {
      var steps, a, b :| DifferByMoment(base.(steps := steps), a, b, e);
      MomentNeedsSensitive(base, steps, a, b, e);
    }
  }

  lemma MomentNeedsSensitive(base: Plan, steps: seq<Step>, a: seq<Event>, b: seq<Event>, e: nat)
    requires Sound(base) && DifferByMoment(base.(steps := steps), a, b, e)
    ensures Sensitive(base, e)
  {
    var p := base.(steps := steps);
    if !Sensitive(p, e) {
      InsensitiveAgrees(p, a, b, e);
    }
  }

  lemma MomentTips(base: Plan, e: nat)
    requires Sound(base) && e * base.size <= U64_MAX && Sensitive(base, e)
    ensures MomentMatters(base, e)
  {
    StartsBefore(base, e, e);
    var p := TiltedTo(base.size, base.members, base.from, e, e);
    TiltedAround(base, e, e);
    var n, k := |p.steps|, Eve(p, e) - p.from;
    OneQuestionTips(p, e, e, n, k);
    assert base.(steps := p.steps) == p;
    assert DifferByMoment(p, Asking(n, k, e), Notes(n), e);
  }

  lemma InsensitiveAgrees(p: Plan, a: seq<Event>, b: seq<Event>, e: nat)
    requires Sound(p) && !Sensitive(p, e) && Answers(p, a, e) && Answers(p, b, e)
    requires forall x: nat :: x != e ==> (AskedEarly(p, a, e, x) <==> AskedEarly(p, b, e, x))
    ensures First(Answer(p, a, e)) == First(Answer(p, b, e))
  {
    var earlyA := (x: nat) => AskedEarly(p, a, e, x);
    var earlyB := (x: nat) => AskedEarly(p, b, e, x);
    AnswerIsReference(p, a, e, earlyA);
    AnswerIsReference(p, b, e, earlyB);
    LeaderDependsOn(p, earlyA, earlyB, e);
  }

  // ----- The same epoch is not enough -----

  /** Neither was asked for the epoch at its boundary, and both have last recorded a slot of the same earlier epoch. */
  ghost predicate SameEpoch(p: Plan, a: seq<Event>, b: seq<Event>, z: nat)
    requires p.size > 0
  {
    !Early(p, a, z) && !Early(p, b, z) && Ep(p, Reached(p, a)) == Ep(p, Reached(p, b)) < z
  }

  /** Two tuners at the same epoch that answer for the first time agree on whether that is early. */
  lemma SameEpochSameMoment(p: Plan, a: seq<Event>, b: seq<Event>, z: nat)
    requires Sound(p) && SameEpoch(p, a, b, z) && Answers(p, a, z) && Answers(p, b, z) && z >= WarmupEpochs(p.members)
    ensures AskedEarly(p, a, z, z) <==> AskedEarly(p, b, z, z)
  {
    FirstAskIsEarly(p, a, z);
    FirstAskIsEarly(p, b, z);
    AnsweredOnTime(p, a, z);
    AnsweredOnTime(p, b, z);
  }

  /** With no sensitive epoch two or more before, tuners at the same epoch give the same order. */
  lemma SameEpochTimingIndependent(p: Plan, a: seq<Event>, b: seq<Event>, z: nat)
    requires Sound(p) && SameEpoch(p, a, b, z) && Answers(p, a, z) && Answers(p, b, z)
    requires forall e: nat :: e + 1 < z ==> !Sensitive(p, e)
    ensures Answer(p, a, z) == Answer(p, b, z)
  {
    if z >= WarmupEpochs(p.members) {
      SameEpochSameMoment(p, a, b, z);
    }
    TimingIndependent(p, a, b, z);
  }

  ghost predicate Disagree(p: Plan, a: seq<Event>, b: seq<Event>, z: nat)
    requires Sound(p)
  {
    SameEpoch(p, a, b, z) && LeadersDiffer(p, a, b, z)
  }

  /** There are committed steps and two histories at the same epoch that name different leaders. */
  ghost predicate OthersMatter(base: Plan, z: nat)
    requires Sound(base)
  {
    exists steps, a, b :: Disagree(base.(steps := steps), a, b, z)
  }

  /** The ranking decides who leads z, and a sensitive epoch comes two or more before. */
  ghost predicate RanksOnSensitive(base: Plan, z: nat)
    requires base.size > 0
  {
    Plain(base, z) && exists e: nat :: e + 1 < z && Sensitive(base, e)
  }

  /**
   Tuners that have last recorded a slot of the same epoch, and are asked for z for the
   first time, can name different leaders exactly if z ranks on a sensitive epoch.
   */
  lemma SameEpochExactly(base: Plan, z: nat)
    requires Sound(base) && z * base.size <= U64_MAX
    ensures OthersMatter(base, z) <==> RanksOnSensitive(base, z)
  {
    if RanksOnSensitive(base, z) {
      var e := LastSensitive(base, z);
      OthersTip(base, e, z);
    }
    if OthersMatter(base, z) {
      var steps, a, b :| Disagree(base.(steps := steps), a, b, z);
      OthersNeedSensitive(base, steps, a, b, z);
    }
  }

  lemma OthersNeedSensitive(base: Plan, steps: seq<Step>, a: seq<Event>, b: seq<Event>, z: nat)
    requires Sound(base) && Disagree(base.(steps := steps), a, b, z)
    ensures RanksOnSensitive(base, z)
  {
    var p := base.(steps := steps);
    if !RanksOnSensitive(p, z) {
      OthersAgree(p, a, b, z);
    } else {
      var e: nat :| e + 1 < z && Sensitive(p, e);
      assert Sensitive(base, e);
    }
  }

  /** The last sensitive epoch that z ranks on is two or three before it. */
  lemma LastSensitive(base: Plan, z: nat) returns (e: nat)
    requires base.size > 0 && RanksOnSensitive(base, z)
    ensures (z == e + 2 || z == e + 3) && Sensitive(base, e)
  {
    var s: nat :| s + 1 < z && Sensitive(base, s);
    e := if Reexplores(base.members, z - 2) then z - 3 else z - 2;
  }

  lemma OthersTip(base: Plan, e: nat, z: nat)
    requires Sound(base) && z * base.size <= U64_MAX && Sensitive(base, e) && (z == e + 2 || z == e + 3)
             && Plain(base, z)
    ensures OthersMatter(base, z)
  {
    StartsBefore(base, e, z);
    Scaled(e, z, base.size);
    var p := TiltedTo(base.size, base.members, base.from, e, z);
    TiltedAround(base, e, z);
    assert base.(steps := p.steps) == p;
    TiltedDisagrees(p, e, z, |p.steps|, Eve(p, e) - p.from);
  }

  lemma TiltedDisagrees(p: Plan, e: nat, z: nat, n: nat, k: nat)
    requires Around(p, e) && z in {e + 2, e + 3} && Plain(p, z) && Last(p) == (z - 1) * p.size
             && Ep(p, Last(p)) == z - 1
    requires k < n == |p.steps| && p.from + k == Eve(p, e)
    ensures Disagree(p, Asking(n, k, e), Notes(n), z)
  {
    OneQuestionTips(p, e, z, n, k);
    EveIsBoundary(p, e);
    AtSameEpoch(p, e, z, n, k);
  }

  lemma AtSameEpoch(p: Plan, e: nat, z: nat, n: nat, k: nat)
    requires p.size > 0 && k < n && e != z && p.from + n == Last(p) && Ep(p, Last(p)) == z - 1 && z >= 1
    requires AtBoundary(p, p.from + k, e)
    ensures SameEpoch(p, Asking(n, k, e), Notes(n), z)
  {
    AskingCount(n, k, e);
    NotesCount(n);
    assert forall j :: 0 <= j < n ==> Notes(n)[j] == Note;
    assert forall j :: 0 <= j <= n && j != k ==> Asking(n, k, e)[j] == Note;
  }

  lemma OthersAgree(p: Plan, a: seq<Event>, b: seq<Event>, z: nat)
    requires Sound(p) && SameEpoch(p, a, b, z) && Answers(p, a, z) && Answers(p, b, z) && !RanksOnSensitive(p, z)
    ensures First(Answer(p, a, z)) == First(Answer(p, b, z))
  {
    var earlyA := (x: nat) => AskedEarly(p, a, z, x);
    var earlyB := (x: nat) => AskedEarly(p, b, z, x);
    AnswerIsReference(p, a, z, earlyA);
    AnswerIsReference(p, b, z, earlyB);
    if z >= WarmupEpochs(p.members) && Reexplores(p.members, z) {
      ReexploredLeader(p, earlyA, z);
      ReexploredLeader(p, earlyB, z);
    } else {
      if z >= WarmupEpochs(p.members) {
        SameEpochSameMoment(p, a, b, z);
      }
      LeaderDependsOn(p, earlyA, earlyB, z);
    }
  }

  /** With two members and two slots per epoch, the first epochs for which this happens are 66 and 68. */
  lemma FirstEpochsThatTip(members: seq<ReplicaId>, z: nat)
    requires |members| == 2 && Distinct(members) && z <= 68
    ensures MomentMatters(Plan(2, members, 0, []), z) <==> z == 66 || z == 67 || z == 68
    ensures OthersMatter(Plan(2, members, 0, []), z) <==> z == 68
  {
    var base := Plan(2, members, 0, []);
    MomentMattersExactly(base, z);
    SameEpochExactly(base, z);
    assert Base(base) == 0;
    assert Sensitive(base, 66);
  }
}
