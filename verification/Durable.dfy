/**
 The durable recorder: persist before acknowledging, roll back on a failed save,
 reload after a crash. Files are abstracted to a temporary file and a main file that
 is replaced by a rename; until the directory is synced, a crash may bring back any
 main file since the last directory sync.
 */
module Durable {
  import opened Types
  import opened Membership
  import opened Recorder
  import opened RecorderRestore
  import opened RecorderAnswers
  import opened RecorderObject

  // ----- The disk -----

  datatype Temporary = Absent | Torn | Unsynced(snapshot: RecorderSnapshot) | Synced(snapshot: RecorderSnapshot)

  /** A main file: missing, unreadable, or a snapshot. */
  datatype MainFile = Missing | Corrupt | Holds(snapshot: RecorderSnapshot)

  /** `surviving` are the main files a crash may leave behind; `main` is the one read without a crash. */
  datatype Disk = Disk(temporary: Temporary, main: MainFile, surviving: set<MainFile>)

  const BLANK_DISK := Disk(Absent, Missing, {Missing})

  /** Opening the temporary file, writing it, syncing it, renaming it, syncing the directory. */
  const SAVE_ACTIONS: nat := 5
  const RENAME: nat := 4

  function SaveAction(disk: Disk, snap: RecorderSnapshot, action: nat): Disk {
    match action
    case 1 => disk.(temporary := Torn)
    case 2 => disk.(temporary := Unsynced(snap))
    case 3 => disk.(temporary := if disk.temporary.Unsynced? then Synced(disk.temporary.snapshot) else disk.temporary)
    case 4 =>
      var file := match disk.temporary case Synced(s) => Holds(s) case _ => Corrupt;
      Disk(Absent, file, disk.surviving + {file})
    case 5 => disk.(surviving := {disk.main})
    case _ => disk
  }

  /** The first n actions of a save. */
  function SaveUpTo(disk: Disk, snap: RecorderSnapshot, n: nat): Disk {
    if n == 0 then disk else SaveAction(SaveUpTo(disk, snap, n - 1), snap, n)
  }

  /** Only the rename touches the main file, and it puts a complete, synced snapshot there. */
  lemma SaveEffect(disk: Disk, snap: RecorderSnapshot, n: nat)
    requires n <= SAVE_ACTIONS
    ensures var after := SaveUpTo(disk, snap, n);
            && after.main == (if n < RENAME then disk.main else Holds(snap))
            && after.surviving == (if n < RENAME then disk.surviving
                                   else if n == RENAME then disk.surviving + {Holds(snap)} else {Holds(snap)})
  {
    var d1 := SaveUpTo(disk, snap, 1);
    var d2 := SaveUpTo(disk, snap, 2);
    var d3 := SaveUpTo(disk, snap, 3);
    var d4 := SaveUpTo(disk, snap, 4);
    assert SaveUpTo(disk, snap, 0) == disk;
    assert d1 == SaveAction(disk, snap, 1);
    assert d2 == SaveAction(d1, snap, 2);
    assert d3 == SaveAction(d2, snap, 3);
    assert d4 == SaveAction(d3, snap, 4);
    assert SaveUpTo(disk, snap, 5) == SaveAction(d4, snap, 5);
  }

  // ----- One operation, on values -----

  datatype Node = Up(memory: RecorderState, disk: Disk) | Down(disk: Disk)

  /** The state after a mutation that failed, or whose save failed, has been rolled back. */
  function RolledBack(before: RecorderState, op: Op): RecorderState {
    Recorder.RestoreSnapshotState(Apply(before, op).0, Snapshot(before))
  }

  /** `failAt` is the number of save actions done before the save fails, if it does. */
  function Mutated(memory: RecorderState, disk: Disk, op: Op, failAt: Option<nat>): (RecorderState, Disk, Result<Ack>) {
    var (after, r) := Apply(memory, op);
    if r.Err? then (RolledBack(memory, op), disk, r)
    else
      match failAt
      case None => (after, SaveUpTo(disk, Snapshot(after), SAVE_ACTIONS), r)
      case Some(n) => (RolledBack(memory, op), SaveUpTo(disk, Snapshot(after), n), Err(StorageError))
  }

  /** What a membership change must find to be installed and to change anything. */
  predicate Installs(st: RecorderState, change: MembershipChange) {
    && change.commandId in change.anchor.values
    && IsSuccessorOf(change.next, st.cluster)
    && change.anchor.slot in st.decisions && st.decisions[change.anchor.slot] == change.anchor
    && (forall s :: s in st.slots ==> s <= change.anchor.slot)
    && (forall s :: s in st.decisions ==> s <= change.anchor.slot)
  }

  lemma InstallsExactly(st: RecorderState, change: MembershipChange)
    ensures InstallMembership(st, change).0.cluster != st.cluster <==> Installs(st, change)
    ensures Installs(st, change) ==> InstallMembership(st, change) == (st.(cluster := change.next), Ok(()))
    ensures InstallMembership(st, change).1.Ok? <==>
              Installs(st, change) || (change.commandId in change.anchor.values && st.cluster == change.next)
  {
  }

  /**
   Rolling back restores the state exactly unless the operation was a membership change
   that the recorder was ready for; then the new cluster stays.
   */
  lemma RollbackExactly(before: RecorderState, op: Op)
    ensures RolledBack(before, op) == before <==> !(op.OpInstall? && Installs(before, op.change))
    ensures op.OpInstall? ==> RolledBack(before, op) == Apply(before, op).0
  {
    OnlyInstallsChangeCluster(before, op);
    if op.OpRecord? {
      InformAllOnlyAddsDecisions(before, op.request.known);
    } else if op.OpInform? {
      InformAllOnlyAddsDecisions(before, op.decisions);
    } else if op.OpInstall? {
      InstallsExactly(before, op.change);
    }
  }

  /** A save of an install that fails before the rename: memory has the new cluster, the main file the old one. */
  lemma FailedInstallKeepsCluster(memory: RecorderState, disk: Disk, change: MembershipChange, n: nat)
    requires Installs(memory, change) && n < RENAME
    ensures var (memory', disk', r) := Mutated(memory, disk, OpInstall(change), Some(n));
            && r.Err? && disk'.main == disk.main
            && memory' == memory.(cluster := change.next) && memory'.cluster != memory.cluster
  {
    InstallsExactly(memory, change);
    RollbackExactly(memory, OpInstall(change));
    SaveEffect(disk, Snapshot(Apply(memory, OpInstall(change)).0), n);
  }

  /** It takes one told decision and one failed save for memory and file to disagree about the cluster. */
  lemma RollbackMissesCluster() returns (c: Setup, anchor: Decision, change: MembershipChange)
    ensures WellFormed(c.cluster)
    ensures var (told, saved, first) := Mutated(Fresh(c), BLANK_DISK, OpInform([anchor]), None);
            var (after, disk, second) := Mutated(told, saved, OpInstall(change), Some(0));
            && first.Ok? && second.Err?
            && disk.main == Holds(Snapshot(told)) && after.cluster == change.next != told.cluster == c.cluster
  {
    c := Setup(1, Limits(10, 10, 10, 10, 100), Cluster([1], 0, 0, None));
    anchor := Decision(1, [7], 1, 4);
    change := MembershipChange(anchor, Cluster([1, 2], 0, 1, Some(Joint([1], 0, [2]))), 7);
    OneTold(Fresh(c), anchor);
    var told := Fresh(c).(decisions := map[1 := anchor]);
    SaveEffect(BLANK_DISK, Snapshot(told), SAVE_ACTIONS);
    assert IsSuccessorOf(change.next, c.cluster);
    FailedInstallKeepsCluster(told, SaveUpTo(BLANK_DISK, Snapshot(told), SAVE_ACTIONS), change, 0);
  }

  /**
   After a failed save the main file and memory agree, as they did before it, exactly if
   the save failed before its rename or the operation changed nothing.
   */
  lemma FailedSaveExactly(memory: RecorderState, disk: Disk, op: Op, n: nat)
    requires !op.OpInstall? && Apply(memory, op).1.Ok? && n <= SAVE_ACTIONS
    requires disk.main == Holds(Snapshot(memory))
    ensures var (memory', disk', r) := Mutated(memory, disk, op, Some(n));
            && r.Err? && memory' == memory
            && (disk'.main == Holds(Snapshot(memory')) <==> n < RENAME || Apply(memory, op).0 == memory)
  {
    RollbackExactly(memory, op);
    OnlyInstallsChangeCluster(memory, op);
    SaveEffect(disk, Snapshot(Apply(memory, op).0), n);
    SnapshotInjective(memory, Apply(memory, op).0, op);
  }

  lemma SnapshotInjective(a: RecorderState, b: RecorderState, op: Op)
    requires b == Apply(a, op).0
    ensures Snapshot(a) == Snapshot(b) <==> a == b
  {
    ApplyFrame(a, op);
  }

  // ----- The durable recorder object -----

  class DurableRecorderCore {
    const core: RecorderCore
    var disk: Disk

    ghost predicate Valid()
      reads this, core
    {
      core.Valid()
    }

    constructor (id: ReplicaId, limits: Limits, cluster: Cluster)
      ensures Valid() && core.State() == NewRecorder(id, limits, cluster) && disk == BLANK_DISK
    {
      core := new RecorderCore(id, limits, cluster);
      disk := BLANK_DISK;
    }

    /** The save sequence, which stops with an error after `failAt` actions. */
    method Save(snap: RecorderSnapshot, failAt: Option<nat>) returns (r: Result<()>)
      requires failAt.Some? ==> failAt.value <= SAVE_ACTIONS
      modifies this
      ensures r == if failAt.Some? then Err(StorageError) else Ok(())
      ensures disk == SaveUpTo(old(disk), snap, if failAt.Some? then failAt.value else SAVE_ACTIONS)
    {
      for action := 0 to SAVE_ACTIONS
        invariant disk == SaveUpTo(old(disk), snap, action)
        invariant failAt.Some? ==> action <= failAt.value
      {
        if failAt == Some(action) {
          return Err(StorageError);
        }
        disk := SaveAction(disk, snap, action + 1);
      }
      return if failAt.Some? then Err(StorageError) else Ok(());
    }

    method Change(op: Op) returns (r: Result<Ack>)
      requires core.Valid()
      modifies core
      ensures core.Valid() && (core.State(), r) == Apply(old(core.State()), op)
    {
      match op
      case OpRecord(request, available) =>
        var reply := core.Record(request, available);
        r := if reply.Ok? then Ok(AckRecord(reply.value)) else Err(reply.error);
      case OpInform(ds) =>
        var done := core.InformDecisions(ds);
        r := if done.Ok? then Ok(AckDone) else Err(done.error);
      case OpPrune(slot) =>
        core.PruneThrough(slot);
        r := Ok(AckDone);
      case OpInstall(change) =>
        var done := core.InstallMembership(change);
        r := if done.Ok? then Ok(AckDone) else Err(done.error);
    }

    method Mutate(op: Op, failAt: Option<nat>) returns (r: Result<Ack>)
      requires Valid() && (failAt.Some? ==> failAt.value <= SAVE_ACTIONS)
      modifies this, core
      ensures Valid()
      ensures (core.State(), disk, r) == Mutated(old(core.State()), old(disk), op, failAt)
    {
      ghost var st := core.State();
      var before := Snapshot(core.State());
      r := Change(op);
      RollbackStructural(st, op);
      if r.Err? {
        core.RestoreSnapshotState(before);
        return;
      }
      var saved := Save(Snapshot(core.State()), failAt);
      if saved.Err? {
        core.RestoreSnapshotState(before);
        r := Err(StorageError);
      }
    }
  }

  lemma RollbackStructural(st: RecorderState, op: Op)
    requires Structural(st)
    ensures Structural(RolledBack(st, op))
  {
    RollbackExactly(st, op);
    ApplyKeeps(st, op);
  }

  // ----- Runs with crashes -----

  /**
   A crash in the middle of a save is a save that fails there followed by a crash: what
   memory held in between is gone either way.
   */
  datatype Event = Attempt(op: Op, failAt: Option<nat>) | Crash(survivor: MainFile)

  datatype Setup = Setup(id: ReplicaId, limits: Limits, cluster: Cluster)

  function Fresh(c: Setup): RecorderState {
    NewRecorder(c.id, c.limits, c.cluster)
  }

  /** What starting on a disk gives. */
  function Reload(c: Setup, file: MainFile): Result<RecorderState> {
    match file
    case Missing => Ok(Fresh(c))
    case Corrupt => Err(StorageError)
    case Holds(snap) => Restore(c.id, c.limits, c.cluster, snap)
  }

  predicate Possible(node: Node, e: Event) {
    match e
    case Attempt(op, failAt) => !op.OpInstall? && (failAt.Some? ==> failAt.value <= SAVE_ACTIONS)
    case Crash(survivor) => survivor in node.disk.surviving
  }

  function Step(c: Setup, node: Node, e: Event): (Node, Option<Result<Ack>>) {
    match e
    case Attempt(op, failAt) =>
      if node.Down? then (node, None)
      else
        var (memory, disk, r) := Mutated(node.memory, node.disk, op, failAt);
        (Up(memory, disk), Some(r))
    case Crash(survivor) =>
      var disk := Disk(if node.disk.temporary.Synced? then node.disk.temporary else Torn, survivor, {survivor});
      var memory := Reload(c, survivor);
      (if memory.Ok? then Up(memory.value, disk) else Down(disk), None)
  }

  function After(c: Setup, events: seq<Event>): Node {
    if events == [] then Up(Fresh(c), BLANK_DISK) else Step(c, After(c, events[..|events| - 1]), events[|events| - 1]).0
  }

  ghost predicate IsRun(c: Setup, events: seq<Event>) {
    forall k :: 0 <= k < |events| ==> PossibleAt(c, events, k)
  }

  predicate PossibleAt(c: Setup, events: seq<Event>, k: nat)
    requires k < |events|
  {
    Possible(After(c, events[..k]), events[k])
  }

  // ----- Refinement -----

  /** The file reloads to exactly this state. */
  predicate Shows(c: Setup, file: MainFile, st: RecorderState) {
    match file
    case Missing => st == Fresh(c)
    case Corrupt => false
    case Holds(snap) => snap == Snapshot(st) && st.id == c.id && st.limits == c.limits && st.cluster == c.cluster
  }

  /** The file is what memory holds, or what one attempted but unacknowledged operation would have left. */
  ghost predicate Ahead(c: Setup, memory: RecorderState, file: MainFile, tried: set<Op>) {
    || Shows(c, file, memory)
    || exists op :: op in tried && !op.OpInstall? && Apply(memory, op).1.Ok? && Shows(c, file, Apply(memory, op).0)
  }

  function Tried(events: seq<Event>): set<Op> {
    set k | 0 <= k < |events| && events[k].Attempt? :: events[k].op
  }

  /** A never-crashing recorder that has performed `ops` is in the state this one is in. */
  ghost predicate Mirrors(c: Setup, node: Node, ops: seq<Op>, tried: set<Op>) {
    && (forall k :: 0 <= k < |ops| ==> ops[k] in tried && !ops[k].OpInstall?)
    && node.Up?
    && node.memory == ApplyAll(Fresh(c), ops)
    && forall file :: file in node.disk.surviving ==> Ahead(c, node.memory, file, tried)
  }

  lemma {:induction false} SameCluster(c: Setup, ops: seq<Op>)
    requires forall k :: 0 <= k < |ops| ==> !ops[k].OpInstall?
    ensures ApplyAll(Fresh(c), ops).cluster == c.cluster
  {
    if ops != [] {
      SameCluster(c, ops[..|ops| - 1]);
      OnlyInstallsChangeCluster(ApplyAll(Fresh(c), ops[..|ops| - 1]), ops[|ops| - 1]);
    }
  }

  lemma ReloadsWhatItShows(c: Setup, file: MainFile, ops: seq<Op>)
    requires forall k :: 0 <= k < |ops| ==> !ops[k].OpInstall?
    requires Shows(c, file, ApplyAll(Fresh(c), ops))
    ensures Reload(c, file) == Ok(ApplyAll(Fresh(c), ops))
  {
    SameCluster(c, ops);
    RoundTripExactly(c.id, c.limits, c.cluster, ops);
  }

  lemma ApplyAllMore(st: RecorderState, ops: seq<Op>, op: Op)
    ensures ApplyAll(st, ops + [op]) == Apply(ApplyAll(st, ops), op).0
  {
    assert (ops + [op])[..|ops|] == ops;
  }

  lemma AheadGrows(c: Setup, memory: RecorderState, file: MainFile, tried: set<Op>, tried': set<Op>)
    requires Ahead(c, memory, file, tried) && tried <= tried'
    ensures Ahead(c, memory, file, tried')
  {
  }

  /** Where a saved file stands relative to the state the operation started from. */
  lemma SavedIsAhead(c: Setup, memory: RecorderState, op: Op, tried: set<Op>, ops: seq<Op>)
    requires op in tried && !op.OpInstall? && Apply(memory, op).1.Ok?
    requires memory == ApplyAll(Fresh(c), ops) && forall k :: 0 <= k < |ops| ==> !ops[k].OpInstall?
    ensures Shows(c, Holds(Snapshot(Apply(memory, op).0)), Apply(memory, op).0)
    ensures Ahead(c, memory, Holds(Snapshot(Apply(memory, op).0)), tried)
  {
    SameCluster(c, ops);
    OnlyInstallsChangeCluster(memory, op);
    ReachableIsStructural(c.id, c.limits, c.cluster, ops);
    ApplyFrame(memory, op);
  }

  /**
   The answer to an attempt is what the never-crashing recorder answers at that place, an
   error included; only a save that fails turns an acknowledgement into an error. The
   never-crashing recorder moves on exactly with the acknowledgements.
   */
  ghost predicate Answered(c: Setup, ops: seq<Op>, e: Event, r: Option<Result<Ack>>, ops': seq<Op>)
    requires e.Attempt?
  {
    var expected := Apply(ApplyAll(Fresh(c), ops), e.op).1;
    && r == Some(if expected.Ok? && e.failAt.Some? then Err(StorageError) else expected)
    && ops' == if r.value.Ok? then ops + [e.op] else ops
  }

  /** What one step does to the run of the never-crashing recorder: nothing, or one more attempted operation. */
  lemma StepMirrors(c: Setup, node: Node, ops: seq<Op>, tried: set<Op>, e: Event, tried': set<Op>)
    returns (ops': seq<Op>)
    requires Mirrors(c, node, ops, tried) && Possible(node, e)
    requires tried' == tried + (if e.Attempt? then {e.op} else {})
    ensures var (node', r) := Step(c, node, e);
            && Mirrors(c, node', ops', tried')
            && (ops' == ops || (|ops'| == |ops| + 1 && ops'[..|ops|] == ops))
            && (e.Crash? ==> r.None?)
            && (e.Attempt? ==> Answered(c, ops, e, r, ops'))
  {
    match e
    case Attempt(op, failAt) => ops' := AttemptMirrors(c, node, ops, tried, op, failAt, tried');
    case Crash(survivor) => ops' := CrashMirrors(c, node, ops, tried, survivor);
  }

  lemma AttemptMirrors(c: Setup, node: Node, ops: seq<Op>, tried: set<Op>, op: Op, failAt: Option<nat>, tried': set<Op>)
    returns (ops': seq<Op>)
    requires Mirrors(c, node, ops, tried) && Possible(node, Attempt(op, failAt)) && tried' == tried + {op}
    ensures var (node', r) := Step(c, node, Attempt(op, failAt));
            && Mirrors(c, node', ops', tried')
            && Answered(c, ops, Attempt(op, failAt), r, ops')
  {
    var memory := node.memory;
    var node' := Step(c, node, Attempt(op, failAt)).0;
    RollbackExactly(memory, op);
    OnlyInstallsChangeCluster(memory, op);
    forall file | file in node.disk.surviving ensures Ahead(c, memory, file, tried') {
      AheadGrows(c, memory, file, tried, tried');
    }
    if Apply(memory, op).1.Ok? {
      SavedIsAhead(c, memory, op, tried', ops);
      SaveEffect(node.disk, Snapshot(Apply(memory, op).0), if failAt.Some? then failAt.value else SAVE_ACTIONS);
    }
    if Apply(memory, op).1.Ok? && failAt.None? {
      ops' := ops + [op];
      ApplyAllMore(Fresh(c), ops, op);
    } else {
      ops' := ops;
    }
  }

  lemma CrashMirrors(c: Setup, node: Node, ops: seq<Op>, tried: set<Op>, survivor: MainFile) returns (ops': seq<Op>)
    requires Mirrors(c, node, ops, tried) && survivor in node.disk.surviving
    ensures Mirrors(c, Step(c, node, Crash(survivor)).0, ops', tried)
    ensures ops' == ops || (|ops'| == |ops| + 1 && ops'[..|ops|] == ops)
  {
    assert Ahead(c, node.memory, survivor, tried);
    ops' := Survived(c, node.memory, ops, tried, survivor);
    ReloadsWhatItShows(c, survivor, ops');
  }

  /** The operations that a surviving file contains. */
  lemma Survived(c: Setup, memory: RecorderState, ops: seq<Op>, tried: set<Op>, survivor: MainFile)
    returns (ops': seq<Op>)
    requires memory == ApplyAll(Fresh(c), ops) && Ahead(c, memory, survivor, tried)
    requires forall k :: 0 <= k < |ops| ==> ops[k] in tried && !ops[k].OpInstall?
    ensures Shows(c, survivor, ApplyAll(Fresh(c), ops'))
    ensures forall k :: 0 <= k < |ops'| ==> ops'[k] in tried && !ops'[k].OpInstall?
    ensures ops' == ops || (|ops'| == |ops| + 1 && ops'[..|ops|] == ops)
  {
    if Shows(c, survivor, memory) {
      ops' := ops;
    } else {
      var op :| op in tried && !op.OpInstall? && Apply(memory, op).1.Ok? && Shows(c, survivor, Apply(memory, op).0);
      ops' := ops + [op];
      ApplyAllMore(Fresh(c), ops, op);
    }
  }

  /**
   The witness for a whole run: `ops` is the run of a recorder that never crashes, and
   after k events the durable recorder has performed exactly its first marks[k] operations.
   */
  ghost predicate Witness(c: Setup, events: seq<Event>, ops: seq<Op>, marks: seq<nat>) {
    && |marks| == |events| + 1 && marks[|events|] == |ops|
    && (forall j, k :: 0 <= j <= k <= |events| ==> marks[j] <= marks[k])
    && (forall k :: 0 <= k <= |events| ==> MirrorsAt(c, events, ops, marks[k], k))
    && (forall k :: 0 <= k < |events| ==> AnsweredAt(c, events, ops, marks, k))
  }

  ghost predicate MirrorsAt(c: Setup, events: seq<Event>, ops: seq<Op>, mark: nat, k: nat)
    requires k <= |events|
  {
    mark <= |ops| && Mirrors(c, After(c, events[..k]), ops[..mark], Tried(events[..k]))
  }

  /** The k-th attempt is answered as the never-crashing recorder answers it there; a crash answers nothing. */
  ghost predicate AnsweredAt(c: Setup, events: seq<Event>, ops: seq<Op>, marks: seq<nat>, k: nat)
    requires k < |events| && k + 1 < |marks|
  {
    var r := Step(c, After(c, events[..k]), events[k]).1;
    && marks[k] <= marks[k + 1] <= |ops|
    && (events[k].Crash? ==> r.None?)
    && (events[k].Attempt? ==> Answered(c, ops[..marks[k]], events[k], r, ops[..marks[k + 1]]))
  }

  /** Crashes and failed saves are invisible: every run refines a run without them. */
  lemma {:induction false} CrashRefinement(c: Setup, events: seq<Event>) returns (ops: seq<Op>, marks: seq<nat>)
    requires IsRun(c, events)
    ensures Witness(c, events, ops, marks)
  {
    if events == [] {
      ops, marks := [], [0];
      assert Mirrors(c, After(c, []), [], Tried([]));
    } else {
      var n := |events| - 1;
      var init := events[..n];
      forall k | 0 <= k < n ensures PossibleAt(c, init, k) {
        assert init[..k] == events[..k];
        assert PossibleAt(c, events, k);
      }
      var ops0, marks0 := CrashRefinement(c, init);
      assert MirrorsAt(c, init, ops0, marks0[n], n);
      assert PossibleAt(c, events, n);
      ops := LastStep(c, events, ops0, marks0);
      marks := marks0 + [|ops|];
      Extends(c, events, ops0, marks0, ops, marks);
    }
  }

  /** The last event of a run, on top of what mirrors the events before it. */
  lemma LastStep(c: Setup, events: seq<Event>, ops0: seq<Op>, marks0: seq<nat>) returns (ops: seq<Op>)
    requires events != [] && |marks0| == |events| && marks0[|events| - 1] == |ops0|
    requires MirrorsAt(c, events[..|events| - 1], ops0, |ops0|, |events| - 1)
    requires PossibleAt(c, events, |events| - 1)
    ensures |ops0| <= |ops| && ops[..|ops0|] == ops0
    ensures MirrorsAt(c, events, ops, |ops|, |events|)
    ensures AnsweredAt(c, events, ops, marks0 + [|ops|], |events| - 1)
  {
    var n := |events| - 1;
    var init := events[..n];
    assert init[..n] == init && ops0[..|ops0|] == ops0;
    var node, e := After(c, init), events[n];
    TriedMore(events);
    ops := StepMirrors(c, node, ops0, Tried(init), e, Tried(events));
    assert ops[..|ops0|] == ops0 && ops[..|ops|] == ops && events[..|events|] == events;
    assert After(c, events) == Step(c, node, e).0;
  }

  lemma TriedMore(events: seq<Event>)
    requires events != []
    ensures var last := events[|events| - 1];
            Tried(events) == Tried(events[..|events| - 1]) + (if last.Attempt? then {last.op} else {})
  {
    var init := events[..|events| - 1];
    assert forall k :: 0 <= k < |init| ==> init[k] == events[k];
  }

  lemma Extends(c: Setup, events: seq<Event>, ops0: seq<Op>, marks0: seq<nat>, ops: seq<Op>, marks: seq<nat>)
    requires events != [] && Witness(c, events[..|events| - 1], ops0, marks0)
    requires |ops0| <= |ops| && ops[..|ops0|] == ops0 && marks == marks0 + [|ops|]
    requires MirrorsAt(c, events, ops, |ops|, |events|)
    requires AnsweredAt(c, events, ops, marks, |events| - 1)
    ensures Witness(c, events, ops, marks)
  {
    forall k | 0 <= k <= |events| ensures MirrorsAt(c, events, ops, marks[k], k) {
      MirrorsExtends(c, events, ops0, marks0, ops, marks, k);
    }
    forall k | 0 <= k < |events| ensures AnsweredAt(c, events, ops, marks, k) {
      AnswersExtend(c, events, ops0, marks0, ops, marks, k);
    }
  }

  lemma MirrorsExtends(c: Setup, events: seq<Event>, ops0: seq<Op>, marks0: seq<nat>, ops: seq<Op>, marks: seq<nat>,
                       k: nat)
    requires events != [] && Witness(c, events[..|events| - 1], ops0, marks0) && k <= |events|
    requires |ops0| <= |ops| && ops[..|ops0|] == ops0 && marks == marks0 + [|ops|]
    requires MirrorsAt(c, events, ops, |ops|, |events|)
    ensures MirrorsAt(c, events, ops, marks[k], k)
  {
    if k < |events| {
      assert MirrorsAt(c, events[..|events| - 1], ops0, marks0[k], k);
      MirrorsStill(c, events, ops0, ops, marks0[k], k);
    }
  }

  lemma AnswersExtend(c: Setup, events: seq<Event>, ops0: seq<Op>, marks0: seq<nat>, ops: seq<Op>, marks: seq<nat>,
                      k: nat)
    requires events != [] && Witness(c, events[..|events| - 1], ops0, marks0) && k < |events|
    requires |ops0| <= |ops| && ops[..|ops0|] == ops0 && marks == marks0 + [|ops|]
    requires AnsweredAt(c, events, ops, marks, |events| - 1)
    ensures AnsweredAt(c, events, ops, marks, k)
  {
    if k < |events| - 1 {
      assert AnsweredAt(c, events[..|events| - 1], ops0, marks0, k);
      AnsweredStill(c, events, ops0, marks0, ops, marks, k);
    }
  }

  lemma MirrorsStill(c: Setup, events: seq<Event>, ops0: seq<Op>, ops: seq<Op>, mark: nat, k: nat)
    requires events != [] && k < |events| && MirrorsAt(c, events[..|events| - 1], ops0, mark, k)
    requires |ops0| <= |ops| && ops[..|ops0|] == ops0
    ensures MirrorsAt(c, events, ops, mark, k)
  {
    assert events[..|events| - 1][..k] == events[..k];
    assert ops[..mark] == ops0[..mark];
  }

  lemma AnsweredStill(c: Setup, events: seq<Event>, ops0: seq<Op>, marks0: seq<nat>, ops: seq<Op>, marks: seq<nat>,
                      k: nat)
    requires events != [] && k < |events| - 1 && k + 1 < |marks0| && marks0 <= marks
    requires AnsweredAt(c, events[..|events| - 1], ops0, marks0, k)
    requires |ops0| <= |ops| && ops[..|ops0|] == ops0
    ensures AnsweredAt(c, events, ops, marks, k)
  {
    var init := events[..|events| - 1];
    assert init[..k] == events[..k] && init[k] == events[k];
    assert marks[k] == marks0[k] && marks[k + 1] == marks0[k + 1];
    assert ops[..marks0[k]] == ops0[..marks0[k]] && ops[..marks0[k + 1]] == ops0[..marks0[k + 1]];
  }

  // ----- An acknowledged decision survives -----

  lemma {:induction false} ApplyAllOn(st: RecorderState, ops: seq<Op>, more: seq<Op>)
    ensures ApplyAll(st, ops + more) == ApplyAll(ApplyAll(st, ops), more)
    decreases |more|
  {
    if more == [] {
      assert ops + more == ops;
    } else {
      var init := more[..|more| - 1];
      assert (ops + more)[..|ops + more| - 1] == ops + init;
      ApplyAllOn(st, ops, init);
    }
  }

  lemma ApplyAllSplit(st: RecorderState, ops: seq<Op>, n: nat)
    requires n < |ops|
    ensures ApplyAll(st, ops) == ApplyAll(Apply(ApplyAll(st, ops[..n]), ops[n]).0, ops[n + 1..])
  {
    assert ops == ops[..n] + [ops[n]] + ops[n + 1..];
    ApplyAllOn(st, ops[..n] + [ops[n]], ops[n + 1..]);
    ApplyAllMore(st, ops[..n], ops[n]);
  }

  /** Nothing at or above the slot has been pruned, as far as anything was tried. */
  ghost predicate NoPruneTried(tried: set<Op>, slot: Slot) {
    forall op :: op in tried && op.OpPrune? ==> op.slot < slot
  }

  lemma FloorBelow(c: Setup, ops: seq<Op>, tried: set<Op>, slot: Slot)
    requires (forall k :: 0 <= k < |ops| ==> ops[k] in tried) && NoPruneTried(tried, slot) && slot >= 1
    ensures ApplyAll(Fresh(c), ops).prunedThrough < slot
  {
    FloorIsGreatestPrune(c.id, c.limits, c.cluster, ops);
  }

  /** The answer of the recorder to the k-th event. */
  function AnswerAt(c: Setup, events: seq<Event>, k: nat): Option<Result<Ack>>
    requires k < |events|
  {
    Step(c, After(c, events[..k]), events[k]).1
  }

  /**
   Whatever crashes and failed saves come in between: once a decision has been
   acknowledged, every record of its slot that is acknowledged later reports a decision
   with the same values, as long as no prune through its slot has been tried.
   */
  lemma DecisionSurvives(c: Setup, events: seq<Event>, j: nat, k: nat, d: Decision, reply: RecordReply)
    requires IsRun(c, events) && j < k < |events| && events[j].Attempt? && events[k].Attempt? && d.slot >= 1
    requires Tells(events[j].op, d) && AnswerAt(c, events, j).Some? && AnswerAt(c, events, j).value.Ok?
    requires events[k].op.OpRecord? && events[k].op.request.slot == d.slot
    requires AnswerAt(c, events, k) == Some(Ok(AckRecord(reply)))
    requires NoPruneTried(Tried(events[..k]), d.slot)
    ensures reply.decision.Some? && reply.decision.value.slot == d.slot && reply.decision.value.values == d.values
  {
    var ops, marks := CrashRefinement(c, events);
    AckedAt(c, events, ops, marks, j);
    AckedAt(c, events, ops, marks, k);
    MarksOrdered(c, events, ops, marks, j, k);
    PrefixOfPrefix(ops, marks[j], marks[k]);
    Reported(c, ops[..marks[k]], marks[j], Tried(events[..k]), events[j].op, d, events[k].op, reply);
  }

  lemma PrefixOfPrefix<T>(s: seq<T>, m: nat, n: nat)
    requires m < n <= |s|
    ensures s[..n][..m] == s[..m] && s[..n][m] == s[m]
  {
  }

  /** An acknowledgement is the never-crashing recorder's, at the mark of that moment. */
  lemma AckedAt(c: Setup, events: seq<Event>, ops: seq<Op>, marks: seq<nat>, k: nat)
    requires Witness(c, events, ops, marks) && k < |events| && events[k].Attempt?
    requires AnswerAt(c, events, k).Some? && AnswerAt(c, events, k).value.Ok?
    ensures marks[k + 1] == marks[k] + 1 <= |ops| && ops[marks[k]] == events[k].op
    ensures Apply(ApplyAll(Fresh(c), ops[..marks[k]]), events[k].op).1 == AnswerAt(c, events, k).value
  {
    assert AnsweredAt(c, events, ops, marks, k);
    assert ops[..marks[k + 1]] == ops[..marks[k]] + [events[k].op];
    assert |ops[..marks[k + 1]]| == marks[k + 1] && |ops[..marks[k]]| == marks[k];
    assert ops[..marks[k + 1]][marks[k]] == ops[marks[k]];
  }

  lemma MarksOrdered(c: Setup, events: seq<Event>, ops: seq<Op>, marks: seq<nat>, j: nat, k: nat)
    requires Witness(c, events, ops, marks) && j < k <= |events|
    ensures marks[j + 1] <= marks[k] <= |ops|
    ensures forall i :: 0 <= i < marks[k] ==> ops[..marks[k]][i] in Tried(events[..k])
  {
    assert MirrorsAt(c, events, ops, marks[k], k);
  }

  lemma Reported(c: Setup, ops: seq<Op>, n: nat, tried: set<Op>, op: Op, d: Decision, record: Op,
                 reply: RecordReply)
    requires n < |ops| && ops[n] == op && Tells(op, d) && Apply(ApplyAll(Fresh(c), ops[..n]), op).1.Ok?
    requires record.OpRecord? && record.request.slot == d.slot >= 1
    requires Apply(ApplyAll(Fresh(c), ops), record).1 == Ok(AckRecord(reply))
    requires (forall k :: 0 <= k < |ops| ==> ops[k] in tried) && NoPruneTried(tried, d.slot)
    ensures reply.decision.Some? && reply.decision.value.slot == d.slot && reply.decision.value.values == d.values
  {
    var before, after := ops[..n], ops[n + 1..];
    FloorBelow(c, before, tried, d.slot);
    ApplyAllSplit(Fresh(c), ops, n);
    ToldIsReported(c.id, c.limits, c.cluster, before, op, after, d, record.request, record.available);
  }
}
