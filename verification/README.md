# A verified model of QuePaxa consensus

This project models the consensus crate in Dafny and proves what it promises: the
single-slot protocol over an unreliable network, the recorders behind it and their
durability, versioned membership, the replica pipeline, exactly-once execution across
crashes, and the deterministic leader schedules.

`dafny verify dfyconfig.toml` checks everything.

## How the model is laid out

- `Types`, `Register`, `Recorder`, `ProposerRules`: proposals and their order, the
  interval summary register, the recorder and one turn of the proposer, on values.
- `Membership`, `MembershipCodec`, `Reconfiguration`: stable and joint configurations,
  their quorums, successors and canonical bytes, and the barrier at a membership change.
- `Consensus` is the protocol as a state machine: any number of proposers, complete
  recorders, and growing sets of requests and answers from which any message may be
  delivered any number of times, late or never. Everything else that a recorder does is
  an environment action. `Evidence` is the safety argument over recorder histories,
  `ConsensusSafety` carries it through every run, `SoloProgress` bounds a proposer
  running alone, `FastPath` is the leader's single round trip, and `LeaderLanes` shows
  that the assumption on leaders is exact.
- `Proposer` and `Collector` are the proposer as the program runs it: validation of the
  handles, the loop, and both quorum collectors. `ProposerRefinement` shows that its
  batches and quorums are those of the state machine, and `ProposerRuns` that any number
  of whole attempts over one network is a run of it.
- `RecorderObject`, `RecorderRestore`, `Durable`: the recorder object, restart from a
  snapshot, and persist-before-acknowledge with crashes at every point of a save.
  `RecorderAnswers` says exactly what a recorder acknowledges, reports and forgets.
- `Replica`, `ReplicaSafety`, `ReplicaObject`, `ValueConservation`: batching, requeueing,
  contiguous commit and restart of the replica pipeline. `ReplicaAnswers` says exactly
  what a replica accepts and how far that commits.
- `ExactlyOnce`, `Runtime`, `RuntimePass`, `RuntimeObject`: execution of the committed
  prefix, with a crash possible between any two saves. `RuntimeLimits` holds two runs in
  which a condition on checkpoints and transfers is not met.
- `Schedule`, `ScheduleTiming`, `TunerObject`: leader ranking and cached epoch schedules.
  `ScheduleTilt` and `ScheduleTipping` build committed steps under which one epoch tips
  the ranking, for `ScheduleTimingLimits`, which says exactly where timing matters.

Where the program updates fields in place the model has a class whose methods are proved
against functions on values; the properties are proved about those functions.

## What turned out to need a condition

- Agreement needs each replica that acts as round-one leader to propose one value list
  per slot, whatever its lanes, or quorums that no member can be spared from.
  `LeaderLanes.AgreementExactly` shows this is exact: in a stable or joint cluster every
  run agrees if and only if one of the two holds.
- Rolling back a failed save restores everything except the cluster, so it restores the
  state unless the operation was a membership change that passed its barrier
  (`Durable.RollbackExactly`, `Durable.RollbackMissesCluster`). After a failed save memory
  and main file agree exactly if the save failed before its rename
  (`Durable.FailedSaveExactly`).
- A recorder restarts from its own snapshot if and only if nothing it retains names a
  replica outside the current membership (`RecorderRestore.RoundTripExactly`). After a
  finalized joint epoch that can fail.
- `next_proposal` loses a batch exactly when the log has no room for its slot and the
  batch holds a value that is not decided elsewhere
  (`ValueConservation.ProposeConservesExactly`).
- The threaded proposer rejects a joint configuration unless its quorum is a majority of
  all its members (`Proposer.ClusterAcceptedExactly`), so replacing one member of 2f+1 is
  always rejected (`Proposer.SingleReplacementRejected`).
- `checkpoint_through` keeps execution on the agreed order exactly if the executor has
  executed every value that it drops (`Runtime.CheckpointExactly`); the code leaves that
  to its caller, and `RuntimeLimits.EarlyCheckpointBreaks` is a run without it.
- Installing a state transfer that is behind the replica is harmless if both of its saves
  succeed or nothing reaches a file, and otherwise needs the transfer to cover what it
  meets (`Runtime.TransferExactly`, `RuntimeLimits.OldTransferBreaks`). A run stays on
  the agreed order throughout exactly if its checkpoints and transfers meet these
  conditions (`Runtime.RunExactly`).
- The leader of an epoch depends on the moment at which its schedule is asked for exactly
  if there are at least two members, the schedule is ranked and not re-explored, and the epoch 66
  before it has recorded slots (`ScheduleTimingLimits.MomentMattersExactly`); so never
  through epoch 65. That two tuners have last recorded a slot of the same epoch is enough
  for the same leader exactly if no such epoch comes two or more before the one asked for
  (`ScheduleTimingLimits.SameEpochExactly`): it is enough for epochs 66 and 67 and, with
  two members and two slots per epoch, not for 68
  (`ScheduleTimingLimits.FirstEpochsThatTip`). A schedule evicted from the cache is
  derived again without samples (`ScheduleTimingLimits.ForgottenRankedBlindly`).
- The ranking order needs positive sample sizes (`Schedule.BeforeIsStrictOrder`,
  `Schedule.EmptySampleBreaksOrder`).

## Model

| member | source | states |
|---|---|---|
| Types.BestProposal | src/types.rs:632-640 | the result has a key at least as great as both candidates, is one of them, and a tie keeps the one already held |
| Types.MaxProposalByKey | src/types.rs:642-649 | the result is one of the proposals, no proposal has a greater key, and there is none exactly for no proposals |
| Types.MaxProposalIsEarliest | src/types.rs:642-649 | among proposals with the greatest key the earliest wins |
| IntervalRegister.RegisterSummarizesHistory | src/isr.rs:59-80 | after any call history the four fields are the greatest step, the first and best proposal at it, and the best at the step before among those that arrived in time |
| IntervalRegister.RedeliveryHarmless | src/isr.rs:59-80 | delivering any past call again at any later time changes nothing then or afterwards |
| IntervalRegister.IntervalSummaryRegister.constructor | src/isr.rs:33-35 | a new register stands for the empty history |
| IntervalRegister.IntervalSummaryRegister.Restore | src/isr.rs:50-57 | a restored register holds exactly the snapshot |
| IntervalRegister.IntervalSummaryRegister.Record | src/isr.rs:59-80 | a register that stood for a history of calls now summarises that history and this call, and the reply is its summary |
| Membership.QuorumsMeet | src/types.rs:197-215 | any two quorums of the same or of neighbouring configurations share a member of both |
| Membership.ChainAlternates | src/types.rs:218-234 | along a chain of successors epochs count up by one and stable and joint epochs alternate |
| Membership.ChainQuorumsMeet | src/types.rs:197-259 | in every chain of successors, quorums of the same or adjacent configurations intersect |
| Membership.DistantQuorumsMayMiss | src/types.rs:83-137 | quorums two successors apart need not intersect |
| Membership.SuccessorsAreConstructed | src/types.rs:83-137 | a configuration passes the successor test exactly if `begin_joint` or `finalize_joint` can build it |
| Membership.FinalizeJointIsSuccessor | src/types.rs:120-137 | finalizing succeeds exactly for joint configurations with an epoch left, and gives a successor |
| Membership.BeginJointIsSuccessor | src/types.rs:83-118 | whatever `begin_joint` builds is a successor |
| Membership.BeginJointExactly | src/types.rs:83-118 | for every list, sorted or not, a joint epoch begins exactly from a stable epoch that is not the last, with a distinct non-empty list that tolerates the faults; its new voters are exactly those listed |
| Membership.NewStableExactly | src/types.rs:66-79 | a stable epoch exists exactly for a distinct non-empty list that tolerates the faults, and has those members |
| Membership.QuorumExactly | src/types.rs:197-215 | members form a quorum exactly if no more are missing than may fail, on both sides of a joint epoch |
| Membership.QuorumSizeIsLeast | src/types.rs:178-215 | `quorum_size` is exactly the least size of a voter set that passes `has_quorum` |
| MembershipCodec.DecodeEncode | src/types.rs:488-541 | a decoder recovers epoch, fault budgets and all member lists from the canonical bytes |
| MembershipCodec.EncodingIsInjective | src/types.rs:488-541 | two configurations have the same canonical bytes exactly if they are equal |
| MembershipCodec.ByteBuffer.EncodeUsize | src/types.rs:533-541 | appends eight big-endian bytes, and fails exactly above 64 bits |
| MembershipCodec.ByteBuffer.EncodeMembers | src/types.rs:525-531 | appends the count and every identifier |
| MembershipCodec.ByteBuffer.EncodeCluster | src/types.rs:509-523 | appends the whole configuration, and fails exactly if a count does not fit |
| MembershipCodec.Encode | src/types.rs:488-492 | gives the canonical bytes, which decode to the configuration |
| Recorder.RecordTracks | src/recorder.rs:587-626 | an acknowledged record appends its call to the slot's history, binds or repeats the leader, and answers with the summary of that history and exactly the decision that is then stored for the slot |
| Recorder.RecordReports | src/recorder.rs:587-626 | an acknowledged record reports exactly the decision then stored for its slot, none if there is none, and keeps every decision stored before |
| Recorder.OtherOperationsTrack | src/recorder.rs:411-493 | no other operation, and no rejected record, changes what a recorder holds for an unpruned slot |
| Recorder.StoredDecisionsAreTold | src/recorder.rs:435-459 | a stored decision was there before, was told, or came with a request |
| RecorderAnswers.InformExactly | src/recorder.rs:435-459 | one decision is acknowledged exactly if it is by a member, within the limits, at or below the floor or equal in values to a stored one or new with room for it |
| RecorderAnswers.InformsExactly | src/recorder.rs:435-459 | several are acknowledged exactly if each is acceptable, they agree with each other and with what is stored, and their slots fit; then exactly they are stored in addition |
| RecorderAnswers.RequestExactly | src/recorder.rs:642-665 | a request is valid exactly if sender, leader and proposer are members, the step is in range and the proposal has values, none twice, within the limits |
| RecorderAnswers.RecordExactly | src/recorder.rs:587-626 | a record is acknowledged exactly if it is valid, above the floor, under the bound leader, with available values, room for its slot and acceptable decisions |
| RecorderAnswers.ToldIsReported | src/recorder.rs:435-626 | over every run, an acknowledged decision above the floor is reported with equal values by every later acknowledged record of its slot |
| RecorderAnswers.UntoldIsNotReported | src/recorder.rs:587-626 | over every run, a slot for which no decision was ever brought is answered without one |
| RecorderAnswers.PrunedForGood | src/recorder.rs:411-416 | after a prune and any further operations nothing at or below its slot is retained, and every record there is refused |
| RecorderAnswers.PruneKeepsAbove | src/recorder.rs:411-416 | above the pruned slot registers, leaders and decisions are as before |
| RecorderAnswers.FloorIsGreatestPrune | src/recorder.rs:411-416 | over every run the floor is the greatest slot ever pruned through |
| RecorderObject.RecorderCore.Record | src/recorder.rs:587-626 | the object's new state and reply are those of the operation on values, whose reply `RecordTracks`, `RecordReports` and `RecordExactly` determine, and the state stays restorable |
| RecorderObject.RecorderCore.InformDecision | src/recorder.rs:435-459 | the same for one decision |
| RecorderObject.RecorderCore.InformDecisions | src/recorder.rs:790-795 | the same for several decisions, stopping at the first error |
| RecorderObject.RecorderCore.PruneThrough | src/recorder.rs:411-416 | the same for pruning, whose effect `PrunedForGood` and `PruneKeepsAbove` determine |
| RecorderObject.RecorderCore.InstallMembership | src/recorder.rs:464-493 | the same for a membership change |
| RecorderObject.RecorderCore.RestoreSnapshotState | src/recorder.rs:576-585 | puts back everything a snapshot holds except the cluster |
| RecorderRestore.RestoresExactly | src/recorder.rs:311-370 | `restore` accepts a recorder's own snapshot exactly if the state is sound and names only members, and then gives back the equal state |
| RecorderRestore.ApplyKeeps | src/recorder.rs:411-493 | every operation keeps the state sound, and all but finalizing a joint epoch keep every name known |
| RecorderRestore.RoundTripExactly | src/recorder.rs:311-384 | after any run the snapshot restores exactly if nothing retained names a non-member, which always holds without finalizing |
| RecorderRestore.FinalizedMayNotRestart | src/recorder.rs:330-368 | a finalized recorder whose anchor was proposed by a replica that left is rejected |
| RecorderRestore.FinalizedNotRestarting | src/recorder.rs:311-368 | a new recorder told one decision and given one finalizing change reaches such a state, and its own snapshot is rejected |
| ProposerRules.FirstsReported | src/proposer.rs:478-483 | the first proposals collected are exactly those that replies report |
| ProposerRules.PriorsReported | src/proposer.rs:487-506 | the prior aggregates collected are exactly those that replies report |
| ProposerRules.Highest | src/proposer.rs:514-516 | the reply to catch up with has the greatest step |
| ProposerRules.AdoptsReported | src/proposer.rs:452-465 | whatever else the replies say, the first reported decision ends the attempt: with it, or with an error if it is for another slot or has no values |
| ProposerRules.DecidesOwnStep | src/proposer.rs:466-500 | otherwise a proposer decides at its own step only, in the opening phase or in phase two, values and proposer that a reply shows |
| ProposerRules.CatchesUp | src/proposer.rs:514-523 | if a reply is ahead, the proposer takes the greatest step among the replies and a first proposal shown there |
| ConsensusSafety.ReachableSafe | src/proposer.rs:416-524 | the invariant over recorder histories, requests, replies and decisions holds in every reachable state |
| ConsensusSafety.Agreement | src/proposer.rs:416-524 | in every run any two decisions for the slot, fast, phase two or adopted, have the same values and proposer |
| ConsensusSafety.Validity | src/proposer.rs:416-524 | every decision is some proposer's input |
| ConsensusSafety.SentAfterDecision | src/proposer.rs:466-523 | lock-in: after a fast decision everything sent from step 5 on, and after one at 4r+2 everything from 4r+4 on, carries the decision |
| ConsensusSafety.RecordedAfterDecision | src/proposer.rs:466-523 | lock-in: the same of everything any recorder ever took from that step on |
| ConsensusSafety.DecisionHasGreatestKey | src/proposer.rs:486-500 | a phase-two decision is a proposal some recorder took at its step, and has the greatest key of all proposals ever sent or recorded there |
| ConsensusSafety.OneLeaderCompletes | src/recorder.rs:592-617 | all phase quorums ever completed for a slot are bound to one round-one leader |
| ConsensusSafety.OneReservedChoice | src/proposer.rs:704-734 | among their voters at most one reserved-priority choice was ever recorded, and it is the leader's |
| ConsensusSafety.CollectAdopts | src/proposer.rs:452-465 | in every reachable state a quorum with a reply that reports a decision finishes the proposer with a reported decision |
| ConsensusSafety.StoredIsAnswered | src/recorder.rs:587-626 | a recorder that holds a decision for the slot reports it with every answer it gives |
| ConsensusSafety.ReservedPriorityExactly | src/proposer.rs:417-442 | in every run the reserved priority is sent in an opening phase only by the round-one leader at step 4, and there always |
| LeaderLanes.DisagreementExists | src/proposer.rs:419-425 | two lanes of one leader with different values lead to a run with two decisions |
| LeaderLanes.AgreementExactly | src/proposer.rs:416-524 | in a stable or joint cluster every run agrees exactly if each leader proposes one value list or no quorum can do without a member |
| LeaderLanes.StableSpares | src/types.rs:178-215 | a stable cluster has a quorum without some member exactly if it tolerates a fault |
| SoloProgress.SoloDecides | src/proposer.rs:416-524 | a proposer running alone from a reachable state with highest recorder step M stays within step 4*(M/4+1)+2 and has decided once it collects enough quorums, whichever they are |
| FastPath.DecidesFastExactly | src/proposer.rs:704-734 | at the opening step a turn decides exactly if all replies show a first proposal with one key that has the reserved priority and the agreed leader |
| FastPath.LeaderDecidesAtOnce | src/proposer.rs:416-478 | however many proposers have started, if only the leader's requests were delivered before its first quorum, that quorum decides the leader's own values in one round trip |
| Proposer.ValidateRecorders | src/proposer.rs:653-691 | accepts exactly distinct handles with the proposer, the configured members and quorum, and a quorum between the majority and all; returns that quorum |
| Proposer.AcceptedQuorumsMeet | src/proposer.rs:653-691 | any two voter sets of an accepted quorum size intersect |
| Proposer.ClusterAcceptedExactly | src/proposer.rs:668-690 | handles that match a configuration are accepted exactly if its quorum is a majority of all members, always so for stable ones |
| Proposer.SingleReplacementRejected | src/proposer.rs:681-687 | replacing one of 2f+1 members gives a joint configuration that is rejected |
| Proposer.IterationRaisesStep | src/proposer.rs:416-524 | every turn that goes on raises the step |
| Proposer.RecordersAnswerAhead | src/isr.rs:59-80 | an accepted record answers at or above the request's step and with a first proposal |
| Proposer.StepsRise | src/proposer.rs:416-529 | an attempt that is still running has used at most one turn per step and is within the step limit |
| Proposer.StartsExactly | src/proposer.rs:377-416 | an attempt asks its first question exactly if it has values and step 4 is within the limit, with its own values and key |
| Proposer.BuildBatch | src/proposer.rs:417-442 | each handle gets the proposal, with its private priority in phase zero unless the leader opens |
| Proposer.SentSays | src/proposer.rs:417-442 | every request says the proposer, slot, leader, step and values of its turn; known decisions travel in the first batch only |
| Proposer.PhaseTurn | src/proposer.rs:466-513 | a turn whose replies are all at the proposer's step gives the phase's decision, error, or next step and proposal |
| Proposer.CatchUpTurn | src/proposer.rs:514-523 | a turn with a reply ahead adopts the greatest step and its first proposal |
| Proposer.Turn | src/proposer.rs:452-524 | a turn gives what the rules make of the replies (`AdoptsReported`, `DecidesOwnStep`, `CatchesUp`): the result that ends the attempt, or the step and proposal of the next turn |
| Proposer.Run | src/proposer.rs:409-529 | the loop returns what folding the turns over the collected quorums gives, and sends exactly the batches of the turns it reaches |
| Proposer.Propose | src/proposer.rs:377-529 | rejects bad arguments without sending anything, and otherwise behaves as the loop |
| ProposerRefinement.BatchIsBroadcast | src/proposer.rs:417-442 | the requests of a turn, addressed to the handles, are the broadcast of the protocol |
| ProposerRefinement.CollectedIsPhaseQuorum | src/proposer.rs:532-651 | the replies a collector returns are a phase quorum of the protocol |
| ProposerRuns.QuorumIsCollect | src/proposer.rs:416-524 | each turn of the loop that does not end in an error is a collect action of the protocol |
| ProposerRuns.RunTracks | src/proposer.rs:377-529 | every run of any number of attempts, from their first batch to their results and interleaved in any way, is a run of the protocol whose proposers are where the attempts are |
| ProposerRuns.ResultsAgree | src/proposer.rs:377-529 | any two calls of `propose` that return a decision for the slot return the same values and proposer |
| ProposerRuns.ResultWasProposed | src/proposer.rs:377-529 | and the values are some caller's input |
| ProposerRuns.TurnAdopts | src/proposer.rs:452-465 | in every run of attempts a quorum with a reply that reports a decision makes `propose` return a reported decision, which some attempt had reached |
| ProposerRuns.TurnFailsOnlyAtLimit | src/proposer.rs:409-529 | in every run a turn that has its quorum fails exactly if it raises the step beyond the step limit or the greatest step, and otherwise decides or goes on at a greater step |
| Collector.GivesUpOnlyWhenHopeless | src/proposer.rs:641-646 | too few outstanding calls for the quorum size means no later prefix of the arrivals forms a quorum |
| Collector.CollectsExactly | src/proposer.rs:590-651 | a collector succeeds exactly when a quorum of sound replies arrives |
| Collector.SucceedsExactly | src/proposer.rs:590-651 | in terms of the arrivals alone: a collector succeeds exactly when, before anything is out of order, a quorum of different recorders has replied |
| Collector.CollectorsAgree | src/network/async_proposer.rs:216-276 | both collectors accept the same replies from the same arrivals |
| Collector.CleanRepliesDiffer | src/proposer.rs:614-630 | accepted replies come from different recorders of the expected configuration |
| Collector.CollectQuorum | src/proposer.rs:532-651 | the threaded collector returns the shortest quorum of sound replies, or the error that stopped it |
| Collector.CollectQuorumAsync | src/network/async_proposer.rs:216-276 | the same for the asynchronous collector |
| Durable.SaveEffect | src/recorder.rs:185-227 | only the rename touches the main file and it puts a complete synced snapshot there; until the directory sync a crash may bring back an older one |
| Durable.InstallsExactly | src/recorder.rs:464-493 | an install changes the cluster exactly if it is a new successor anchored at a stored equal decision with nothing retained above it, and is acknowledged exactly then or if it is in effect already |
| Durable.RollbackExactly | src/recorder.rs:740-756 | rolling back restores the state exactly unless the operation was an install that passes this guard, and after an install changes nothing |
| Durable.FailedInstallKeepsCluster | src/recorder.rs:740-756 | if the save of such an install fails before its rename, memory has the new cluster and the main file is as before |
| Durable.RollbackMissesCluster | src/recorder.rs:576-585 | a run from a new recorder in which that happens |
| Durable.FailedSaveExactly | src/recorder.rs:740-756 | after a failed save memory is as before, and the main file agrees with it exactly if the save failed before the rename or nothing had changed |
| Durable.DurableRecorderCore.Save | src/recorder.rs:185-227 | performs the save actions in order and stops where it fails |
| Durable.DurableRecorderCore.Mutate | src/recorder.rs:740-756 | acknowledges only after a complete save, and otherwise rolls back; with `CrashRefinement` a call whose save does not fail gets exactly the answer of the operation |
| Durable.CrashRefinement | src/recorder.rs:740-756 | every run of records, informs and prunes with failed saves and crashes refines a run without them: same states; every call on a running node whose save does not fail gets exactly that run's answer at the same place, errors included, every acknowledgement moves that run on by exactly its operation, and nothing acknowledged is lost |
| Durable.DecisionSurvives | src/recorder.rs:740-756 | whatever crashes and failed saves come in between, an acknowledged decision is reported by every later acknowledged record of its slot unless a prune through it was tried |
| Reconfiguration.InstallNeedsDrainedSlots | src/recorder.rs:464-493 | a recorder that has touched a slot installs only changes anchored at or above it |
| Reconfiguration.NeverUnderBoth | src/recorder.rs:464-493 | one recorder acknowledges a slot under a configuration and its successor only if the change was anchored at or above the slot |
| Reconfiguration.OneConfigurationPerSlot | src/recorder.rs:464-493 | for every slot above the anchors of a change, no phase quorum completes under both the configuration and its successor, in any order of installs |
| ReplicaSafety.CommitOrder | src/replica.rs:265-329 | over every run the committed sequence is slots 1, 2, 3 and so on, each exactly once |
| ReplicaSafety.CommittedWereApplied | src/replica.rs:383-409 | everything committed was given to `apply_decision` |
| ReplicaSafety.PrefixComparable | src/replica.rs:383-409 | two replicas given agreeing decisions commit the same values as far as both have committed |
| ReplicaSafety.DecideCases | src/replica.rs:265-329 | a decision is taken in, requeueing the losing values and committing the contiguous prefix, or changes nothing; `DecideExactly` says which |
| ReplicaAnswers.DecideExactly | src/replica.rs:265-329 | a decision is accepted exactly if it has values, none twice, fits in the log and the tracked values, and repeats the decided values or meets an undecided slot whose losing values fit in the queue |
| ReplicaAnswers.DecideOutcome | src/replica.rs:265-329 | an accepted decision for an undecided slot is taken in, and any other changes nothing |
| ReplicaAnswers.FrontierIsLongestPrefix | src/replica.rs:383-409 | over every run, in whatever order decisions arrive, the frontier is one past the longest prefix of slots whose decisions were accepted |
| ReplicaAnswers.AnyOrderCommitsAll | src/replica.rs:265-409 | agreeing decisions for slots 1 to n within the limits, repeated and in any order, commit all n slots with their values |
| ReplicaAnswers.NoteExactly | src/replica.rs:238-263 | a proposal is noted exactly if it has values, none twice, and fits |
| ReplicaAnswers.EnqueueExactly | src/replica.rs:197-223 | values are queued exactly if the new ones fit; then exactly those not seen before are appended, once each, in the order in which they first occur |
| ReplicaAnswers.PruneExactly | src/replica.rs:349-357 | a prune moves the checkpoint to the slot but not past the committed prefix and not back, and drops exactly the committed slots up to there |
| ReplicaAnswers.PrunedForGood | src/replica.rs:349-357 | over every run no committed slot at or below the checkpoint is retained |
| ReplicaSafety.RestoreRoundTrip | src/replica.rs:100-195 | after any run the replica comes back from its snapshot unchanged |
| ReplicaSafety.RestoreExactly | src/replica.rs:100-195 | `restore` accepts exactly the snapshots within the limits whose values are tracked and whose slots up to the frontier are committed, and gives back what they hold |
| ReplicaSafety.PipelineBounded | src/replica.rs:225-236 | while proposals come from the queue, no more than the configured number of slots is ever in flight |
| ValueConservation.ValuesConserved | src/replica.rs:197-263 | over every run that proposes with room, each accepted value is queued, claimed by exactly one undecided slot, or in a decision the run accepted, and nothing is queued or claimed twice |
| ValueConservation.ProposeConservesExactly | src/replica.rs:225-236 | a proposal conserves values exactly if the log has room or the batch is decided already |
| ValueConservation.ProposeExactly | src/replica.rs:225-236 | a proposal is made exactly if the pipeline has room and values wait, takes the front of the queue to the lowest open slot, and fails exactly if the log has no room for it |
| ValueConservation.FullLogLosesValue | src/replica.rs:232-234 | with one log slot and two slots in flight, the second of two queued values is drained and lost |
| ReplicaObject.ReplicaCore.Enqueue | src/replica.rs:197-223 | queues the values neither seen nor repeated, within both limits |
| ReplicaObject.ReplicaCore.NextOpenSlot | src/replica.rs:359-372 | finds the lowest slot from the frontier on that is neither decided nor claimed |
| ReplicaObject.ReplicaCore.NoteProposed | src/replica.rs:238-263 | records a proposal for a slot |
| ReplicaObject.ReplicaCore.NextProposal | src/replica.rs:225-236 | drains a batch and records it for the next open slot |
| ReplicaObject.ReplicaCore.Requeue | src/replica.rs:305-322 | puts the losing values back at the front in their order |
| ReplicaObject.ReplicaCore.CommitReady | src/replica.rs:383-409 | commits decided slots from the frontier on |
| ReplicaObject.ReplicaCore.ApplyDecision | src/replica.rs:265-329 | the new state and the committed decisions are those of the operation on values, which `DecideExactly` and `DecideOutcome` determine |
| ReplicaObject.ReplicaCore.PruneThrough | src/replica.rs:349-357 | drops committed slots only, up to the committed prefix |
| ExactlyOnce.FirstsKeepEachValueOnce | src/network/dedupe.rs:342-352 | first occurrences keep every value and each only once |
| ExactlyOnce.ExecuteOnceKeeps | src/network/dedupe.rs:342-352 | executing again changes nothing, executing the next call moves one on, and memory and file stay on the agreed order whatever becomes of the save |
| ExactlyOnce.ExecuteOnceExactly | src/network/dedupe.rs:342-352 | a value is done exactly if it was seen before, or the application accepts it and the save succeeds; it is applied only if new |
| Runtime.AcceptKeeps | src/runtime.rs:869-886 | an agreed decision above the checkpoint is recorded together with what it commits, and one below changes nothing |
| RuntimePass.AcceptExactly | src/runtime.rs:869-886 | a decision is accepted exactly if it is at or below the checkpoint, repeats the known values, or is new and the replica accepts it |
| Runtime.CheckpointedShape | src/runtime.rs:797-817 | a checkpoint drops exactly the decisions and marks at or below its slot and keeps all others |
| Runtime.CheckpointExactly | src/runtime.rs:797-817 | a checkpoint keeps execution on the agreed order exactly if the executor has executed every value it drops, whatever becomes of the save |
| Runtime.HandedOutExactly | src/runtime.rs:822-840 | what a replica hands out stands on the agreed order exactly under the same condition |
| Runtime.TransferExactly | src/runtime.rs:845-863 | for each outcome of the two saves, exactly when installing a sound transfer keeps executors and books on the agreed order |
| Runtime.StepExactly | src/runtime.rs:797-929 | every other step, failed save and crash always keeps execution on the agreed order |
| Runtime.RunExactly | src/runtime.rs:797-929 | a run stays on the agreed order throughout exactly if each of its checkpoints and transfers meets its condition |
| Runtime.ExactlyOnceEffect | src/runtime.rs:869-929 | after every such run the application state, in memory and on file, is the fold of `apply` over first occurrences in slot order of a prefix that covers everything marked executed or checkpointed |
| Runtime.CaughtUpCoversCommitted | src/runtime.rs:893-929 | once every committed slot is marked executed, that prefix covers the whole committed prefix |
| RuntimeLimits.EarlyCheckpointBreaks | src/runtime.rs:797-817 | a run that checkpoints a slot before executing it ends in a state that is the effect of no prefix |
| RuntimeLimits.OldTransferBreaks | src/runtime.rs:845-863 | so does one that installs an older transfer whose book is not saved |
| RuntimePass.ExecutedKeeps | src/network/dedupe.rs:75-80 | executing the values of a decision in order stays on the agreed order, and covers them if it succeeds |
| RuntimePass.VisitedKeeps | src/runtime.rs:915-927 | a slot is marked executed only after its values were, its client is told only after that, and both happen once, wherever the visit fails |
| RuntimePass.DispatchKeepsOrder | src/runtime.rs:893-929 | a pass keeps the order and forgets nothing wherever it stops; if nothing fails it has gone over every committed slot and returns what it told in slot order |
| RuntimePass.PassCoversCommitted | src/runtime.rs:893-929 | after such a pass every committed slot is executed and its client told |
| RuntimePass.DispatchCompletes | src/runtime.rs:893-929 | if the application accepts every value, no save fails and every client is reached, a pass succeeds with every committed slot executed and its client told |
| RuntimePass.LearnedKeeps | src/runtime.rs:869-886 | learning an agreed decision keeps the order, and if it succeeds above the checkpoint the decision is known |
| RuntimeObject.FileExactlyOnceExecutor.ExecuteOnce | src/network/dedupe.rs:342-352 | copies, applies, saves and only then replaces the snapshot in memory |
| RuntimeObject.FileExactlyOnceExecutor.Execute | src/network/dedupe.rs:75-80 | the loop over the values of a decision is the fold of single executions up to the first failure |
| RuntimeObject.ReplicaRuntime.VisitSlot | src/runtime.rs:915-927 | executes and marks a slot, then tells its client and marks that, with a save after each |
| RuntimeObject.ReplicaRuntime.DispatchCommitted | src/runtime.rs:893-929 | the loop visits the committed slots in order up to the first failure |
| RuntimeObject.ReplicaRuntime.LearnDecision | src/runtime.rs:869-886 | a new decision is recorded and persisted |
| Schedule.BeforeIsStrictOrder | src/runtime/schedule.rs:525-537 | cross-multiplied comparison with the identifier as tie-break is a strict total order when samples are positive |
| Schedule.EmptySampleBreaksOrder | src/runtime/schedule.rs:525-537 | with an empty sample it is not transitive |
| Schedule.RankSorts | src/runtime/schedule.rs:502-505 | the ranking is the members in strictly increasing rank |
| Schedule.RankingIsUnique | src/runtime/schedule.rs:502-505 | only one order of the members is ranked |
| Schedule.DerivedPermutes | src/runtime/schedule.rs:474-517 | every derived schedule, re-exploration included, is a permutation of the members |
| ScheduleTiming.RequirementMet | src/runtime/schedule.rs:482-494 | a schedule can be derived exactly once the epoch two before it is committed |
| ScheduleTiming.DerivesReference | src/runtime/schedule.rs:474-517 | what the tuner derives is the reference order computed from the committed steps |
| ScheduleTiming.NoteKeeps | src/runtime/schedule.rs:448-472 | recording the next committed slot always succeeds and keeps statistics and cache on the reference |
| ScheduleTiming.QueryKeeps | src/runtime/schedule.rs:432-444 | asking keeps the tuner on the reference and answers with it |
| ScheduleTiming.TimingIndependent | src/runtime/schedule.rs:432-518 | two tuners fed the same committed steps, whatever else they were asked, answer alike for a retained epoch if they were asked at the boundary for the same sensitive epochs up to two before, and for the epoch itself |
| ScheduleTiming.FirstEpochsTimingIndependent | src/runtime/schedule.rs:432-518 | through epoch 65, counted from where recording started, they answer alike without that condition |
| ScheduleTiming.ReconfiguredTimingIndependent | src/runtime/schedule.rs:401-406 | after a reconfiguration with the same members and anchor the same holds whatever the tuners did before |
| ScheduleTimingLimits.SameEpochTimingIndependent | src/runtime/schedule.rs:432-518 | without a sensitive epoch two or more before, it is enough that both last recorded a slot of the same epoch |
| ScheduleTimingLimits.MomentMattersExactly | src/runtime/schedule.rs:448-518 | for every epoch size, membership and start, asking at another moment can change an epoch's leader exactly if the epoch is sensitive |
| ScheduleTimingLimits.SameEpochExactly | src/runtime/schedule.rs:432-518 | tuners at the same epoch can name different leaders exactly if the epoch asked for ranks on a sensitive one |
| ScheduleTimingLimits.FirstEpochsThatTip | src/runtime/schedule.rs:448-518 | with two members and two slots per epoch the moment first matters for epoch 66, and tuners at the same epoch first differ for epoch 68 |
| ScheduleTimingLimits.ForgottenRankedBlindly | src/runtime/schedule.rs:467-518 | an evicted schedule is derived again without samples |
| Schedule.InstallExactly | src/runtime/schedule.rs:410-427 | an order can be installed exactly in manual mode where no other order is given for its epoch |
| Schedule.InstalledForGood | src/runtime/schedule.rs:410-444 | once installed, an order is the answer for its epoch after any further calls |
| TunerObject.EpochTuner.AddUp | src/runtime/schedule.rs:496-501 | the loop adds up slots and steps by leader |
| TunerObject.EpochTuner.Derive | src/runtime/schedule.rs:474-517 | derives the schedule, a permutation of the members |
| TunerObject.EpochTuner.EnsureSchedule | src/runtime/schedule.rs:432-444 | answers from the cache, or derives and caches |
| TunerObject.EpochTuner.NoteCommitted | src/runtime/schedule.rs:448-472 | records the next slot's outcome and forgets epochs more than 64 back |

## Left out

- TLS, framing, sockets, the node server, batch transport, metrics, chaos proxies, load generation and reports: input and output around the protocol.
- Threads, channels, timeouts and in-flight flags: a collector sees a list of arrivals and whether its deadline passed.
- Randomness: private priorities are any numbers from 1 to one below the reserved one; expected-round liveness is not modelled, nor is failure of the random source.
- File contents, serialization and checksums: files hold snapshots; a save is five actions, and unsynced data is lost at a crash.
- Hedging delays, deadlines and progress probes: they do not affect safety.
- Leader policies other than rotation, and fetching of values: the protocol does not depend on them; availability is an input of `record`.
- The submission journal, request locks, the asynchronous submission loop and the network handler's own accept path: they repeat the runtime's logic.
- Feeding the tuner from `dispatch_committed`: the tuner is modelled by itself; its statistics do not touch execution.
- No-op gap filling: it reuses one value identifier across slots.
- Announcements to recorders (`flush_decision_notifications`, `ensure_fully_announced`) and the runtime's own membership install: they only delay checkpoints and installs; the recorder side of an install is modelled.
- Step and slot overflow at 64 bits: slots are unbounded; steps are unbounded except in the proposer's loop, where the overflow error is modelled.
- Error payloads are kept only where a caller branches on them.
- ConsensusSafety.Agreement: requires one value list per replica and lane and per leader, as the protocol's callers owe it; the leader condition is shown to be exact.
- Durable.CrashRefinement: leaves out membership installs, for which the rollback gap is stated exactly by `RollbackExactly`.
- Reconfiguration.OneConfigurationPerSlot: speaks of recorders whose state is not lost; restarts are covered by `CrashRefinement` for the other operations.
- Runtime.ExactlyOnceEffect: speaks of runs whose checkpoints and transfers meet the conditions that `RunExactly` shows to be exact; transfers come from replicas on the agreed order.
- ScheduleTiming.TimingIndependent: the condition is sufficient for the whole order; exactness is shown for the leader.
- ScheduleTimingLimits.MomentMattersExactly: for epochs that begin within 64-bit slot numbers.
- RecorderRestore.RestoresExactly: `restore` is a function on values; only its last step, which replaces the fields, is also a method.
- Runtime.AcceptKeeps: the runtime's own validation of a decision is left out; it only rejects.
- Recorder restart through `DurableRecorderCore::new` with another configuration than the snapshot's: rejected by the first check of `restore`.
