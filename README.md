# Motorway BFT replica, modelled in Dafny

This project models the core of a simulator for the Motorway BFT protocol. Each replica runs
a three-phase Prepare → Confirm → Commit consensus with a leader that rotates round-robin per
level and with a timeout view change. Replicas talk through an orchestrator that delivers
signals after a sampled delay and limits how many signals advance per tick.

The model has these modules:

- `Data` (data.dfy): the `Block` entity. Its digest is its value followed by the parent's
  digest, and blocks are compared by digest.
- `Messages` (messages.dfy): the `Message` base class, with its sender, its type tag and the
  tag-comparing default `isSame`, and the `makeMessage` factory.
- `CommitCertif` (commit_certif.dfy): the older `FakeCommitCertificate`.
- `World` (world.dfy):
  - the round-robin proposer selector;
  - the clamp of a signal's arrival time;
  - the `Orchestrator` class, whose `addSignal`, `tick` and `processSignals` methods update
    its fields in place.
- `MotorwayMessages` (motorway_messages.dfy): the six message classes of the replica with their
  `isSame`, and `QuorumCertificate`.
- `ReplicaState` (replica_state.dfy): the replica's state as a value, and each handler as a
  step function from a state to an outcome. The outcome is the new state plus whether the
  handler returned or threw.
- `MotorwayReplica` (motorway_replica.dfy): the `MotorwayBftReplica` class. Its fields are
  updated in place by one method per handler. Each method is proved to leave exactly the state
  that its step function computes. Every step is also proved to keep the replica invariant
  `Ready` and the growth relation `Grows`:
  - voted levels are never removed;
  - committed entries are never rewritten;
  - emitted signals are never taken back.
- `ReplicaProperties` (replica_properties.dfy): the protocol's promises, proved about the step
  functions. They cover:
  - which Prepares are voted for and what voting changes;
  - when a Confirm locks a level and when a Commit commits it;
  - what a quorum of VotePrepares, VoteConfirms or Timeouts triggers;
  - that the current level never decreases;
  - that a redelivered Prepare or Commit changes nothing.

Other modelling choices:

- **Peers.** A peer is a number (`PeerId`). A replica knows its own id and the list of peers it
  knows, itself included.
- **Outgoing signals.** A replica does not call the orchestrator. It appends
  `(from, to, message)` to its `outbox`.
- **Randomness and other replicas as parameters.** Every handler takes an `Environment` with two
  things:
  - the random letter of a new block;
  - the lock tables of the other replicas, which the lock backfill of `propose` reads.
  
  The orchestrator's exponential delay sample is a parameter of `AddSignal`.
- **Genesis state.** A new replica already holds the genesis vote, lock and committed block at
  level 0, as the test scenarios seed them. `Kickoff` is the scenarios' bootstrap of the
  level-1 proposer.

## Model

| member | source | states |
|---|---|---|
| `Data.ChildLinksToParent` | src/data.ts:11-22 | A block built on `p` records `p`'s digest as its parent and has digest `value ++ p.digest`, so `p.isParent(child)` holds |
| `Data.OrphanHasEmptyDigests` | src/data.ts:7-18 | A block built without a parent keeps the empty digest and the empty parent |
| `Data.Genesis` | src/scenarios.test.ts:19-20 | The genesis block is "A" with its digest overwritten to "A" and an empty parent |
| `Data.IsSameIsEquivalence` | src/data.ts:24-26 | `isSame` is reflexive, symmetric and transitive, and is false against a missing block |
| `Data.NewBlockDeterministic` | src/data.ts:14-17 | The same value on `isSame` parents gives `isSame` children |
| `Data.ChildDigestShape` | src/data.ts:16 | A child's digest ends with its parent's digest and is as long as the value and the parent digest together |
| `Data.DistinctSiblingsDiffer` | src/data.ts:16 | Two children of one parent with distinct values of equal length are not the same block |
| `Data.SameChildrenHaveSameParents` | src/data.ts:14-17 | Children with the same value are the same block exactly when their parents are |
| `Data.ChildDiffersFromParent` | src/data.ts:14-26 | A child with a non-empty value is never the same block as its parent |
| `Messages.NewMessage` | src/messages.ts:3-9 | A new base message records its sender unchanged and has the empty type tag |
| `Messages.MakeMessageKeepsItsInputs` | src/messages.ts:16-24 | `makeMessage` yields a message of the class's tag with the given sender and fields, and different senders or fields give different messages |
| `Messages.DefaultIsSameIsEquivalence` | src/messages.ts:11-13 | The default `isSame` is reflexive, symmetric and transitive |
| `Messages.SameClassIsDefaultSame` | src/messages.ts:11-24 | Any two messages made for the same class are the same under the default `isSame`, whatever their senders and fields |
| `CommitCertif.CheckCertificateIffMinimum` | src/commitCertif.ts:21-23 | The certificate passes exactly when it has at least floor(2N/3)+1 signers |
| `CommitCertif.CheckCertificateMonotone` | src/commitCertif.ts:21-23 | Adding signers never turns a passing certificate into a failing one |
| `CommitCertif.SubsetCardinality` | src/commitCertif.ts:22 | A subset of the signers is no larger than the set, which is what makes the threshold monotone |
| `CommitCertif.ByzantineQuorum` | src/commitCertif.ts:22 | For a committee of 3f+1 peers the smallest passing number of signers is 2f+1, and a certificate passes exactly when it has at least 2f+1 signers |
| `CommitCertif.GetLevelIsConstructorLevel` | src/commitCertif.ts:11-19 | `getLevel` returns the level the certificate was built with |
| `CommitCertif.IsCertificateOfIffSameDigest` | src/commitCertif.ts:25-27 | `isCertificateOf(d)` holds exactly when the certified block's digest is `d`'s digest, and never for a missing block |
| `World.RoundRobin.GetProposer` | src/world.ts:65-67 | The proposer of a level is a member of the committee |
| `World.IsProposerIffGetProposer` | src/world.ts:61-67 | `isProposer(l, p)` holds exactly when `getProposer(l)` is `p` |
| `World.ProposerIsPeriodic` | src/world.ts:65-71 | The schedule repeats with the committee size as period, and `getAllPeers` does not depend on the level |
| `World.FirstRoundInOrder` | src/world.ts:65-67 | Levels 0 to N-1 are led by the committee members in list order |
| `World.ConsecutiveLeadersDiffer` | src/world.ts:65-67 | In a committee of two or more distinct peers, consecutive levels have different proposers |
| `World.ArrivalTime` | src/world.ts:25-28 | The arrival countdown is at most 20 mean delays, lies in [1, 20·mean] when 20·mean ≥ 1, and is the sample itself when the sample is already in range |
| `World.PassConservesSignals` | src/world.ts:113-129 | Delivered plus re-enqueued signals are exactly as many as the snapshot |
| `World.PrefixBeyondCutoffDeliversSame` | src/world.ts:119-122 | Signals after snapshot index `MAX_BANDWIDTH` never change what is delivered |
| `World.PassDeliversAtMostBandwidth` | src/world.ts:119-128 | At most `MAX_BANDWIDTH`+1 signals, and no more than the snapshot holds, are delivered per pass |
| `World.PassRequeuesTailUnchanged` | src/world.ts:119-122 | Signals beyond the cutoff are re-enqueued after the served ones, in order, with their countdown unchanged |
| `World.PassDeliversOnlyArrived` | src/world.ts:119-128 | Every delivered signal's decremented countdown is not positive; when the whole snapshot is within the cutoff, every re-enqueued signal still has a positive countdown |
| `World.PassStepsOneSignal` | src/world.ts:113-128 | One more snapshot signal is either delivered, re-enqueued decremented, or re-enqueued unchanged, according to its index and countdown |
| `World.Orchestrator.constructor` | src/world.ts:75-92 | A new orchestrator has no signals, time 0, no statistics, and the given delta, bandwidth and drop rate (defaults 5, 20 and 0.1) |
| `World.Orchestrator.AddSignal` | src/world.ts:94-97 | The signal is appended with its clamped arrival countdown, and nothing else changes |
| `World.Orchestrator.Tick` | src/world.ts:99-103 | Time goes up by one, the in-flight count before delivery is recorded under the new time, and one delivery pass runs |
| `World.Orchestrator.ProcessSignals` | src/world.ts:105-130 | The pass delivers exactly `Delivered(snapshot)`, leaves exactly `Requeued(snapshot)` in flight, keeps the order, and loses no signal |
| `MotorwayMessages.AnyMessage.Header` | src/MotorwayBftReplica.ts:13-58 | Every message carries one of the six class tags |
| `MotorwayMessages.QuorumIffCertificate` | src/MotorwayBftReplica.ts:75-77 | The accumulator test `size >= floor(2N/3)+1` is `checkCertificate(N)`, and both mean 3·size > 2N, so a certificate built at quorum passes |
| `MotorwayMessages.HeaderIsMadeByItsClass` | src/MotorwayBftReplica.ts:13-58 | A message's base view holds its sender and its class's tag, which is never the base class's empty tag, and the inherited `isSame` holds exactly between messages of the same class |
| `MotorwayMessages.PrepareIsSameIsEquivalence` | src/MotorwayBftReplica.ts:18-20 | Prepares are the same exactly when block digest and level agree, and this is an equivalence |
| `MotorwayMessages.InheritedIsSameIgnoresContent` | src/MotorwayBftReplica.ts:31-49 | Confirm and Commit inherit the tag comparison, so any two Confirms and any two Commits are the same |
| `MotorwayMessages.VotesCompareTheirPrepares` | src/MotorwayBftReplica.ts:23-43 | VotePrepares, and VoteConfirms, are the same exactly when the Prepares under them are, whoever sent them |
| `MotorwayMessages.VoteConfirmMatchIsPrepareMatch` | src/MotorwayBftReplica.ts:79-81 | `checkMessageMatches` on a VoteConfirm certificate holds exactly when both confirm the same Prepare |
| `MotorwayMessages.TimeoutIsSameIsLevel` | src/MotorwayBftReplica.ts:55-57 | Timeouts are the same exactly when their levels are equal |
| `ReplicaState.MaxExists` | src/MotorwayBftReplica.ts:115-118 | A non-empty set of levels has a largest element |
| `ReplicaState.MaxLevel` | src/MotorwayBftReplica.ts:115-118 | The maximum is a voted level and no voted level exceeds it |
| `ReplicaState.CurrentLevelAfterVote` | src/MotorwayBftReplica.ts:115-118 | Recording a vote at a level makes the current level the larger of the old one and that level |
| `ReplicaState.CurrentLevelMonotone` | src/MotorwayBftReplica.ts:115-118 | When voted levels only grow, the current level never decreases |
| `ReplicaState.NearestVotedLevel` | src/MotorwayBftReplica.ts:405-409 | The level found lies below the proposed level and holds a real vote |
| `ReplicaState.NearestVotedLevelIsNearest` | src/MotorwayBftReplica.ts:405-409 | The search finds the highest level below with a real vote, and finds nothing exactly when none exists |
| `ReplicaState.NearestIsHighestBelow` | src/MotorwayBftReplica.ts:405-409 | When level `j` holds a real vote and no level between `j` and the proposed one does, the parent is `j`'s block |
| `ReplicaState.NearestVotedBlockExists` | src/MotorwayBftReplica.ts:405-413 | A parent is found exactly when some lower level holds a real vote |
| `ReplicaState.FanoutShape` | src/MotorwayBftReplica.ts:259-263 | Each signal is the message from this replica to a known peer (never itself when skipping), every eligible known peer gets one, and there are no more signals than known peers |
| `ReplicaState.FanoutSnoc` | src/MotorwayBftReplica.ts:259-263 | One more known peer adds at most the one signal addressed to it, at the end |
| `ReplicaState.FanoutFollowsPeers` | src/MotorwayBftReplica.ts:131-134 | Without skipping, the i-th signal goes to the i-th known peer |
| `ReplicaState.FanoutSkipCount` | src/MotorwayBftReplica.ts:422-426 | Skipping itself in a list without repetitions sends one signal fewer exactly when it knows itself |
| `ReplicaState.FirstLockHolder` | src/MotorwayBftReplica.ts:203-210 | The position found is at or after the start of the search and names another peer that holds a lock at the level |
| `ReplicaState.FirstLockHolderIsFirst` | src/MotorwayBftReplica.ts:203-210 | The search finds the first other known peer that holds a lock at the level, and nothing exactly when none does |
| `ReplicaState.BackfilledLocksSpec` | src/MotorwayBftReplica.ts:201-211 | The backfill keeps every lock held, adds at most the lock at the level, and fills a missing level exactly when some other known peer holds a lock there |
| `ReplicaState.CommitBlockStep` | src/MotorwayBftReplica.ts:388-402 | `commitBlock` writes key `level` only: the voted block for a real vote, nil for a nil vote, and nothing without a vote |
| `ReplicaState.PrepareChecks` | src/MotorwayBftReplica.ts:185-218 | The safety checks change nothing but the lock table (by the backfill) |
| `ReplicaState.AcceptPrepare` | src/MotorwayBftReplica.ts:226-238 | Voting keeps the replica invariant and only grows the state |
| `ReplicaState.ProposeStep` | src/MotorwayBftReplica.ts:171-239 | `propose` keeps the replica invariant and only grows the state, thrown or not |
| `ReplicaState.LockStep` | src/MotorwayBftReplica.ts:285-302 | Locking keeps the replica invariant and only grows the state |
| `ReplicaState.ConfirmStep` | src/MotorwayBftReplica.ts:268-303 | `confirm` keeps the replica invariant and only grows the state |
| `ReplicaState.OnVoteProposeStep` | src/MotorwayBftReplica.ts:241-266 | `onVotePropose` keeps the replica invariant and only grows the state |
| `ReplicaState.CollectCommitVote` | src/MotorwayBftReplica.ts:312-328 | The voted level's proposer collecting VoteConfirms keeps the invariant and only grows the state |
| `ReplicaState.CollectNextLeaderVote` | src/MotorwayBftReplica.ts:331-343 | The next proposer collecting VoteConfirms keeps the invariant and only grows the state |
| `ReplicaState.StartRound` | src/MotorwayBftReplica.ts:336-342 | Proposing on a certificate for the level below keeps the invariant and only grows the state |
| `ReplicaState.OnVoteConfirmStep` | src/MotorwayBftReplica.ts:305-344 | `onVoteConfirm` keeps the replica invariant and only grows the state |
| `ReplicaState.CommitThenPropose` | src/MotorwayBftReplica.ts:374-385 | Committing and proposing on top keeps the invariant and only grows the state |
| `ReplicaState.CommitChecks` | src/MotorwayBftReplica.ts:361-376 | The commit checks and the commit keep the invariant and only grow the state |
| `ReplicaState.OnCommitStep` | src/MotorwayBftReplica.ts:346-386 | `onCommit` keeps the replica invariant and only grows the state |
| `ReplicaState.ProposeNewBlockStep` | src/MotorwayBftReplica.ts:404-428 | `proposeNewBlock` keeps the replica invariant and only grows the state |
| `ReplicaState.TimeoutQuorumStep` | src/MotorwayBftReplica.ts:450-464 | Acting on a quorum of Timeouts keeps the invariant and only grows the state, even though it deletes a lock |
| `ReplicaState.ProposeOnTimeouts` | src/MotorwayBftReplica.ts:458-463 | Proposing on a certificate of Timeouts keeps the invariant and only grows the state |
| `ReplicaState.OnTimeoutStep` | src/MotorwayBftReplica.ts:430-465 | `onTimeout` keeps the replica invariant and only grows the state |
| `ReplicaState.TimeoutSignals` | src/MotorwayBftReplica.ts:131-138 | Every Timeout signal is sent by this replica |
| `ReplicaState.EnterTimeoutStep` | src/MotorwayBftReplica.ts:129-147 | Timing out keeps the replica invariant and only grows the state |
| `ReplicaState.TickStep` | src/MotorwayBftReplica.ts:120-148 | `tick` keeps the replica invariant and only grows the state |
| `ReplicaState.ProcessSignalStep` | src/MotorwayBftReplica.ts:150-169 | Every signal keeps the replica invariant and only grows the state, whether its handler throws or not |
| `ReplicaState.InitialState` | src/scenarios.test.ts:25-29 | The genesis seeding satisfies the replica invariant |
| `ReplicaState.KickoffStep` | src/scenarios.test.ts:31-36 | The bootstrap keeps the replica invariant and only grows the state |
| `ReplicaProperties.AcceptPrepareEffects` | src/MotorwayBftReplica.ts:226-238 | A vote sets `proposalsVoted[level]`, makes `level` the current level, resets the timer, commits the level below only if it is voted and not yet committed, and sends exactly one VotePrepare to the level's proposer |
| `ReplicaProperties.ProposeIgnoresStale` | src/MotorwayBftReplica.ts:175-179 | A Prepare at or below the current level is ignored, with no state change |
| `ReplicaProperties.ProposeAcceptsExactlyValid` | src/MotorwayBftReplica.ts:184-238 | Above the current level, a Prepare is voted for exactly when every check passes (QC present, expected proposer, threshold, level link, and locked block for a VoteConfirm QC); a vote is the effect of `AcceptPrepare` on the backfilled locks |
| `ReplicaProperties.ProposeRejectionKeepsState` | src/MotorwayBftReplica.ts:185-218 | A rejected Prepare records no vote and changes nothing but the backfilled lock; a missing QC and a wrong proposer are rejected untouched |
| `ReplicaProperties.ProposeFrame` | src/MotorwayBftReplica.ts:171-239 | `propose` changes the vote at the Prepare's level only, releases no lock, leaves the accumulators and the phase alone, and files every vote under its level |
| `ReplicaProperties.ProposeNewBlockFrame` | src/MotorwayBftReplica.ts:404-428 | `proposeNewBlock` changes the vote at the proposed level only and releases no lock |
| `ReplicaProperties.ConfirmFrame` | src/MotorwayBftReplica.ts:268-303 | `confirm` changes the vote at the Confirm's level only, by its lazy `propose`, and releases no lock |
| `ReplicaProperties.ConfirmLocksOnlyChecked` | src/MotorwayBftReplica.ts:272-302 | A Confirm without a QC, or from anyone but the level's proposer, is refused untouched; a handled Confirm passed the vote match and the threshold, holds the lock at its level, and ends with the VoteConfirm addressed by `confirmToNextLeader` |
| `ReplicaProperties.ProposeLocksOnly` | src/MotorwayBftReplica.ts:201-211 | `propose` leaves the lock table as it was or as the backfill made it |
| `ReplicaProperties.ProposeLocksKeepLevel` | src/MotorwayBftReplica.ts:201-211 | The backfill copies no lock at the Prepare's own level |
| `ReplicaProperties.ConfirmThrowLocksOnly` | src/MotorwayBftReplica.ts:272-302 | A refused Confirm leaves the lock table as it was or as the backfill of its lazy `propose` made it |
| `ReplicaProperties.ConfirmThrowKeepsLock` | src/MotorwayBftReplica.ts:272-302 | A refused Confirm, whichever check threw, leaves the lock at its level exactly as it was: only the three checks passing record `proposalsLocked[level]` |
| `ReplicaProperties.StartRoundFrame` | src/MotorwayBftReplica.ts:336-342 | Starting a round changes the vote at the proposed level only and releases no lock |
| `ReplicaProperties.StartRoundEffects` | src/MotorwayBftReplica.ts:336-342 | Starting a round enters the prepare phase; a handled round empties `votesReceived` and, above the current level with a voted block below, votes for its own Prepare on the certificate and sends it to every other known peer; a thrown one keeps the accumulator |
| `ReplicaProperties.CommitThenProposeFrame` | src/MotorwayBftReplica.ts:374-385 | Committing and proposing on top changes the vote at the next level only, releases no lock, and commits the level when it is voted |
| `ReplicaProperties.OnCommitRedeliveryChangesNothing` | src/MotorwayBftReplica.ts:368-374 | Delivering a handled Commit again changes nothing |
| `ReplicaProperties.OnCommitIgnoresCommittedLevel` | src/MotorwayBftReplica.ts:357-373 | A Commit for a level already locked and committed changes nothing, whoever sent it and whatever block it certifies, a rogue leader's conflicting Commit included |
| `ReplicaProperties.ProposeRedeliveryChangesNothing` | src/MotorwayBftReplica.ts:175-179 | Delivering a handled Prepare again changes nothing |
| `ReplicaProperties.OnVoteProposeEffects` | src/MotorwayBftReplica.ts:244-265 | `onVotePropose` is a no-op outside the prepare phase or for another proposer's level; below quorum it only records the sender; at quorum it waits, locks its own Confirm over the signers, sends that Confirm to every other known peer, and empties the accumulator |
| `ReplicaProperties.OnVoteConfirmIgnores` | src/MotorwayBftReplica.ts:305-331 | `onVoteConfirm` ignores votes outside the waiting phase and votes it is neither this level's nor the next level's proposer for |
| `ReplicaProperties.OnCommitKeepsRound` | src/MotorwayBftReplica.ts:346-386 | Unless this replica proposes the next level, `onCommit` leaves `votesReceived`, the phase and the Timeout signers alone |
| `ReplicaProperties.CommitChecksKeepsRound` | src/MotorwayBftReplica.ts:361-385 | Unless this replica proposes the next level, the checks and commit of `onCommit` leave `votesReceived`, the phase and the Timeout signers alone |
| `ReplicaProperties.CollectCommitVoteEffects` | src/MotorwayBftReplica.ts:315-327 | The level's proposer counts the sender; at a quorum a handled own Commit leaves the level committed, to the certified block if new, and that Commit goes to every other known peer; unless it also proposes the next level, `votesReceived` keeps its signers |
| `ReplicaProperties.CollectNextLeaderVoteStartsRound` | src/MotorwayBftReplica.ts:334-343 | Below a quorum the next proposer only counts the sender; at one it starts the next round on the certificate of the VoteConfirms |
| `ReplicaProperties.CollectNextLeaderVoteEffects` | src/MotorwayBftReplica.ts:334-343 | At a quorum the next proposer enters the prepare phase; a handled proposal empties `votesReceived` and, above the current level with a voted block below, votes for its Prepare at `level+1` on the VoteConfirm certificate and sends it to every other known peer |
| `ReplicaProperties.OnVoteConfirmEffects` | src/MotorwayBftReplica.ts:305-344 | While waiting, below a quorum only the sender is recorded; at a quorum the level's proposer commits the level (to the certified block if new), sends the Commit to every other known peer and keeps its signers, while the next proposer switches to the prepare phase, proposes `level+1` on the VoteConfirm certificate and clears `votesReceived` |
| `ReplicaProperties.ProposeCommitsOnlyBelow` | src/MotorwayBftReplica.ts:231 | `propose` commits no level but the one below the Prepare's |
| `ReplicaProperties.ConfirmCommitsOnlyBelow` | src/MotorwayBftReplica.ts:279-284 | `confirm` commits no level but the one below the Prepare's |
| `ReplicaProperties.OnCommitCommitsCertifiedBlock` | src/MotorwayBftReplica.ts:346-376 | A Commit without a QC or from anyone but the level's proposer is refused untouched; a handled Commit passed the threshold and leaves its level committed, with the certified block when the level was not committed before |
| `ReplicaProperties.ProposeNewBlockBuildsOnNearest` | src/MotorwayBftReplica.ts:404-425 | With no real vote below, nothing changes; otherwise an accepted proposal votes for a new block with the given value whose parent is the nearest voted block, and sends the Prepare to every other known peer |
| `ReplicaProperties.OnTimeoutEffects` | src/MotorwayBftReplica.ts:430-464 | Timeouts below the current level are ignored; otherwise the sender joins the level's signers, only the next level's proposer goes on, and at a quorum it votes nil at the level |
| `ReplicaProperties.NearestIgnoresAbove` | src/MotorwayBftReplica.ts:406-413 | A vote at a level does not change the nearest voted level below it |
| `ReplicaProperties.NearestAfterNil` | src/MotorwayBftReplica.ts:406-413 | After a nil vote at a level, a proposal for the level above builds on the block voted nearest below that level |
| `ReplicaProperties.ProposeOnTimeoutsEffects` | src/MotorwayBftReplica.ts:458-463 | Outside the waiting phase nothing changes; while waiting the replica enters the prepare phase and keeps every lock, and as the level's proposer with a passing Timeout certificate for the level below and a voted block below, its own Prepare is accepted and sent to every other known peer |
| `ReplicaProperties.OnTimeoutQuorumEffects` | src/MotorwayBftReplica.ts:450-464 | At a quorum the next level's proposer votes nil at the level and deletes its lock there; outside the waiting phase nothing else changes; while waiting it enters the prepare phase and, with a voted block below, proposes `level+1` on the Timeout certificate, built on the block voted nearest below, and sends the Prepare to every other known peer |
| `ReplicaProperties.TimeoutSignalsReach` | src/MotorwayBftReplica.ts:130-138 | The Timeout for the next level goes to every known peer in order when broadcasting, and otherwise only to the proposer two levels up |
| `ReplicaProperties.TickEffects` | src/MotorwayBftReplica.ts:120-147 | `tick` does nothing on a byzantine replica and otherwise advances the timer; at the delay it emits the Timeouts, votes nil one level up (so the current level rises by exactly one) and resets the timer |
| `ReplicaProperties.HandlersOnlyAdvance` | src/MotorwayBftReplica.ts:115-169 | No signal and no tick lowers the current level, rewrites a committed level, or takes back a signal sent |
| `ReplicaProperties.DistinctPeersCount` | src/scenarios.test.ts:31-34 | A committee without repetitions has as many signers as members |
| `ReplicaProperties.KickoffProposesB` | src/scenarios.test.ts:16-37 | On a fresh level-1 proposer, the bootstrap succeeds: it votes for "B" on genesis at level 1, votes to itself, sends the Prepare to every other known peer, commits nothing new, and clears the accumulator |
| `ReplicaProperties.StartRoundKeepsFiled` | src/MotorwayBftReplica.ts:336-342 | Starting a round files every real vote under its Prepare's level |
| `ReplicaProperties.OnCommitKeepsFiled` | src/MotorwayBftReplica.ts:346-386 | `onCommit` files every real vote under its Prepare's level |
| `ReplicaProperties.CollectCommitVoteKeepsFiled` | src/MotorwayBftReplica.ts:312-328 | Committing at a quorum of VoteConfirms files every real vote under its Prepare's level |
| `ReplicaProperties.CollectNextLeaderVoteKeepsFiled` | src/MotorwayBftReplica.ts:331-343 | The next proposer at a quorum of VoteConfirms files every real vote under its Prepare's level |
| `ReplicaProperties.OnVoteConfirmKeepsFiled` | src/MotorwayBftReplica.ts:305-344 | `onVoteConfirm` files every real vote under its Prepare's level |
| `ReplicaProperties.ProposeOnTimeoutsKeepsFiled` | src/MotorwayBftReplica.ts:458-463 | Proposing on Timeouts files every real vote under its Prepare's level |
| `ReplicaProperties.TimeoutQuorumKeepsFiled` | src/MotorwayBftReplica.ts:450-464 | Giving up a level at a quorum of Timeouts files every real vote under its Prepare's level |
| `ReplicaProperties.OnTimeoutKeepsFiled` | src/MotorwayBftReplica.ts:430-465 | `onTimeout` files every real vote under its Prepare's level |
| `ReplicaProperties.OnVoteProposeKeepsFiled` | src/MotorwayBftReplica.ts:241-266 | `onVotePropose` files every real vote under its Prepare's level |
| `ReplicaProperties.HandlersKeepFiled` | src/MotorwayBftReplica.ts:120-169 | The genesis state files its vote under level 0, and every signal, tick and the bootstrap round keeps every real vote filed under its Prepare's level |
| `MotorwayReplica.MotorwayBftReplica.constructor` | src/scenarios.test.ts:25-29 | A new replica holds the genesis vote, lock and committed block at level 0, waits, has empty accumulators and has sent nothing |
| `MotorwayReplica.MotorwayBftReplica.GetCurrentLevel` | src/MotorwayBftReplica.ts:115-118 | The current level is a voted level and no voted level exceeds it |
| `MotorwayReplica.MotorwayBftReplica.Send` | src/MotorwayBftReplica.ts:236-237 | One signal from this replica is appended to the outbox |
| `MotorwayReplica.MotorwayBftReplica.SendToPeers` | src/MotorwayBftReplica.ts:259-263 | The loop over the known peers appends the signals `Fanout` describes |
| `MotorwayReplica.MotorwayBftReplica.BackfillLock` | src/MotorwayBftReplica.ts:201-211 | The loop over the known peers leaves the lock table `BackfilledLocks` describes |
| `MotorwayReplica.MotorwayBftReplica.CommitBlock` | src/MotorwayBftReplica.ts:388-402 | Ends in the state of `CommitBlockStep` |
| `MotorwayReplica.MotorwayBftReplica.Propose` | src/MotorwayBftReplica.ts:171-239 | Ends in the state and with the outcome of `ProposeStep`, and keeps the invariant |
| `MotorwayReplica.MotorwayBftReplica.CheckPrepare` | src/MotorwayBftReplica.ts:185-218 | Ends in the state and with the outcome of `PrepareChecks` |
| `MotorwayReplica.MotorwayBftReplica.VoteFor` | src/MotorwayBftReplica.ts:226-238 | Ends in the state of `AcceptPrepare` |
| `MotorwayReplica.MotorwayBftReplica.OnVotePropose` | src/MotorwayBftReplica.ts:241-266 | Ends in the state and with the outcome of `OnVoteProposeStep`, and keeps the invariant |
| `MotorwayReplica.MotorwayBftReplica.Confirm` | src/MotorwayBftReplica.ts:268-303 | Ends in the state and with the outcome of `ConfirmStep`, and keeps the invariant |
| `MotorwayReplica.MotorwayBftReplica.LockConfirm` | src/MotorwayBftReplica.ts:285-302 | Ends in the state and with the outcome of `LockStep` |
| `MotorwayReplica.MotorwayBftReplica.OnVoteConfirm` | src/MotorwayBftReplica.ts:305-344 | Ends in the state and with the outcome of `OnVoteConfirmStep`, and keeps the invariant |
| `MotorwayReplica.MotorwayBftReplica.CollectCommitVote` | src/MotorwayBftReplica.ts:312-328 | Ends in the state and with the outcome of `ReplicaState.CollectCommitVote`, and keeps the invariant |
| `MotorwayReplica.MotorwayBftReplica.CollectNextLeaderVote` | src/MotorwayBftReplica.ts:331-343 | Ends in the state and with the outcome of `ReplicaState.CollectNextLeaderVote`, and keeps the invariant |
| `MotorwayReplica.MotorwayBftReplica.StartRound` | src/MotorwayBftReplica.ts:336-342 | Ends in the state and with the outcome of `ReplicaState.StartRound`, and keeps the invariant |
| `MotorwayReplica.MotorwayBftReplica.OnCommit` | src/MotorwayBftReplica.ts:346-386 | Ends in the state and with the outcome of `OnCommitStep`, and keeps the invariant |
| `MotorwayReplica.MotorwayBftReplica.CheckCommit` | src/MotorwayBftReplica.ts:361-376 | Ends in the state and with the outcome of `CommitChecks`, and keeps the invariant |
| `MotorwayReplica.MotorwayBftReplica.CommitAndPropose` | src/MotorwayBftReplica.ts:374-385 | Ends in the state and with the outcome of `CommitThenPropose`, and keeps the invariant |
| `MotorwayReplica.MotorwayBftReplica.FindParent` | src/MotorwayBftReplica.ts:405-409 | The backwards loop finds the block of the nearest lower level with a real vote, which `NearestVotedBlock` describes |
| `MotorwayReplica.MotorwayBftReplica.ProposeNewBlock` | src/MotorwayBftReplica.ts:404-428 | Ends in the state and with the outcome of `ProposeNewBlockStep`, and keeps the invariant |
| `MotorwayReplica.MotorwayBftReplica.OnTimeout` | src/MotorwayBftReplica.ts:430-465 | Ends in the state and with the outcome of `OnTimeoutStep`, and keeps the invariant |
| `MotorwayReplica.MotorwayBftReplica.OnTimeoutQuorum` | src/MotorwayBftReplica.ts:450-464 | Ends in the state and with the outcome of `TimeoutQuorumStep`, and keeps the invariant |
| `MotorwayReplica.MotorwayBftReplica.ProposeOnTimeouts` | src/MotorwayBftReplica.ts:458-463 | Ends in the state and with the outcome of `ReplicaState.ProposeOnTimeouts`, and keeps the invariant |
| `MotorwayReplica.MotorwayBftReplica.SendTimeout` | src/MotorwayBftReplica.ts:131-138 | Appends the Timeout signals `TimeoutSignals` describes |
| `MotorwayReplica.MotorwayBftReplica.Tick` | src/MotorwayBftReplica.ts:120-148 | Ends in the state of `TickStep`, and keeps the invariant |
| `MotorwayReplica.MotorwayBftReplica.EnterTimeout` | src/MotorwayBftReplica.ts:129-147 | Ends in the state of `EnterTimeoutStep` |
| `MotorwayReplica.MotorwayBftReplica.ProcessSignal` | src/MotorwayBftReplica.ts:150-169 | Ends in the state of `ProcessSignalStep`, keeping what a throwing handler changed, and keeps the invariant |
| `MotorwayReplica.MotorwayBftReplica.Kickoff` | src/scenarios.test.ts:31-36 | Ends in the state and with the outcome of `KickoffStep`, and keeps the invariant |

## Left out

- **Integer and level types.** Levels are natural numbers. Every level the code produces is at
  least 0, since the search of `proposeNewBlock` stops at level 0. JavaScript's double-precision
  numbers are modelled as unbounded integers; no level in a run comes near 2^53.
- **Empty committee.** The proposer selector is only used with a non-empty committee
  (`RoundRobin.Valid`). In the source, an empty committee makes `level % 0` NaN.
- **Randomness.** These are parameters instead:
  - the random block letter of lines 339, 382 and 460;
  - the exponential sample of `samplePoisson`, whose logarithm and `Math.random` are not
    modelled;
  - the shuffle of lines 109-112. Its guard tests the array that line 107 has just emptied, so
    the shuffle never runs; the model keeps the guard and proves it false.
- **Lock backfill.** The backfill at lines 203-210 reads other replicas' objects directly. This
  is an `Environment` snapshot of their lock tables, which is exact because no other replica
  runs during a handler.
- **Aliasing of signer sets.** The model copies every signer set by value. The source differs
  at these lines:
  - lines 319 and 340 build a certificate that shares the live `votesReceived` set;
  - line 461 builds one that shares the live `timeoutsReceived` entry;
  - line 342 (and line 384) then clears the shared set, and later handlers keep adding to it.
  
  So in the source a certificate already sent can lose or gain signers. Line 257 makes a
  proper copy, and the model agrees with it there.
- **Logging and rogue-leader reporting.** The `console` calls, including the mismatch report of
  lines 369-372, have no effect on state and are left out.
- **Exceptions.** A `throw` is a `Threw` status that propagates to the caller and keeps every
  update made before it: the lazy `propose` of line 283, the lazy `confirm` of line 359 and the
  backfill of line 206. `MissingRecord` stands for the TypeError of dereferencing a missing or
  nil entry (lines 212, 285 and 361). `processSignal` catches and only logs, so `ProcessSignal`
  keeps the state and drops the status.
- **Re-entrant delivery.** In the source, a delivered signal runs the receiver's handler inside
  the `forEach` of `processSignals`. That handler's `addSignal` calls then interleave new signals
  with the re-enqueued ones. Here the pass returns the delivered signals in order, and replicas
  append to their own `outbox`. The model does not capture the interleaving.
- **Message drops.** `DROP_RATE` is stored but inert; its use at lines 116-118 is commented out.
- **Legacy code.** The following are not part of this model:
  - the `kickoff` of src/world.ts:135-149 and `DummyProposerSelectorLogic`, which serve the
    legacy replica;
  - the older replica classes of src/peer.ts and src/peervOld.ts, whose message classes no
    longer exist. A peer is only an identifier with the list of peers it knows, which contains
    itself, as at src/peer.ts:26.
- **Settings fixed at construction.** The replica's configuration is const and is given to the
  constructor: `byzantine`, `timeoutDelay`, `broadcastTimeout`, `confirmToNextLeader`, the
  selector and the known peers. The source assigns these fields before a run. The model does
  not capture a change between two handler calls, nor `addPeer`/`removePeer` of src/peer.ts:30-36.
- **Genesis seeding.** The constructor seeds the genesis vote, lock and committed block that the
  scenarios set from outside (src/scenarios.test.ts:25-29). So there is no state in which a
  replica lacks level 0, which `getCurrentLevel` needs.
- **Filed votes.** Some properties assume `Filed`, that every real vote is stored under its
  Prepare's level. They are `OnCommitRedeliveryChangesNothing`, `OnCommitCommitsCertifiedBlock`
  and the `...KeepsFiled` lemmas. `HandlersKeepFiled` proves that `Filed` holds of the initial
  state and is kept by `ProcessSignal`, `Tick` and the bootstrap round, so it holds of every
  state the replica reaches.
- **Accumulators at quorum.** The source clears `votesReceived` when a Confirm is broadcast
  (line 264) and when a round starts (lines 342 and 384), but not at the commit quorum of
  lines 312-327. There the proposer keeps its signers, so each later VoteConfirm for the level
  re-builds the Commit and sends it again. `timeoutsReceived` is never cleared. The model does
  the same (`CollectCommitVoteEffects`, `OnVoteConfirmEffects`).
- **Arrival times.** Arrival times are real numbers. Floating-point rounding of `timeToArrival -= 1`
  is not modelled.
- **World.Orchestrator.ProcessSignals: does not call `signal.to.processSignal`.** It returns the
  delivered signals instead, as described under re-entrant delivery.
- **Bandwidth limit.** The code serves snapshot indices 0 to `MAX_BANDWIDTH`, which is
  `MAX_BANDWIDTH`+1 signals per tick (line 119 tests `i > MAX_BANDWIDTH`). The comment at
  line 81 says the limit is `MAX_BANDWIDTH` signals. The model follows the code.
- **Drivers.** `index.ts` and the test loops are left out. The agreement check of
  src/scenarios.test.ts:88-89 is a statement about several replicas, which this single-replica
  model does not state.
