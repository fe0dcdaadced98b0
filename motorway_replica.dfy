/**
 * The `MotorwayBftReplica` class of src/MotorwayBftReplica.ts. The peer it belongs to is an
 * identifier with the list of peers it knows (itself included); the orchestrator's
 * `addSignal` is modelled by appending to `outbox`. Each method makes the updates of its
 * source counterpart in place and is proved to end in the state computed by the step
 * function of module ReplicaState.
 */
module MotorwayReplica {
  import opened Options
  import opened Data
  import opened Messages
  import opened World
  import opened MotorwayMessages
  import opened ReplicaState

  class MotorwayBftReplica {
    const peer: PeerId
    const knownPeers: seq<PeerId>
    const proposerSelectorLogic: RoundRobin

    const byzantine: bool
    const timeoutDelay: int
    const broadcastTimeout: bool
    const confirmToNextLeader: string

    var lastVoteTime: int
    var proposalsVoted: map<nat, Vote>
    var proposalsLocked: map<nat, ConfirmMessage>
    var votesReceived: set<PeerId>
    var timeoutsReceived: map<nat, set<PeerId>>
    var hasProposedBlock: Phase
    var committedChain: map<nat, Option<Block>>
    var outbox: seq<Outgoing>

    function Config(): Config
    {
      ReplicaState.Config(peer, knownPeers, proposerSelectorLogic, byzantine, timeoutDelay, broadcastTimeout, confirmToNextLeader)
    }

    function State(): State
      reads this
    {
      ReplicaState.State(lastVoteTime, proposalsVoted, proposalsLocked, votesReceived, timeoutsReceived,
                         hasProposedBlock, committedChain, outbox)
    }

    predicate Valid()
      reads this
    {
      Ready(Config(), State())
    }

    /**
     * A replica seeded with the genesis vote, lock and committed block. The source starts
     * every replica as honest, with a timeout of 100 ticks, broadcast Timeouts and VoteConfirms
     * to the proposer of the voted level, and the scenarios reassign these settings before a
     * run; here they are fixed at construction.
     */
    constructor (peer: PeerId, knownPeers: seq<PeerId>, selector: RoundRobin,
                 byzantine: bool, timeoutDelay: int, broadcastTimeout: bool, confirmToNextLeader: string)
      requires selector.Valid() && peer in knownPeers
      ensures Valid()
      ensures Config() == ReplicaState.Config(peer, knownPeers, selector, byzantine, timeoutDelay, broadcastTimeout, confirmToNextLeader)
      ensures State() == InitialState(Config())
    {
      this.peer := peer;
      this.knownPeers := knownPeers;
      this.proposerSelectorLogic := selector;
      this.byzantine := byzantine;
      this.timeoutDelay := timeoutDelay;
      this.broadcastTimeout := broadcastTimeout;
      this.confirmToNextLeader := confirmToNextLeader;
      lastVoteTime := 0;
      var genesis := PrepareMessage(selector.GetProposer(0), Genesis(), 0, None);
      proposalsVoted := map[0 := VotedFor(genesis)];
      proposalsLocked := map[0 := ConfirmMessage(selector.GetProposer(0), genesis, None)];
      votesReceived := {};
      timeoutsReceived := map[];
      hasProposedBlock := Waiting;
      committedChain := map[0 := Some(Genesis())];
      outbox := [];
    }

    /** `getCurrentLevel()`: the highest level voted on. */
    function GetCurrentLevel(): (l: nat)
      reads this
      requires Valid()
      ensures l in proposalsVoted && forall k :: k in proposalsVoted ==> k <= l
    {
      CurrentLevel(State())
    }

    /** `addSignal(new Signal(peer, to, message))`. */
    method Send(to: PeerId, message: AnyMessage)
      modifies this`outbox
      ensures outbox == old(outbox) + [Outgoing(peer, to, message)]
    {
      outbox := outbox + [Outgoing(peer, to, message)];
    }

    /** The `forEach` over `knownPeers` that signals each of them, skipping this replica when `skipSelf`. */
    method SendToPeers(message: AnyMessage, skipSelf: bool)
      modifies this`outbox
      ensures outbox == old(outbox) + Fanout(peer, knownPeers, message, skipSelf)
    {
      var i := 0;
      while i < |knownPeers|
        invariant 0 <= i <= |knownPeers|
        invariant outbox == old(outbox) + Fanout(peer, knownPeers[..i], message, skipSelf)
      {
        var p := knownPeers[i];
        assert knownPeers[..i + 1] == knownPeers[..i] + [p];
        FanoutSnoc(peer, knownPeers[..i], p, message, skipSelf);
        if !(skipSelf && p == peer) {
          Send(p, message);
        }
        i := i + 1;
      }
      assert knownPeers[..i] == knownPeers;
    }

    /** Lines 203-210 of `propose`: copy the lock at `level` from the first other known peer that has one. */
    method BackfillLock(level: nat, env: Environment)
      requires level !in proposalsLocked
      modifies this`proposalsLocked
      ensures proposalsLocked == BackfilledLocks(Config(), old(proposalsLocked), level, env)
    {
      for i := 0 to |knownPeers|
        invariant proposalsLocked == old(proposalsLocked)
        invariant FirstLockHolder(knownPeers, 0, peer, level, env.peerLocks) ==
                  FirstLockHolder(knownPeers, i, peer, level, env.peerLocks)
      {
        var p := knownPeers[i];
        if p == peer {
          continue;
        }
        if p in env.peerLocks && level in env.peerLocks[p] {
          proposalsLocked := proposalsLocked[level := env.peerLocks[p][level]];
          return;
        }
      }
    }

    /** `commitBlock(level)`. */
    method CommitBlock(level: nat)
      modifies this`committedChain
      ensures State() == CommitBlockStep(old(State()), level)
    {
      if level in proposalsVoted {
        match proposalsVoted[level]
        case VotedFor(p) =>
          committedChain := committedChain[level := Some(p.data)];
        case NilVote =>
          committedChain := committedChain[level := None];
      }
    }

    /** `propose(signal)`. */
    method Propose(m: PrepareMessage, env: Environment) returns (status: Status)
      requires Valid()
      modifies this
      ensures Outcome(State(), status) == ProposeStep(Config(), old(State()), m, env)
      ensures Valid()
    {
      if GetCurrentLevel() >= m.level {
        return Handled;
      }
      :- CheckPrepare(m, env);
      VoteFor(m);
      return Handled;
    }

    /** Lines 185-218 of `propose`. */
    method CheckPrepare(m: PrepareMessage, env: Environment) returns (status: Status)
      requires Valid()
      modifies this`proposalsLocked
      ensures Outcome(State(), status) == PrepareChecks(Config(), old(State()), m, env)
    {
      if m.qc.None? {
        return Threw(NoQC);
      }
      if m.sender != proposerSelectorLogic.GetProposer(m.level) {
        return Threw(InvalidProposer);
      }
      if !m.qc.value.CheckCertificate(|proposerSelectorLogic.GetAllPeers(m.level)|) {
        return Threw(InvalidCommitCertificate);
      }
      match m.qc.value {
        case ConfirmVotes(q) =>
          var level := q.signedMessage.msg.prepare.level;
          if level != m.level - 1 {
            return Threw(InvalidCommitCertificateLevel);
          }
          var data := q.signedMessage.msg.prepare.data;
          if level !in proposalsLocked {
            BackfillLock(level, env);
          }
          if level !in proposalsLocked {
            return Threw(MissingRecord);
          }
          if !data.IsSame(Some(proposalsLocked[level].prepare.data)) {
            return Threw(InvalidCommitCertificateData);
          }
          return Handled;
        case Timeouts(q) =>
          if q.signedMessage.level != m.level - 1 {
            return Threw(InvalidTimeoutCertificateLevel);
          }
          return Handled;
      }
    }

    /** Lines 226-238 of `propose`. */
    method VoteFor(m: PrepareMessage)
      requires Valid()
      modifies this`proposalsVoted, this`lastVoteTime, this`committedChain, this`outbox
      ensures State() == AcceptPrepare(Config(), old(State()), m)
    {
      proposalsVoted := proposalsVoted[m.level := VotedFor(m)];
      lastVoteTime := 0;
      if m.level >= 1 && m.level - 1 !in committedChain {
        CommitBlock(m.level - 1);
      }
      Send(proposerSelectorLogic.GetProposer(m.level), VotePrepare(VotePrepareMessage(peer, m)));
    }

    /** `onVotePropose(signal)`. */
    method OnVotePropose(m: VotePrepareMessage, env: Environment) returns (status: Status)
      requires Valid()
      modifies this
      ensures Outcome(State(), status) == OnVoteProposeStep(Config(), old(State()), m, env)
      ensures Valid()
    {
      if hasProposedBlock != PreparePhase {
        return Handled;
      }
      if !proposerSelectorLogic.IsProposer(m.msg.level, peer) {
        return Handled;
      }
      votesReceived := votesReceived + {m.sender};
      if |votesReceived| >= Quorum(|proposerSelectorLogic.GetAllPeers(m.msg.level)|) {
        hasProposedBlock := Waiting;
        var confirm := ConfirmMessage(peer, m.msg, Some(QuorumCertificate(m, votesReceived)));
        :- Confirm(confirm, env);
        SendToPeers(AnyMessage.Confirm(confirm), true);
        votesReceived := {};
      }
      return Handled;
    }

    /** `confirm(signal)`. */
    method Confirm(m: ConfirmMessage, env: Environment) returns (status: Status)
      requires Valid()
      modifies this
      ensures Outcome(State(), status) == ConfirmStep(Config(), old(State()), m, env)
      ensures Valid()
    {
      if m.qc.None? {
        return Threw(NoCC);
      }
      if m.sender != proposerSelectorLogic.GetProposer(m.prepare.level) {
        return Threw(InvalidConfirmLeader);
      }
      if m.prepare.level !in proposalsVoted {
        :- Propose(m.prepare, env);
      }
      status := LockConfirm(m);
    }

    /** Lines 285-302 of `confirm`. */
    method LockConfirm(m: ConfirmMessage) returns (status: Status)
      requires Valid() && m.qc.Some?
      modifies this`proposalsLocked, this`outbox
      ensures Outcome(State(), status) == LockStep(Config(), old(State()), m)
    {
      var l := m.prepare.level;
      if !HasBlock(proposalsVoted, l) {
        return Threw(MissingRecord);
      }
      if !m.prepare.IsSame(proposalsVoted[l].prepare) {
        return Threw(ConfirmMismatch);
      }
      if !m.qc.value.CheckCertificate(|proposerSelectorLogic.GetAllPeers(l)|) {
        return Threw(InvalidQuorumCertificate);
      }
      proposalsLocked := proposalsLocked[l := m];
      var vote := VoteConfirm(VoteConfirmMessage(peer, m));
      if confirmToNextLeader == "false" {
        Send(proposerSelectorLogic.GetProposer(l), vote);
      } else if confirmToNextLeader == "true" {
        Send(proposerSelectorLogic.GetProposer(l + 1), vote);
      }
      return Handled;
    }

    /** `onVoteConfirm(signal)`. */
    method OnVoteConfirm(m: VoteConfirmMessage, env: Environment) returns (status: Status)
      requires Valid()
      modifies this
      ensures Outcome(State(), status) == OnVoteConfirmStep(Config(), old(State()), m, env)
      ensures Valid()
    {
      if hasProposedBlock != Waiting {
        return Handled;
      }
      var level := m.msg.prepare.level;
      if proposerSelectorLogic.IsProposer(level, peer) {
        status := CollectCommitVote(m, env);
        return;
      }
      if !proposerSelectorLogic.IsProposer(level + 1, peer) {
        return Handled;
      }
      status := CollectNextLeaderVote(m, env);
    }

    /** Lines 315-327 of `onVoteConfirm`. */
    method CollectCommitVote(m: VoteConfirmMessage, env: Environment) returns (status: Status)
      requires Valid()
      modifies this
      ensures Outcome(State(), status) == ReplicaState.CollectCommitVote(Config(), old(State()), m, env)
      ensures Valid()
    {
      var level := m.msg.prepare.level;
      votesReceived := votesReceived + {m.sender};
      if |votesReceived| >= Quorum(|proposerSelectorLogic.GetAllPeers(level)|) {
        var commit := CommitMessage(peer, level, Some(QuorumCertificate(m, votesReceived)));
        :- OnCommit(commit, env);
        SendToPeers(Commit(commit), true);
      }
      return Handled;
    }

    /** Lines 334-343 of `onVoteConfirm`. */
    method CollectNextLeaderVote(m: VoteConfirmMessage, env: Environment) returns (status: Status)
      requires Valid()
      modifies this
      ensures Outcome(State(), status) == ReplicaState.CollectNextLeaderVote(Config(), old(State()), m, env)
      ensures Valid()
    {
      var level := m.msg.prepare.level;
      votesReceived := votesReceived + {m.sender};
      if |votesReceived| >= Quorum(|proposerSelectorLogic.GetAllPeers(level)|) {
        status := StartRound(level + 1, ConfirmVotes(QuorumCertificate(m, votesReceived)), [env.letter], env);
        return;
      }
      return Handled;
    }

    /** Lines 336-342 of `onVoteConfirm` and 380-384 of `onCommit`: prepare phase, proposal, votes cleared. */
    method StartRound(level: nat, qc: PrepareCertificate, value: string, env: Environment) returns (status: Status)
      requires Valid()
      modifies this
      ensures Outcome(State(), status) == ReplicaState.StartRound(Config(), old(State()), level, qc, value, env)
      ensures Valid()
    {
      hasProposedBlock := PreparePhase;
      :- ProposeNewBlock(level, qc, value, env);
      votesReceived := {};
      return Handled;
    }

    /** `onCommit(signal)`. */
    method OnCommit(m: CommitMessage, env: Environment) returns (status: Status)
      requires Valid()
      modifies this
      ensures Outcome(State(), status) == OnCommitStep(Config(), old(State()), m, env)
      ensures Valid()
    {
      if m.qc.None? {
        return Threw(NoQC);
      }
      if m.sender != proposerSelectorLogic.GetProposer(m.level) {
        return Threw(InvalidProposer);
      }
      if m.level !in proposalsLocked {
        :- Confirm(m.qc.value.signedMessage.msg, env);
      }
      status := CheckCommit(m, env);
    }

    /** Lines 361-376 of `onCommit`. */
    method CheckCommit(m: CommitMessage, env: Environment) returns (status: Status)
      requires Valid() && m.qc.Some?
      modifies this
      ensures Outcome(State(), status) == CommitChecks(Config(), old(State()), m, env)
      ensures Valid()
    {
      var q := m.qc.value;
      if !HasBlock(proposalsVoted, m.level) {
        return Threw(MissingRecord);
      }
      if !q.signedMessage.msg.prepare.IsSame(proposalsVoted[m.level].prepare) {
        return Threw(CommitMismatch);
      }
      if !q.CheckCertificate(|proposerSelectorLogic.GetAllPeers(m.level)|) {
        return Threw(InvalidCommitCertificate);
      }
      if m.level in committedChain {
        return Handled;
      }
      status := CommitAndPropose(m, env);
    }

    /** Lines 375-385 of `onCommit`. */
    method CommitAndPropose(m: CommitMessage, env: Environment) returns (status: Status)
      requires Valid() && m.qc.Some? && m.level !in committedChain
      modifies this
      ensures Outcome(State(), status) == CommitThenPropose(Config(), old(State()), m, env)
      ensures Valid()
    {
      CommitBlock(m.level);
      if proposerSelectorLogic.IsProposer(m.level + 1, peer) && hasProposedBlock == Waiting {
        status := StartRound(m.level + 1, ConfirmVotes(m.qc.value), [env.letter], env);
        return;
      }
      return Handled;
    }

    /** Lines 405-409 of `proposeNewBlock`: the block of the nearest lower level with a real vote. */
    method FindParent(level: nat) returns (parent: Option<Block>)
      ensures parent == NearestVotedBlock(proposalsVoted, level)
    {
      parent := if level >= 1 && level - 1 in proposalsVoted then VotedBlock(proposalsVoted[level - 1]) else None;
      if parent.Some? {
        NearestIsHighestBelow(proposalsVoted, level, level - 1);
      }
      var i: int := level - 2;
      while i >= 0
        invariant -2 <= i <= level - 2 && (level >= 1 ==> i >= -1)
        invariant parent.Some? ==> parent == NearestVotedBlock(proposalsVoted, level)
        invariant parent.None? ==> forall j: nat :: i < j < level ==> !HasBlock(proposalsVoted, j)
        decreases i
      {
        if parent.Some? {
          break;
        }
        parent := if i in proposalsVoted then VotedBlock(proposalsVoted[i]) else None;
        if parent.Some? {
          NearestIsHighestBelow(proposalsVoted, level, i);
        }
        i := i - 1;
      }
    }

    /** `proposeNewBlock(level, qc, value)`. */
    method ProposeNewBlock(level: nat, qc: PrepareCertificate, value: string, env: Environment) returns (status: Status)
      requires Valid()
      modifies this
      ensures Outcome(State(), status) == ProposeNewBlockStep(Config(), old(State()), level, qc, value, env)
      ensures Valid()
    {
      var buildOnTopOf := FindParent(level);
      if buildOnTopOf.None? {
        return Handled;
      }
      var block := NewBlock(value, buildOnTopOf);
      var message := PrepareMessage(peer, block, level, Some(qc));
      :- Propose(message, env);
      SendToPeers(Prepare(message), true);
      return Handled;
    }

    /** `onTimeout(signal)`. */
    method OnTimeout(m: TimeoutMessage, env: Environment) returns (status: Status)
      requires Valid()
      modifies this
      ensures Outcome(State(), status) == OnTimeoutStep(Config(), old(State()), m, env)
      ensures Valid()
    {
      if GetCurrentLevel() > m.level {
        return Handled;
      }
      var signers := if m.level in timeoutsReceived then timeoutsReceived[m.level] else {};
      timeoutsReceived := timeoutsReceived[m.level := signers + {m.sender}];
      if !proposerSelectorLogic.IsProposer(m.level + 1, peer) {
        return Handled;
      }
      status := OnTimeoutQuorum(m, env);
    }

    /** Lines 451-464 of `onTimeout`. */
    method OnTimeoutQuorum(m: TimeoutMessage, env: Environment) returns (status: Status)
      requires Valid()
      modifies this
      ensures Outcome(State(), status) == TimeoutQuorumStep(Config(), old(State()), m, env)
      ensures Valid()
    {
      var signers := if m.level in timeoutsReceived then timeoutsReceived[m.level] else {};
      if |signers| < Quorum(|proposerSelectorLogic.GetAllPeers(m.level)|) {
        return Handled;
      }
      proposalsVoted := proposalsVoted[m.level := NilVote];
      proposalsLocked := proposalsLocked - {m.level};
      status := ProposeOnTimeouts(m.level + 1, Timeouts(QuorumCertificate(m, signers)), [env.letter], env);
    }

    /** Lines 458-463 of `onTimeout`. */
    method ProposeOnTimeouts(level: nat, qc: PrepareCertificate, value: string, env: Environment) returns (status: Status)
      requires Valid()
      modifies this
      ensures Outcome(State(), status) == ReplicaState.ProposeOnTimeouts(Config(), old(State()), level, qc, value, env)
      ensures Valid()
    {
      if hasProposedBlock != Waiting {
        return Handled;
      }
      hasProposedBlock := PreparePhase;
      status := ProposeNewBlock(level, qc, value, env);
    }

    /** Lines 131-142 of `tick`: the Timeout for the level above `level`, broadcast or to one proposer. */
    method SendTimeout(level: nat)
      requires proposerSelectorLogic.Valid() && peer in knownPeers
      modifies this`outbox
      ensures outbox == old(outbox) + TimeoutSignals(Config(), level)
    {
      var message := Timeout(TimeoutMessage(peer, level + 1, None));
      if broadcastTimeout {
        SendToPeers(message, false);
      } else {
        Send(proposerSelectorLogic.GetProposer(level + 2), message);
      }
    }

    /** `tick()`. */
    method Tick()
      requires Valid()
      modifies this
      ensures State() == TickStep(Config(), old(State()))
      ensures Valid()
    {
      if byzantine {
        return;
      }
      lastVoteTime := lastVoteTime + 1;
      if lastVoteTime >= timeoutDelay {
        EnterTimeout();
      }
    }

    /** Lines 130-146 of `tick`. */
    method EnterTimeout()
      requires Valid()
      modifies this`outbox, this`lastVoteTime, this`proposalsVoted
      ensures State() == EnterTimeoutStep(Config(), old(State()))
    {
      var level := GetCurrentLevel();
      SendTimeout(level);
      lastVoteTime := 0;
      proposalsVoted := proposalsVoted[level + 1 := NilVote];
    }

    /** `processSignal(signal)`; an error a handler throws is caught there and only logged. */
    method ProcessSignal(signal: Signal<AnyMessage>, env: Environment)
      requires Valid()
      modifies this
      ensures State() == ProcessSignalStep(Config(), old(State()), signal.message, env)
      ensures Valid()
    {
      if byzantine {
        return;
      }
      var status: Status;
      match signal.message {
        case Prepare(m) => status := Propose(m, env);
        case VotePrepare(m) => status := OnVotePropose(m, env);
        case VoteConfirm(m) => status := OnVoteConfirm(m, env);
        case Confirm(m) => status := this.Confirm(m, env);
        case Commit(m) => status := OnCommit(m, env);
        case Timeout(m) => status := OnTimeout(m, env);
      }
    }

    /**
     * The start of the first round, as the test bootstrap runs it on the proposer of level 1:
     * a certificate signed by every peer over a VoteConfirm of the genesis Confirm, and a
     * proposal of "B" on top of the genesis block.
     */
    method Kickoff(env: Environment) returns (status: Status)
      requires Valid()
      modifies this
      ensures Outcome(State(), status) == KickoffStep(Config(), old(State()), env)
      ensures Valid()
    {
      var all := set p | p in proposerSelectorLogic.GetAllPeers(0);
      assert all == AllSigners(Config());
      votesReceived := all;
      var genesisVote := VoteConfirmMessage(proposerSelectorLogic.GetProposer(0), GenesisConfirm(Config()));
      status := StartRound(1, ConfirmVotes(QuorumCertificate(genesisVote, all)), "B", env);
    }
  }
}
