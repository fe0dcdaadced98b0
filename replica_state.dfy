/**
 * The state of one MotorwayBftReplica of src/MotorwayBftReplica.ts and the effect of each of
 * its handlers on that state, written as functions. The class in motorway_replica.dfy
 * performs the same updates in place, and each of its methods is proved to end in the
 * state that the function of the same name computes here.
 *
 * A handler that throws in the source keeps the updates it made before the throw; a step
 * therefore returns the state reached together with a `Status`.
 */
module ReplicaState {
  import opened Options
  import opened Data
  import opened Messages
  import opened World
  import opened MotorwayMessages

  /** The errors the handlers throw; `MissingRecord` stands for the TypeError of reading a field of a missing or nil entry. */
  datatype Error =
    | NoQC                              // "No QC"
    | InvalidProposer                   // "Invalid proposer"
    | InvalidCommitCertificate          // "Invalid commit certificate at level ..."
    | InvalidCommitCertificateLevel     // "Invalid commit certificate level"
    | InvalidCommitCertificateData      // "Invalid commit certificate data"
    | InvalidTimeoutCertificateLevel    // "Invalid timeout certificate level"
    | NoCC                              // "No CC"
    | InvalidConfirmLeader              // "Invalid leader for confirm message"
    | ConfirmMismatch                   // "Invalid confirm - does not match prepare"
    | InvalidQuorumCertificate          // "Invalid quorum certificate at level ..."
    | CommitMismatch                    // "Invalid commit - does not match prepare"
    | MissingRecord

  /** Whether a handler returned normally or threw; a throw propagates to the caller. */
  datatype Status = Handled | Threw(error: Error)
  {
    predicate IsFailure() { Threw? }

    function PropagateFailure(): Status
      requires Threw?
    {
      this
    }
  }

  /** An entry of `proposalsVoted`: the Prepare voted for, or `null` for a timed-out level. */
  datatype Vote = NilVote | VotedFor(prepare: PrepareMessage)

  /** `hasProposedBlock`. */
  datatype Phase = PreparePhase | Waiting

  /**
   * What a handler reads besides its own replica: the letter drawn at random for a new block,
   * and the lock tables of the other replicas, which the lock backfill of `propose` reads.
   */
  datatype Environment = Environment(letter: char, peerLocks: map<PeerId, map<nat, ConfirmMessage>>)

  /** The fields of a replica that its handlers read but never write. */
  datatype Config = Config(peer: PeerId, knownPeers: seq<PeerId>, selector: RoundRobin, byzantine: bool,
                           timeoutDelay: int, broadcastTimeout: bool, confirmToNextLeader: string)
  {
    predicate Valid()
    {
      selector.Valid() && peer in knownPeers
    }

    /** `getAllPeers(level).length`. */
    function TotalPeers(level: nat): nat
    {
      |selector.GetAllPeers(level)|
    }
  }

  /** The fields the handlers update, and the signals emitted so far. */
  datatype State = State(lastVoteTime: int,
                         proposalsVoted: map<nat, Vote>,
                         proposalsLocked: map<nat, ConfirmMessage>,
                         votesReceived: set<PeerId>,
                         timeoutsReceived: map<nat, set<PeerId>>,
                         hasProposedBlock: Phase,
                         committedChain: map<nat, Option<Block>>,
                         outbox: seq<Outgoing>)

  /** A handler's result: the state it leaves and whether it threw. */
  datatype Outcome = Outcome(state: State, status: Status)

  /**
   * What every replica state satisfies: a vote at level 0 (so the current level exists),
   * committed levels are voted levels, and every emitted signal comes from this replica.
   */
  predicate Ready(c: Config, s: State)
  {
    c.Valid() && 0 in s.proposalsVoted && s.committedChain.Keys <= s.proposalsVoted.Keys
    && forall o :: o in s.outbox ==> o.from == c.peer
  }

  /** What no handler undoes: voted levels stay, committed entries stay as they are, emitted signals stay. */
  predicate Grows(s: State, t: State)
  {
    s.proposalsVoted.Keys <= t.proposalsVoted.Keys
    && (forall k :: k in s.committedChain ==> k in t.committedChain && t.committedChain[k] == s.committedChain[k])
    && s.outbox <= t.outbox
  }

  lemma {:induction false} MaxExists(levels: set<nat>)
    requires levels != {}
    ensures exists m :: m in levels && forall k :: k in levels ==> k <= m
  {
    var x :| x in levels;
    if levels != {x} {
      MaxExists(levels - {x});
      var m :| m in levels - {x} && forall k :: k in levels - {x} ==> k <= m;
      var top := if x > m then x else m;
      forall k | k in levels ensures k <= top {
        if k != x {
          assert k in levels - {x};
        }
      }
    }
  }

  /** The largest element of a non-empty set of levels. */
  function MaxLevel(levels: set<nat>): (m: nat)
    requires levels != {}
    ensures m in levels && forall k :: k in levels ==> k <= m
  {
    MaxExists(levels);
    var m :| m in levels && forall k :: k in levels ==> k <= m; m
  }

  /** `getCurrentLevel()`: the highest level voted on, nil votes included. */
  function CurrentLevel(s: State): nat
    requires 0 in s.proposalsVoted
  {
    MaxLevel(s.proposalsVoted.Keys)
  }

  /** Adding a level above the current one makes it the current level; adding one at or below changes nothing. */
  lemma {:induction false} CurrentLevelAfterVote(s: State, level: nat, v: Vote)
    requires 0 in s.proposalsVoted
    ensures CurrentLevel(s.(proposalsVoted := s.proposalsVoted[level := v])) ==
            if level > CurrentLevel(s) then level else CurrentLevel(s)
  {
    var t := s.(proposalsVoted := s.proposalsVoted[level := v]);
    assert t.proposalsVoted.Keys == s.proposalsVoted.Keys + {level};
    var m := CurrentLevel(t);
    assert CurrentLevel(s) in t.proposalsVoted.Keys;
    if m != level {
      assert m in s.proposalsVoted.Keys;
    }
  }

  /** A state that only grew has a current level at least as high. */
  lemma CurrentLevelMonotone(s: State, t: State)
    requires 0 in s.proposalsVoted && Grows(s, t)
    ensures 0 in t.proposalsVoted && CurrentLevel(s) <= CurrentLevel(t)
  {
    assert CurrentLevel(s) in t.proposalsVoted.Keys;
  }

  /** `p.data` of a voted entry, absent for a nil vote. */
  function VotedBlock(v: Vote): Option<Block>
  {
    match v
    case VotedFor(p) => Some(p.data)
    case NilVote => None
  }

  /** The level holds a real (non-nil) vote. */
  predicate HasBlock(voted: map<nat, Vote>, level: nat)
  {
    level in voted && voted[level].VotedFor?
  }

  /** The highest level strictly below `below` holding a real vote, as `proposeNewBlock` looks for it. */
  function NearestVotedLevel(voted: map<nat, Vote>, below: nat): (r: Option<nat>)
    ensures r.Some? ==> r.value < below && HasBlock(voted, r.value)
    decreases below
  {
    if below == 0 then None
    else if HasBlock(voted, below - 1) then Some(below - 1)
    else NearestVotedLevel(voted, below - 1)
  }

  /** No level between the nearest voted level and `below` holds a real vote; with none found, no level below does. */
  lemma {:induction false} NearestVotedLevelIsNearest(voted: map<nat, Vote>, below: nat)
    ensures var r := NearestVotedLevel(voted, below);
      && (r.Some? ==> forall j :: r.value < j < below ==> !HasBlock(voted, j))
      && (r.None? ==> forall j :: 0 <= j < below ==> !HasBlock(voted, j))
    decreases below
  {
    if below > 0 && !HasBlock(voted, below - 1) {
      NearestVotedLevelIsNearest(voted, below - 1);
    }
  }

  /** The nearest voted level is the only voted level below `below` with no voted level above it. */
  lemma {:induction false} NearestIsHighestBelow(voted: map<nat, Vote>, below: nat, j: nat)
    requires j < below && HasBlock(voted, j)
    requires forall k :: j < k < below ==> !HasBlock(voted, k)
    ensures NearestVotedLevel(voted, below) == Some(j)
    ensures NearestVotedBlock(voted, below) == Some(voted[j].prepare.data)
    decreases below
  {
    if j < below - 1 {
      NearestIsHighestBelow(voted, below - 1, j);
    }
  }

  /** The block `proposeNewBlock` builds on: the block of the nearest lower level with a real vote. */
  function NearestVotedBlock(voted: map<nat, Vote>, below: nat): Option<Block>
  {
    match NearestVotedLevel(voted, below)
    case Some(k) => VotedBlock(voted[k])
    case None => None
  }

  /** There is a block to build on exactly when some level below holds a real vote. */
  lemma NearestVotedBlockExists(voted: map<nat, Vote>, below: nat)
    ensures NearestVotedBlock(voted, below).Some? <==> exists j :: 0 <= j < below && HasBlock(voted, j)
  {
    NearestVotedLevelIsNearest(voted, below);
  }

  /**
   * One signal of `message` from `from` to each peer of `peers` in order, skipping `from`
   * itself when `skipSelf` (the `forEach` over `knownPeers`).
   */
  function Fanout(from: PeerId, peers: seq<PeerId>, message: AnyMessage, skipSelf: bool): seq<Outgoing>
    decreases |peers|
  {
    if peers == [] then []
    else
      var last := peers[|peers| - 1];
      Fanout(from, peers[..|peers| - 1], message, skipSelf) + (if skipSelf && last == from then [] else [Outgoing(from, last, message)])
  }

  /**
   * Every signal of a fan-out is `message` from `from` to one of the peers (never `from` itself
   * when skipping), every eligible peer gets one, and there are no more signals than peers.
   */
  lemma {:induction false} FanoutShape(from: PeerId, peers: seq<PeerId>, message: AnyMessage, skipSelf: bool)
    ensures forall o :: o in Fanout(from, peers, message, skipSelf) ==>
      o.from == from && o.message == message && o.to in peers && !(skipSelf && o.to == from)
    ensures forall p :: p in peers && !(skipSelf && p == from) ==> Outgoing(from, p, message) in Fanout(from, peers, message, skipSelf)
    ensures |Fanout(from, peers, message, skipSelf)| <= |peers|
    decreases |peers|
  {
    if peers != [] {
      var init := peers[..|peers| - 1];
      var last := peers[|peers| - 1];
      FanoutShape(from, init, message, skipSelf);
      assert peers == init + [last];
    }
  }

  /** One more peer adds at most one signal, at the end. */
  lemma FanoutSnoc(from: PeerId, peers: seq<PeerId>, p: PeerId, message: AnyMessage, skipSelf: bool)
    ensures Fanout(from, peers + [p], message, skipSelf) ==
            Fanout(from, peers, message, skipSelf) + (if skipSelf && p == from then [] else [Outgoing(from, p, message)])
  {
    assert (peers + [p])[..|peers|] == peers;
  }

  /** Without skipping, the i-th signal goes to the i-th peer. */
  lemma {:induction false} FanoutFollowsPeers(from: PeerId, peers: seq<PeerId>, message: AnyMessage)
    ensures |Fanout(from, peers, message, false)| == |peers|
    ensures forall i :: 0 <= i < |peers| ==> Fanout(from, peers, message, false)[i] == Outgoing(from, peers[i], message)
    decreases |peers|
  {
    if peers != [] {
      var init := peers[..|peers| - 1];
      FanoutFollowsPeers(from, init, message);
      var head := Fanout(from, init, message, false);
      assert Fanout(from, peers, message, false) == head + [Outgoing(from, peers[|peers| - 1], message)];
      forall i | 0 <= i < |peers|
        ensures Fanout(from, peers, message, false)[i] == Outgoing(from, peers[i], message)
      {
        if i < |init| {
          assert peers[i] == init[i];
        }
      }
    }
  }

  /** To peers without repetition, skipping the sender sends exactly one signal to every other peer. */
  lemma {:induction false} FanoutSkipCount(from: PeerId, peers: seq<PeerId>, message: AnyMessage)
    requires forall i, j :: 0 <= i < j < |peers| ==> peers[i] != peers[j]
    ensures |Fanout(from, peers, message, true)| == if from in peers then |peers| - 1 else |peers|
    decreases |peers|
  {
    if peers != [] {
      var init := peers[..|peers| - 1];
      FanoutSkipCount(from, init, message);
      assert peers == init + [peers[|peers| - 1]];
      if peers[|peers| - 1] == from {
        assert from !in init;
      }
    }
  }

  /** The other replica holds a lock at the level. */
  predicate HoldsLock(p: PeerId, self: PeerId, level: nat, peerLocks: map<PeerId, map<nat, ConfirmMessage>>)
  {
    p != self && p in peerLocks && level in peerLocks[p]
  }

  /** The position, at or after `from`, of the first known peer other than `self` that holds a lock at `level`. */
  function FirstLockHolder(peers: seq<PeerId>, from: nat, self: PeerId, level: nat,
                           peerLocks: map<PeerId, map<nat, ConfirmMessage>>): (r: Option<nat>)
    requires from <= |peers|
    ensures r.Some? ==> from <= r.value < |peers| && HoldsLock(peers[r.value], self, level, peerLocks)
    decreases |peers| - from
  {
    if from == |peers| then None
    else if HoldsLock(peers[from], self, level, peerLocks) then Some(from)
    else FirstLockHolder(peers, from + 1, self, level, peerLocks)
  }

  /** No peer before the one found holds a lock at the level; with none found, no peer from `from` on does. */
  lemma {:induction false} FirstLockHolderIsFirst(peers: seq<PeerId>, from: nat, self: PeerId, level: nat,
                                                  peerLocks: map<PeerId, map<nat, ConfirmMessage>>)
    requires from <= |peers|
    ensures var r := FirstLockHolder(peers, from, self, level, peerLocks);
      && (r.Some? ==> forall j :: from <= j < r.value ==> !HoldsLock(peers[j], self, level, peerLocks))
      && (r.None? ==> forall j :: from <= j < |peers| ==> !HoldsLock(peers[j], self, level, peerLocks))
    decreases |peers| - from
  {
    if from < |peers| && !HoldsLock(peers[from], self, level, peerLocks) {
      FirstLockHolderIsFirst(peers, from + 1, self, level, peerLocks);
    }
  }

  /**
   * The lock table after the backfill of `propose`: when there is no lock at the level,
   * the lock of the first other known peer that has one is copied.
   */
  function BackfilledLocks(c: Config, locks: map<nat, ConfirmMessage>, level: nat, env: Environment): map<nat, ConfirmMessage>
  {
    if level in locks then locks
    else match FirstLockHolder(c.knownPeers, 0, c.peer, level, env.peerLocks)
      case Some(i) => locks[level := env.peerLocks[c.knownPeers[i]][level]]
      case None => locks
  }

  /**
   * The backfill only ever adds the lock at `level`, keeps every lock already held, and finds
   * one exactly when some other known peer holds a lock at that level.
   */
  lemma BackfilledLocksSpec(c: Config, locks: map<nat, ConfirmMessage>, level: nat, env: Environment)
    ensures var r := BackfilledLocks(c, locks, level, env);
      && (level in locks ==> r == locks)
      && r.Keys <= locks.Keys + {level}
      && (forall k :: k in locks ==> k in r && r[k] == locks[k])
      && (level !in locks ==>
            (level in r <==> exists i :: 0 <= i < |c.knownPeers| && HoldsLock(c.knownPeers[i], c.peer, level, env.peerLocks)))
  {
    FirstLockHolderIsFirst(c.knownPeers, 0, c.peer, level, env.peerLocks);
  }

  /** `commitBlock(level)`: copy the vote at `level` into the committed chain (nil for a nil vote); no vote, no change. */
  function CommitBlockStep(s: State, level: nat): (t: State)
    ensures t == s.(committedChain := t.committedChain)
    ensures level in s.proposalsVoted ==> t.committedChain == s.committedChain[level := VotedBlock(s.proposalsVoted[level])]
    ensures level !in s.proposalsVoted ==> t == s
  {
    if level in s.proposalsVoted then s.(committedChain := s.committedChain[level := VotedBlock(s.proposalsVoted[level])])
    else s
  }

  /** The local lock at `level` names a block with the digest of `data`. */
  predicate LockMatches(locks: map<nat, ConfirmMessage>, level: nat, data: Block)
  {
    level in locks && data.IsSame(Some(locks[level].prepare.data))
  }

  /**
   * The conditions under which `propose` accepts a Prepare above the current level, given the
   * lock table after the backfill; independent of the order in which the code checks them.
   */
  predicate PrepareValid(c: Config, locks: map<nat, ConfirmMessage>, m: PrepareMessage)
    requires c.Valid()
  {
    m.qc.Some? && m.sender == c.selector.GetProposer(m.level) && m.qc.value.CheckCertificate(c.TotalPeers(m.level))
    && match m.qc.value
       case ConfirmVotes(q) =>
         q.signedMessage.msg.prepare.level + 1 == m.level && LockMatches(locks, m.level - 1, q.signedMessage.msg.prepare.data)
       case Timeouts(q) => q.signedMessage.level + 1 == m.level
  }

  /** The lock table `propose` consults for a Prepare whose certificate is over VoteConfirms. */
  function ProposeLocks(c: Config, s: State, m: PrepareMessage, env: Environment): map<nat, ConfirmMessage>
  {
    if m.qc.Some? && m.qc.value.ConfirmVotes? && m.level >= 1 && m.qc.value.votes.signedMessage.msg.prepare.level == m.level - 1
    then BackfilledLocks(c, s.proposalsLocked, m.level - 1, env)
    else s.proposalsLocked
  }

  /** Lines 185-218 of `propose`: the safety checks, which may backfill the lock below the proposal first. */
  function PrepareChecks(c: Config, s: State, m: PrepareMessage, env: Environment): (o: Outcome)
    requires c.Valid()
    ensures o.state == s.(proposalsLocked := o.state.proposalsLocked)
  {
    if m.qc.None? then Outcome(s, Threw(NoQC))
    else if m.sender != c.selector.GetProposer(m.level) then Outcome(s, Threw(InvalidProposer))
    else if !m.qc.value.CheckCertificate(c.TotalPeers(m.level)) then Outcome(s, Threw(InvalidCommitCertificate))
    else match m.qc.value
      case ConfirmVotes(q) =>
        var level := q.signedMessage.msg.prepare.level;
        if level != m.level - 1 then Outcome(s, Threw(InvalidCommitCertificateLevel))
        else
          var s1 := s.(proposalsLocked := BackfilledLocks(c, s.proposalsLocked, level, env));
          if level !in s1.proposalsLocked then Outcome(s1, Threw(MissingRecord))
          else if !q.signedMessage.msg.prepare.data.IsSame(Some(s1.proposalsLocked[level].prepare.data))
          then Outcome(s1, Threw(InvalidCommitCertificateData))
          else Outcome(s1, Handled)
      case Timeouts(q) =>
        if q.signedMessage.level != m.level - 1 then Outcome(s, Threw(InvalidTimeoutCertificateLevel))
        else Outcome(s, Handled)
  }

  /** Lines 226-238 of `propose`: vote, reset the timer, commit the level below if new, vote to the proposer. */
  function AcceptPrepare(c: Config, s: State, m: PrepareMessage): (t: State)
    requires Ready(c, s)
    ensures Ready(c, t) && Grows(s, t)
  {
    var s1 := s.(proposalsVoted := s.proposalsVoted[m.level := VotedFor(m)], lastVoteTime := 0);
    var s2 := if m.level >= 1 && m.level - 1 !in s1.committedChain then CommitBlockStep(s1, m.level - 1) else s1;
    s2.(outbox := s2.outbox + [Outgoing(c.peer, c.selector.GetProposer(m.level), VotePrepare(VotePrepareMessage(c.peer, m)))])
  }

  /** `propose(signal)`. */
  function ProposeStep(c: Config, s: State, m: PrepareMessage, env: Environment): (o: Outcome)
    requires Ready(c, s)
    ensures Ready(c, o.state) && Grows(s, o.state)
  {
    if CurrentLevel(s) >= m.level then Outcome(s, Handled)
    else
      var checked := PrepareChecks(c, s, m, env);
      if checked.status.Threw? then checked
      else Outcome(AcceptPrepare(c, checked.state, m), Handled)
  }

  /** The VoteConfirm of lines 295-302, addressed by `confirmToNextLeader`: this level's proposer, the next one, or nobody. */
  function ConfirmVoteSignals(c: Config, m: ConfirmMessage): seq<Outgoing>
    requires c.Valid()
  {
    var vote := VoteConfirm(VoteConfirmMessage(c.peer, m));
    if c.confirmToNextLeader == "false" then [Outgoing(c.peer, c.selector.GetProposer(m.prepare.level), vote)]
    else if c.confirmToNextLeader == "true" then [Outgoing(c.peer, c.selector.GetProposer(m.prepare.level + 1), vote)]
    else []
  }

  /** Lines 285-302 of `confirm`, once the Prepare has been seen: match it, check the certificate, lock and vote. */
  function LockStep(c: Config, s: State, m: ConfirmMessage): (o: Outcome)
    requires Ready(c, s) && m.qc.Some?
    ensures Ready(c, o.state) && Grows(s, o.state)
  {
    var l := m.prepare.level;
    if !HasBlock(s.proposalsVoted, l) then Outcome(s, Threw(MissingRecord))
    else if !m.prepare.IsSame(s.proposalsVoted[l].prepare) then Outcome(s, Threw(ConfirmMismatch))
    else if !m.qc.value.CheckCertificate(c.TotalPeers(l)) then Outcome(s, Threw(InvalidQuorumCertificate))
    else Outcome(s.(proposalsLocked := s.proposalsLocked[l := m], outbox := s.outbox + ConfirmVoteSignals(c, m)), Handled)
  }

  /** `confirm(signal)`. */
  function ConfirmStep(c: Config, s: State, m: ConfirmMessage, env: Environment): (o: Outcome)
    requires Ready(c, s)
    ensures Ready(c, o.state) && Grows(s, o.state)
  {
    if m.qc.None? then Outcome(s, Threw(NoCC))
    else if m.sender != c.selector.GetProposer(m.prepare.level) then Outcome(s, Threw(InvalidConfirmLeader))
    else
      var o := if m.prepare.level !in s.proposalsVoted then ProposeStep(c, s, m.prepare, env) else Outcome(s, Handled);
      if o.status.Threw? then o
      else LockStep(c, o.state, m)
  }

  /** The Confirm a proposer broadcasts once its Prepare has a quorum of votes. */
  function ConfirmOf(c: Config, s: State, m: VotePrepareMessage): ConfirmMessage
  {
    ConfirmMessage(c.peer, m.msg, Some(QuorumCertificate(m, s.votesReceived)))
  }

  /** `onVotePropose(signal)`. */
  function OnVoteProposeStep(c: Config, s: State, m: VotePrepareMessage, env: Environment): (o: Outcome)
    requires Ready(c, s)
    ensures Ready(c, o.state) && Grows(s, o.state)
  {
    if s.hasProposedBlock != PreparePhase then Outcome(s, Handled)
    else if !c.selector.IsProposer(m.msg.level, c.peer) then Outcome(s, Handled)
    else
      var s1 := s.(votesReceived := s.votesReceived + {m.sender});
      if |s1.votesReceived| < Quorum(c.TotalPeers(m.msg.level)) then Outcome(s1, Handled)
      else
        var confirm := ConfirmOf(c, s1, m);
        var o := ConfirmStep(c, s1.(hasProposedBlock := Waiting), confirm, env);
        if o.status.Threw? then o
        else
          FanoutShape(c.peer, c.knownPeers, Confirm(confirm), true);
          Outcome(o.state.(outbox := o.state.outbox + Fanout(c.peer, c.knownPeers, Confirm(confirm), true),
                              votesReceived := {}), Handled)
  }

  /** Lines 315-327 of `onVoteConfirm`: the proposer of the voted level collects VoteConfirms and commits at quorum. */
  function CollectCommitVote(c: Config, s: State, m: VoteConfirmMessage, env: Environment): (o: Outcome)
    requires Ready(c, s)
    ensures Ready(c, o.state) && Grows(s, o.state)
  {
    var level := m.msg.prepare.level;
    var s1 := s.(votesReceived := s.votesReceived + {m.sender});
    if |s1.votesReceived| < Quorum(c.TotalPeers(level)) then Outcome(s1, Handled)
    else
      var commit := CommitMessage(c.peer, level, Some(QuorumCertificate(m, s1.votesReceived)));
      var o := OnCommitStep(c, s1, commit, env);
      if o.status.Threw? then o
      else
        FanoutShape(c.peer, c.knownPeers, Commit(commit), true);
        Outcome(o.state.(outbox := o.state.outbox + Fanout(c.peer, c.knownPeers, Commit(commit), true)), Handled)
  }

  /** Lines 334-343 of `onVoteConfirm`: the next proposer collects VoteConfirms and proposes at quorum. */
  function CollectNextLeaderVote(c: Config, s: State, m: VoteConfirmMessage, env: Environment): (o: Outcome)
    requires Ready(c, s)
    ensures Ready(c, o.state) && Grows(s, o.state)
  {
    var level := m.msg.prepare.level;
    var s1 := s.(votesReceived := s.votesReceived + {m.sender});
    if |s1.votesReceived| < Quorum(c.TotalPeers(level)) then Outcome(s1, Handled)
    else
      StartRound(c, s1, level + 1, ConfirmVotes(QuorumCertificate(m, s1.votesReceived)), [env.letter], env)
  }

  /**
   * What a proposer does on a certificate for the level below (lines 336-342 of `onVoteConfirm`,
   * 380-384 of `onCommit`): switch to the prepare phase, propose, and clear the votes unless
   * the proposal threw.
   */
  function StartRound(c: Config, s: State, level: nat, qc: PrepareCertificate, value: string, env: Environment): (o: Outcome)
    requires Ready(c, s)
    ensures Ready(c, o.state) && Grows(s, o.state)
  {
    var o := ProposeNewBlockStep(c, s.(hasProposedBlock := PreparePhase), level, qc, value, env);
    if o.status.Threw? then o
    else Outcome(o.state.(votesReceived := {}), Handled)
  }

  /** `onVoteConfirm(signal)`. */
  function OnVoteConfirmStep(c: Config, s: State, m: VoteConfirmMessage, env: Environment): (o: Outcome)
    requires Ready(c, s)
    ensures Ready(c, o.state) && Grows(s, o.state)
  {
    var level := m.msg.prepare.level;
    if s.hasProposedBlock != Waiting then Outcome(s, Handled)
    else if c.selector.IsProposer(level, c.peer) then CollectCommitVote(c, s, m, env)
    else if !c.selector.IsProposer(level + 1, c.peer) then Outcome(s, Handled)
    else CollectNextLeaderVote(c, s, m, env)
  }

  /** Lines 375-385 of `onCommit`: commit the level and, as the next proposer while waiting, propose on the same certificate. */
  function CommitThenPropose(c: Config, s: State, m: CommitMessage, env: Environment): (o: Outcome)
    requires Ready(c, s) && m.qc.Some? && m.level !in s.committedChain
    ensures Ready(c, o.state) && Grows(s, o.state)
  {
    var s1 := CommitBlockStep(s, m.level);
    if c.selector.IsProposer(m.level + 1, c.peer) && s1.hasProposedBlock == Waiting then
      StartRound(c, s1, m.level + 1, ConfirmVotes(m.qc.value), [env.letter], env)
    else Outcome(s1, Handled)
  }

  /** Lines 361-376 of `onCommit`, once the Confirm has been seen: match the vote, check the certificate, commit if new. */
  function CommitChecks(c: Config, s: State, m: CommitMessage, env: Environment): (o: Outcome)
    requires Ready(c, s) && m.qc.Some?
    ensures Ready(c, o.state) && Grows(s, o.state)
  {
    var q := m.qc.value;
    if !HasBlock(s.proposalsVoted, m.level) then Outcome(s, Threw(MissingRecord))
    else if !q.signedMessage.msg.prepare.IsSame(s.proposalsVoted[m.level].prepare) then Outcome(s, Threw(CommitMismatch))
    else if !q.CheckCertificate(c.TotalPeers(m.level)) then Outcome(s, Threw(InvalidCommitCertificate))
    else if m.level in s.committedChain then Outcome(s, Handled)
    else CommitThenPropose(c, s, m, env)
  }

  /** `onCommit(signal)`. */
  function OnCommitStep(c: Config, s: State, m: CommitMessage, env: Environment): (o: Outcome)
    requires Ready(c, s)
    ensures Ready(c, o.state) && Grows(s, o.state)
  {
    if m.qc.None? then Outcome(s, Threw(NoQC))
    else if m.sender != c.selector.GetProposer(m.level) then Outcome(s, Threw(InvalidProposer))
    else
      var o := if m.level !in s.proposalsLocked then ConfirmStep(c, s, m.qc.value.signedMessage.msg, env) else Outcome(s, Handled);
      if o.status.Threw? then o
      else CommitChecks(c, o.state, m, env)
  }

  /** The Prepare `proposeNewBlock` makes: a block of `value` on top of `parent`. */
  function NewPrepare(c: Config, parent: Block, level: nat, qc: PrepareCertificate, value: string): PrepareMessage
  {
    PrepareMessage(c.peer, NewBlock(value, Some(parent)), level, Some(qc))
  }

  /** `proposeNewBlock(level, qc, value)`. */
  function ProposeNewBlockStep(c: Config, s: State, level: nat, qc: PrepareCertificate, value: string, env: Environment): (o: Outcome)
    requires Ready(c, s)
    ensures Ready(c, o.state) && Grows(s, o.state)
  {
    match NearestVotedBlock(s.proposalsVoted, level)
    case None => Outcome(s, Handled)
    case Some(parent) =>
      var msg := NewPrepare(c, parent, level, qc, value);
      var o := ProposeStep(c, s, msg, env);
      if o.status.Threw? then o
      else
        FanoutShape(c.peer, c.knownPeers, Prepare(msg), true);
        Outcome(o.state.(outbox := o.state.outbox + Fanout(c.peer, c.knownPeers, Prepare(msg), true)), Handled)
  }

  /** The signers of Timeouts at the message's level once its sender is added. */
  function TimeoutSigners(s: State, m: TimeoutMessage): set<PeerId>
  {
    (if m.level in s.timeoutsReceived then s.timeoutsReceived[m.level] else {}) + {m.sender}
  }

  /** Lines 451-464 of `onTimeout`: at a quorum of Timeouts, vote nil and unlock at the level, then propose the next one. */
  function TimeoutQuorumStep(c: Config, s: State, m: TimeoutMessage, env: Environment): (o: Outcome)
    requires Ready(c, s)
    ensures Ready(c, o.state) && Grows(s, o.state)
  {
    var signers := if m.level in s.timeoutsReceived then s.timeoutsReceived[m.level] else {};
    if |signers| < Quorum(c.TotalPeers(m.level)) then Outcome(s, Handled)
    else
      var s1 := s.(proposalsVoted := s.proposalsVoted[m.level := NilVote], proposalsLocked := s.proposalsLocked - {m.level});
      ProposeOnTimeouts(c, s1, m.level + 1, Timeouts(QuorumCertificate(m, signers)), [env.letter], env)
  }

  /** Lines 458-463 of `onTimeout`: if waiting, switch to the prepare phase and propose on the certificate of Timeouts. */
  function ProposeOnTimeouts(c: Config, s: State, level: nat, qc: PrepareCertificate, value: string, env: Environment): (o: Outcome)
    requires Ready(c, s)
    ensures Ready(c, o.state) && Grows(s, o.state)
  {
    if s.hasProposedBlock == Waiting then ProposeNewBlockStep(c, s.(hasProposedBlock := PreparePhase), level, qc, value, env)
    else Outcome(s, Handled)
  }

  /** `onTimeout(signal)`. */
  function OnTimeoutStep(c: Config, s: State, m: TimeoutMessage, env: Environment): (o: Outcome)
    requires Ready(c, s)
    ensures Ready(c, o.state) && Grows(s, o.state)
  {
    if CurrentLevel(s) > m.level then Outcome(s, Handled)
    else
      var s1 := s.(timeoutsReceived := s.timeoutsReceived[m.level := TimeoutSigners(s, m)]);
      if !c.selector.IsProposer(m.level + 1, c.peer) then Outcome(s1, Handled)
      else TimeoutQuorumStep(c, s1, m, env)
  }

  /** The Timeout signals of `tick`: to every known peer (itself included) or to the proposer two levels up. */
  function TimeoutSignals(c: Config, level: nat): (out: seq<Outgoing>)
    requires c.Valid()
    ensures forall o :: o in out ==> o.from == c.peer
  {
    var msg := Timeout(TimeoutMessage(c.peer, level + 1, None));
    FanoutShape(c.peer, c.knownPeers, msg, false);
    if c.broadcastTimeout then Fanout(c.peer, c.knownPeers, msg, false)
    else [Outgoing(c.peer, c.selector.GetProposer(level + 2), msg)]
  }

  /** Lines 130-146 of `tick`: signal a Timeout for the next level, reset the timer and vote nil at the next level. */
  function EnterTimeoutStep(c: Config, s: State): (t: State)
    requires Ready(c, s)
    ensures Ready(c, t) && Grows(s, t)
  {
    var level := CurrentLevel(s);
    s.(outbox := s.outbox + TimeoutSignals(c, level), lastVoteTime := 0,
       proposalsVoted := s.proposalsVoted[level + 1 := NilVote])
  }

  /** `tick()`. */
  function TickStep(c: Config, s: State): (t: State)
    requires Ready(c, s)
    ensures Ready(c, t) && Grows(s, t)
  {
    if c.byzantine then s
    else
      var s1 := s.(lastVoteTime := s.lastVoteTime + 1);
      if s1.lastVoteTime >= c.timeoutDelay then EnterTimeoutStep(c, s1) else s1
  }

  /** `processSignal(signal)`: dispatch on the message's class; a thrown error is caught and only logged. */
  function ProcessSignalStep(c: Config, s: State, message: AnyMessage, env: Environment): (t: State)
    requires Ready(c, s)
    ensures Ready(c, t) && Grows(s, t)
  {
    if c.byzantine then s
    else match message
      case Prepare(m) => ProposeStep(c, s, m, env).state
      case VotePrepare(m) => OnVoteProposeStep(c, s, m, env).state
      case VoteConfirm(m) => OnVoteConfirmStep(c, s, m, env).state
      case Confirm(m) => ConfirmStep(c, s, m, env).state
      case Commit(m) => OnCommitStep(c, s, m, env).state
      case Timeout(m) => OnTimeoutStep(c, s, m, env).state
  }

  /** The genesis Prepare and Confirm every replica is seeded with, both from the proposer of level 0. */
  function GenesisPrepare(c: Config): PrepareMessage
    requires c.Valid()
  {
    PrepareMessage(c.selector.GetProposer(0), Genesis(), 0, None)
  }

  function GenesisConfirm(c: Config): ConfirmMessage
    requires c.Valid()
  {
    ConfirmMessage(c.selector.GetProposer(0), GenesisPrepare(c), None)
  }

  /** A fresh replica after the genesis seeding: voted, locked and committed at level 0, waiting, timer at 0. */
  function InitialState(c: Config): (s: State)
    requires c.Valid()
    ensures Ready(c, s)
  {
    State(0, map[0 := VotedFor(GenesisPrepare(c))], map[0 := GenesisConfirm(c)], {}, map[],
          Waiting, map[0 := Some(Genesis())], [])
  }

  /** Every peer of the committee, as the set the bootstrap certificate is signed by. */
  function AllSigners(c: Config): set<PeerId>
    requires c.Valid()
  {
    set p | p in c.selector.GetAllPeers(0)
  }

  /** The start of the first round, run by the proposer of level 1: it proposes "B" on the genesis block. */
  function KickoffStep(c: Config, s: State, env: Environment): (o: Outcome)
    requires Ready(c, s)
    ensures Ready(c, o.state) && Grows(s, o.state)
  {
    var vote := VoteConfirmMessage(c.selector.GetProposer(0), GenesisConfirm(c));
    StartRound(c, s.(votesReceived := AllSigners(c)), 1, ConfirmVotes(QuorumCertificate(vote, AllSigners(c))), "B", env)
  }
}
