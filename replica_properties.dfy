/**
 * What the handlers of src/MotorwayBftReplica.ts promise, proved about the step functions of
 * ReplicaState: which Prepares are voted for and what a vote changes, when a Confirm locks
 * and a Commit commits, what a timeout does to the levels, and that redelivering a message
 * that was already handled changes nothing.
 */
module ReplicaProperties {
  import opened Options
  import opened Data
  import opened Messages
  import opened World
  import opened MotorwayMessages
  import opened ReplicaState

  /** The round bookkeeping a handler leaves alone: the vote accumulator, the phase and the Timeout signers. */
  predicate RoundKept(s: State, t: State)
  {
    t.votesReceived == s.votesReceived && t.hasProposedBlock == s.hasProposedBlock && t.timeoutsReceived == s.timeoutsReceived
  }

  /** The effect of a vote: the level is current, the timer is reset, the level below is committed once, one VotePrepare goes out. */
  lemma AcceptPrepareEffects(c: Config, s: State, m: PrepareMessage)
    requires Ready(c, s) && CurrentLevel(s) < m.level
    ensures var t := AcceptPrepare(c, s, m);
      && t.proposalsVoted == s.proposalsVoted[m.level := VotedFor(m)]
      && CurrentLevel(t) == m.level
      && t.lastVoteTime == 0
      && t.proposalsLocked == s.proposalsLocked
      && RoundKept(s, t)
      && t.outbox == s.outbox + [Outgoing(c.peer, c.selector.GetProposer(m.level), VotePrepare(VotePrepareMessage(c.peer, m)))]
      && (m.level - 1 in s.committedChain || m.level - 1 !in s.proposalsVoted ==> t.committedChain == s.committedChain)
      && (m.level - 1 !in s.committedChain && m.level - 1 in s.proposalsVoted ==>
            t.committedChain == s.committedChain[m.level - 1 := VotedBlock(s.proposalsVoted[m.level - 1])])
  {
    CurrentLevelAfterVote(s, m.level, VotedFor(m));
  }

  /** A Prepare at or below the current level is ignored without an error. */
  lemma ProposeIgnoresStale(c: Config, s: State, m: PrepareMessage, env: Environment)
    requires Ready(c, s) && m.level <= CurrentLevel(s)
    ensures ProposeStep(c, s, m, env) == Outcome(s, Handled)
  {
  }

  /**
   * Above the current level, `propose` votes exactly for the Prepares that satisfy every
   * safety condition, and a vote is the effect `AcceptPrepare` describes on the lock table
   * after the backfill.
   */
  lemma ProposeAcceptsExactlyValid(c: Config, s: State, m: PrepareMessage, env: Environment)
    requires Ready(c, s) && CurrentLevel(s) < m.level
    ensures ProposeStep(c, s, m, env).status == Handled <==> PrepareValid(c, ProposeLocks(c, s, m, env), m)
    ensures ProposeStep(c, s, m, env).status == Handled ==>
      ProposeStep(c, s, m, env).state == AcceptPrepare(c, s.(proposalsLocked := ProposeLocks(c, s, m, env)), m)
  {
    var o := PrepareChecks(c, s, m, env);
    if m.qc.Some? && m.qc.value.ConfirmVotes? {
      var q := m.qc.value.votes;
      if m.sender == c.selector.GetProposer(m.level) && m.qc.value.CheckCertificate(c.TotalPeers(m.level))
         && q.signedMessage.msg.prepare.level == m.level - 1 {
        assert o.state.proposalsLocked == ProposeLocks(c, s, m, env);
      }
    }
  }

  /** A rejected Prepare changes nothing beyond the lock the backfill may have copied. */
  lemma ProposeRejectionKeepsState(c: Config, s: State, m: PrepareMessage, env: Environment)
    requires Ready(c, s)
    ensures var o := ProposeStep(c, s, m, env);
      o.status.Threw? ==>
        && o.state == s.(proposalsLocked := o.state.proposalsLocked)
        && (o.state.proposalsLocked == s.proposalsLocked || o.state.proposalsLocked == ProposeLocks(c, s, m, env))
    ensures CurrentLevel(s) < m.level && m.qc.None? ==> ProposeStep(c, s, m, env) == Outcome(s, Threw(NoQC))
    ensures CurrentLevel(s) < m.level && m.qc.Some? && m.sender != c.selector.GetProposer(m.level) ==>
      ProposeStep(c, s, m, env) == Outcome(s, Threw(InvalidProposer))
  {
  }

  /** Every real vote is filed under the level of the Prepare it is for. */
  predicate Filed(s: State)
  {
    forall k :: k in s.proposalsVoted && s.proposalsVoted[k].VotedFor? ==> s.proposalsVoted[k].prepare.level == k
  }

  /** Every vote except the one at `level` is unchanged. */
  predicate VotesKeptExcept(s: State, t: State, level: nat)
  {
    forall k :: k in s.proposalsVoted && k != level ==> k in t.proposalsVoted && t.proposalsVoted[k] == s.proposalsVoted[k]
  }

  /** No lock is released. */
  predicate LocksKept(s: State, t: State)
  {
    s.proposalsLocked.Keys <= t.proposalsLocked.Keys
  }

  /** `propose` changes the vote at the Prepare's level only, releases no lock and leaves the round bookkeeping alone. */
  lemma ProposeFrame(c: Config, s: State, m: PrepareMessage, env: Environment)
    requires Ready(c, s)
    ensures var t := ProposeStep(c, s, m, env).state;
      RoundKept(s, t) && VotesKeptExcept(s, t, m.level) && LocksKept(s, t) && (Filed(s) ==> Filed(t))
  {
  }

  /** So does `proposeNewBlock`, at the level it proposes for. */
  lemma ProposeNewBlockFrame(c: Config, s: State, level: nat, qc: PrepareCertificate, value: string, env: Environment)
    requires Ready(c, s)
    ensures var t := ProposeNewBlockStep(c, s, level, qc, value, env).state;
      RoundKept(s, t) && VotesKeptExcept(s, t, level) && LocksKept(s, t) && (Filed(s) ==> Filed(t))
  {
    match NearestVotedBlock(s.proposalsVoted, level)
    case None =>
    case Some(parent) =>
      ProposeFrame(c, s, NewPrepare(c, parent, level, qc, value), env);
  }

  /** `confirm` changes the vote at the Confirm's level only (by the lazy `propose`) and releases no lock. */
  lemma ConfirmFrame(c: Config, s: State, m: ConfirmMessage, env: Environment)
    requires Ready(c, s)
    ensures var t := ConfirmStep(c, s, m, env).state;
      RoundKept(s, t) && VotesKeptExcept(s, t, m.prepare.level) && LocksKept(s, t) && (Filed(s) ==> Filed(t))
  {
    if m.qc.Some? && m.sender == c.selector.GetProposer(m.prepare.level) && m.prepare.level !in s.proposalsVoted {
      ProposeFrame(c, s, m.prepare, env);
    }
  }

  /**
   * A Confirm is accepted only from the proposer of its level, with a certificate over a
   * quorum, for the Prepare this replica voted for; it then holds the lock at that level and
   * the VoteConfirm is the last signal emitted. Without a certificate, or from anyone else, it
   * is refused untouched.
   */
  lemma ConfirmLocksOnlyChecked(c: Config, s: State, m: ConfirmMessage, env: Environment)
    requires Ready(c, s)
    ensures m.qc.None? ==> ConfirmStep(c, s, m, env) == Outcome(s, Threw(NoCC))
    ensures m.qc.Some? && m.sender != c.selector.GetProposer(m.prepare.level) ==>
      ConfirmStep(c, s, m, env) == Outcome(s, Threw(InvalidConfirmLeader))
    ensures var o := ConfirmStep(c, s, m, env); var l := m.prepare.level;
      o.status == Handled ==>
        && m.qc.Some? && m.sender == c.selector.GetProposer(l) && m.qc.value.CheckCertificate(c.TotalPeers(l))
        && HasBlock(o.state.proposalsVoted, l) && m.prepare.IsSame(o.state.proposalsVoted[l].prepare)
        && l in o.state.proposalsLocked && o.state.proposalsLocked[l] == m
        && |ConfirmVoteSignals(c, m)| <= |o.state.outbox|
        && o.state.outbox[|o.state.outbox| - |ConfirmVoteSignals(c, m)|..] == ConfirmVoteSignals(c, m)
  {
  }

  /** `propose` leaves the lock table as it was or as the backfill made it. */
  lemma ProposeLocksOnly(c: Config, s: State, m: PrepareMessage, env: Environment)
    requires Ready(c, s)
    ensures var t := ProposeStep(c, s, m, env).state;
      t.proposalsLocked == s.proposalsLocked || t.proposalsLocked == ProposeLocks(c, s, m, env)
  {
    if CurrentLevel(s) < m.level {
      ProposeRejectionKeepsState(c, s, m, env);
      ProposeAcceptsExactlyValid(c, s, m, env);
      if ProposeStep(c, s, m, env).status == Handled {
        AcceptPrepareEffects(c, s.(proposalsLocked := ProposeLocks(c, s, m, env)), m);
      }
    }
  }

  /**
   * A refused Confirm leaves the lock at its level as it was: only the checks passing lock the
   * level, and the lazy `propose` can copy no lock but the one below.
   */
  lemma ConfirmThrowKeepsLock(c: Config, s: State, m: ConfirmMessage, env: Environment)
    requires Ready(c, s)
    ensures var o := ConfirmStep(c, s, m, env); var l := m.prepare.level;
      o.status.Threw? ==>
        && (l in o.state.proposalsLocked <==> l in s.proposalsLocked)
        && (l in s.proposalsLocked ==> o.state.proposalsLocked[l] == s.proposalsLocked[l])
  {
    ConfirmThrowLocksOnly(c, s, m, env);
    ProposeLocksKeepLevel(c, s, m.prepare, env);
  }

  /** A refused Confirm leaves the lock table as it was or as the backfill of its lazy `propose` made it. */
  lemma ConfirmThrowLocksOnly(c: Config, s: State, m: ConfirmMessage, env: Environment)
    requires Ready(c, s)
    ensures var t := ConfirmStep(c, s, m, env);
      t.status.Threw? ==> t.state.proposalsLocked == s.proposalsLocked || t.state.proposalsLocked == ProposeLocks(c, s, m.prepare, env)
  {
    ProposeLocksOnly(c, s, m.prepare, env);
  }

  /** The backfill before a Prepare copies no lock at the Prepare's own level. */
  lemma ProposeLocksKeepLevel(c: Config, s: State, m: PrepareMessage, env: Environment)
    ensures var r := ProposeLocks(c, s, m, env);
      && (m.level in r <==> m.level in s.proposalsLocked)
      && (m.level in s.proposalsLocked ==> r[m.level] == s.proposalsLocked[m.level])
  {
    if m.level >= 1 {
      BackfilledLocksSpec(c, s.proposalsLocked, m.level - 1, env);
    }
  }

  /** Starting a round changes the vote at the proposed level only and releases no lock. */
  lemma StartRoundFrame(c: Config, s: State, level: nat, qc: PrepareCertificate, value: string, env: Environment)
    requires Ready(c, s)
    ensures var t := StartRound(c, s, level, qc, value, env).state;
      VotesKeptExcept(s, t, level) && LocksKept(s, t) && (Filed(s) ==> Filed(t))
  {
    ProposeNewBlockFrame(c, s.(hasProposedBlock := PreparePhase), level, qc, value, env);
  }

  /**
   * Starting a round enters the prepare phase. A handled round empties the vote accumulator
   * and, above the current level with a voted block below, votes for its own Prepare on the
   * certificate and sends it to every other known replica; a thrown one keeps the accumulator.
   */
  lemma StartRoundEffects(c: Config, s: State, level: nat, qc: PrepareCertificate, value: string, env: Environment)
    requires Ready(c, s)
    ensures var o := StartRound(c, s, level, qc, value, env);
      && o.state.hasProposedBlock == PreparePhase
      && (o.status == Handled ==> o.state.votesReceived == {})
      && (o.status.Threw? ==> o.state.votesReceived == s.votesReceived)
      && (NearestVotedBlock(s.proposalsVoted, level).Some? && CurrentLevel(s) < level && o.status == Handled ==>
            var msg := NewPrepare(c, NearestVotedBlock(s.proposalsVoted, level).value, level, qc, value);
            && o.state.proposalsVoted == s.proposalsVoted[level := VotedFor(msg)]
            && (forall p :: p in c.knownPeers && p != c.peer ==> Outgoing(c.peer, p, Prepare(msg)) in o.state.outbox))
  {
    var s1 := s.(hasProposedBlock := PreparePhase);
    ProposeNewBlockFrame(c, s1, level, qc, value, env);
    ProposeNewBlockBuildsOnNearest(c, s1, level, qc, value, env);
  }

  /** Committing and proposing on top changes the vote at the next level only, releases no lock, and commits the level if it was voted. */
  lemma CommitThenProposeFrame(c: Config, s: State, m: CommitMessage, env: Environment)
    requires Ready(c, s) && m.qc.Some? && m.level !in s.committedChain
    ensures var t := CommitThenPropose(c, s, m, env).state;
      && VotesKeptExcept(s, t, m.level + 1) && LocksKept(s, t) && (Filed(s) ==> Filed(t))
      && (m.level in s.proposalsVoted ==> m.level in t.committedChain)
  {
    var s1 := CommitBlockStep(s, m.level);
    assert s1.proposalsVoted == s.proposalsVoted && s1.proposalsLocked == s.proposalsLocked;
    assert m.level in s.proposalsVoted ==> m.level in s1.committedChain;
    if c.selector.IsProposer(m.level + 1, c.peer) && s1.hasProposedBlock == Waiting {
      StartRoundFrame(c, s1, m.level + 1, ConfirmVotes(m.qc.value), [env.letter], env);
    }
  }

  /**
   * Delivering a Commit a second time, once the first delivery was handled, changes nothing:
   * the level is locked and committed, and the vote it was checked against is still there.
   */
  lemma OnCommitRedeliveryChangesNothing(c: Config, s: State, m: CommitMessage, env: Environment, t: State)
    requires Ready(c, s) && Filed(s)
    requires OnCommitStep(c, s, m, env) == Outcome(t, Handled)
    ensures OnCommitStep(c, t, m, env) == Outcome(t, Handled)
  {
    var q := m.qc.value;
    var o := if m.level !in s.proposalsLocked then ConfirmStep(c, s, q.signedMessage.msg, env) else Outcome(s, Handled);
    if m.level !in s.proposalsLocked {
      ConfirmFrame(c, s, q.signedMessage.msg, env);
      ConfirmLocksOnlyChecked(c, s, q.signedMessage.msg, env);
    }
    assert CommitChecks(c, o.state, m, env) == Outcome(t, Handled);
    assert m.level in o.state.proposalsLocked;
    if m.level !in o.state.committedChain {
      CommitThenProposeFrame(c, o.state, m, env);
    }
  }

  /**
   * A Commit for a level already locked and committed changes nothing, whoever sent it and
   * whatever block it certifies: the committed block stays as it was.
   */
  lemma OnCommitIgnoresCommittedLevel(c: Config, s: State, m: CommitMessage, env: Environment)
    requires Ready(c, s)
    ensures m.level in s.committedChain && m.level in s.proposalsLocked ==> OnCommitStep(c, s, m, env).state == s
  {
  }

  /** Delivering a Prepare a second time, once the first delivery was handled, changes nothing. */
  lemma ProposeRedeliveryChangesNothing(c: Config, s: State, m: PrepareMessage, env: Environment, t: State)
    requires Ready(c, s)
    requires ProposeStep(c, s, m, env) == Outcome(t, Handled)
    ensures ProposeStep(c, t, m, env) == Outcome(t, Handled)
  {
    if CurrentLevel(s) < m.level {
      ProposeAcceptsExactlyValid(c, s, m, env);
      AcceptPrepareEffects(c, s.(proposalsLocked := ProposeLocks(c, s, m, env)), m);
    }
  }

  /**
   * `onVotePropose` counts a vote only in the prepare phase and only as the proposer of the
   * voted level; at a quorum it locks its own Confirm, broadcasts it to every other replica,
   * empties the accumulator and waits.
   */
  lemma OnVoteProposeEffects(c: Config, s: State, m: VotePrepareMessage, env: Environment)
    requires Ready(c, s)
    ensures s.hasProposedBlock != PreparePhase || !c.selector.IsProposer(m.msg.level, c.peer) ==>
      OnVoteProposeStep(c, s, m, env) == Outcome(s, Handled)
    ensures s.hasProposedBlock == PreparePhase && c.selector.IsProposer(m.msg.level, c.peer)
            && |s.votesReceived + {m.sender}| < Quorum(c.TotalPeers(m.msg.level)) ==>
      OnVoteProposeStep(c, s, m, env) == Outcome(s.(votesReceived := s.votesReceived + {m.sender}), Handled)
    ensures var o := OnVoteProposeStep(c, s, m, env);
      var confirm := ConfirmMessage(c.peer, m.msg, Some(QuorumCertificate(m, s.votesReceived + {m.sender})));
      s.hasProposedBlock == PreparePhase && c.selector.IsProposer(m.msg.level, c.peer)
      && |s.votesReceived + {m.sender}| >= Quorum(c.TotalPeers(m.msg.level)) && o.status == Handled ==>
        && o.state.hasProposedBlock == Waiting && o.state.votesReceived == {}
        && m.msg.level in o.state.proposalsLocked && o.state.proposalsLocked[m.msg.level] == confirm
        && (forall p :: p in c.knownPeers && p != c.peer ==> Outgoing(c.peer, p, Confirm(confirm)) in o.state.outbox)
  {
    var s1 := s.(votesReceived := s.votesReceived + {m.sender});
    if s.hasProposedBlock == PreparePhase && c.selector.IsProposer(m.msg.level, c.peer)
       && |s1.votesReceived| >= Quorum(c.TotalPeers(m.msg.level)) {
      var confirm := ConfirmOf(c, s1, m);
      ConfirmFrame(c, s1.(hasProposedBlock := Waiting), confirm, env);
      ConfirmLocksOnlyChecked(c, s1.(hasProposedBlock := Waiting), confirm, env);
      FanoutShape(c.peer, c.knownPeers, Confirm(confirm), true);
    }
  }

  /** `onVoteConfirm` ignores votes outside the waiting phase and votes it is neither this nor the next proposer for. */
  lemma OnVoteConfirmIgnores(c: Config, s: State, m: VoteConfirmMessage, env: Environment)
    requires Ready(c, s)
    ensures var l := m.msg.prepare.level;
      s.hasProposedBlock != Waiting || (!c.selector.IsProposer(l, c.peer) && !c.selector.IsProposer(l + 1, c.peer)) ==>
        OnVoteConfirmStep(c, s, m, env) == Outcome(s, Handled)
  {
  }

  /** Every new committed level is the level below the Prepare voted for. */
  predicate CommitsOnlyBelow(s: State, t: State, level: nat)
  {
    forall k :: k in t.committedChain && k !in s.committedChain ==> k + 1 == level
  }

  /** `propose` commits at most the level below the Prepare. */
  lemma ProposeCommitsOnlyBelow(c: Config, s: State, m: PrepareMessage, env: Environment)
    requires Ready(c, s)
    ensures CommitsOnlyBelow(s, ProposeStep(c, s, m, env).state, m.level)
  {
  }

  /** So does `confirm`, through its lazy `propose`. */
  lemma ConfirmCommitsOnlyBelow(c: Config, s: State, m: ConfirmMessage, env: Environment)
    requires Ready(c, s)
    ensures CommitsOnlyBelow(s, ConfirmStep(c, s, m, env).state, m.prepare.level)
  {
    if m.qc.Some? && m.sender == c.selector.GetProposer(m.prepare.level) && m.prepare.level !in s.proposalsVoted {
      ProposeCommitsOnlyBelow(c, s, m.prepare, env);
    }
  }

  /**
   * A handled Commit comes from the proposer of its level with a certificate, leaves the level
   * committed, and, if the level was not committed before, the committed block is the one the
   * certificate names.
   */
  lemma OnCommitCommitsCertifiedBlock(c: Config, s: State, m: CommitMessage, env: Environment)
    requires Ready(c, s) && Filed(s)
    ensures m.qc.None? ==> OnCommitStep(c, s, m, env) == Outcome(s, Threw(NoQC))
    ensures m.qc.Some? && m.sender != c.selector.GetProposer(m.level) ==>
      OnCommitStep(c, s, m, env) == Outcome(s, Threw(InvalidProposer))
    ensures var o := OnCommitStep(c, s, m, env);
      o.status == Handled ==>
        && m.qc.Some? && m.sender == c.selector.GetProposer(m.level) && m.level in o.state.committedChain
        && m.qc.value.CheckCertificate(c.TotalPeers(m.level))
        && (m.level !in s.committedChain ==>
              o.state.committedChain[m.level].Some?
              && o.state.committedChain[m.level].value.digest == m.qc.value.signedMessage.msg.prepare.data.digest)
  {
    if m.qc.Some? && m.sender == c.selector.GetProposer(m.level) {
      var q := m.qc.value;
      var conf := q.signedMessage.msg;
      var o := if m.level !in s.proposalsLocked then ConfirmStep(c, s, conf, env) else Outcome(s, Handled);
      if m.level !in s.proposalsLocked {
        ConfirmFrame(c, s, conf, env);
        ConfirmCommitsOnlyBelow(c, s, conf, env);
      }
      if o.status == Handled && HasBlock(o.state.proposalsVoted, m.level)
         && q.signedMessage.msg.prepare.IsSame(o.state.proposalsVoted[m.level].prepare) {
        assert conf.prepare.level == m.level;
        if m.level !in s.committedChain {
          assert m.level !in o.state.committedChain;
          var p := o.state.proposalsVoted[m.level].prepare;
          assert CommitBlockStep(o.state, m.level).committedChain[m.level] == Some(p.data);
        }
      }
    }
  }

  /** Unless this replica proposes the next level, `onCommit` leaves the round bookkeeping alone. */
  lemma OnCommitKeepsRound(c: Config, s: State, m: CommitMessage, env: Environment)
    requires Ready(c, s)
    ensures !c.selector.IsProposer(m.level + 1, c.peer) ==> RoundKept(s, OnCommitStep(c, s, m, env).state)
  {
    if m.qc.Some? {
      var o := if m.level !in s.proposalsLocked then ConfirmStep(c, s, m.qc.value.signedMessage.msg, env) else Outcome(s, Handled);
      ConfirmFrame(c, s, m.qc.value.signedMessage.msg, env);
      CommitChecksKeepsRound(c, o.state, m, env);
    }
  }

  /** Unless this replica proposes the next level, the checks and commit of `onCommit` leave the round bookkeeping alone. */
  lemma CommitChecksKeepsRound(c: Config, s: State, m: CommitMessage, env: Environment)
    requires Ready(c, s) && m.qc.Some?
    ensures !c.selector.IsProposer(m.level + 1, c.peer) ==> RoundKept(s, CommitChecks(c, s, m, env).state)
  {
  }

  /**
   * The proposer of the voted level counts the sender; at a quorum it handles its own Commit
   * on the VoteConfirms, which leaves the level committed, to the certified block if it was
   * new, and sends that Commit to every other known replica. Unless it also proposes the next
   * level, the accumulator keeps its signers.
   */
  lemma CollectCommitVoteEffects(c: Config, s: State, m: VoteConfirmMessage, env: Environment)
    requires Ready(c, s) && Filed(s)
    ensures var l := m.msg.prepare.level; var votes := s.votesReceived + {m.sender};
      |votes| < Quorum(c.TotalPeers(l)) ==> CollectCommitVote(c, s, m, env) == Outcome(s.(votesReceived := votes), Handled)
    ensures var o := CollectCommitVote(c, s, m, env); var l := m.msg.prepare.level;
      !c.selector.IsProposer(l + 1, c.peer) ==> o.state.votesReceived == s.votesReceived + {m.sender}
    ensures var o := CollectCommitVote(c, s, m, env); var l := m.msg.prepare.level; var votes := s.votesReceived + {m.sender};
      var commit := CommitMessage(c.peer, l, Some(QuorumCertificate(m, votes)));
      |votes| >= Quorum(c.TotalPeers(l)) && o.status == Handled ==>
        && l in o.state.committedChain
        && (l !in s.committedChain ==>
              o.state.committedChain[l].Some? && o.state.committedChain[l].value.digest == m.msg.prepare.data.digest)
        && (forall p :: p in c.knownPeers && p != c.peer ==> Outgoing(c.peer, p, Commit(commit)) in o.state.outbox)
  {
    var l := m.msg.prepare.level;
    var s1 := s.(votesReceived := s.votesReceived + {m.sender});
    if |s1.votesReceived| >= Quorum(c.TotalPeers(l)) {
      var commit := CommitMessage(c.peer, l, Some(QuorumCertificate(m, s1.votesReceived)));
      var o := OnCommitStep(c, s1, commit, env);
      assert Filed(s1) by { assert s1.proposalsVoted == s.proposalsVoted; }
      OnCommitKeepsRound(c, s1, commit, env);
      OnCommitCommitsCertifiedBlock(c, s1, commit, env);
      FanoutShape(c.peer, c.knownPeers, Commit(commit), true);
      if o.status.Threw? {
        assert CollectCommitVote(c, s, m, env) == o;
      } else {
        assert CollectCommitVote(c, s, m, env) ==
          Outcome(o.state.(outbox := o.state.outbox + Fanout(c.peer, c.knownPeers, Commit(commit), true)), Handled);
      }
    }
  }

  /** Below a quorum the next proposer only counts the sender; at one it starts the next round on the VoteConfirms. */
  lemma CollectNextLeaderVoteStartsRound(c: Config, s: State, m: VoteConfirmMessage, env: Environment)
    requires Ready(c, s)
    ensures var l := m.msg.prepare.level; var votes := s.votesReceived + {m.sender};
      |votes| < Quorum(c.TotalPeers(l)) ==> CollectNextLeaderVote(c, s, m, env) == Outcome(s.(votesReceived := votes), Handled)
    ensures var l := m.msg.prepare.level; var votes := s.votesReceived + {m.sender};
      |votes| >= Quorum(c.TotalPeers(l)) ==>
        CollectNextLeaderVote(c, s, m, env) ==
          StartRound(c, s.(votesReceived := votes), l + 1, ConfirmVotes(QuorumCertificate(m, votes)), [env.letter], env)
  {
  }

  /**
   * At a quorum the next proposer enters the prepare phase and proposes the next level on the
   * certificate of VoteConfirms: a handled proposal empties the accumulator and, above the
   * current level with a voted block below, votes for that Prepare and sends it to every other
   * known replica.
   */
  lemma CollectNextLeaderVoteEffects(c: Config, s: State, m: VoteConfirmMessage, env: Environment)
    requires Ready(c, s)
    ensures var o := CollectNextLeaderVote(c, s, m, env); var l := m.msg.prepare.level; var votes := s.votesReceived + {m.sender};
      var qc := ConfirmVotes(QuorumCertificate(m, votes));
      |votes| >= Quorum(c.TotalPeers(l)) ==>
        && o.state.hasProposedBlock == PreparePhase
        && (o.status == Handled ==> o.state.votesReceived == {})
        && (NearestVotedBlock(s.proposalsVoted, l + 1).Some? && CurrentLevel(s) <= l && o.status == Handled ==>
              var msg := NewPrepare(c, NearestVotedBlock(s.proposalsVoted, l + 1).value, l + 1, qc, [env.letter]);
              && o.state.proposalsVoted == s.proposalsVoted[l + 1 := VotedFor(msg)]
              && (forall p :: p in c.knownPeers && p != c.peer ==> Outgoing(c.peer, p, Prepare(msg)) in o.state.outbox))
  {
    var s1 := s.(votesReceived := s.votesReceived + {m.sender});
    CollectNextLeaderVoteStartsRound(c, s, m, env);
    StartRoundEffects(c, s1, m.msg.prepare.level + 1, ConfirmVotes(QuorumCertificate(m, s1.votesReceived)), [env.letter], env);
  }

  /**
   * `onVoteConfirm` acts only while waiting: as the proposer of the voted level it collects
   * VoteConfirms and commits at a quorum, as the next proposer it collects them and proposes
   * the next level at a quorum, and otherwise it ignores the vote.
   */
  lemma OnVoteConfirmEffects(c: Config, s: State, m: VoteConfirmMessage, env: Environment)
    requires Ready(c, s) && Filed(s)
    ensures var l := m.msg.prepare.level; var votes := s.votesReceived + {m.sender};
      s.hasProposedBlock == Waiting && (c.selector.IsProposer(l, c.peer) || c.selector.IsProposer(l + 1, c.peer))
      && |votes| < Quorum(c.TotalPeers(l)) ==>
        OnVoteConfirmStep(c, s, m, env) == Outcome(s.(votesReceived := votes), Handled)
    ensures var o := OnVoteConfirmStep(c, s, m, env); var l := m.msg.prepare.level;
      s.hasProposedBlock == Waiting && c.selector.IsProposer(l, c.peer) && !c.selector.IsProposer(l + 1, c.peer) ==>
        o.state.votesReceived == s.votesReceived + {m.sender}
    ensures var o := OnVoteConfirmStep(c, s, m, env); var l := m.msg.prepare.level; var votes := s.votesReceived + {m.sender};
      var commit := CommitMessage(c.peer, l, Some(QuorumCertificate(m, votes)));
      s.hasProposedBlock == Waiting && c.selector.IsProposer(l, c.peer) && |votes| >= Quorum(c.TotalPeers(l))
      && o.status == Handled ==>
        && l in o.state.committedChain
        && (l !in s.committedChain ==>
              o.state.committedChain[l].Some? && o.state.committedChain[l].value.digest == m.msg.prepare.data.digest)
        && (forall p :: p in c.knownPeers && p != c.peer ==> Outgoing(c.peer, p, Commit(commit)) in o.state.outbox)
    ensures var o := OnVoteConfirmStep(c, s, m, env); var l := m.msg.prepare.level; var votes := s.votesReceived + {m.sender};
      var qc := ConfirmVotes(QuorumCertificate(m, votes));
      s.hasProposedBlock == Waiting && !c.selector.IsProposer(l, c.peer) && c.selector.IsProposer(l + 1, c.peer)
      && |votes| >= Quorum(c.TotalPeers(l)) ==>
        && o.state.hasProposedBlock == PreparePhase
        && (o.status == Handled ==> o.state.votesReceived == {})
        && (NearestVotedBlock(s.proposalsVoted, l + 1).Some? && CurrentLevel(s) <= l && o.status == Handled ==>
              var msg := NewPrepare(c, NearestVotedBlock(s.proposalsVoted, l + 1).value, l + 1, qc, [env.letter]);
              && o.state.proposalsVoted == s.proposalsVoted[l + 1 := VotedFor(msg)]
              && (forall p :: p in c.knownPeers && p != c.peer ==> Outgoing(c.peer, p, Prepare(msg)) in o.state.outbox))
  {
    CollectCommitVoteEffects(c, s, m, env);
    CollectNextLeaderVoteStartsRound(c, s, m, env);
    CollectNextLeaderVoteEffects(c, s, m, env);
  }

  /**
   * `proposeNewBlock` with no voted block below the level does nothing; otherwise, when its own
   * Prepare is accepted, the vote at the level is for a block whose parent is the nearest voted
   * block, and that Prepare goes to every other known replica.
   */
  lemma ProposeNewBlockBuildsOnNearest(c: Config, s: State, level: nat, qc: PrepareCertificate, value: string, env: Environment)
    requires Ready(c, s)
    ensures NearestVotedBlock(s.proposalsVoted, level).None? ==>
      ProposeNewBlockStep(c, s, level, qc, value, env) == Outcome(s, Handled)
    ensures var o := ProposeNewBlockStep(c, s, level, qc, value, env);
      NearestVotedBlock(s.proposalsVoted, level).Some? && CurrentLevel(s) < level && o.status == Handled ==>
        var parent := NearestVotedBlock(s.proposalsVoted, level).value;
        var msg := NewPrepare(c, parent, level, qc, value);
        && o.state.proposalsVoted == s.proposalsVoted[level := VotedFor(msg)]
        && parent.IsParent(Some(msg.data)) && msg.data.value == value && msg.sender == c.peer
        && (forall p :: p in c.knownPeers && p != c.peer ==> Outgoing(c.peer, p, Prepare(msg)) in o.state.outbox)
  {
    match NearestVotedBlock(s.proposalsVoted, level)
    case None =>
    case Some(parent) =>
      var msg := NewPrepare(c, parent, level, qc, value);
      if CurrentLevel(s) < level && ProposeStep(c, s, msg, env).status == Handled {
        ProposeAcceptsExactlyValid(c, s, msg, env);
        AcceptPrepareEffects(c, s.(proposalsLocked := ProposeLocks(c, s, msg, env)), msg);
        ChildLinksToParent(value, parent);
        FanoutShape(c.peer, c.knownPeers, Prepare(msg), true);
      }
  }

  /**
   * `onTimeout` ignores Timeouts below the current level; otherwise it records the sender
   * among the level's signers, and only the proposer of the next level acts on them: below a
   * quorum nothing else changes, at a quorum it votes nil at the level.
   */
  lemma OnTimeoutEffects(c: Config, s: State, m: TimeoutMessage, env: Environment)
    requires Ready(c, s)
    ensures m.level < CurrentLevel(s) ==> OnTimeoutStep(c, s, m, env) == Outcome(s, Handled)
    ensures var o := OnTimeoutStep(c, s, m, env);
      var s1 := s.(timeoutsReceived := s.timeoutsReceived[m.level := TimeoutSigners(s, m)]);
      CurrentLevel(s) <= m.level ==>
        && m.level in o.state.timeoutsReceived && m.sender in o.state.timeoutsReceived[m.level]
        && (!c.selector.IsProposer(m.level + 1, c.peer) ==> o == Outcome(s1, Handled))
        && (|TimeoutSigners(s, m)| < Quorum(c.TotalPeers(m.level)) ==> o == Outcome(s1, Handled))
        && (c.selector.IsProposer(m.level + 1, c.peer) && |TimeoutSigners(s, m)| >= Quorum(c.TotalPeers(m.level)) ==>
              m.level in o.state.proposalsVoted && o.state.proposalsVoted[m.level] == NilVote)
  {
    var s1 := s.(timeoutsReceived := s.timeoutsReceived[m.level := TimeoutSigners(s, m)]);
    if CurrentLevel(s) <= m.level && c.selector.IsProposer(m.level + 1, c.peer) && |TimeoutSigners(s, m)| >= Quorum(c.TotalPeers(m.level)) {
      var signers := TimeoutSigners(s, m);
      var s2 := s1.(proposalsVoted := s1.proposalsVoted[m.level := NilVote], proposalsLocked := s1.proposalsLocked - {m.level});
      if s2.hasProposedBlock == Waiting {
        ProposeNewBlockFrame(c, s2.(hasProposedBlock := PreparePhase), m.level + 1, Timeouts(QuorumCertificate(m, signers)), [env.letter], env);
      }
    }
  }

  /** A vote at `level` does not change the nearest voted level below it. */
  lemma {:induction false} NearestIgnoresAbove(voted: map<nat, Vote>, level: nat, v: Vote, below: nat)
    requires below <= level
    ensures NearestVotedLevel(voted[level := v], below) == NearestVotedLevel(voted, below)
    decreases below
  {
    if below > 0 {
      NearestIgnoresAbove(voted, level, v, below - 1);
    }
  }

  /** After a nil vote at `level`, a proposal for the level above builds on the block voted nearest below `level`. */
  lemma NearestAfterNil(voted: map<nat, Vote>, level: nat)
    ensures NearestVotedBlock(voted[level := NilVote], level + 1) == NearestVotedBlock(voted, level)
  {
    NearestIgnoresAbove(voted, level, NilVote, level);
  }

  /**
   * Outside the waiting phase a certificate of Timeouts is not acted on. While waiting the
   * replica enters the prepare phase and keeps every lock; above the current level, with a voted
   * block below, as the level's proposer and with a passing certificate for the level below,
   * its own Prepare on the certificate is accepted and sent to every other known replica.
   */
  lemma ProposeOnTimeoutsEffects(c: Config, s: State, level: nat, q: QuorumCertificate<TimeoutMessage>, value: string, env: Environment)
    requires Ready(c, s)
    ensures s.hasProposedBlock != Waiting ==> ProposeOnTimeouts(c, s, level, Timeouts(q), value, env) == Outcome(s, Handled)
    ensures var o := ProposeOnTimeouts(c, s, level, Timeouts(q), value, env);
      s.hasProposedBlock == Waiting ==>
        && o.state.hasProposedBlock == PreparePhase && o.state.proposalsLocked == s.proposalsLocked
        && (NearestVotedBlock(s.proposalsVoted, level).Some? && CurrentLevel(s) < level && c.selector.GetProposer(level) == c.peer
            && q.CheckCertificate(c.TotalPeers(level)) && q.signedMessage.level + 1 == level ==>
              var msg := NewPrepare(c, NearestVotedBlock(s.proposalsVoted, level).value, level, Timeouts(q), value);
              && o.status == Handled
              && o.state.proposalsVoted == s.proposalsVoted[level := VotedFor(msg)]
              && (forall p :: p in c.knownPeers && p != c.peer ==> Outgoing(c.peer, p, Prepare(msg)) in o.state.outbox))
  {
    if s.hasProposedBlock == Waiting {
      var s1 := s.(hasProposedBlock := PreparePhase);
      ProposeNewBlockFrame(c, s1, level, Timeouts(q), value, env);
      ProposeNewBlockBuildsOnNearest(c, s1, level, Timeouts(q), value, env);
      match NearestVotedBlock(s1.proposalsVoted, level)
      case None =>
      case Some(parent) =>
        var msg := NewPrepare(c, parent, level, Timeouts(q), value);
        if CurrentLevel(s1) < level {
          ProposeAcceptsExactlyValid(c, s1, msg, env);
          if ProposeStep(c, s1, msg, env).status == Handled {
            AcceptPrepareEffects(c, s1, msg);
          }
        }
    }
  }

  /**
   * At a quorum of Timeouts the proposer of the next level gives the level up: it votes nil
   * there and drops its lock at the level. Outside the waiting phase nothing else changes;
   * while waiting it enters the prepare phase, and with a voted block below the level it
   * proposes the next level on the certificate of Timeouts, built on the block voted nearest
   * below, and sends that Prepare to every other known replica.
   */
  lemma OnTimeoutQuorumEffects(c: Config, s: State, m: TimeoutMessage, env: Environment)
    requires Ready(c, s)
    ensures var o := OnTimeoutStep(c, s, m, env);
      var signers := TimeoutSigners(s, m);
      var s2 := s.(timeoutsReceived := s.timeoutsReceived[m.level := signers],
                   proposalsVoted := s.proposalsVoted[m.level := NilVote], proposalsLocked := s.proposalsLocked - {m.level});
      CurrentLevel(s) <= m.level && c.selector.IsProposer(m.level + 1, c.peer) && |signers| >= Quorum(c.TotalPeers(m.level)) ==>
        && m.level !in o.state.proposalsLocked
        && (s.hasProposedBlock != Waiting ==> o == Outcome(s2, Handled))
        && (s.hasProposedBlock == Waiting ==> o.state.hasProposedBlock == PreparePhase && o.state.proposalsLocked == s2.proposalsLocked)
        && (s.hasProposedBlock == Waiting && NearestVotedBlock(s.proposalsVoted, m.level).Some? ==>
              var msg := NewPrepare(c, NearestVotedBlock(s.proposalsVoted, m.level).value, m.level + 1,
                                    Timeouts(QuorumCertificate(m, signers)), [env.letter]);
              && o.status == Handled
              && o.state.proposalsVoted == s2.proposalsVoted[m.level + 1 := VotedFor(msg)]
              && (forall p :: p in c.knownPeers && p != c.peer ==> Outgoing(c.peer, p, Prepare(msg)) in o.state.outbox))
  {
    var signers := TimeoutSigners(s, m);
    if CurrentLevel(s) <= m.level && c.selector.IsProposer(m.level + 1, c.peer) && |signers| >= Quorum(c.TotalPeers(m.level)) {
      var s1 := s.(timeoutsReceived := s.timeoutsReceived[m.level := signers]);
      var s2 := s1.(proposalsVoted := s1.proposalsVoted[m.level := NilVote], proposalsLocked := s1.proposalsLocked - {m.level});
      CurrentLevelAfterVote(s1, m.level, NilVote);
      NearestAfterNil(s.proposalsVoted, m.level);
      QuorumIffCertificate(m, signers, c.TotalPeers(m.level));
      assert c.TotalPeers(m.level + 1) == c.TotalPeers(m.level);
      ProposeOnTimeoutsEffects(c, s2, m.level + 1, QuorumCertificate(m, signers), [env.letter], env);
    }
  }

  /** The Timeout signals reach every known replica in order, itself included, or only the proposer two levels up. */
  lemma TimeoutSignalsReach(c: Config, level: nat)
    requires c.Valid()
    ensures var msg := Timeout(TimeoutMessage(c.peer, level + 1, None));
      && (c.broadcastTimeout ==>
            |TimeoutSignals(c, level)| == |c.knownPeers|
            && forall i :: 0 <= i < |c.knownPeers| ==> TimeoutSignals(c, level)[i] == Outgoing(c.peer, c.knownPeers[i], msg))
      && (!c.broadcastTimeout ==> TimeoutSignals(c, level) == [Outgoing(c.peer, c.selector.GetProposer(level + 2), msg)])
  {
    FanoutFollowsPeers(c.peer, c.knownPeers, Timeout(TimeoutMessage(c.peer, level + 1, None)));
  }

  /**
   * `tick` does nothing on a byzantine replica and otherwise advances the timer; when it
   * reaches the delay the replica emits Timeouts for the next level, votes nil there (so the
   * current level goes up by exactly one) and restarts the timer.
   */
  lemma TickEffects(c: Config, s: State)
    requires Ready(c, s)
    ensures c.byzantine ==> TickStep(c, s) == s
    ensures !c.byzantine && s.lastVoteTime + 1 < c.timeoutDelay ==> TickStep(c, s) == s.(lastVoteTime := s.lastVoteTime + 1)
    ensures var t := TickStep(c, s); var l := CurrentLevel(s);
      !c.byzantine && s.lastVoteTime + 1 >= c.timeoutDelay ==>
        && t.lastVoteTime == 0
        && t.proposalsVoted == s.proposalsVoted[l + 1 := NilVote]
        && CurrentLevel(t) == l + 1
        && t.outbox == s.outbox + TimeoutSignals(c, l)
        && t == s.(lastVoteTime := 0, proposalsVoted := t.proposalsVoted, outbox := t.outbox)
  {
    var l := CurrentLevel(s);
    CurrentLevelAfterVote(s.(lastVoteTime := s.lastVoteTime + 1), l + 1, NilVote);
  }

  /** No signal and no tick lowers the current level, rewrites a committed level or takes back an emitted signal. */
  lemma HandlersOnlyAdvance(c: Config, s: State, message: AnyMessage, env: Environment)
    requires Ready(c, s)
    ensures var t := ProcessSignalStep(c, s, message, env);
      && CurrentLevel(s) <= CurrentLevel(t)
      && (forall k :: k in s.committedChain ==> k in t.committedChain && t.committedChain[k] == s.committedChain[k])
      && s.outbox <= t.outbox
    ensures var t := TickStep(c, s);
      && CurrentLevel(s) <= CurrentLevel(t)
      && (forall k :: k in s.committedChain ==> k in t.committedChain && t.committedChain[k] == s.committedChain[k])
      && s.outbox <= t.outbox
  {
    CurrentLevelMonotone(s, ProcessSignalStep(c, s, message, env));
    CurrentLevelMonotone(s, TickStep(c, s));
  }

  /** The peers of a sequence, as a set. */
  function PeerSet(peers: seq<PeerId>): set<PeerId>
  {
    set p | p in peers
  }

  /** A committee without repetitions signs with as many peers as it has members. */
  lemma {:induction false} DistinctPeersCount(peers: seq<PeerId>)
    requires forall i, j :: 0 <= i < j < |peers| ==> peers[i] != peers[j]
    ensures |PeerSet(peers)| == |peers|
    decreases |peers|
  {
    if peers == [] {
      assert PeerSet(peers) == {};
    } else {
      var init := peers[..|peers| - 1];
      var last := peers[|peers| - 1];
      DistinctPeersCount(init);
      assert peers == init + [last];
      assert PeerSet(peers) == PeerSet(init) + {last};
    }
  }

  /**
   * The bootstrap succeeds on a fresh replica that proposes level 1 in a committee without
   * repetitions: it votes for "B" on top of the genesis block, which becomes the current
   * level, votes to itself, sends the Prepare to every other known replica and clears the
   * accumulator, staying in the prepare phase.
   */
  lemma KickoffProposesB(c: Config, env: Environment)
    requires c.Valid() && c.selector.GetProposer(1) == c.peer
    requires forall i, j :: 0 <= i < j < |c.selector.allPeers| ==> c.selector.allPeers[i] != c.selector.allPeers[j]
    ensures var o := KickoffStep(c, InitialState(c), env);
      && o.status == Handled
      && CurrentLevel(o.state) == 1
      && 1 in o.state.proposalsVoted && o.state.proposalsVoted[1].VotedFor?
      && o.state.proposalsVoted[1].prepare.data == NewBlock("B", Some(Genesis()))
      && o.state.votesReceived == {} && o.state.hasProposedBlock == PreparePhase
      && o.state.committedChain == InitialState(c).committedChain
      && Outgoing(c.peer, c.peer, VotePrepare(VotePrepareMessage(c.peer, o.state.proposalsVoted[1].prepare))) in o.state.outbox
      && (forall p :: p in c.knownPeers && p != c.peer ==> Outgoing(c.peer, p, Prepare(o.state.proposalsVoted[1].prepare)) in o.state.outbox)
  {
    var s0 := InitialState(c);
    var s1 := s0.(votesReceived := AllSigners(c), hasProposedBlock := PreparePhase);
    var vote := VoteConfirmMessage(c.selector.GetProposer(0), GenesisConfirm(c));
    var qc := ConfirmVotes(QuorumCertificate(vote, AllSigners(c)));
    NearestIsHighestBelow(s1.proposalsVoted, 1, 0);
    var msg := NewPrepare(c, Genesis(), 1, qc, "B");
    DistinctPeersCount(c.selector.allPeers);
    var n := |c.selector.allPeers|;
    assert c.selector.GetAllPeers(0) == c.selector.allPeers == c.selector.GetAllPeers(1);
    assert AllSigners(c) == PeerSet(c.selector.allPeers);
    assert |AllSigners(c)| == n == c.TotalPeers(1);
    assert (2 * n) / 3 < n;
    assert PrepareValid(c, ProposeLocks(c, s1, msg, env), msg);
    ProposeAcceptsExactlyValid(c, s1, msg, env);
    AcceptPrepareEffects(c, s1.(proposalsLocked := ProposeLocks(c, s1, msg, env)), msg);
    ProposeNewBlockBuildsOnNearest(c, s1, 1, qc, "B", env);
  }

  /** Starting a round files every vote under its level. */
  lemma StartRoundKeepsFiled(c: Config, s: State, level: nat, qc: PrepareCertificate, value: string, env: Environment)
    requires Ready(c, s) && Filed(s)
    ensures Filed(StartRound(c, s, level, qc, value, env).state)
  {
    StartRoundFrame(c, s, level, qc, value, env);
  }

  /** `onCommit` files every vote it makes under its level. */
  lemma OnCommitKeepsFiled(c: Config, s: State, m: CommitMessage, env: Environment)
    requires Ready(c, s) && Filed(s)
    ensures Filed(OnCommitStep(c, s, m, env).state)
  {
    if m.qc.Some? && m.sender == c.selector.GetProposer(m.level) {
      var o := if m.level !in s.proposalsLocked then ConfirmStep(c, s, m.qc.value.signedMessage.msg, env) else Outcome(s, Handled);
      if m.level !in s.proposalsLocked {
        ConfirmFrame(c, s, m.qc.value.signedMessage.msg, env);
      }
      if o.status == Handled && m.level !in o.state.committedChain {
        CommitThenProposeFrame(c, o.state, m, env);
      }
    }
  }

  /** The proposer's commit at a quorum of VoteConfirms files every vote under its level. */
  lemma CollectCommitVoteKeepsFiled(c: Config, s: State, m: VoteConfirmMessage, env: Environment)
    requires Ready(c, s) && Filed(s)
    ensures Filed(CollectCommitVote(c, s, m, env).state)
  {
    var s1 := s.(votesReceived := s.votesReceived + {m.sender});
    OnCommitKeepsFiled(c, s1, CommitMessage(c.peer, m.msg.prepare.level, Some(QuorumCertificate(m, s1.votesReceived))), env);
  }

  /** The next proposer's proposal at a quorum of VoteConfirms files every vote under its level. */
  lemma CollectNextLeaderVoteKeepsFiled(c: Config, s: State, m: VoteConfirmMessage, env: Environment)
    requires Ready(c, s) && Filed(s)
    ensures Filed(CollectNextLeaderVote(c, s, m, env).state)
  {
    var s1 := s.(votesReceived := s.votesReceived + {m.sender});
    CollectNextLeaderVoteStartsRound(c, s, m, env);
    StartRoundKeepsFiled(c, s1, m.msg.prepare.level + 1, ConfirmVotes(QuorumCertificate(m, s1.votesReceived)), [env.letter], env);
  }

  /** `onVoteConfirm` files every vote it makes under its level. */
  lemma OnVoteConfirmKeepsFiled(c: Config, s: State, m: VoteConfirmMessage, env: Environment)
    requires Ready(c, s) && Filed(s)
    ensures Filed(OnVoteConfirmStep(c, s, m, env).state)
  {
    CollectCommitVoteKeepsFiled(c, s, m, env);
    CollectNextLeaderVoteKeepsFiled(c, s, m, env);
  }

  /** Proposing on a certificate of Timeouts files every vote under its level. */
  lemma ProposeOnTimeoutsKeepsFiled(c: Config, s: State, level: nat, qc: PrepareCertificate, value: string, env: Environment)
    requires Ready(c, s) && Filed(s)
    ensures Filed(ProposeOnTimeouts(c, s, level, qc, value, env).state)
  {
    if s.hasProposedBlock == Waiting {
      ProposeNewBlockFrame(c, s.(hasProposedBlock := PreparePhase), level, qc, value, env);
    }
  }

  /** Giving a level up at a quorum of Timeouts files every vote under its level. */
  lemma TimeoutQuorumKeepsFiled(c: Config, s: State, m: TimeoutMessage, env: Environment)
    requires Ready(c, s) && Filed(s)
    ensures Filed(TimeoutQuorumStep(c, s, m, env).state)
  {
    var signers := if m.level in s.timeoutsReceived then s.timeoutsReceived[m.level] else {};
    var s1 := s.(proposalsVoted := s.proposalsVoted[m.level := NilVote], proposalsLocked := s.proposalsLocked - {m.level});
    assert Filed(s1);
    ProposeOnTimeoutsKeepsFiled(c, s1, m.level + 1, Timeouts(QuorumCertificate(m, signers)), [env.letter], env);
  }

  /** `onTimeout` files every vote it makes under its level. */
  lemma OnTimeoutKeepsFiled(c: Config, s: State, m: TimeoutMessage, env: Environment)
    requires Ready(c, s) && Filed(s)
    ensures Filed(OnTimeoutStep(c, s, m, env).state)
  {
    TimeoutQuorumKeepsFiled(c, s.(timeoutsReceived := s.timeoutsReceived[m.level := TimeoutSigners(s, m)]), m, env);
  }

  /** `onVotePropose` files every vote it makes under its level. */
  lemma OnVoteProposeKeepsFiled(c: Config, s: State, m: VotePrepareMessage, env: Environment)
    requires Ready(c, s) && Filed(s)
    ensures Filed(OnVoteProposeStep(c, s, m, env).state)
  {
    var s1 := s.(votesReceived := s.votesReceived + {m.sender});
    ConfirmFrame(c, s1.(hasProposedBlock := Waiting), ConfirmOf(c, s1, m), env);
  }

  /**
   * Every state a replica reaches from its initial one files each real vote under the level of
   * its Prepare, so the properties above that assume it hold of every reachable state.
   */
  lemma HandlersKeepFiled(c: Config, s: State, message: AnyMessage, env: Environment)
    requires c.Valid()
    ensures Filed(InitialState(c))
    ensures Ready(c, s) && Filed(s) ==> Filed(ProcessSignalStep(c, s, message, env)) && Filed(TickStep(c, s))
    ensures Ready(c, s) && Filed(s) ==> Filed(KickoffStep(c, s, env).state)
  {
    if Ready(c, s) && Filed(s) {
      var vote := VoteConfirmMessage(c.selector.GetProposer(0), GenesisConfirm(c));
      StartRoundKeepsFiled(c, s.(votesReceived := AllSigners(c)), 1, ConfirmVotes(QuorumCertificate(vote, AllSigners(c))), "B", env);
    }
    if Ready(c, s) && Filed(s) && !c.byzantine {
      match message
      case Prepare(m) => ProposeFrame(c, s, m, env);
      case VotePrepare(m) => OnVoteProposeKeepsFiled(c, s, m, env);
      case VoteConfirm(m) => OnVoteConfirmKeepsFiled(c, s, m, env);
      case Confirm(m) => ConfirmFrame(c, s, m, env);
      case Commit(m) => OnCommitKeepsFiled(c, s, m, env);
      case Timeout(m) => OnTimeoutKeepsFiled(c, s, m, env);
    }
  }
}
