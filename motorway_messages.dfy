/**
 * The message classes and the quorum certificate of src/MotorwayBftReplica.ts.
 * Every class extends the `Message` base: it has a sender and a fixed type tag (its class's
 * constant below), which `Header()` exposes as a base `Message`, and the fields its own class
 * declares. The certificate a Prepare carries is either over VoteConfirm votes or over Timeouts.
 */
module MotorwayMessages {
  import opened Options
  import opened Data
  import opened Messages

  /** The tags the six message classes give themselves. */
  const PrepareType: string := "prepare"
  const VotePrepareType: string := "voteprepare"
  const ConfirmType: string := "confirm"
  const VoteConfirmType: string := "voteconfirm"
  const CommitType: string := "commit"
  const TimeoutType: string := "timeout"

  /**
   * `QuorumCertificate<T>`: the certified message and the set of signers (a stand-in for
   * signatures). The source may share the signer `Set` object with the accumulator it was
   * built from; here it is a value.
   */
  datatype QuorumCertificate<T> = QuorumCertificate(signedMessage: T, signatures: set<PeerId>)
  {
    /** `checkCertificate(totalPeers)`: strictly more than floor(2N/3) signers. */
    predicate CheckCertificate(totalPeers: nat)
    {
      |signatures| > (2 * totalPeers) / 3
    }

    /** `checkMessageMatches(message)`: the certified message's own `isSame` against `message`. */
    predicate CheckMessageMatches(message: T, isSame: (T, T) -> bool)
    {
      isSame(signedMessage, message)
    }
  }

  /** The justification of a Prepare: a VoteConfirm certificate or a Timeout certificate. */
  datatype PrepareCertificate =
    | ConfirmVotes(votes: QuorumCertificate<VoteConfirmMessage>)
    | Timeouts(timeouts: QuorumCertificate<TimeoutMessage>)
  {
    /** `qc.checkCertificate(totalPeers)`, whichever kind of certificate it is. */
    predicate CheckCertificate(totalPeers: nat)
    {
      match this
      case ConfirmVotes(q) => q.CheckCertificate(totalPeers)
      case Timeouts(q) => q.CheckCertificate(totalPeers)
    }
  }

  /** `PrepareMessage`: a proposed block at a level and its justification (missing only for genesis). */
  datatype PrepareMessage = PrepareMessage(sender: PeerId, data: Block, level: nat, qc: Option<PrepareCertificate>)
  {
    function Header(): Message<()> { MakeMessage(PrepareType, sender, ()) }

    /** `isSame`: the same block (by digest) at the same level. */
    predicate IsSame(other: PrepareMessage)
    {
      data.IsSame(Some(other.data)) && level == other.level
    }
  }

  /** `VotePrepareMessage`: the Prepare being voted for. */
  datatype VotePrepareMessage = VotePrepareMessage(sender: PeerId, msg: PrepareMessage)
  {
    function Header(): Message<()> { MakeMessage(VotePrepareType, sender, ()) }

    /** `isSame`: votes for the same Prepare. */
    predicate IsSame(other: VotePrepareMessage)
    {
      msg.IsSame(other.msg)
    }
  }

  /** `ConfirmMessage`: the Prepare and the certificate over the votes for it. */
  datatype ConfirmMessage = ConfirmMessage(sender: PeerId, prepare: PrepareMessage,
                                           qc: Option<QuorumCertificate<VotePrepareMessage>>)
  {
    function Header(): Message<()> { MakeMessage(ConfirmType, sender, ()) }

    /** The class declares no `isSame`, so it inherits the base class's tag comparison. */
    predicate IsSame(other: ConfirmMessage)
    {
      DefaultIsSame(Header(), other.Header())
    }
  }

  /** `VoteConfirmMessage`: the Confirm being voted for. */
  datatype VoteConfirmMessage = VoteConfirmMessage(sender: PeerId, msg: ConfirmMessage)
  {
    function Header(): Message<()> { MakeMessage(VoteConfirmType, sender, ()) }

    /** `isSame`: votes over Confirms of the same Prepare. */
    predicate IsSame(other: VoteConfirmMessage)
    {
      msg.prepare.IsSame(other.msg.prepare)
    }
  }

  /** `CommitMessage`: a level and the certificate over the VoteConfirm votes for it. */
  datatype CommitMessage = CommitMessage(sender: PeerId, level: nat, qc: Option<QuorumCertificate<VoteConfirmMessage>>)
  {
    function Header(): Message<()> { MakeMessage(CommitType, sender, ()) }

    /** The class declares no `isSame`, so it inherits the base class's tag comparison. */
    predicate IsSame(other: CommitMessage)
    {
      DefaultIsSame(Header(), other.Header())
    }
  }

  /** `TimeoutMessage`: a level; its certificate field is declared but never filled in. */
  datatype TimeoutMessage = TimeoutMessage(sender: PeerId, level: nat, qc: Option<QuorumCertificate<VotePrepareMessage>>)
  {
    function Header(): Message<()> { MakeMessage(TimeoutType, sender, ()) }

    /** `isSame`: timeouts for the same level. */
    predicate IsSame(other: TimeoutMessage)
    {
      level == other.level
    }
  }

  /** A message of any of the six classes, as `processSignal` receives it. */
  datatype AnyMessage =
    | Prepare(prepare: PrepareMessage)
    | VotePrepare(votePrepare: VotePrepareMessage)
    | Confirm(confirm: ConfirmMessage)
    | VoteConfirm(voteConfirm: VoteConfirmMessage)
    | Commit(commit: CommitMessage)
    | Timeout(timeout: TimeoutMessage)
  {
    /** The base-class view of the message: its tag and its sender. */
    function Header(): (h: Message<()>)
      ensures h.typ in {PrepareType, VotePrepareType, ConfirmType, VoteConfirmType, CommitType, TimeoutType}
    {
      match this
      case Prepare(m) => m.Header()
      case VotePrepare(m) => m.Header()
      case Confirm(m) => m.Header()
      case VoteConfirm(m) => m.Header()
      case Commit(m) => m.Header()
      case Timeout(m) => m.Header()
    }
  }

  /** An outgoing signal as a replica emits it: sender, receiver and message. */
  datatype Outgoing = Outgoing(from: PeerId, to: PeerId, message: AnyMessage)

  /** The accumulator threshold `floor(2N/3) + 1` that the replica compares signer counts against. */
  function Quorum(totalPeers: nat): nat
  {
    (2 * totalPeers) / 3 + 1
  }

  /** The accumulator test and `checkCertificate` are the same integer condition, so a certificate built at quorum passes. */
  lemma QuorumIffCertificate<T>(m: T, signers: set<PeerId>, totalPeers: nat)
    ensures |signers| >= Quorum(totalPeers) <==> QuorumCertificate(m, signers).CheckCertificate(totalPeers)
    ensures QuorumCertificate(m, signers).CheckCertificate(totalPeers) <==> 3 * |signers| > 2 * totalPeers
  {
  }

  /**
   * Every message records its sender and its class's tag in its base-class view; distinct
   * classes have distinct tags, and none has the base class's empty tag.
   */
  lemma HeaderIsMadeByItsClass(a: AnyMessage, b: AnyMessage)
    ensures a.Header().typ != DefaultType
    ensures a.Prepare? ==> a.Header() == MakeMessage(PrepareType, a.prepare.sender, ())
    ensures a.Confirm? ==> a.Header() == MakeMessage(ConfirmType, a.confirm.sender, ())
    ensures a.Commit? ==> a.Header() == MakeMessage(CommitType, a.commit.sender, ())
    ensures DefaultIsSame(a.Header(), b.Header()) <==> a.Header().typ == b.Header().typ
    ensures DefaultIsSame(a.Header(), b.Header()) <==>
      (a.Prepare? && b.Prepare?) || (a.VotePrepare? && b.VotePrepare?) || (a.Confirm? && b.Confirm?) ||
      (a.VoteConfirm? && b.VoteConfirm?) || (a.Commit? && b.Commit?) || (a.Timeout? && b.Timeout?)
  {
  }

  /** Prepares are the same exactly when block digests and levels agree; it is an equivalence. */
  lemma PrepareIsSameIsEquivalence(a: PrepareMessage, b: PrepareMessage, c: PrepareMessage)
    ensures a.IsSame(b) <==> a.data.digest == b.data.digest && a.level == b.level
    ensures a.IsSame(a)
    ensures a.IsSame(b) ==> b.IsSame(a)
    ensures a.IsSame(b) && b.IsSame(c) ==> a.IsSame(c)
  {
  }

  /** Every two Confirms, and every two Commits, are the same: the inherited `isSame` only compares tags. */
  lemma InheritedIsSameIgnoresContent(a: ConfirmMessage, b: ConfirmMessage, x: CommitMessage, y: CommitMessage)
    ensures a.IsSame(b)
    ensures x.IsSame(y)
  {
  }

  /** VotePrepares, and VoteConfirms, are the same exactly when the Prepares under them are. */
  lemma VotesCompareTheirPrepares(a: VotePrepareMessage, b: VotePrepareMessage, x: VoteConfirmMessage, y: VoteConfirmMessage)
    ensures a.IsSame(b) <==> a.msg.data.digest == b.msg.data.digest && a.msg.level == b.msg.level
    ensures x.IsSame(y) <==> x.msg.prepare.data.digest == y.msg.prepare.data.digest && x.msg.prepare.level == y.msg.prepare.level
    ensures a.sender != b.sender && a.msg == b.msg ==> a.IsSame(b)
  {
  }

  /** A VoteConfirm certificate matches a vote exactly when both confirm the same Prepare. */
  lemma VoteConfirmMatchIsPrepareMatch(qc: QuorumCertificate<VoteConfirmMessage>, v: VoteConfirmMessage)
    ensures qc.CheckMessageMatches(v, (a: VoteConfirmMessage, b: VoteConfirmMessage) => a.IsSame(b))
        <==> qc.signedMessage.msg.prepare.IsSame(v.msg.prepare)
  {
  }

  /** Timeouts for one level are the same whoever sent them. */
  lemma TimeoutIsSameIsLevel(a: TimeoutMessage, b: TimeoutMessage)
    ensures a.IsSame(b) <==> a.level == b.level
    ensures a.level == b.level && a.sender != b.sender ==> a.IsSame(b)
  {
  }
}
