/**
 * The older certificate of src/commitCertif.ts: a level, the certified block and the set of
 * signing peers, checked against the committee size with the 2f+1-of-3f+1 threshold.
 */
module CommitCertif {
  import opened Options
  import opened Data
  import opened Messages

  /** `new FakeCommitCertificate(level, data, peers)`. */
  datatype FakeCommitCertificate = FakeCommitCertificate(level: int, data: Block, peers: set<PeerId>)
  {
    /** `getLevel()`. */
    function GetLevel(): int
    {
      level
    }

    /** `checkCertificate(totalPeers)`: more than two thirds of the committee signed (floor division). */
    predicate CheckCertificate(totalPeers: nat)
    {
      |peers| > (2 * totalPeers) / 3
    }

    /** `isCertificateOf(data)`: the certified block is the same as `other`. */
    predicate IsCertificateOf(other: Option<Block>)
    {
      data.IsSame(other)
    }
  }

  /** The smallest passing number of signers for a committee of `totalPeers`. */
  function MinimumSigners(totalPeers: nat): nat
  {
    (2 * totalPeers) / 3 + 1
  }

  /** The certificate passes exactly when it has at least `MinimumSigners` signers. */
  lemma CheckCertificateIffMinimum(c: FakeCommitCertificate, totalPeers: nat)
    ensures c.CheckCertificate(totalPeers) <==> |c.peers| >= MinimumSigners(totalPeers)
  {
  }

  /** Adding signers never turns a passing certificate into a failing one. */
  lemma {:induction false} CheckCertificateMonotone(c: FakeCommitCertificate, more: set<PeerId>, totalPeers: nat)
    requires c.CheckCertificate(totalPeers)
    ensures c.(peers := c.peers + more).CheckCertificate(totalPeers)
  {
    assert c.peers <= c.peers + more;
    SubsetCardinality(c.peers, c.peers + more);
  }

  /** The cardinality of a subset is at most that of the superset. */
  lemma {:induction false} SubsetCardinality<T>(a: set<T>, b: set<T>)
    requires a <= b
    ensures |a| <= |b|
  {
    if a != {} {
      var x :| x in a;
      SubsetCardinality(a - {x}, b - {x});
    }
  }

  /** For a committee of 3f+1 peers, 2f+1 signers pass and 2f do not. */
  lemma ByzantineQuorum(f: nat, c: FakeCommitCertificate)
    ensures MinimumSigners(3 * f + 1) == 2 * f + 1
    ensures c.CheckCertificate(3 * f + 1) <==> |c.peers| >= 2 * f + 1
  {
  }

  /** `getLevel` returns the level the certificate was built with. */
  lemma GetLevelIsConstructorLevel(level: int, data: Block, peers: set<PeerId>)
    ensures FakeCommitCertificate(level, data, peers).GetLevel() == level
  {
  }

  /** `isCertificateOf(d)` holds exactly when the certified block's digest is `d`'s digest. */
  lemma IsCertificateOfIffSameDigest(c: FakeCommitCertificate, d: Block)
    ensures c.IsCertificateOf(Some(d)) <==> c.data.digest == d.digest
    ensures !c.IsCertificateOf(None)
  {
  }
}
