/**
 * src/world.ts: the round-robin proposer selector, the signal envelope with its clamped
 * arrival countdown, and the orchestrator that runs one bandwidth-limited delivery pass per tick.
 */
module World {
  import opened Messages

  /** `RoundRobinProposerSelectorLogic`: the leader of a level is `allPeers[level mod N]`. */
  datatype RoundRobin = RoundRobin(allPeers: seq<PeerId>)
  {
    /** The selector is only used with a non-empty committee. */
    predicate Valid()
    {
      |allPeers| > 0
    }

    /** `getProposer(level)`. */
    function GetProposer(level: nat): (p: PeerId)
      requires Valid()
      ensures p in allPeers
    {
      allPeers[level % |allPeers|]
    }

    /** `isProposer(level, peer)`. */
    predicate IsProposer(level: nat, peer: PeerId)
      requires Valid()
    {
      allPeers[level % |allPeers|] == peer
    }

    /** `getAllPeers(level)`: the whole committee, whatever the level. */
    function GetAllPeers(level: nat): seq<PeerId>
    {
      allPeers
    }
  }

  /** `isProposer` agrees with `getProposer`. */
  lemma IsProposerIffGetProposer(r: RoundRobin, level: nat, peer: PeerId)
    requires r.Valid()
    ensures r.IsProposer(level, peer) <==> r.GetProposer(level) == peer
  {
  }

  /** The schedule repeats with the committee size as period, and the committee does not depend on the level. */
  lemma {:induction false} ProposerIsPeriodic(r: RoundRobin, level: nat, other: nat)
    requires r.Valid()
    ensures r.GetProposer(level + |r.allPeers|) == r.GetProposer(level)
    ensures r.GetAllPeers(level) == r.GetAllPeers(other)
  {
    var n := |r.allPeers|;
    DivMod(level, n);
    ModUnique(level + n, n, level / n + 1, level % n);
  }

  /** The first N levels give each committee position its turn in order. */
  lemma FirstRoundInOrder(r: RoundRobin, i: nat)
    requires r.Valid() && i < |r.allPeers|
    ensures r.GetProposer(i) == r.allPeers[i]
  {
  }

  /** With distinct peers and two or more of them, consecutive levels have different leaders. */
  lemma {:induction false} ConsecutiveLeadersDiffer(r: RoundRobin, level: nat)
    requires |r.allPeers| > 1
    requires forall i, j :: 0 <= i < j < |r.allPeers| ==> r.allPeers[i] != r.allPeers[j]
    ensures r.GetProposer(level) != r.GetProposer(level + 1)
  {
    var n := |r.allPeers|;
    var k := level % n;
    DivMod(level, n);
    if k + 1 < n {
      ModUnique(level + 1, n, level / n, k + 1);
    } else {
      ModUnique(level + 1, n, level / n + 1, 0);
    }
  }

  /** Euclidean division rebuilds its dividend. */
  lemma DivMod(a: nat, n: nat)
    requires n > 0
    ensures a == (a / n) * n + a % n && a % n < n
  {
  }

  /** Euclidean division is unique: a quotient and remainder that rebuild `a` are `a / n` and `a % n`. */
  lemma {:induction false} ModUnique(a: nat, n: nat, q: nat, r: nat)
    requires n > 0 && r < n && a == q * n + r
    ensures a % n == r
  {
    DivMod(a, n);
    var q', r' := a / n, a % n;
    if q' < q {
      Distribute(q', q - q', n);
    } else if q' > q {
      Distribute(q, q' - q, n);
    }
  }

  /** `(x + d) * n` splits into `x * n + d * n`, and a positive `d` contributes at least `n`. */
  lemma Distribute(x: nat, d: nat, n: nat)
    ensures (x + d) * n == x * n + d * n
    ensures d >= 1 ==> d * n >= n
  {
  }

  /**
   * `setArrivalTime`: the sampled delay clamped from below by one tick and from above by
   * twenty mean delays. The exponential sample itself is a parameter.
   */
  function ArrivalTime(meanDuration: real, sample: real): (t: real)
    ensures 20.0 * meanDuration >= 1.0 ==> 1.0 <= t <= 20.0 * meanDuration
    ensures 1.0 <= sample <= 20.0 * meanDuration ==> t == sample
    ensures t <= 20.0 * meanDuration
  {
    var atLeastOne := if 1.0 < sample then sample else 1.0;
    if 20.0 * meanDuration < atLeastOne then 20.0 * meanDuration else atLeastOne
  }

  /** A message in flight from one peer to another, with its remaining countdown. */
  datatype Signal<M> = Signal(from: PeerId, to: PeerId, message: M, timeToArrival: real)

  /** A served signal's countdown goes down by one tick. */
  function Decremented<M>(s: Signal<M>): Signal<M>
  {
    s.(timeToArrival := s.timeToArrival - 1.0)
  }

  /** Snapshot index `i` makes progress this tick: only indices 0 to `maxBandwidth` do. */
  predicate Served(i: nat, maxBandwidth: nat)
  {
    i <= maxBandwidth
  }

  /** The signal at snapshot index `i` is delivered: it is served and its decremented countdown is not positive. */
  predicate Arrives<M>(i: nat, s: Signal<M>, maxBandwidth: nat)
  {
    Served(i, maxBandwidth) && s.timeToArrival - 1.0 <= 0.0
  }

  /** The signals one pass over `snapshot` hands to their destinations, in snapshot order. */
  function Delivered<M>(snapshot: seq<Signal<M>>, maxBandwidth: nat): seq<Signal<M>>
    decreases |snapshot|
  {
    if snapshot == [] then []
    else
      var n := |snapshot| - 1;
      Delivered(snapshot[..n], maxBandwidth)
        + (if Arrives(n, snapshot[n], maxBandwidth) then [Decremented(snapshot[n])] else [])
  }

  /** The signals one pass over `snapshot` puts back in flight, in snapshot order. */
  function Requeued<M>(snapshot: seq<Signal<M>>, maxBandwidth: nat): seq<Signal<M>>
    decreases |snapshot|
  {
    if snapshot == [] then []
    else
      var n := |snapshot| - 1;
      Requeued(snapshot[..n], maxBandwidth)
        + (if !Served(n, maxBandwidth) then [snapshot[n]]
           else if Arrives(n, snapshot[n], maxBandwidth) then []
           else [Decremented(snapshot[n])])
  }

  /** Conservation: every signal of the snapshot is either delivered or put back, exactly once. */
  lemma {:induction false} PassConservesSignals<M>(snapshot: seq<Signal<M>>, maxBandwidth: nat)
    ensures |Delivered(snapshot, maxBandwidth)| + |Requeued(snapshot, maxBandwidth)| == |snapshot|
    decreases |snapshot|
  {
    if snapshot != [] {
      PassConservesSignals(snapshot[..|snapshot| - 1], maxBandwidth);
    }
  }

  /** Signals beyond the cutoff are never delivered: the pass delivers what its first `maxBandwidth + 1` signals deliver. */
  lemma {:induction false} PrefixBeyondCutoffDeliversSame<M>(snapshot: seq<Signal<M>>, maxBandwidth: nat)
    requires |snapshot| > maxBandwidth + 1
    ensures Delivered(snapshot, maxBandwidth) == Delivered(snapshot[..maxBandwidth + 1], maxBandwidth)
    decreases |snapshot|
  {
    var n := |snapshot| - 1;
    if n > maxBandwidth + 1 {
      PrefixBeyondCutoffDeliversSame(snapshot[..n], maxBandwidth);
      assert snapshot[..n][..maxBandwidth + 1] == snapshot[..maxBandwidth + 1];
    } else {
      assert snapshot[..n] == snapshot[..maxBandwidth + 1];
    }
  }

  /** Bandwidth: at most `maxBandwidth + 1` signals, and no more than the snapshot holds, are delivered in one pass. */
  lemma {:induction false} PassDeliversAtMostBandwidth<M>(snapshot: seq<Signal<M>>, maxBandwidth: nat)
    ensures |Delivered(snapshot, maxBandwidth)| <= maxBandwidth + 1
    ensures |Delivered(snapshot, maxBandwidth)| <= |snapshot|
    decreases |snapshot|
  {
    if snapshot != [] {
      var n := |snapshot| - 1;
      PassDeliversAtMostBandwidth(snapshot[..n], maxBandwidth);
      if n > maxBandwidth {
        PrefixBeyondCutoffDeliversSame(snapshot, maxBandwidth);
        PassDeliversAtMostBandwidth(snapshot[..maxBandwidth + 1], maxBandwidth);
      }
    }
  }

  /** Cutoff: signals beyond the cutoff go back in flight unchanged and in their original order, after the served ones. */
  lemma {:induction false} PassRequeuesTailUnchanged<M>(snapshot: seq<Signal<M>>, maxBandwidth: nat)
    requires |snapshot| > maxBandwidth + 1
    ensures Requeued(snapshot, maxBandwidth)
         == Requeued(snapshot[..maxBandwidth + 1], maxBandwidth) + snapshot[maxBandwidth + 1..]
    decreases |snapshot|
  {
    var n := |snapshot| - 1;
    if n > maxBandwidth + 1 {
      PassRequeuesTailUnchanged(snapshot[..n], maxBandwidth);
      assert snapshot[..n][..maxBandwidth + 1] == snapshot[..maxBandwidth + 1];
      assert snapshot[..n][maxBandwidth + 1..] + [snapshot[n]] == snapshot[maxBandwidth + 1..];
    } else {
      assert snapshot[..n] == snapshot[..maxBandwidth + 1];
      assert snapshot[maxBandwidth + 1..] == [snapshot[n]];
    }
  }

  /**
   * Delivery rule: every delivered signal has a countdown that is not positive; when the whole
   * snapshot is within the cutoff, every signal put back has a positive one.
   */
  lemma {:induction false} PassDeliversOnlyArrived<M>(snapshot: seq<Signal<M>>, maxBandwidth: nat)
    ensures forall k :: 0 <= k < |Delivered(snapshot, maxBandwidth)| ==>
      Delivered(snapshot, maxBandwidth)[k].timeToArrival <= 0.0
    ensures |snapshot| <= maxBandwidth + 1 ==>
      forall k :: 0 <= k < |Requeued(snapshot, maxBandwidth)| ==> Requeued(snapshot, maxBandwidth)[k].timeToArrival > 0.0
    decreases |snapshot|
  {
    if snapshot != [] {
      PassDeliversOnlyArrived(snapshot[..|snapshot| - 1], maxBandwidth);
    }
  }

  /** One more signal at the end of the snapshot extends exactly one of the two outputs, by the delivery rule. */
  lemma PassStepsOneSignal<M>(snapshot: seq<Signal<M>>, s: Signal<M>, maxBandwidth: nat)
    ensures var n := |snapshot|;
      && Delivered(snapshot + [s], maxBandwidth)
         == Delivered(snapshot, maxBandwidth) + (if Arrives(n, s, maxBandwidth) then [Decremented(s)] else [])
      && Requeued(snapshot + [s], maxBandwidth)
         == Requeued(snapshot, maxBandwidth)
            + (if !Served(n, maxBandwidth) then [s] else if Arrives(n, s, maxBandwidth) then [] else [Decremented(s)])
  {
    assert (snapshot + [s])[..|snapshot|] == snapshot;
  }

  /**
   * `Orchestrator`: the in-flight signals, the simulated clock and the per-tick in-flight count.
   * Delivering a signal is handing it to its destination's handler; the model returns the
   * delivered signals in order instead of calling the handlers during the pass.
   */
  class Orchestrator<M> {
    var signals: seq<Signal<M>>
    const DELTA: real
    const DROP_RATE: real
    const MAX_BANDWIDTH: nat
    var time: int
    var liveSignalsStats: map<int, nat>

    constructor (delta: real := 5.0, maxBandwidth: nat := 20, dropRate: real := 0.1)
      ensures signals == [] && time == 0 && liveSignalsStats == map[]
      ensures DELTA == delta && MAX_BANDWIDTH == maxBandwidth && DROP_RATE == dropRate
    {
      signals := [];
      DELTA := delta;
      MAX_BANDWIDTH := maxBandwidth;
      DROP_RATE := dropRate;
      time := 0;
      liveSignalsStats := map[];
    }

    /** `addSignal`: schedule a signal with the clamped sampled delay and append it. */
    method AddSignal(from: PeerId, to: PeerId, message: M, sample: real)
      modifies this
      ensures signals == old(signals) + [Signal(from, to, message, ArrivalTime(DELTA, sample))]
      ensures time == old(time) && liveSignalsStats == old(liveSignalsStats)
    {
      var signal := Signal(from, to, message, ArrivalTime(DELTA, sample));
      signals := signals + [signal];
    }

    /** `tick`: advance the clock, record the in-flight count, then run the delivery pass. */
    method Tick() returns (delivered: seq<Signal<M>>)
      modifies this
      ensures time == old(time) + 1
      ensures liveSignalsStats == old(liveSignalsStats)[time := |old(signals)|]
      ensures delivered == Delivered(old(signals), MAX_BANDWIDTH)
      ensures signals == Requeued(old(signals), MAX_BANDWIDTH)
      ensures |delivered| + |signals| == |old(signals)|
    {
      time := time + 1;
      liveSignalsStats := liveSignalsStats[time := |signals|];
      delivered := ProcessSignals();
    }

    /** `processSignals`: one pass over a snapshot of the in-flight signals. */
    method ProcessSignals() returns (delivered: seq<Signal<M>>)
      modifies this
      ensures delivered == Delivered(old(signals), MAX_BANDWIDTH)
      ensures signals == Requeued(old(signals), MAX_BANDWIDTH)
      ensures |delivered| + |signals| == |old(signals)|
      ensures time == old(time) && liveSignalsStats == old(liveSignalsStats)
    {
      var snapshot := signals;
      signals := [];
      // The shuffle guard tests the array that was just emptied, so the shuffle never runs.
      assert !(|signals| > MAX_BANDWIDTH);
      delivered := [];
      var i := 0;
      while i < |snapshot|
        invariant 0 <= i <= |snapshot|
        invariant delivered == Delivered(snapshot[..i], MAX_BANDWIDTH)
        invariant signals == Requeued(snapshot[..i], MAX_BANDWIDTH)
        invariant time == old(time) && liveSignalsStats == old(liveSignalsStats)
      {
        PassStepsOneSignal(snapshot[..i], snapshot[i], MAX_BANDWIDTH);
        assert snapshot[..i] + [snapshot[i]] == snapshot[..i + 1];
        var signal := snapshot[i];
        if i > MAX_BANDWIDTH {
          signals := signals + [signal];
        } else {
          signal := signal.(timeToArrival := signal.timeToArrival - 1.0);
          if signal.timeToArrival > 0.0 {
            signals := signals + [signal];
          } else {
            delivered := delivered + [signal];
          }
        }
        i := i + 1;
      }
      assert snapshot[..i] == snapshot;
      PassConservesSignals(snapshot, MAX_BANDWIDTH);
    }
  }
}
