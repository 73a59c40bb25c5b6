/** Values shared by both versions of the statistics tracker: the feed's
    payload shapes, the {sum, count} accumulator with its integer mean, the
    per-node rolling statistics and the history sample written at a flush. */
module Telemetry {

  datatype Option<+T> = None | Some(value: T)

  /** Details the feed gives about a node when it is added. */
  datatype NodeDetails = NodeDetails(
    nodeName: string,
    nodeImplementation: string,
    nodeVersion: string,
    address: Option<string>,
    networkId: Option<string>)

  /** The feed's `NodeStats` tuple: the two latest-value gauges. */
  datatype NodeGauges = NodeGauges(peerCount: nat, transactionsInQueue: nat)

  /** The feed's `BlockDetails` tuple; an absent propagation time is `None`. */
  datatype BlockDetails = BlockDetails(
    blockNumber: nat,
    blockHash: string,
    milliseconds: nat,
    timestamp: nat,
    propagationTime: Option<nat>)

  datatype NodeLocation = NodeLocation(lat: real, lng: real, city: string)

  /** Payload of an AddedNode message (the I/O and hardware parts are not used). */
  datatype AddedNodePayload = AddedNodePayload(
    id: int,
    details: NodeDetails,
    gauges: NodeGauges,
    block: BlockDetails,
    location: Option<NodeLocation>,
    startupTime: Option<nat>)

  // ---------------------------------------------------------------------
  // Accumulator: an arbitrary-precision {sum, count} pair

  datatype Accumulator = Accumulator(sum: nat, count: nat)

  const Zero := Accumulator(0, 0)

  function Add(a: Accumulator, x: nat): Accumulator {
    Accumulator(a.sum + x, a.count + 1)
  }

  function Sum(xs: seq<nat>): nat {
    if xs == [] then 0 else Sum(xs[..|xs| - 1]) + xs[|xs| - 1]
  }

  /** The accumulator after the samples `xs` were added to `a`, in order. */
  function AddAll(a: Accumulator, xs: seq<nat>): Accumulator {
    if xs == [] then a else Add(AddAll(a, xs[..|xs| - 1]), xs[|xs| - 1])
  }

  /** Adding samples one at a time gives their exact total and their number. */
  lemma {:induction false} AddAllTotals(a: Accumulator, xs: seq<nat>)
    ensures AddAll(a, xs) == Accumulator(a.sum + Sum(xs), a.count + |xs|)
  {
    if xs != [] {
      AddAllTotals(a, xs[..|xs| - 1]);
    }
  }

  /** Accumulating two consecutive runs of samples is accumulating their concatenation. */
  lemma {:induction false} AddAllAppend(a: Accumulator, xs: seq<nat>, ys: seq<nat>)
    ensures AddAll(AddAll(a, xs), ys) == AddAll(a, xs + ys)
  {
    if ys == [] {
      assert xs + ys == xs;
    } else {
      assert (xs + ys)[..|xs + ys| - 1] == xs + ys[..|ys| - 1];
      AddAllAppend(a, xs, ys[..|ys| - 1]);
    }
  }

  /** calcAvgFromStats: no mean without samples, otherwise the sum divided by
      the count, truncated (BN's `divn` on a non-negative sum). */
  function Mean(a: Accumulator): (r: Option<nat>)
    ensures r.None? <==> a.count == 0
    ensures r.Some? ==> r.value * a.count <= a.sum < (r.value + 1) * a.count
  {
    if a.count == 0 then None else Some(a.sum / a.count)
  }

  // ---------------------------------------------------------------------
  // Per-node rolling statistics (the fields both trackers keep)

  datatype Stats = Stats(
    blockTimes: Accumulator,
    propagationTimes: Accumulator,
    peerCount: nat,
    transactionsInQueue: nat,
    bestBlockNumber: nat,
    bestBlockHash: string)

  /** The entry created on AddedNode: one block-time sample, and one
      propagation sample only when the propagation time is truthy (so a
      propagation time of 0 counts as absent here). */
  function Initial(g: NodeGauges, b: BlockDetails): (r: Stats)
    ensures r.blockTimes == Accumulator(b.milliseconds, 1)
    ensures r.propagationTimes ==
      (if b.propagationTime.Some? && b.propagationTime.value != 0
       then Accumulator(b.propagationTime.value, 1) else Zero)
    ensures r.peerCount == g.peerCount && r.transactionsInQueue == g.transactionsInQueue
    ensures r.bestBlockNumber == b.blockNumber && r.bestBlockHash == b.blockHash
  {
    Stats(
      Accumulator(b.milliseconds, 1),
      match b.propagationTime
      case Some(p) => if p != 0 then Accumulator(p, 1) else Zero
      case None => Zero,
      g.peerCount, g.transactionsInQueue, b.blockNumber, b.blockHash)
  }

  /** ImportedBlock on a known node: overwrite the best block, add the block
      time, and add the propagation time whenever it is a number (0 included). */
  function WithBlock(s: Stats, b: BlockDetails): (r: Stats)
    ensures r.blockTimes.count == s.blockTimes.count + 1
    ensures r.blockTimes.sum == s.blockTimes.sum + b.milliseconds
    ensures b.propagationTime.Some? ==>
      r.propagationTimes.count == s.propagationTimes.count + 1 &&
      r.propagationTimes.sum == s.propagationTimes.sum + b.propagationTime.value
    ensures b.propagationTime.None? ==> r.propagationTimes == s.propagationTimes
    ensures r.bestBlockNumber == b.blockNumber && r.bestBlockHash == b.blockHash
    ensures r.peerCount == s.peerCount && r.transactionsInQueue == s.transactionsInQueue
  {
    s.(bestBlockNumber := b.blockNumber,
       bestBlockHash := b.blockHash,
       blockTimes := Add(s.blockTimes, b.milliseconds),
       propagationTimes :=
         if b.propagationTime.Some? then Add(s.propagationTimes, b.propagationTime.value)
         else s.propagationTimes)
  }

  /** A propagation time of 0 is a sample when a block is imported but not
      when it arrives with the node's announcement. */
  lemma ZeroPropagationAsymmetry(g: NodeGauges, b: BlockDetails)
    requires b.propagationTime == Some(0)
    ensures Initial(g, b).propagationTimes.count == 0
    ensures WithBlock(Initial(g, b), b).propagationTimes.count == 1
  {
  }

  /** NodeStats on a known node: the two gauges are overwritten, not accumulated. */
  function WithGauges(s: Stats, g: NodeGauges): (r: Stats)
    ensures r.peerCount == g.peerCount && r.transactionsInQueue == g.transactionsInQueue
    ensures r.blockTimes == s.blockTimes && r.propagationTimes == s.propagationTimes
    ensures r.bestBlockNumber == s.bestBlockNumber && r.bestBlockHash == s.bestBlockHash
  {
    s.(transactionsInQueue := g.transactionsInQueue, peerCount := g.peerCount)
  }

  /** The flush's reset: both accumulators become {0, 0}, the gauges and the best block stay. */
  function Reset(s: Stats): (r: Stats)
    ensures r.blockTimes == Zero && r.propagationTimes == Zero
    ensures r.(blockTimes := s.blockTimes, propagationTimes := s.propagationTimes) == s
  {
    s.(blockTimes := Zero, propagationTimes := Zero)
  }

  /** The statistics after the blocks `bs` were imported, in order. */
  function WithBlocks(s: Stats, bs: seq<BlockDetails>): Stats {
    if bs == [] then s else WithBlock(WithBlocks(s, bs[..|bs| - 1]), bs[|bs| - 1])
  }

  function BlockTimes(bs: seq<BlockDetails>): seq<nat> {
    seq(|bs|, i requires 0 <= i < |bs| => bs[i].milliseconds)
  }

  /** The propagation times that are present, in import order. */
  function PropagationTimes(bs: seq<BlockDetails>): seq<nat> {
    if bs == [] then [] else PropagationTimes(bs[..|bs| - 1]) + PresentTime(bs[|bs| - 1].propagationTime)
  }

  function PresentTime(t: Option<nat>): seq<nat> {
    match t
    case Some(p) => [p]
    case None => []
  }

  /** The accumulators after a run of block imports hold exactly those
      imports' samples on top of what they held before; the gauges do not
      move, and the best block is the last one imported. */
  lemma {:induction false} WithBlocksAccumulates(s: Stats, bs: seq<BlockDetails>)
    ensures WithBlocks(s, bs).blockTimes == AddAll(s.blockTimes, BlockTimes(bs))
    ensures WithBlocks(s, bs).propagationTimes == AddAll(s.propagationTimes, PropagationTimes(bs))
    ensures WithBlocks(s, bs).peerCount == s.peerCount
    ensures WithBlocks(s, bs).transactionsInQueue == s.transactionsInQueue
    ensures bs != [] ==> WithBlocks(s, bs).bestBlockNumber == bs[|bs| - 1].blockNumber
    ensures bs != [] ==> WithBlocks(s, bs).bestBlockHash == bs[|bs| - 1].blockHash
  {
    if bs != [] {
      var init := bs[..|bs| - 1];
      WithBlocksAccumulates(s, init);
      assert BlockTimes(bs) == BlockTimes(init) + [bs[|bs| - 1].milliseconds];
      assert BlockTimes(bs)[..|BlockTimes(bs)| - 1] == BlockTimes(init);
      match bs[|bs| - 1].propagationTime
      case Some(p) =>
        var ps := PropagationTimes(bs);
        assert ps == PropagationTimes(init) + [p];
        assert ps[..|ps| - 1] == PropagationTimes(init);
      case None =>
        assert PropagationTimes(bs) == PropagationTimes(init);
    }
  }

  // ---------------------------------------------------------------------
  // History samples

  /** The measured part of a history entry. */
  datatype Sample = Sample(
    timestamp: int,
    avgBlockTime: Option<nat>,
    avgPropagationTime: Option<nat>,
    peerCount: nat,
    transactionsInQueue: nat,
    bestBlockNumber: nat,
    bestBlockHash: string,
    blocksProcessed: nat,
    uptime: Option<int>)

  /** The stored startup time: a falsy startup time (absent or 0) is not stored. */
  function StoredStartup(startupTime: Option<nat>): (r: Option<nat>)
    ensures r.Some? <==> startupTime.Some? && startupTime.value != 0
    ensures r.Some? ==> r == startupTime
  {
    match startupTime
    case Some(t) => if t != 0 then Some(t) else None
    case None => None
  }

  /** Uptime at `now`: null unless a (truthy) last startup time is known. */
  function Uptime(lastStartupTime: Option<nat>, now: int): (r: Option<int>)
    ensures r.Some? <==> lastStartupTime.Some? && lastStartupTime.value != 0
    ensures r.Some? ==> r.value + lastStartupTime.value == now
  {
    match lastStartupTime
    case Some(t) => if t != 0 then Some(now - t) else None
    case None => None
  }

  /** The sample a flush writes for statistics `s` read before the reset. */
  function SampleOf(s: Stats, timestamp: int, uptime: Option<int>): (r: Sample)
    ensures r.blocksProcessed == s.blockTimes.count
    ensures r.avgBlockTime == Mean(s.blockTimes) && r.avgPropagationTime == Mean(s.propagationTimes)
    ensures r.peerCount == s.peerCount && r.transactionsInQueue == s.transactionsInQueue
    ensures r.bestBlockNumber == s.bestBlockNumber && r.bestBlockHash == s.bestBlockHash
    ensures r.timestamp == timestamp && r.uptime == uptime
  {
    Sample(timestamp, Mean(s.blockTimes), Mean(s.propagationTimes), s.peerCount,
      s.transactionsInQueue, s.bestBlockNumber, s.bestBlockHash, s.blockTimes.count, uptime)
  }

  /** A sample taken right after a reset reports no blocks and no averages. */
  lemma SampleAfterReset(s: Stats, timestamp: int, uptime: Option<int>)
    ensures SampleOf(Reset(s), timestamp, uptime).blocksProcessed == 0
    ensures SampleOf(Reset(s), timestamp, uptime).avgBlockTime == None
    ensures SampleOf(Reset(s), timestamp, uptime).avgPropagationTime == None
  {
  }

  /** After a reset, the accumulators hold the samples of the later imports and nothing else. */
  lemma AccumulatedAfterReset(s: Stats, bs: seq<BlockDetails>)
    ensures WithBlocks(Reset(s), bs).blockTimes == Accumulator(Sum(BlockTimes(bs)), |bs|)
    ensures WithBlocks(Reset(s), bs).propagationTimes == Accumulator(Sum(PropagationTimes(bs)), |PropagationTimes(bs)|)
  {
    WithBlocksAccumulates(Reset(s), bs);
    AddAllTotals(Zero, BlockTimes(bs));
    AddAllTotals(Zero, PropagationTimes(bs));
  }

  /** A sample taken after a reset and the imports `bs` counts exactly those
      imports and averages exactly their block times: nothing from before the
      reset is merged into the next interval. */
  lemma IntervalSample(s: Stats, bs: seq<BlockDetails>, timestamp: int, uptime: Option<int>)
    ensures SampleOf(WithBlocks(Reset(s), bs), timestamp, uptime).blocksProcessed == |bs|
    ensures SampleOf(WithBlocks(Reset(s), bs), timestamp, uptime).avgBlockTime ==
      (if bs == [] then None else Some(Sum(BlockTimes(bs)) / |bs|))
    ensures SampleOf(WithBlocks(Reset(s), bs), timestamp, uptime).avgPropagationTime ==
      Mean(Accumulator(Sum(PropagationTimes(bs)), |PropagationTimes(bs)|))
  {
    AccumulatedAfterReset(s, bs);
  }
}
