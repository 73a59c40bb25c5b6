/** The lowdb version of the per-node statistics registry (`NodeStatsTracker`
    of src/trackingStats.ts). The in-memory `statsByNodeId` Map goes from the
    feed-assigned node id to rolling statistics; the JSON store holds one
    record per node id with that node's history appended in place. */
module LowdbTracker {
  import opened Telemetry

  /** A record of the store's `nodes` collection. */
  datatype StoredNode = StoredNode(
    id: int,
    nodeName: string,
    nodeImplementation: string,
    nodeVersion: string,
    location: Option<NodeLocation>,
    lastStartupTime: Option<nat>,
    history: seq<Sample>)

  /** The Map of statistics and the store's `nodes` collection. */
  datatype LowdbState = LowdbState(statsByNodeId: map<int, Stats>, nodes: seq<StoredNode>)

  /** `nodes.find(n => n.id === id)`: the position of the first record with that id. */
  function Find(nodes: seq<StoredNode>, id: int): (r: Option<nat>)
    ensures r.Some? ==> r.value < |nodes| && nodes[r.value].id == id
    ensures r.Some? ==> forall j :: 0 <= j < r.value ==> nodes[j].id != id
    ensures r.None? <==> forall j :: 0 <= j < |nodes| ==> nodes[j].id != id
  {
    if nodes == [] then None
    else if nodes[0].id == id then Some(0)
    else match Find(nodes[1..], id)
      case Some(i) => Some(i + 1)
      case None => None
  }

  /** Whether some record has that id. */
  predicate Stored(nodes: seq<StoredNode>, id: int) {
    Find(nodes, id).Some?
  }

  /** No two records share an id. */
  ghost predicate UniqueIds(nodes: seq<StoredNode>) {
    forall i, j :: 0 <= i < j < |nodes| ==> nodes[i].id != nodes[j].id
  }

  /** The invariant the registry keeps: a node has statistics only after
      handleNewNode stored its record (nothing removes either). */
  ghost predicate Consistent(s: LowdbState) {
    forall k :: k in s.statsByNodeId ==> Stored(s.nodes, k)
  }

  /** The record handleNewNode pushes for a node id the store does not hold yet. */
  function RecordOf(p: AddedNodePayload): (r: StoredNode)
    ensures r.id == p.id && r.history == [] && r.location == p.location
    ensures r.nodeName == p.details.nodeName && r.nodeImplementation == p.details.nodeImplementation
    ensures r.nodeVersion == p.details.nodeVersion
    ensures r.lastStartupTime == StoredStartup(p.startupTime)
  {
    StoredNode(p.id, p.details.nodeName, p.details.nodeImplementation, p.details.nodeVersion,
      p.location, StoredStartup(p.startupTime), [])
  }

  /** handleNewNode: push a record for a new id, or update only the name,
      the startup time and the location (which a payload without one clears)
      of the stored record; in both cases the Map entry gets fresh statistics. */
  function NewNode(s: LowdbState, p: AddedNodePayload): (r: LowdbState)
    ensures r.statsByNodeId == s.statsByNodeId[p.id := Initial(p.gauges, p.block)]
    ensures Find(s.nodes, p.id).None? ==> r.nodes == s.nodes + [RecordOf(p)]
    ensures Find(s.nodes, p.id).Some? ==>
      var i := Find(s.nodes, p.id).value;
      r.nodes == s.nodes[i := s.nodes[i].(nodeName := p.details.nodeName,
        lastStartupTime := StoredStartup(p.startupTime), location := p.location)]
  {
    var nodes := match Find(s.nodes, p.id)
      case None => s.nodes + [RecordOf(p)]
      case Some(i) => s.nodes[i := s.nodes[i].(nodeName := p.details.nodeName,
        lastStartupTime := StoredStartup(p.startupTime), location := p.location)];
    LowdbState(s.statsByNodeId[p.id := Initial(p.gauges, p.block)], nodes)
  }

  /** handleNewBlock: accumulate into a known entry; an unknown id changes nothing. */
  function NewBlock(s: LowdbState, id: int, b: BlockDetails): (r: LowdbState)
    ensures r.nodes == s.nodes
    ensures id !in s.statsByNodeId ==> r == s
    ensures id in s.statsByNodeId ==> r.statsByNodeId == s.statsByNodeId[id := WithBlock(s.statsByNodeId[id], b)]
  {
    if id in s.statsByNodeId then
      s.(statsByNodeId := s.statsByNodeId[id := WithBlock(s.statsByNodeId[id], b)])
    else s
  }

  /** handleUpdatedNodeStats: overwrite the two gauges of a known entry; an unknown id changes nothing. */
  function UpdatedNodeStats(s: LowdbState, id: int, g: NodeGauges): (r: LowdbState)
    ensures r.nodes == s.nodes
    ensures id !in s.statsByNodeId ==> r == s
    ensures id in s.statsByNodeId ==> r.statsByNodeId == s.statsByNodeId[id := WithGauges(s.statsByNodeId[id], g)]
  {
    if id in s.statsByNodeId then
      s.(statsByNodeId := s.statsByNodeId[id := WithGauges(s.statsByNodeId[id], g)])
    else s
  }

  /** handleUpdatedLocation: the stored record with that id gets the
      location; with no such record nothing changes (there is no retry). */
  function UpdatedLocation(s: LowdbState, id: int, loc: NodeLocation): (r: LowdbState)
    ensures r.statsByNodeId == s.statsByNodeId && |r.nodes| == |s.nodes|
    ensures Find(s.nodes, id).None? ==> r == s
    ensures Find(s.nodes, id).Some? ==>
      var i := Find(s.nodes, id).value;
      r.nodes[i] == s.nodes[i].(location := Some(loc)) &&
      forall j :: 0 <= j < |s.nodes| && j != i ==> r.nodes[j] == s.nodes[j]
  {
    match Find(s.nodes, id)
    case None => s
    case Some(i) => s.(nodes := s.nodes[i := s.nodes[i].(location := Some(loc))])
  }

  /** The body of saveSnaphot's `each` for the record at position `i`, with
      `now` the clock reading its uptime takes: when the record's id has an
      entry, the entry's accumulators are reset and a sample of the values
      read before the reset is pushed onto the record's history. */
  function VisitNode(s: LowdbState, i: nat, timestamp: int, now: int): (r: LowdbState)
    requires i < |s.nodes|
    ensures |r.nodes| == |s.nodes| && r.statsByNodeId.Keys == s.statsByNodeId.Keys
    ensures forall j :: 0 <= j < |s.nodes| ==> r.nodes[j].id == s.nodes[j].id
  {
    var n := s.nodes[i];
    if n.id in s.statsByNodeId then
      var stats := s.statsByNodeId[n.id];
      LowdbState(s.statsByNodeId[n.id := Reset(stats)],
        s.nodes[i := n.(history := n.history + [SampleOf(stats, timestamp, Uptime(n.lastStartupTime, now))])])
    else s
  }

  /** saveSnaphot after visiting the first `n` records; `clock[i]` is the
      uptime clock reading taken at record `i`. */
  function SnapshotPrefix(s: LowdbState, timestamp: int, clock: seq<int>, n: nat): (r: LowdbState)
    requires n <= |s.nodes| == |clock|
    ensures |r.nodes| == |s.nodes| && r.statsByNodeId.Keys == s.statsByNodeId.Keys
    ensures forall j :: 0 <= j < |s.nodes| ==> r.nodes[j].id == s.nodes[j].id
  {
    if n == 0 then s else VisitNode(SnapshotPrefix(s, timestamp, clock, n - 1), n - 1, timestamp, clock[n - 1])
  }

  /** saveSnaphot at clock reading `timestamp`: every record is visited in the store's order. */
  function Snapshot(s: LowdbState, timestamp: int, clock: seq<int>): (r: LowdbState)
    requires |s.nodes| == |clock|
    ensures |r.nodes| == |s.nodes| && r.statsByNodeId.Keys == s.statsByNodeId.Keys
  {
    SnapshotPrefix(s, timestamp, clock, |s.nodes|)
  }

  /** The sample saveSnaphot writes for the record at position `i`. It
      reads the Map as the earlier visits left it: the values from before
      the flush, unless an earlier record with the same id has already reset
      them. */
  function SampleFor(s: LowdbState, i: nat, timestamp: int, clock: seq<int>): (r: Sample)
    requires i < |s.nodes| == |clock| && s.nodes[i].id in s.statsByNodeId
    ensures var st := s.statsByNodeId[s.nodes[i].id];
      && r.timestamp == timestamp && r.uptime == Uptime(s.nodes[i].lastStartupTime, clock[i])
      && r.peerCount == st.peerCount && r.transactionsInQueue == st.transactionsInQueue
      && r.bestBlockNumber == st.bestBlockNumber && r.bestBlockHash == st.bestBlockHash
      && (!Stored(s.nodes[..i], s.nodes[i].id) ==>
            r.blocksProcessed == st.blockTimes.count &&
            r.avgBlockTime == Mean(st.blockTimes) && r.avgPropagationTime == Mean(st.propagationTimes))
      && (Stored(s.nodes[..i], s.nodes[i].id) ==>
            r.blocksProcessed == 0 && r.avgBlockTime.None? && r.avgPropagationTime.None?)
  {
    var st := s.statsByNodeId[s.nodes[i].id];
    var seen := if Stored(s.nodes[..i], s.nodes[i].id) then Reset(st) else st;
    SampleOf(seen, timestamp, Uptime(s.nodes[i].lastStartupTime, clock[i]))
  }

  // ---------------------------------------------------------------------
  // Properties

  lemma NewNodeKeepsInvariants(s: LowdbState, p: AddedNodePayload)
    requires Consistent(s)
    ensures Consistent(NewNode(s, p))
    ensures UniqueIds(s.nodes) ==> UniqueIds(NewNode(s, p).nodes)
  {
    var r := NewNode(s, p);
    forall k | k in r.statsByNodeId ensures Stored(r.nodes, k) {
      if k != p.id {
        var i := Find(s.nodes, k).value;
        assert r.nodes[i].id == k;
      } else if Find(s.nodes, p.id).None? {
        assert r.nodes[|s.nodes|].id == k;
      } else {
        assert r.nodes[Find(s.nodes, p.id).value].id == k;
      }
    }
  }

  /** Adding a node whose id the store already holds keeps one record per
      id: the store does not grow and the history is kept. */
  lemma ReAddKeepsRecord(s: LowdbState, p: AddedNodePayload)
    requires Stored(s.nodes, p.id)
    ensures var r := NewNode(s, p); var i := Find(s.nodes, p.id).value;
      |r.nodes| == |s.nodes| && r.nodes[i].history == s.nodes[i].history && r.nodes[i].id == p.id
  {
  }

  lemma UpdatedLocationKeepsInvariants(s: LowdbState, id: int, loc: NodeLocation)
    requires Consistent(s)
    ensures Consistent(UpdatedLocation(s, id, loc))
    ensures UniqueIds(s.nodes) ==> UniqueIds(UpdatedLocation(s, id, loc).nodes)
  {
    var r := UpdatedLocation(s, id, loc);
    forall k | k in r.statsByNodeId ensures Stored(r.nodes, k) {
      assert r.nodes[Find(s.nodes, k).value].id == k;
    }
  }

  /** What the first `n` visits have done to the records: each visited
      record whose id has an entry got one sample of that entry's values
      from before the flush; the other records are as they were. */
  ghost predicate NodesDone(s: LowdbState, r: LowdbState, timestamp: int, clock: seq<int>, n: nat)
    requires n <= |s.nodes| == |clock|
  {
    && |r.nodes| == |s.nodes|
    && (forall j :: 0 <= j < |s.nodes| ==>
          r.nodes[j] == if j < n && s.nodes[j].id in s.statsByNodeId
            then s.nodes[j].(history := s.nodes[j].history + [SampleFor(s, j, timestamp, clock)])
            else s.nodes[j])
  }

  /** What the first `n` visits have done to the Map: the entries of the
      visited ids are reset, the others are as they were. */
  ghost predicate StatsDone(s: LowdbState, r: LowdbState, n: nat)
    requires n <= |s.nodes|
  {
    && r.statsByNodeId.Keys == s.statsByNodeId.Keys
    && (forall k :: k in s.statsByNodeId ==>
          r.statsByNodeId[k] == if Stored(s.nodes[..n], k) then Reset(s.statsByNodeId[k]) else s.statsByNodeId[k])
  }

  lemma FindPrefixStep(nodes: seq<StoredNode>, n: nat, k: int)
    requires n < |nodes|
    ensures Stored(nodes[..n + 1], k) <==> Stored(nodes[..n], k) || nodes[n].id == k
  {
    var a := nodes[..n];
    var b := nodes[..n + 1];
    if Find(b, k).Some? && nodes[n].id != k {
      var i := Find(b, k).value;
      assert a[i] == b[i];
    }
    if Find(a, k).Some? {
      var i := Find(a, k).value;
      assert a[i] == b[i];
    }
    if nodes[n].id == k {
      assert b[n] == nodes[n];
    }
  }

  /** With unique ids, the record at position `n` is the first of its id,
      so its entry has not been reset by the earlier visits. */
  lemma NotVisitedBefore(nodes: seq<StoredNode>, n: nat)
    requires n < |nodes| && UniqueIds(nodes)
    ensures !Stored(nodes[..n], nodes[n].id)
  {
    var pre := nodes[..n];
    forall j | 0 <= j < n ensures pre[j].id != nodes[n].id {
      assert pre[j] == nodes[j];
    }
  }

  /** Visit `n` (the record at position `n - 1`) extends StatsDone to the first `n` records. */
  lemma StatsStep(s: LowdbState, before: LowdbState, timestamp: int, clock: seq<int>, n: nat)
    requires 0 < n <= |s.nodes| == |clock|
    requires |before.nodes| == |s.nodes| && before.nodes[n - 1] == s.nodes[n - 1]
    requires StatsDone(s, before, n - 1)
    ensures StatsDone(s, VisitNode(before, n - 1, timestamp, clock[n - 1]), n)
  {
    forall k | k in s.statsByNodeId
      ensures Stored(s.nodes[..n], k) <==> Stored(s.nodes[..n - 1], k) || s.nodes[n - 1].id == k
    {
      FindPrefixStep(s.nodes, n - 1, k);
    }
  }

  /** Visit `n` extends NodesDone to the first `n` records. */
  lemma NodesStep(s: LowdbState, before: LowdbState, timestamp: int, clock: seq<int>, n: nat)
    requires 0 < n <= |s.nodes| == |clock|
    requires NodesDone(s, before, timestamp, clock, n - 1) && StatsDone(s, before, n - 1)
    ensures NodesDone(s, VisitNode(before, n - 1, timestamp, clock[n - 1]), timestamp, clock, n)
  {
    var id := s.nodes[n - 1].id;
    assert before.nodes[n - 1] == s.nodes[n - 1];
    if id in s.statsByNodeId {
      var st := s.statsByNodeId[id];
      assert before.statsByNodeId[id] == if Stored(s.nodes[..n - 1], id) then Reset(st) else st;
    }
  }

  lemma {:induction false} SnapshotPrefixDone(s: LowdbState, timestamp: int, clock: seq<int>, n: nat)
    requires n <= |s.nodes| == |clock|
    ensures NodesDone(s, SnapshotPrefix(s, timestamp, clock, n), timestamp, clock, n)
    ensures StatsDone(s, SnapshotPrefix(s, timestamp, clock, n), n)
  {
    if n > 0 {
      SnapshotPrefixDone(s, timestamp, clock, n - 1);
      var before := SnapshotPrefix(s, timestamp, clock, n - 1);
      NodesStep(s, before, timestamp, clock, n);
      StatsStep(s, before, timestamp, clock, n);
    } else {
      assert s.nodes[..0] == [];
    }
  }

  /** saveSnaphot: every record whose id has an entry gets exactly one new
      sample and no other record changes; every entry with a record is reset
      and the others keep their accumulators. */
  lemma SnapshotEffect(s: LowdbState, timestamp: int, clock: seq<int>)
    requires |s.nodes| == |clock|
    ensures var r := Snapshot(s, timestamp, clock);
      && |r.nodes| == |s.nodes|
      && r.statsByNodeId.Keys == s.statsByNodeId.Keys
      && (forall j :: 0 <= j < |s.nodes| && s.nodes[j].id in s.statsByNodeId ==>
            r.nodes[j] == s.nodes[j].(history := s.nodes[j].history + [SampleFor(s, j, timestamp, clock)]))
      && (forall j :: 0 <= j < |s.nodes| && s.nodes[j].id !in s.statsByNodeId ==> r.nodes[j] == s.nodes[j])
      && (forall k :: k in s.statsByNodeId && Stored(s.nodes, k) ==> r.statsByNodeId[k] == Reset(s.statsByNodeId[k]))
      && (forall k :: k in s.statsByNodeId && !Stored(s.nodes, k) ==> r.statsByNodeId[k] == s.statsByNodeId[k])
  {
    SnapshotPrefixDone(s, timestamp, clock, |s.nodes|);
    assert s.nodes[..|s.nodes|] == s.nodes;
  }

  /** On a store with one record per id, each new sample carries the values
      of its entry from before the flush. */
  lemma SnapshotSamplesPreFlush(s: LowdbState, timestamp: int, clock: seq<int>, j: nat)
    requires |s.nodes| == |clock| && UniqueIds(s.nodes)
    requires j < |s.nodes| && s.nodes[j].id in s.statsByNodeId
    ensures Snapshot(s, timestamp, clock).nodes[j].history == s.nodes[j].history +
      [SampleOf(s.statsByNodeId[s.nodes[j].id], timestamp, Uptime(s.nodes[j].lastStartupTime, clock[j]))]
  {
    SnapshotEffect(s, timestamp, clock);
    NotVisitedBefore(s.nodes, j);
  }

  /** Find looks at ids only. */
  lemma {:induction false} SameIdsSameFind(a: seq<StoredNode>, b: seq<StoredNode>, id: int)
    requires |a| == |b| && forall j :: 0 <= j < |a| ==> a[j].id == b[j].id
    ensures Find(a, id) == Find(b, id)
  {
    if a != [] {
      SameIdsSameFind(a[1..], b[1..], id);
    }
  }

  lemma SnapshotKeepsConsistent(s: LowdbState, timestamp: int, clock: seq<int>)
    requires |s.nodes| == |clock| && Consistent(s)
    ensures Consistent(Snapshot(s, timestamp, clock))
  {
    var r := Snapshot(s, timestamp, clock);
    forall k | k in r.statsByNodeId ensures Stored(r.nodes, k) {
      SameIdsSameFind(s.nodes, r.nodes, k);
    }
  }

  /** In a registry that keeps its invariant, a flush resets every entry. */
  lemma SnapshotResetsAll(s: LowdbState, timestamp: int, clock: seq<int>)
    requires |s.nodes| == |clock| && Consistent(s)
    ensures forall k :: k in s.statsByNodeId ==>
      Snapshot(s, timestamp, clock).statsByNodeId[k] == Reset(s.statsByNodeId[k])
  {
    SnapshotEffect(s, timestamp, clock);
  }

  // ---------------------------------------------------------------------
  // The registry as the process holds it

  class NodeStatsTracker {
    var statsByNodeId: map<int, Stats>
    /** The store's `nodes` collection. */
    var nodes: seq<StoredNode>

    function State(): LowdbState
      reads this
    {
      LowdbState(statsByNodeId, nodes)
    }

    ghost predicate Valid()
      reads this
    {
      Consistent(State())
    }

    /** A registry over the store's records as loaded, with no statistics yet. */
    constructor (stored: seq<StoredNode>)
      ensures State() == LowdbState(map[], stored)
      ensures Valid()
    {
      statsByNodeId := map[];
      nodes := stored;
    }

    method HandleNewNode(p: AddedNodePayload)
      requires Valid()
      modifies this
      ensures State() == NewNode(old(State()), p)
      ensures Valid()
    {
      NewNodeKeepsInvariants(State(), p);
      var found := Find(nodes, p.id);
      if found.None? {
        nodes := nodes + [RecordOf(p)];
      } else {
        var i := found.value;
        nodes := nodes[i := nodes[i].(nodeName := p.details.nodeName,
          lastStartupTime := StoredStartup(p.startupTime), location := p.location)];
      }
      statsByNodeId := statsByNodeId[p.id := Initial(p.gauges, p.block)];
    }

    method HandleNewBlock(id: int, b: BlockDetails)
      requires Valid()
      modifies this
      ensures State() == NewBlock(old(State()), id, b)
      ensures Valid()
    {
      if id in statsByNodeId {
        statsByNodeId := statsByNodeId[id := WithBlock(statsByNodeId[id], b)];
      }
    }

    method HandleUpdatedNodeStats(id: int, g: NodeGauges)
      requires Valid()
      modifies this
      ensures State() == UpdatedNodeStats(old(State()), id, g)
      ensures Valid()
    {
      if id in statsByNodeId {
        statsByNodeId := statsByNodeId[id := WithGauges(statsByNodeId[id], g)];
      }
    }

    method HandleUpdatedLocation(id: int, loc: NodeLocation)
      requires Valid()
      modifies this
      ensures State() == UpdatedLocation(old(State()), id, loc)
      ensures Valid()
    {
      UpdatedLocationKeepsInvariants(State(), id, loc);
      var found := Find(nodes, id);
      if found.Some? {
        var i := found.value;
        nodes := nodes[i := nodes[i].(location := Some(loc))];
      }
    }

    /** saveSnaphot, with `timestamp` the clock reading it takes first and
        `clock[i]` the reading the uptime of record `i` takes. */
    method SaveSnapshot(timestamp: int, clock: seq<int>)
      requires Valid() && |clock| == |nodes|
      modifies this
      ensures State() == Snapshot(old(State()), timestamp, clock)
      ensures Valid()
    {
      ghost var s0 := State();
      var i := 0;
      while i < |nodes|
        invariant 0 <= i <= |nodes| == |s0.nodes|
        invariant State() == SnapshotPrefix(s0, timestamp, clock, i)
      {
        var n := nodes[i];
        if n.id in statsByNodeId {
          var stats := statsByNodeId[n.id];
          statsByNodeId := statsByNodeId[n.id := Reset(stats)];
          var uptime := Uptime(n.lastStartupTime, clock[i]);
          nodes := nodes[i := n.(history := n.history + [SampleOf(stats, timestamp, uptime)])];
        }
        i := i + 1;
      }
      SnapshotKeepsConsistent(s0, timestamp, clock);
    }
  }
}
