/** The Postgres version of the per-node statistics registry
    (`NodeStatsTracker` of tracker/backend). The in-memory `statsByNodeId` Map
    goes from the feed-assigned node id to rolling statistics and to the
    durable id of the node's row; the three tables it writes (nodes,
    locations, history entries) are modelled as an in-memory store, and the
    one-second timers of postponed location updates as a FIFO queue. */
module BackendTracker {
  import opened Telemetry

  /** A row of the `node` table. Its durable id is its position plus one
      (the table's auto-increment key starts at 1 and rows are never deleted). */
  datatype NodeRecord = NodeRecord(
    nodeName: string,
    nodeImplementation: string,
    nodeVersion: string,
    address: Option<string>,
    networkId: Option<string>,
    lastStartupTime: Option<nat>)

  /** A value of `statsByNodeId` (the source's NodeTrackingStats). */
  datatype Tracked = Tracked(dbId: nat, stats: Stats)

  /** A row of the `nodeHistoryEntry` table. */
  datatype HistoryEntry = HistoryEntry(nodeId: nat, sample: Sample)

  /** A postponed location update: the arguments its timer will call
      handleUpdatedLocation with, the count not yet incremented. */
  datatype LocationRetry = LocationRetry(nodeId: int, location: NodeLocation, postponedCount: nat)

  /** The whole registry: the Map (its values, and its keys in insertion
      order), the three tables, and the pending retry timers. */
  datatype TrackerState = TrackerState(
    statsByNodeId: map<int, Tracked>,
    order: seq<int>,
    nodes: seq<NodeRecord>,
    locations: map<nat, NodeLocation>,
    history: seq<HistoryEntry>,
    retries: seq<LocationRetry>)

  /** A location update whose node is unknown is postponed while its count is below this. */
  const MaxPostponements: nat := 10

  predicate NoDup(xs: seq<int>) {
    forall i, j :: 0 <= i < j < |xs| ==> xs[i] != xs[j]
  }

  /** The key order after Map.delete: every other key keeps its place. */
  function Without(xs: seq<int>, x: int): (r: seq<int>)
    ensures WithoutSpec(xs, x, r)
  {
    if xs == [] then []
    else
      var rest := Without(xs[1..], x);
      var r := if xs[0] == x then rest else [xs[0]] + rest;
      WithoutStep(xs, x, rest, r);
      r
  }

  /** What Without promises: exactly the keys other than x remain, without
      duplicates when there were none, and each keeps its relative order. */
  ghost predicate WithoutSpec(xs: seq<int>, x: int, r: seq<int>) {
    && (forall y :: y in r <==> y in xs && y != x)
    && (NoDup(xs) ==> NoDup(r))
    && |r| <= |xs|
    && (x !in xs ==> r == xs)
    && (NoDup(xs) ==> forall i :: 0 <= i < |xs| && xs[i] == x ==> r == xs[..i] + xs[i + 1..])
  }

  /** The step of Without: removing x from the tail, and keeping the head
      unless it is x, removes x from the whole order. */
  lemma WithoutStep(xs: seq<int>, x: int, rest: seq<int>, r: seq<int>)
    requires xs != [] && WithoutSpec(xs[1..], x, rest)
    requires r == if xs[0] == x then rest else [xs[0]] + rest
    ensures WithoutSpec(xs, x, r)
  {
    assert xs == [xs[0]] + xs[1..];
    NoDupTail(xs);
    if NoDup(xs) {
      WithoutStepOrder(xs, x, rest, r);
      WithoutStepNoDup(xs, x, rest, r);
    }
  }

  lemma WithoutStepOrder(xs: seq<int>, x: int, rest: seq<int>, r: seq<int>)
    requires xs != [] && NoDup(xs) && NoDup(xs[1..]) && xs[0] !in xs[1..]
    requires x !in xs[1..] ==> rest == xs[1..]
    requires forall i :: 0 <= i < |xs[1..]| && xs[1..][i] == x ==> rest == xs[1..][..i] + xs[1..][i + 1..]
    requires r == if xs[0] == x then rest else [xs[0]] + rest
    ensures forall i :: 0 <= i < |xs| && xs[i] == x ==> r == xs[..i] + xs[i + 1..]
  {
    var tl := xs[1..];
    forall i | 0 <= i < |xs| && xs[i] == x
      ensures r == xs[..i] + xs[i + 1..]
    {
      if xs[0] == x {
        assert i == 0;
        assert xs[..0] + xs[1..] == xs[1..];
      } else {
        assert tl[i - 1] == x;
        assert xs[..i] == [xs[0]] + tl[..i - 1];
        assert xs[i + 1..] == tl[i..];
      }
    }
  }

  lemma WithoutStepNoDup(xs: seq<int>, x: int, rest: seq<int>, r: seq<int>)
    requires xs != [] && xs[0] !in xs[1..] && NoDup(rest)
    requires forall y :: y in rest ==> y in xs[1..]
    requires r == if xs[0] == x then rest else [xs[0]] + rest
    ensures NoDup(r)
  {
    if xs[0] != x {
      forall a, b | 0 <= a < b < |r| ensures r[a] != r[b] {
        if a == 0 {
          assert r[b] == rest[b - 1];
          assert rest[b - 1] in rest;
        } else {
          assert r[a] == rest[a - 1] && r[b] == rest[b - 1];
        }
      }
    }
  }

  lemma NoDupTail(xs: seq<int>)
    requires xs != []
    ensures NoDup(xs) ==> NoDup(xs[1..]) && xs[0] !in xs[1..]
  {
    if NoDup(xs) {
      forall j | 0 <= j < |xs[1..]| ensures xs[1..][j] != xs[0] {
        assert xs[1..][j] == xs[j + 1];
      }
    }
  }

  /** The key order lists each Map key exactly once. */
  ghost predicate KeyOrder(order: seq<int>, stats: map<int, Tracked>) {
    && NoDup(order)
    && (forall k :: k in stats ==> k in order)
    && (forall i :: 0 <= i < |order| ==> order[i] in stats)
  }

  /** Every Map entry refers to one of the `n` stored nodes. */
  ghost predicate EntriesStored(stats: map<int, Tracked>, n: nat) {
    forall k :: k in stats ==> 1 <= stats[k].dbId <= n
  }

  /** The invariant the registry keeps: the key order lists each Map key
      once; every entry, location and history row refers to a stored node;
      every pending retry still has attempts left. */
  ghost predicate Consistent(s: TrackerState) {
    && KeyOrder(s.order, s.statsByNodeId)
    && EntriesStored(s.statsByNodeId, |s.nodes|)
    && (forall d :: d in s.locations ==> 1 <= d <= |s.nodes|)
    && (forall i :: 0 <= i < |s.history| ==> 1 <= s.history[i].nodeId <= |s.nodes|)
    && (forall i :: 0 <= i < |s.retries| ==> s.retries[i].postponedCount < MaxPostponements)
  }

  lemma KeyOrderSet(order: seq<int>, stats: map<int, Tracked>, id: int, v: Tracked)
    requires KeyOrder(order, stats)
    ensures KeyOrder(if id in stats then order else order + [id], stats[id := v])
  {
    if id !in stats {
      var o := order + [id];
      forall i, j | 0 <= i < j < |o| ensures o[i] != o[j] {
        if j == |order| {
          assert order[i] in stats;
        }
      }
    }
  }

  lemma KeyOrderRemove(order: seq<int>, stats: map<int, Tracked>, id: int)
    requires KeyOrder(order, stats)
    ensures KeyOrder(Without(order, id), stats - {id})
  {
    var r := Without(order, id);
    forall i | 0 <= i < |r| ensures r[i] in stats - {id} {
      assert r[i] in order;
      var j :| 0 <= j < |order| && order[j] == r[i];
    }
  }

  lemma KeyOrderSameKeys(order: seq<int>, stats: map<int, Tracked>, stats': map<int, Tracked>)
    requires KeyOrder(order, stats) && stats'.Keys == stats.Keys
    ensures KeyOrder(order, stats')
  {
    forall i | 0 <= i < |order| ensures order[i] in stats' {
      assert order[i] in stats;
    }
  }

  /** `x || null` on an optional string: an empty string is stored as null. */
  function Truthy(x: Option<string>): (r: Option<string>)
    ensures r.Some? <==> x.Some? && x.value != ""
    ensures r.Some? ==> r == x
  {
    match x
    case Some(v) => if v != "" then Some(v) else None
    case None => None
  }

  /** The row `Node.build` creates for an added node. */
  function RecordOf(p: AddedNodePayload): (r: NodeRecord)
    ensures r.nodeName == p.details.nodeName && r.nodeImplementation == p.details.nodeImplementation
    ensures r.nodeVersion == p.details.nodeVersion
    ensures r.address == Truthy(p.details.address) && r.networkId == Truthy(p.details.networkId)
    ensures r.lastStartupTime == StoredStartup(p.startupTime)
  {
    NodeRecord(p.details.nodeName, p.details.nodeImplementation, p.details.nodeVersion,
      Truthy(p.details.address), Truthy(p.details.networkId), StoredStartup(p.startupTime))
  }

  /** `statsByNodeId.set(id, v)`: a new key goes to the end of the order, an existing one keeps its place. */
  function SetEntry(s: TrackerState, id: int, v: Tracked): (r: TrackerState)
    ensures r.statsByNodeId == s.statsByNodeId[id := v]
    ensures r.order == if id in s.statsByNodeId then s.order else s.order + [id]
    ensures r.nodes == s.nodes && r.locations == s.locations && r.history == s.history && r.retries == s.retries
  {
    s.(statsByNodeId := s.statsByNodeId[id := v],
       order := if id in s.statsByNodeId then s.order else s.order + [id])
  }

  /** Appending a node row, and its location under the new durable id, keeps the invariant. */
  lemma StoringKeepsConsistent(s: TrackerState, rec: NodeRecord, loc: Option<NodeLocation>)
    requires Consistent(s)
    ensures Consistent(s.(nodes := s.nodes + [rec],
      locations := if loc.Some? then s.locations[|s.nodes| + 1 := loc.value] else s.locations))
  {
  }

  /** Setting an entry that refers to a stored row keeps the invariant. */
  lemma SetEntryKeepsConsistent(s: TrackerState, id: int, v: Tracked)
    requires Consistent(s) && 1 <= v.dbId <= |s.nodes|
    ensures Consistent(SetEntry(s, id, v))
  {
    KeyOrderSet(s.order, s.statsByNodeId, id, v);
    var r := SetEntry(s, id, v);
    assert KeyOrder(r.order, r.statsByNodeId);
    assert EntriesStored(r.statsByNodeId, |r.nodes|);
    assert r.(statsByNodeId := s.statsByNodeId, order := s.order) == s;
  }

  /** handleNewNode: store a new node row (and its location when one is
      given) under a fresh durable id, then (re)place the Map entry for the
      feed id with fresh statistics pointing at that row. */
  function NewNode(s: TrackerState, p: AddedNodePayload): (r: TrackerState)
    requires Consistent(s)
    ensures Consistent(r)
    ensures r.nodes == s.nodes + [RecordOf(p)]
    ensures r.statsByNodeId.Keys == s.statsByNodeId.Keys + {p.id}
    ensures r.statsByNodeId[p.id] == Tracked(|r.nodes|, Initial(p.gauges, p.block))
    ensures forall k :: k in s.statsByNodeId && k != p.id ==> r.statsByNodeId[k] == s.statsByNodeId[k]
    ensures r.locations == if p.location.Some? then s.locations[|r.nodes| := p.location.value] else s.locations
    ensures r.history == s.history && r.retries == s.retries
    ensures r.order == if p.id in s.statsByNodeId then s.order else s.order + [p.id]
  {
    var dbId := |s.nodes| + 1;
    var stored := s.(
      nodes := s.nodes + [RecordOf(p)],
      locations := if p.location.Some? then s.locations[dbId := p.location.value] else s.locations);
    StoringKeepsConsistent(s, RecordOf(p), p.location);
    var v := Tracked(dbId, Initial(p.gauges, p.block));
    SetEntryKeepsConsistent(stored, p.id, v);
    SetEntry(stored, p.id, v)
  }

  /** handleNewBlock: accumulate into a known entry; an unknown id changes nothing. */
  function NewBlock(s: TrackerState, id: int, b: BlockDetails): (r: TrackerState)
    requires Consistent(s)
    ensures Consistent(r)
    ensures id !in s.statsByNodeId ==> r == s
    ensures id in s.statsByNodeId ==>
      && r.statsByNodeId.Keys == s.statsByNodeId.Keys
      && r.statsByNodeId[id].dbId == s.statsByNodeId[id].dbId
      && r.statsByNodeId[id].stats == WithBlock(s.statsByNodeId[id].stats, b)
      && (forall k :: k in s.statsByNodeId && k != id ==> r.statsByNodeId[k] == s.statsByNodeId[k])
      && r.(statsByNodeId := s.statsByNodeId) == s
  {
    if id in s.statsByNodeId then
      var t := s.statsByNodeId[id];
      s.(statsByNodeId := s.statsByNodeId[id := t.(stats := WithBlock(t.stats, b))])
    else s
  }

  /** handleUpdatedNodeStats: overwrite the two gauges of a known entry; an unknown id changes nothing. */
  function UpdatedNodeStats(s: TrackerState, id: int, g: NodeGauges): (r: TrackerState)
    requires Consistent(s)
    ensures Consistent(r)
    ensures id !in s.statsByNodeId ==> r == s
    ensures id in s.statsByNodeId ==>
      && r.statsByNodeId.Keys == s.statsByNodeId.Keys
      && r.statsByNodeId[id].dbId == s.statsByNodeId[id].dbId
      && r.statsByNodeId[id].stats == WithGauges(s.statsByNodeId[id].stats, g)
      && (forall k :: k in s.statsByNodeId && k != id ==> r.statsByNodeId[k] == s.statsByNodeId[k])
      && r.(statsByNodeId := s.statsByNodeId) == s
  {
    if id in s.statsByNodeId then
      var t := s.statsByNodeId[id];
      s.(statsByNodeId := s.statsByNodeId[id := t.(stats := WithGauges(t.stats, g))])
    else s
  }

  /** The durable id handleUpdatedLocation finds, when it is truthy. */
  predicate KnownDbId(s: TrackerState, id: int)
    ensures Consistent(s) ==> (KnownDbId(s, id) <==> id in s.statsByNodeId)
  {
    id in s.statsByNodeId && s.statsByNodeId[id].dbId != 0
  }

  /** handleUpdatedLocation(nodeId, location, postponedCount): with a known
      durable id, that node's one location becomes the new one (updated or
      created); otherwise the update is postponed while the count is below
      ten, and abandoned after that. */
  function UpdatedLocation(s: TrackerState, id: int, loc: NodeLocation, postponedCount: nat): (r: TrackerState)
    requires Consistent(s)
    ensures Consistent(r)
    ensures KnownDbId(s, id) ==>
      r == s.(locations := s.locations[s.statsByNodeId[id].dbId := loc])
    ensures !KnownDbId(s, id) && postponedCount < MaxPostponements ==>
      r == s.(retries := s.retries + [LocationRetry(id, loc, postponedCount)])
    ensures !KnownDbId(s, id) && postponedCount >= MaxPostponements ==> r == s
  {
    if KnownDbId(s, id) then
      s.(locations := s.locations[s.statsByNodeId[id].dbId := loc])
    else if postponedCount < MaxPostponements then
      s.(retries := s.retries + [LocationRetry(id, loc, postponedCount)])
    else s
  }

  /** The earliest pending retry timer fires: it calls handleUpdatedLocation
      again with the count incremented. */
  function FireRetry(s: TrackerState): (r: TrackerState)
    requires Consistent(s) && s.retries != []
    ensures Consistent(r)
  {
    var next := s.retries[0];
    UpdatedLocation(s.(retries := s.retries[1..]), next.nodeId, next.location, next.postponedCount + 1)
  }

  /** handleRemovedNode: delete exactly that key; the tables keep the node. */
  function RemovedNode(s: TrackerState, id: int): (r: TrackerState)
    requires Consistent(s)
    ensures Consistent(r)
    ensures r.statsByNodeId == s.statsByNodeId - {id}
    ensures r.order == Without(s.order, id)
    ensures r.nodes == s.nodes && r.locations == s.locations && r.history == s.history && r.retries == s.retries
  {
    KeyOrderRemove(s.order, s.statsByNodeId, id);
    s.(statsByNodeId := s.statsByNodeId - {id}, order := Without(s.order, id))
  }

  /** `Node.findByPk`. */
  function FindByPk(nodes: seq<NodeRecord>, dbId: nat): (r: Option<NodeRecord>)
    ensures r.Some? <==> 1 <= dbId <= |nodes|
    ensures r.Some? ==> r.value == nodes[dbId - 1]
  {
    if 1 <= dbId <= |nodes| then Some(nodes[dbId - 1]) else None
  }

  /** The history row written for one Map entry read before the reset. */
  function EntryFor(t: Tracked, nodes: seq<NodeRecord>, timestamp: int): (r: HistoryEntry)
    ensures r.nodeId == t.dbId && r.sample.timestamp == timestamp
    ensures r.sample.blocksProcessed == t.stats.blockTimes.count
    ensures r.sample.avgBlockTime == Mean(t.stats.blockTimes)
    ensures r.sample.avgPropagationTime == Mean(t.stats.propagationTimes)
    ensures 1 <= t.dbId <= |nodes| ==> r.sample.uptime == Uptime(nodes[t.dbId - 1].lastStartupTime, timestamp)
    ensures !(1 <= t.dbId <= |nodes|) ==> r.sample.uptime.None?
  {
    var uptime := match FindByPk(nodes, t.dbId)
      case Some(n) => Uptime(n.lastStartupTime, timestamp)
      case None => None;
    HistoryEntry(t.dbId, SampleOf(t.stats, timestamp, uptime))
  }

  /** The Map entry at position `i` of the key order. */
  function EntryAt(s: TrackerState, i: nat): (t: Tracked)
    requires Consistent(s) && i < |s.order|
    ensures s.order[i] in s.statsByNodeId && t == s.statsByNodeId[s.order[i]]
    ensures 1 <= t.dbId <= |s.nodes|
  {
    var k := s.order[i];
    assert k in s.statsByNodeId;
    s.statsByNodeId[k]
  }

  /** `Array.from(statsByNodeId.entries())`: the values, in the Map's order. */
  function Entries(s: TrackerState): (r: seq<Tracked>)
    requires Consistent(s)
    ensures |r| == |s.order|
    ensures forall i :: 0 <= i < |r| ==> r[i] == s.statsByNodeId[s.order[i]] && 1 <= r[i].dbId <= |s.nodes|
  {
    seq(|s.order|, i requires 0 <= i < |s.order| => EntryAt(s, i))
  }

  /** The history rows written for saved entries, with the node rows as `findByPk` reads them. */
  function Rows(entries: seq<Tracked>, nodes: seq<NodeRecord>, timestamp: int): (r: seq<HistoryEntry>)
    ensures |r| == |entries|
    ensures forall i :: 0 <= i < |r| ==> r[i] == EntryFor(entries[i], nodes, timestamp)
  {
    seq(|entries|, i requires 0 <= i < |entries| => EntryFor(entries[i], nodes, timestamp))
  }

  /** The rows a flush writes: one per Map entry, in the Map's order. */
  function FlushEntries(s: TrackerState, timestamp: int): (r: seq<HistoryEntry>)
    requires Consistent(s)
    ensures |r| == |s.order|
    ensures forall i :: 0 <= i < |s.order| ==> r[i] == EntryFor(s.statsByNodeId[s.order[i]], s.nodes, timestamp)
  {
    Rows(Entries(s), s.nodes, timestamp)
  }

  function ResetEntry(t: Tracked): Tracked {
    t.(stats := Reset(t.stats))
  }

  /** The synchronous part of saveSnaphot, run before its first `await`:
      every accumulator in the Map is reset; nothing else changes. */
  function ResetAll(s: TrackerState): (r: TrackerState)
    requires Consistent(s)
    ensures Consistent(r)
    ensures r.statsByNodeId.Keys == s.statsByNodeId.Keys && r.order == s.order
    ensures forall k :: k in s.statsByNodeId ==>
      r.statsByNodeId[k].dbId == s.statsByNodeId[k].dbId &&
      r.statsByNodeId[k].stats == Reset(s.statsByNodeId[k].stats)
    ensures r.nodes == s.nodes && r.locations == s.locations && r.history == s.history && r.retries == s.retries
  {
    var m := map k | k in s.statsByNodeId :: ResetEntry(s.statsByNodeId[k]);
    KeyOrderSameKeys(s.order, s.statsByNodeId, m);
    s.(statsByNodeId := m)
  }

  /** The awaited part of saveSnaphot: one history row per saved entry,
      appended in order; the Map is not read again. */
  function WriteRows(s: TrackerState, entries: seq<Tracked>, timestamp: int): (r: TrackerState)
    requires Consistent(s)
    requires forall i :: 0 <= i < |entries| ==> 1 <= entries[i].dbId <= |s.nodes|
    ensures Consistent(r)
    ensures r.history == s.history + Rows(entries, s.nodes, timestamp)
    ensures r.(history := s.history) == s
  {
    s.(history := s.history + Rows(entries, s.nodes, timestamp))
  }

  /** saveSnaphot at clock reading `timestamp`, with no message handled
      during its writes: every accumulator is reset and, from the values
      read before the reset, one history row per entry is appended. */
  function Snapshot(s: TrackerState, timestamp: int): (r: TrackerState)
    requires Consistent(s)
    ensures Consistent(r)
    ensures r.statsByNodeId.Keys == s.statsByNodeId.Keys && r.order == s.order
    ensures forall k :: k in s.statsByNodeId ==>
      r.statsByNodeId[k].dbId == s.statsByNodeId[k].dbId &&
      r.statsByNodeId[k].stats == Reset(s.statsByNodeId[k].stats)
    ensures r.history == s.history + FlushEntries(s, timestamp)
    ensures r.nodes == s.nodes && r.locations == s.locations && r.retries == s.retries
  {
    WriteRows(ResetAll(s), Entries(s), timestamp)
  }

  // ---------------------------------------------------------------------
  // Properties

  /** What each written row says: it belongs to the entry's durable node,
      counts the blocks imported in the interval and averages that
      interval's samples; uptime is measured from the node's stored startup
      time. */
  lemma FlushedRow(s: TrackerState, timestamp: int, i: nat)
    requires Consistent(s) && i < |s.order|
    ensures var t := EntryAt(s, i);
      var e := FlushEntries(s, timestamp)[i];
      && e.nodeId == t.dbId
      && e.sample.blocksProcessed == t.stats.blockTimes.count
      && e.sample.avgBlockTime == Mean(t.stats.blockTimes)
      && e.sample.avgPropagationTime == Mean(t.stats.propagationTimes)
      && e.sample.timestamp == timestamp
      && e.sample.uptime == Uptime(s.nodes[t.dbId - 1].lastStartupTime, timestamp)
  {
  }

  /** Two flushes with no event between them: the second writes one row per
      entry again, each with no blocks and no averages. */
  lemma FlushTwice(s: TrackerState, t1: int, t2: int)
    requires Consistent(s)
    ensures var second := FlushEntries(Snapshot(s, t1), t2);
      && |second| == |s.order|
      && forall i :: 0 <= i < |second| ==>
        second[i].sample.blocksProcessed == 0 &&
        second[i].sample.avgBlockTime == None && second[i].sample.avgPropagationTime == None
  {
    var s1 := Snapshot(s, t1);
    forall i | 0 <= i < |s1.order|
      ensures FlushEntries(s1, t2)[i].sample.blocksProcessed == 0
      ensures FlushEntries(s1, t2)[i].sample.avgBlockTime == None
      ensures FlushEntries(s1, t2)[i].sample.avgPropagationTime == None
    {
      SampleAfterReset(s.statsByNodeId[s.order[i]].stats, t2, None);
    }
  }

  /** A run of ImportedBlock messages for one node. */
  function NewBlocks(s: TrackerState, id: int, bs: seq<BlockDetails>): (r: TrackerState)
    requires Consistent(s)
    ensures Consistent(r) && r.statsByNodeId.Keys == s.statsByNodeId.Keys
    ensures r.nodes == s.nodes
  {
    if bs == [] then s else NewBlock(NewBlocks(s, id, bs[..|bs| - 1]), id, bs[|bs| - 1])
  }

  lemma {:induction false} NewBlocksOnEntry(s: TrackerState, id: int, bs: seq<BlockDetails>)
    requires Consistent(s) && id in s.statsByNodeId
    ensures var r := NewBlocks(s, id, bs);
      && r.statsByNodeId.Keys == s.statsByNodeId.Keys
      && r.statsByNodeId[id] == s.statsByNodeId[id].(stats := WithBlocks(s.statsByNodeId[id].stats, bs))
      && r.(statsByNodeId := s.statsByNodeId) == s
  {
    if bs != [] {
      NewBlocksOnEntry(s, id, bs[..|bs| - 1]);
    }
  }

  /** After a completed flush, the entry of a tracked node holds exactly
      the blocks imported since: their count and their total. */
  lemma {:induction false} NextIntervalSeesOnlyLaterBlocks(s: TrackerState, id: int, t1: int, bs: seq<BlockDetails>)
    requires Consistent(s) && id in s.statsByNodeId
    ensures var t := NewBlocks(Snapshot(s, t1), id, bs).statsByNodeId[id];
      && t.dbId == s.statsByNodeId[id].dbId
      && t.stats.blockTimes == Accumulator(Sum(BlockTimes(bs)), |bs|)
      && t.stats.propagationTimes == Accumulator(Sum(PropagationTimes(bs)), |PropagationTimes(bs)|)
  {
    var s1 := Snapshot(s, t1);
    assert s1.statsByNodeId[id] == s.statsByNodeId[id].(stats := Reset(s.statsByNodeId[id].stats));
    NewBlocksOnEntry(s1, id, bs);
    AccumulatedAfterReset(s.statsByNodeId[id].stats, bs);
  }

  /** Reset before write: blocks imported while saveSnaphot awaits its
      writes are accumulated for the next interval, and the rows written
      still carry the values read before the reset. */
  lemma {:induction false} BlocksDuringFlushGoToNextInterval(s: TrackerState, id: int, t1: int, bs: seq<BlockDetails>)
    requires Consistent(s) && id in s.statsByNodeId
    ensures var during := NewBlocks(ResetAll(s), id, bs);
      var r := WriteRows(during, Entries(s), t1);
      && r.history == s.history + FlushEntries(s, t1)
      && r.statsByNodeId[id].stats.blockTimes == Accumulator(Sum(BlockTimes(bs)), |bs|)
      && r.statsByNodeId[id].stats.propagationTimes == Accumulator(Sum(PropagationTimes(bs)), |PropagationTimes(bs)|)
  {
    var s1 := ResetAll(s);
    assert s1.statsByNodeId[id] == s.statsByNodeId[id].(stats := Reset(s.statsByNodeId[id].stats));
    NewBlocksOnEntry(s1, id, bs);
    AccumulatedAfterReset(s.statsByNodeId[id].stats, bs);
  }

  /** A node removed from the feed and added again gets a new durable id. */
  lemma ReAddGetsNewDbId(s: TrackerState, p: AddedNodePayload)
    requires Consistent(s) && p.id in s.statsByNodeId
    ensures NewNode(RemovedNode(s, p.id), p).statsByNodeId[p.id].dbId != s.statsByNodeId[p.id].dbId
  {
  }

  /** Attempts the pending retries have left. */
  function RetryBudget(rs: seq<LocationRetry>): nat {
    if rs == [] then 0 else RetryBudget(rs[..|rs| - 1]) + AttemptsLeft(rs[|rs| - 1])
  }

  function AttemptsLeft(r: LocationRetry): nat {
    if r.postponedCount < MaxPostponements then MaxPostponements - r.postponedCount else 0
  }

  lemma {:induction false} RetryBudgetAppend(rs: seq<LocationRetry>, r: LocationRetry)
    ensures RetryBudget(rs + [r]) == RetryBudget(rs) + AttemptsLeft(r)
  {
    assert (rs + [r])[..|rs + [r]| - 1] == rs;
  }

  lemma {:induction false} RetryBudgetFirst(rs: seq<LocationRetry>)
    requires rs != []
    requires forall i :: 0 <= i < |rs| ==> rs[i].postponedCount < MaxPostponements
    ensures RetryBudget(rs) == RetryBudget(rs[1..]) + AttemptsLeft(rs[0])
  {
    if |rs| > 1 {
      var init := rs[..|rs| - 1];
      RetryBudgetFirst(init);
      assert init[1..] == rs[1..][..|rs[1..]| - 1];
    } else {
      assert rs[1..] == [];
      assert rs[..0] == [];
    }
  }

  /** Every firing of a retry timer uses up at least one attempt, so
      postponed location updates cannot be rescheduled forever. */
  lemma RetryFiringUsesBudget(s: TrackerState)
    requires Consistent(s) && s.retries != []
    ensures RetryBudget(FireRetry(s).retries) < RetryBudget(s.retries)
  {
    var next := s.retries[0];
    RetryBudgetFirst(s.retries);
    if !KnownDbId(s, next.nodeId) && next.postponedCount + 1 < MaxPostponements {
      RetryBudgetAppend(s.retries[1..], LocationRetry(next.nodeId, next.location, next.postponedCount + 1));
    }
  }

  /** Firing the earliest retry, whatever else is pending: a node now known
      gets the location; otherwise the update goes to the back of the queue
      with its count raised, or is dropped once the count reaches ten. The
      other pending retries keep their order. */
  lemma FiredRetryGoesToBack(s: TrackerState)
    requires Consistent(s) && s.retries != []
    ensures var next := s.retries[0]; var r := FireRetry(s);
      && (KnownDbId(s, next.nodeId) ==>
            r.retries == s.retries[1..] && r.locations == s.locations[s.statsByNodeId[next.nodeId].dbId := next.location])
      && (!KnownDbId(s, next.nodeId) && next.postponedCount + 1 < MaxPostponements ==>
            r.retries == s.retries[1..] + [LocationRetry(next.nodeId, next.location, next.postponedCount + 1)])
      && (!KnownDbId(s, next.nodeId) && next.postponedCount + 1 >= MaxPostponements ==> r.retries == s.retries[1..])
      && r.(retries := s.retries, locations := s.locations) == s
  {
  }

  /** The retry timer firing `n` times (fewer when the queue runs out). */
  function FireTimes(s: TrackerState, n: nat): (r: TrackerState)
    requires Consistent(s)
    ensures Consistent(r)
    decreases n
  {
    if n == 0 || s.retries == [] then s else FireTimes(FireRetry(s), n - 1)
  }

  /** A location for a node that never becomes known is postponed exactly
      ten times: after k < 10 firings one retry with count k is pending, and
      the tenth firing abandons it, leaving the registry as it was. */
  lemma {:induction false} UnknownLocationAbandoned(s: TrackerState, id: int, loc: NodeLocation, k: nat)
    requires Consistent(s) && !KnownDbId(s, id) && s.retries == [] && k <= MaxPostponements
    ensures FireTimes(UpdatedLocation(s, id, loc, 0), k) ==
      if k < MaxPostponements then s.(retries := [LocationRetry(id, loc, k)]) else s
  {
    if k > 0 {
      UnknownLocationAbandoned(s, id, loc, k - 1);
      var pending := s.(retries := [LocationRetry(id, loc, k - 1)]);
      FireTimesLast(UpdatedLocation(s, id, loc, 0), k - 1);
      assert FireRetry(pending) == if k < MaxPostponements then s.(retries := [LocationRetry(id, loc, k)]) else s;
    }
  }

  lemma {:induction false} FireTimesLast(s: TrackerState, n: nat)
    requires Consistent(s) && FireTimes(s, n).retries != []
    ensures FireTimes(s, n + 1) == FireRetry(FireTimes(s, n))
    decreases n
  {
    if n > 0 && s.retries != [] {
      FireTimesLast(FireRetry(s), n - 1);
    }
  }

  /** A location that arrives before its node is added is applied by the
      first retry after the node is added. */
  lemma LateNodeGetsLocation(s: TrackerState, p: AddedNodePayload, loc: NodeLocation)
    requires Consistent(s) && !KnownDbId(s, p.id) && s.retries == []
    ensures var r := FireRetry(NewNode(UpdatedLocation(s, p.id, loc, 0), p));
      r.locations[|s.nodes| + 1] == loc && r.retries == [] && r.nodes == s.nodes + [RecordOf(p)]
  {
  }

  /** The reset loop of saveSnaphot visits every key, so it leaves the
      whole Map reset. */
  lemma AllKeysVisited(keys: seq<int>, before: map<int, Tracked>, after: map<int, Tracked>, reset: map<int, Tracked>)
    requires KeyOrder(keys, before)
    requires after.Keys == before.Keys && reset.Keys == before.Keys
    requires forall k :: k in before ==>
      after[k] == if k in keys then ResetEntry(before[k]) else before[k]
    requires forall k :: k in before ==> reset[k] == ResetEntry(before[k])
    ensures after == reset
  {
    forall k | k in after ensures after[k] == reset[k] {
      assert k in before && k in keys;
    }
  }

  /** A node added with a 100 ms block time and no propagation time, then
      importing a 200 ms block propagated in 50 ms, is flushed as two blocks
      averaging 150 ms with a 50 ms propagation average; once removed, its
      blocks are dropped, and when added again it gets a new durable id. */
  lemma EndToEnd(s: TrackerState, p: AddedNodePayload, b: BlockDetails, t: int)
    requires Consistent(s) && p.id !in s.statsByNodeId
    requires p.block.milliseconds == 100 && p.block.propagationTime.None?
    requires b.milliseconds == 200 && b.propagationTime == Some(50)
    ensures var s1 := NewBlock(NewNode(s, p), p.id, b);
      var row := FlushEntries(s1, t)[|s.order|];
      var s2 := RemovedNode(Snapshot(s1, t), p.id);
      && row.nodeId == |s.nodes| + 1
      && row.sample.blocksProcessed == 2
      && row.sample.avgBlockTime == Some(150)
      && row.sample.avgPropagationTime == Some(50)
      && NewBlock(s2, p.id, b) == s2
      && NewNode(s2, p).statsByNodeId[p.id].dbId != row.nodeId
  {
    var s1 := NewBlock(NewNode(s, p), p.id, b);
    assert s1.order == s.order + [p.id];
    assert s1.statsByNodeId[p.id].stats.blockTimes == Accumulator(300, 2);
    assert s1.statsByNodeId[p.id].stats.propagationTimes == Accumulator(50, 1);
    FlushedRow(s1, t, |s.order|);
  }

  // ---------------------------------------------------------------------
  // The registry as the process holds it

  class NodeStatsTracker {
    var statsByNodeId: map<int, Tracked>
    var order: seq<int>
    var nodes: seq<NodeRecord>
    var locations: map<nat, NodeLocation>
    var history: seq<HistoryEntry>
    var retries: seq<LocationRetry>

    function State(): TrackerState
      reads this
    {
      TrackerState(statsByNodeId, order, nodes, locations, history, retries)
    }

    ghost predicate Valid()
      reads this
    {
      Consistent(State())
    }

    /** A registry over the tables as the database holds them (they
        survive a restart); the Map and the timers start empty. */
    constructor (storedNodes: seq<NodeRecord>, storedLocations: map<nat, NodeLocation>, storedHistory: seq<HistoryEntry>)
      requires Consistent(TrackerState(map[], [], storedNodes, storedLocations, storedHistory, []))
      ensures State() == TrackerState(map[], [], storedNodes, storedLocations, storedHistory, [])
      ensures Valid()
    {
      statsByNodeId, order := map[], [];
      nodes, locations, history, retries := storedNodes, storedLocations, storedHistory, [];
    }

    method HandleNewNode(p: AddedNodePayload)
      requires Valid()
      modifies this
      ensures State() == NewNode(old(State()), p)
      ensures Valid()
    {
      var node := RecordOf(p);
      nodes := nodes + [node];
      var dbId := |nodes|;
      if p.location.Some? {
        locations := locations[dbId := p.location.value];
      }
      if p.id !in statsByNodeId {
        order := order + [p.id];
      }
      statsByNodeId := statsByNodeId[p.id := Tracked(dbId, Initial(p.gauges, p.block))];
    }

    method HandleNewBlock(id: int, b: BlockDetails)
      requires Valid()
      modifies this
      ensures State() == NewBlock(old(State()), id, b)
      ensures Valid()
    {
      if id in statsByNodeId {
        var statsRef := statsByNodeId[id];
        statsByNodeId := statsByNodeId[id := statsRef.(stats := WithBlock(statsRef.stats, b))];
      }
    }

    method HandleUpdatedNodeStats(id: int, g: NodeGauges)
      requires Valid()
      modifies this
      ensures State() == UpdatedNodeStats(old(State()), id, g)
      ensures Valid()
    {
      if id in statsByNodeId {
        var statsRef := statsByNodeId[id];
        statsByNodeId := statsByNodeId[id := statsRef.(stats := WithGauges(statsRef.stats, g))];
      }
    }

    method HandleUpdatedLocation(id: int, loc: NodeLocation, postponedCount: nat)
      requires Valid()
      modifies this
      ensures State() == UpdatedLocation(old(State()), id, loc, postponedCount)
      ensures Valid()
    {
      var nodeDbId := if id in statsByNodeId then statsByNodeId[id].dbId else 0;
      if nodeDbId != 0 {
        locations := locations[nodeDbId := loc];
      } else if postponedCount < MaxPostponements {
        retries := retries + [LocationRetry(id, loc, postponedCount)];
      }
    }

    /** The one-second timer of the earliest postponed location update fires. */
    method FireLocationRetry()
      requires Valid() && retries != []
      modifies this
      ensures State() == FireRetry(old(State()))
      ensures Valid()
    {
      var next := retries[0];
      retries := retries[1..];
      HandleUpdatedLocation(next.nodeId, next.location, next.postponedCount + 1);
    }

    method HandleRemovedNode(id: int)
      requires Valid()
      modifies this
      ensures State() == RemovedNode(old(State()), id)
      ensures Valid()
    {
      statsByNodeId := statsByNodeId - {id};
      order := Without(order, id);
    }

    /** saveSnaphot, with `timestamp` the clock reading it takes first,
        and no message handled while it awaits its writes. */
    method SaveSnapshot(timestamp: int)
      requires Valid()
      modifies this
      ensures State() == Snapshot(old(State()), timestamp)
      ensures Valid()
    {
      var statsEntries := ResetStats();
      WriteHistory(statsEntries, timestamp);
    }

    /** The part of saveSnaphot before its first `await`: save the entries
        in the Map's order, then reset every accumulator. */
    method ResetStats() returns (statsEntries: seq<Tracked>)
      requires Valid()
      modifies this
      ensures statsEntries == Entries(old(State()))
      ensures State() == ResetAll(old(State()))
      ensures Valid()
    {
      ghost var s0 := State();
      var keys := order;
      statsEntries := [];
      var i := 0;
      while i < |keys|
        invariant 0 <= i <= |keys|
        invariant statsEntries == Entries(s0)[..i]
        invariant State() == s0
      {
        assert keys[i] in statsByNodeId;
        statsEntries := statsEntries + [statsByNodeId[keys[i]]];
        i := i + 1;
      }
      assert Entries(s0)[..i] == Entries(s0);
      ghost var before := statsByNodeId;
      var j := 0;
      while j < |keys|
        invariant 0 <= j <= |keys|
        invariant statsByNodeId.Keys == before.Keys
        invariant forall k :: k in before ==>
          statsByNodeId[k] == if k in keys[..j] then ResetEntry(before[k]) else before[k]
        invariant order == keys && nodes == s0.nodes && locations == s0.locations
        invariant history == s0.history && retries == s0.retries
      {
        var k := keys[j];
        statsByNodeId := statsByNodeId[k := ResetEntry(statsByNodeId[k])];
        assert keys[..j + 1] == keys[..j] + [k];
        j := j + 1;
      }
      assert keys[..j] == keys;
      AllKeysVisited(keys, before, statsByNodeId, ResetAll(s0).statsByNodeId);
    }

    /** The awaited part of saveSnaphot: for each saved entry, look up its
        node row and append one history row. */
    method WriteHistory(statsEntries: seq<Tracked>, timestamp: int)
      requires Valid()
      requires forall i :: 0 <= i < |statsEntries| ==> 1 <= statsEntries[i].dbId <= |nodes|
      modifies this
      ensures State() == WriteRows(old(State()), statsEntries, timestamp)
      ensures Valid()
    {
      ghost var s0 := State();
      ghost var rows := Rows(statsEntries, nodes, timestamp);
      var j := 0;
      while j < |statsEntries|
        invariant 0 <= j <= |statsEntries|
        invariant State() == s0.(history := s0.history + rows[..j])
      {
        var stats := statsEntries[j];
        var node := FindByPk(nodes, stats.dbId);
        var uptime := if node.Some? then Uptime(node.value.lastStartupTime, timestamp) else None;
        history := history + [HistoryEntry(stats.dbId, SampleOf(stats.stats, timestamp, uptime))];
        assert rows[..j + 1] == rows[..j] + [rows[j]];
        j := j + 1;
      }
      assert rows[..j] == rows;
    }
  }
}
