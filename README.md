# substrate-telemetry ingestion pipeline, in Dafny

This project models the telemetry ingestion pipeline of substrate-telemetry, which exists in two generations:

- **The Postgres tracker backend** (`tracker/backend/src`):
  - A feed client subscribes to one chain and keeps the connection alive with pings. It exits when no node is announced within the liveness timeout.
  - It dispatches every decoded message to a `NodeStatsTracker`.
  - The tracker keeps per-node rolling statistics in a Map keyed by the feed's node id. It writes node rows, locations and history rows to the database, and postpones location updates for nodes it does not know yet.
- **The earlier lowdb version** (`src`):
  - Its client subscribes and pings the same way, but has no liveness timer.
  - Its client exits on a failed connection and on the connection's `error` and `close` events. The backend client exits on an unexpected response instead.
  - Its client only logs RemovedNode and does not forward it to the tracker.
  - Its tracker keeps the same statistics, but writes one JSON record per feed node id. Each record's history list grows in place.

The model has six modules, one file each:

| file | module | contents |
|---|---|---|
| `telemetry.dfy` | `Telemetry` | The payloads the trackers and clients read. The `{sum, count}` accumulator and its truncated mean (`calcAvgFromStats`). The per-node statistics and how an announcement, a block import, a gauge update and a flush's reset change them. The history sample. |
| `feed.dfy` | `Feed` | The decoded message union and the two outbound text commands. JavaScript's `parseInt` as the pong case applies it. The ping/pong keep-alive as a state machine over `currentPingId`, `currentPingTime` (0: no ping outstanding), the open flag, the exit flag and the commands sent. |
| `backend_tracker.dfy` | `BackendTracker` | The Postgres tracker. Pure specification functions on a `TrackerState` value are implemented by the class `NodeStatsTracker`, whose methods change its fields in place and are proved equal to those functions. |
| `lowdb_tracker.dfy` | `LowdbTracker` | The lowdb tracker, in the same two layers. |
| `backend_client.dfy` | `BackendFeed` | The backend's `main()`: the switch of `handleMessages` (`Dispatch`) and the batch loop (`Run`). The class `Client` holds the callbacks' shared variables and the registry. |
| `lowdb_client.dfy` | `LowdbFeed` | The lowdb `main()`, in the same form. |

Modelling decisions:

- **Map key order.** The JavaScript Map is a Dafny `map` plus the key insertion order (`order`). `saveSnaphot` writes rows in Map order, `set` on a new key appends it, `set` on an existing key keeps its place, and `delete` removes only that key.
- **Postgres tables.**
  - The `node` table is a sequence. Its auto-increment id is the position plus one, and rows are never deleted.
  - The `location` table is a map from durable id to location, because the tracker keeps at most one location per node.
  - History rows form a sequence.
- **Postponed location updates.** Each pending one-second timer is a FIFO queue entry holding the arguments it was scheduled with. Firing the earliest timer calls the handler again with the count incremented, like the source's `++postopnedCount`.
- **Clock readings** are parameters:
  - `now` for a ping;
  - `timestamp` for a flush;
  - for the lowdb flush, one reading per record for the uptime, because its loop calls `Date.now()` again for each record.
- **`process.exit`** is a `fatal` flag. Nothing is handled after it: `Run` stops at the first message that sets it.
- **Timer callbacks** are methods whose preconditions say when the timer can fire:
  - the ping interval, only after the open callback;
  - the liveness timeout, only while it is armed.
- **Integers.** BN sums are `nat`; means are truncated quotients.
- **Propagation times follow the code.**
  - On an announcement, a propagation time counts only when it is truthy, so an announced propagation time of 0 is not a sample (`tracker/backend/src/trackingStats.ts:105-106`, `src/trackingStats.ts:99-100`).
  - On a block import, any number counts, 0 included.
  - The model keeps this asymmetry, and `Telemetry.ZeroPropagationAsymmetry` states it.

## Model

| member | source | states |
|---|---|---|
| `Telemetry.Mean` | tracker/backend/src/trackingStats.ts:29-30 | Null exactly when the count is 0. Otherwise the truncated quotient q, with q·count ≤ sum < (q+1)·count. The lowdb version (src/trackingStats.ts:22-23) is the same. |
| `Telemetry.Initial` | tracker/backend/src/trackingStats.ts:98-112 | Block stats {ms, 1}. Propagation stats {p, 1} when p is present and non-zero, otherwise {0, 0}. Gauges and best block are copied from the payload. |
| `Telemetry.WithBlock` | tracker/backend/src/trackingStats.ts:125-137 | Block count +1 and sum +ms. Best block number and hash overwritten. Propagation count +1 and sum +p exactly when p is a number. Gauges untouched. |
| `Telemetry.WithGauges` | tracker/backend/src/trackingStats.ts:141-149 | Peer count and queue size overwritten, not accumulated. Every other field unchanged. |
| `Telemetry.Reset` | tracker/backend/src/trackingStats.ts:196-202 | Both accumulators become {0, 0}. Every other field is kept. |
| `Telemetry.ZeroPropagationAsymmetry` | tracker/backend/src/trackingStats.ts:104-137 | A propagation time of 0 is no sample on an announcement, but one sample on a block import. |
| `Telemetry.AddAllTotals` | tracker/backend/src/trackingStats.ts:128-136 | Accumulating samples one at a time gives their exact total and their number. |
| `Telemetry.AddAllAppend` | tracker/backend/src/trackingStats.ts:128-136 | Accumulating two consecutive runs equals accumulating their concatenation. |
| `Telemetry.WithBlocksAccumulates` | tracker/backend/src/trackingStats.ts:124-138 | After a run of imports: the accumulators hold exactly those samples on top of the old ones, the best block is the last one imported, and the gauges are unchanged. |
| `Telemetry.StoredStartup` | tracker/backend/src/trackingStats.ts:78 | The startup time is stored only when it is truthy. |
| `Telemetry.Uptime` | tracker/backend/src/trackingStats.ts:228-230 | Null exactly when there is no (truthy) startup time. Otherwise uptime + startup = the clock reading. |
| `Telemetry.SampleOf` | tracker/backend/src/trackingStats.ts:206-231 | A history row: blocks processed = the block count, the two means of the accumulators read, and the gauges, best block, timestamp and uptime. |
| `Telemetry.SampleAfterReset` | tracker/backend/src/trackingStats.ts:196-231 | A row written from reset statistics has no blocks and no averages. |
| `Telemetry.AccumulatedAfterReset` | tracker/backend/src/trackingStats.ts:193-202 | After a reset and a run of imports, the accumulators hold exactly that run: its count and its total. |
| `Telemetry.IntervalSample` | tracker/backend/src/trackingStats.ts:193-231 | The row for an interval counts exactly its imports and averages exactly their times (integer mean). |
| `Feed.Decimal` | tracker/backend/src/index.ts:48 | The id text is one or more decimal digits, with no leading zero unless the id is 0. |
| `Feed.SkipSpace` | tracker/backend/src/index.ts:193 | `parseInt` skips exactly the leading white space: the result is a suffix that does not start with white space, and everything before it is white space. |
| `Feed.DecimalRoundTrip` | tracker/backend/src/index.ts:193 | `parseInt` of an id's decimal text gives back that id. |
| `Feed.Render` | tracker/backend/src/index.ts:40-48 | A subscription is `subscribe:` followed by the chain name. A ping is `ping:` followed by text that `parseInt` reads back as the ping's id. |
| `Feed.ParseInt` | tracker/backend/src/index.ts:193 | Empty or all-white-space text is NaN. A negative result needs a leading minus sign. |
| `Feed.ParseUnsigned` | tracker/backend/src/index.ts:193 | The part after the sign: empty text is NaN. |
| `Feed.ParseIntStopsAtNonDigit` | tracker/backend/src/index.ts:193 | Text after an id's digits is ignored, unless it turns a lone 0 into a `0x` prefix. |
| `Feed.PingTextsDistinct` | tracker/backend/src/index.ts:48 | Distinct ping ids are sent as distinct texts. |
| `Feed.Open` | tracker/backend/src/index.ts:40-42 | On open, the subscription goes out once and the ping state is untouched. |
| `Feed.PingTick` | tracker/backend/src/index.ts:42-51 | Fatal exactly when a ping is outstanding. Otherwise it sends `ping:<currentPingId>` and marks the ping outstanding at the clock reading. |
| `Feed.OnPong` | tracker/backend/src/index.ts:190-202 | Fatal exactly when the parsed payload differs from `currentPingId`. Otherwise the id advances by 1 and nothing is outstanding. |
| `Feed.InitialLinkOk` | tracker/backend/src/index.ts:19-20 | The initial connection state has the shape every reachable one has. |
| `Feed.OpenKeepsLinkOk` | tracker/backend/src/index.ts:29-52 | The subscription is sent first and only once. |
| `Feed.PingTickKeepsLinkOk` | tracker/backend/src/index.ts:42-51 | Only pings follow the subscription. Ping ids strictly increase and never exceed the counter. While a ping is outstanding, the last ping sent carries the counter. |
| `Feed.OnPongKeepsLinkOk` | tracker/backend/src/index.ts:190-202 | A pong keeps that shape. |
| `Feed.OpenGapFree` | tracker/backend/src/index.ts:40-42 | Right after opening, the commands sent are the subscription and no ping, which starts the gap-free chain. |
| `Feed.PingTickKeepsGapFree` | tracker/backend/src/index.ts:42-51 | The pings sent carry exactly 0, 1, 2, … with no gap or repeat. |
| `Feed.AnsweredPongKeepsGapFree` | tracker/backend/src/index.ts:190-202 | Answering the outstanding ping keeps the ids gap-free. |
| `Feed.EchoedPongAccepted` | tracker/backend/src/index.ts:190-202 | The pong echoing the current id is accepted, advances the id by 1 and clears the outstanding mark. |
| `Feed.UnansweredIdSkipped` | tracker/backend/src/index.ts:190-202 | The pong case does not check that a ping is outstanding. An unsolicited pong `0` right after open is accepted, so the first ping sent is `ping:1`. |
| `BackendTracker.Without` | tracker/backend/src/trackingStats.ts:187 | `delete` removes exactly that key from the order. The other keys keep their relative order, a missing key changes nothing, and the order keeps no duplicates. |
| `BackendTracker.Truthy` | tracker/backend/src/trackingStats.ts:76-77 | The logical or with null: an empty string is stored as null, any other string as itself. |
| `BackendTracker.RecordOf` | tracker/backend/src/trackingStats.ts:71-81 | The new row copies name, implementation and version. Address and network id are stored as `Truthy` leaves them (null when empty), the startup time as `StoredStartup` leaves it (null when 0). |
| `BackendTracker.SetEntry` | tracker/backend/src/trackingStats.ts:98 | `set` stores the value. A new key goes to the end of the order; an existing key keeps its place. |
| `BackendTracker.NewNode` | tracker/backend/src/trackingStats.ts:71-112 | One node row appended under a fresh durable id. A location is stored under that id when one is given. The feed id's entry has fresh initial statistics and points at the new row. Every other entry is unchanged. A new feed id goes to the end of the key order; a re-announced one keeps its place. |
| `BackendTracker.NewBlock` | tracker/backend/src/trackingStats.ts:124-138 | An unknown id is a no-op. For a known id, only that entry's statistics change (WithBlock) and its durable id stays. |
| `BackendTracker.UpdatedNodeStats` | tracker/backend/src/trackingStats.ts:141-149 | An unknown id is a no-op. For a known id, only that entry's gauges change. |
| `BackendTracker.KnownDbId` | tracker/backend/src/trackingStats.ts:159-161 | In a consistent registry, the durable id is truthy exactly when the feed id has an entry. |
| `BackendTracker.UpdatedLocation` | tracker/backend/src/trackingStats.ts:151-184 | With a known durable id, that node's single location becomes the new one. Otherwise the update is postponed while the count is below 10, and abandoned after that. |
| `BackendTracker.FireRetry` | tracker/backend/src/trackingStats.ts:173-178 | The earliest postponed update runs again with its count incremented, and the registry stays consistent. |
| `BackendTracker.RemovedNode` | tracker/backend/src/trackingStats.ts:186-188 | Exactly that key is deleted, from the Map and from the key order. The tables and the other entries are unchanged. |
| `BackendTracker.FindByPk` | tracker/backend/src/trackingStats.ts:221 | `findByPk` finds a row exactly when the id is a stored row's id. |
| `BackendTracker.EntryFor` | tracker/backend/src/trackingStats.ts:216-233 | The row belongs to the entry's durable id, counts its blocks and carries its two means and the timestamp. Uptime is measured from the stored row's startup time, and is null when no row is found. |
| `BackendTracker.EntryAt` | tracker/backend/src/trackingStats.ts:193 | Every key in the order has an entry, and that entry refers to a stored row. |
| `BackendTracker.Entries` | tracker/backend/src/trackingStats.ts:193 | The saved entries are the Map's values in its key order, each referring to a stored row. |
| `BackendTracker.Rows` | tracker/backend/src/trackingStats.ts:206-233 | One history row per saved entry, in order, each built by `EntryFor`. |
| `BackendTracker.ResetAll` | tracker/backend/src/trackingStats.ts:196-202 | The part before the first `await`: every accumulator is reset, and the keys, the order, the durable ids, the gauges, the best blocks and the tables are kept. |
| `BackendTracker.WriteRows` | tracker/backend/src/trackingStats.ts:206-233 | The awaited part: the rows of the saved entries are appended to the history, and nothing else changes. |
| `BackendTracker.FlushEntries` | tracker/backend/src/trackingStats.ts:206-231 | One row per Map entry, in Map order, each built from the entry as read before the reset. |
| `BackendTracker.Snapshot` | tracker/backend/src/trackingStats.ts:190-234 | `ResetAll` followed directly by `WriteRows`. The keys, the order, the durable ids, the gauges and the best blocks are kept. Every accumulator is reset. The flushed rows are appended. |
| `BackendTracker.FlushedRow` | tracker/backend/src/trackingStats.ts:206-231 | Each row belongs to its entry's durable id and carries the pre-flush block count, the pre-flush means, the timestamp, and the uptime from its node row's startup time. |
| `BackendTracker.FlushTwice` | tracker/backend/src/trackingStats.ts:193-231 | A second flush with no events in between writes one row per entry, each with no blocks and null averages. |
| `BackendTracker.NewBlocks` | tracker/backend/src/trackingStats.ts:115-139 | A run of imports keeps the registry consistent and its key set unchanged. |
| `BackendTracker.NewBlocksOnEntry` | tracker/backend/src/trackingStats.ts:115-139 | A run of imports for a known node changes only that entry's statistics, accumulating the whole run. |
| `BackendTracker.NextIntervalSeesOnlyLaterBlocks` | tracker/backend/src/trackingStats.ts:193-202 | After a completed flush, an entry's accumulators hold exactly the imports that came after it. |
| `BackendTracker.BlocksDuringFlushGoToNextInterval` | tracker/backend/src/trackingStats.ts:193-233 | Reset before write: blocks imported between the reset and the writes are accumulated for the next interval, while the rows written carry the values read before the reset. |
| `BackendTracker.ReAddGetsNewDbId` | tracker/backend/src/trackingStats.ts:71-99 | A node removed and announced again gets a new durable id. |
| `BackendTracker.RetryFiringUsesBudget` | tracker/backend/src/trackingStats.ts:173-178 | Every firing of a retry timer strictly lowers the total number of attempts left, so postponement terminates. |
| `BackendTracker.FiredRetryGoesToBack` | tracker/backend/src/trackingStats.ts:159-183 | With any queue: the earliest retry applies its location when the node is now known; otherwise it goes to the back with its count raised, or is dropped at ten. The other retries keep their order. |
| `BackendTracker.FireTimes` | tracker/backend/src/trackingStats.ts:173-178 | Any number of firings keeps the registry consistent. |
| `BackendTracker.UnknownLocationAbandoned` | tracker/backend/src/trackingStats.ts:173-183 | For a node that never becomes known: after k < 10 firings one retry with count k is pending, and the tenth firing leaves the registry as it was. |
| `BackendTracker.FireTimesLast` | tracker/backend/src/trackingStats.ts:175-177 | Firing n+1 times is firing n times and then once more. |
| `BackendTracker.LateNodeGetsLocation` | tracker/backend/src/trackingStats.ts:159-178 | A location that arrives before its node is applied by the first retry after the node is added. |
| `BackendTracker.EndToEnd` | tracker/backend/src/trackingStats.ts:98-233 | Announce with 100 ms, then import 200 ms propagated in 50 ms, then flush: the row has 2 blocks, a 150 ms average and a 50 ms propagation average. After removal the node's blocks are dropped, and re-announcing gives a new durable id. |
| `BackendTracker.NodeStatsTracker.constructor` | tracker/backend/src/trackingStats.ts:25-34 | An empty Map and no pending retries, over the node, location and history tables as the database holds them. |
| `BackendTracker.NodeStatsTracker.HandleNewNode` | tracker/backend/src/trackingStats.ts:36-113 | The new state is `NewNode` of the old one, and the invariant is kept. |
| `BackendTracker.NodeStatsTracker.HandleNewBlock` | tracker/backend/src/trackingStats.ts:115-139 | The new state is `NewBlock` of the old one. |
| `BackendTracker.NodeStatsTracker.HandleUpdatedNodeStats` | tracker/backend/src/trackingStats.ts:141-149 | The new state is `UpdatedNodeStats` of the old one. |
| `BackendTracker.NodeStatsTracker.HandleUpdatedLocation` | tracker/backend/src/trackingStats.ts:151-184 | The new state is `UpdatedLocation` of the old one. |
| `BackendTracker.NodeStatsTracker.FireLocationRetry` | tracker/backend/src/trackingStats.ts:175-177 | The new state is `FireRetry` of the old one. |
| `BackendTracker.NodeStatsTracker.HandleRemovedNode` | tracker/backend/src/trackingStats.ts:186-188 | The new state is `RemovedNode` of the old one. |
| `BackendTracker.NodeStatsTracker.SaveSnapshot` | tracker/backend/src/trackingStats.ts:190-234 | `ResetStats`, then `WriteHistory`, produce `Snapshot` of the old state. |
| `BackendTracker.NodeStatsTracker.ResetStats` | tracker/backend/src/trackingStats.ts:192-202 | Returns the saved entries (`Entries` of the old state), and the new state is `ResetAll` of the old one. |
| `BackendTracker.NodeStatsTracker.WriteHistory` | tracker/backend/src/trackingStats.ts:206-233 | The write loop: the new state is `WriteRows` of the old one. |
| `LowdbTracker.RecordOf` | src/trackingStats.ts:65-76 | The pushed record has the node's id, name, implementation, version and location, an empty history, and the startup time as `StoredStartup` leaves it (undefined when 0). |
| `LowdbTracker.Find` | src/trackingStats.ts:58-61 | `find` returns the position of the first record with the id, or nothing when no record has it. |
| `LowdbTracker.NewNode` | src/trackingStats.ts:57-106 | An id with no record gets one new record with empty history. Otherwise only that record's name, startup time and location are reassigned; a missing location clears it. The Map entry is always replaced by fresh statistics. |
| `LowdbTracker.NewBlock` | src/trackingStats.ts:109-133 | An unknown id is a no-op. Otherwise only that entry's statistics change (WithBlock). The store is untouched. |
| `LowdbTracker.UpdatedNodeStats` | src/trackingStats.ts:135-143 | An unknown id is a no-op. Otherwise only that entry's gauges change. The store is untouched. |
| `LowdbTracker.UpdatedLocation` | src/trackingStats.ts:145-158 | The first record with the id gets the location and no other record changes. No record means no change; there is no retry. |
| `LowdbTracker.VisitNode` | src/trackingStats.ts:169-203 | One visit keeps the number of records, their ids and the Map's key set. |
| `LowdbTracker.SnapshotPrefix` | src/trackingStats.ts:167-205 | Visiting the first n records keeps the number of records, their ids and the Map's key set. |
| `LowdbTracker.Snapshot` | src/trackingStats.ts:160-208 | A flush keeps the number of records and the Map's key set. |
| `LowdbTracker.NewNodeKeepsInvariants` | src/trackingStats.ts:57-106 | Every tracked id keeps a stored record. Record ids stay unique. |
| `LowdbTracker.ReAddKeepsRecord` | src/trackingStats.ts:79-91 | Re-announcing a stored id adds no record and keeps that record's id and history. |
| `LowdbTracker.UpdatedLocationKeepsInvariants` | src/trackingStats.ts:150-155 | Every tracked id keeps a stored record. Record ids stay unique. |
| `LowdbTracker.FindPrefixStep` | src/trackingStats.ts:169-170 | An id occurs among the first n+1 records exactly when it occurs among the first n or is the id of record n. |
| `LowdbTracker.NotVisitedBefore` | src/trackingStats.ts:169-177 | With unique ids, no earlier visit has reset the entry of the record being visited. |
| `LowdbTracker.SampleFor` | src/trackingStats.ts:179-202 | The sample carries the timestamp, the uptime from the record's startup time, and the entry's gauges and best block. Its block count and means are the pre-flush ones, or 0 and null when an earlier record with the same id already reset the entry. |
| `LowdbTracker.StatsStep` | src/trackingStats.ts:170-177 | One more visit resets the entry of the visited record's id, if it has one. |
| `LowdbTracker.NodesStep` | src/trackingStats.ts:170-202 | One more visit appends one sample, of the values the Map holds at that visit, to the visited record when its id has an entry. |
| `LowdbTracker.SnapshotPrefixDone` | src/trackingStats.ts:167-205 | After n visits: visited records with an entry got one sample each, all other records are as they were, and exactly the entries of visited ids are reset. |
| `LowdbTracker.SnapshotEffect` | src/trackingStats.ts:167-205 | For any store, duplicate ids included, a flush appends exactly one sample to each record whose id has an entry and none to the others. Old history is kept. Tracked ids with a record are reset; tracked ids without one keep their accumulators. |
| `LowdbTracker.SameIdsSameFind` | src/trackingStats.ts:151 | `find` depends only on the records' ids. |
| `LowdbTracker.SnapshotKeepsConsistent` | src/trackingStats.ts:167-205 | A flush keeps every tracked id's record. |
| `LowdbTracker.SnapshotResetsAll` | src/trackingStats.ts:169-177 | In a registry that keeps its invariant, a flush resets every entry, whether or not ids repeat in the store. |
| `LowdbTracker.SnapshotSamplesPreFlush` | src/trackingStats.ts:170-202 | With one record per id, each new sample carries its entry's values from before the flush. |
| `LowdbTracker.NodeStatsTracker.constructor` | src/trackingStats.ts:18-20 | An empty Map over the store's records as loaded. |
| `LowdbTracker.NodeStatsTracker.HandleNewNode` | src/trackingStats.ts:25-107 | The new state is `NewNode` of the old one, and the invariant is kept. |
| `LowdbTracker.NodeStatsTracker.HandleNewBlock` | src/trackingStats.ts:109-133 | The new state is `NewBlock` of the old one. |
| `LowdbTracker.NodeStatsTracker.HandleUpdatedNodeStats` | src/trackingStats.ts:135-143 | The new state is `UpdatedNodeStats` of the old one. |
| `LowdbTracker.NodeStatsTracker.HandleUpdatedLocation` | src/trackingStats.ts:145-158 | The new state is `UpdatedLocation` of the old one. |
| `LowdbTracker.NodeStatsTracker.SaveSnapshot` | src/trackingStats.ts:160-208 | The `each` loop over the records produces `Snapshot` of the old state, and the invariant is kept. |
| `BackendFeed.Dispatch` | tracker/backend/src/index.ts:68-230 | Routing: AddedNode to handleNewNode (also cancels the liveness timer), RemovedNode to handleRemovedNode, LocatedNode to handleUpdatedLocation with count 0, ImportedBlock to handleNewBlock, NodeStats to handleUpdatedNodeStats, Pong to the pong case. Every other tag, the default included, changes nothing. |
| `BackendFeed.Run` | tracker/backend/src/index.ts:66-232 | A batch keeps the registry consistent. Nothing is handled once the process has exited. |
| `BackendFeed.RunKeepsViewOk` | tracker/backend/src/index.ts:66-232 | A batch keeps the connection's shape, the registry's invariant, and keeps the liveness timer armed only after open. |
| `BackendFeed.RunAppend` | tracker/backend/src/index.ts:67 | Messages are handled in sequence: two batches in a row equal their concatenation. |
| `BackendFeed.UnexpectedPongDropsRest` | tracker/backend/src/index.ts:190-196 | A mismatched pong exits the process, so no later message of the batch is handled. |
| `BackendFeed.UnexpectedPongStops` | tracker/backend/src/index.ts:190-196 | A batch that starts with a mismatched pong ends with the process exited and nothing else changed. |
| `BackendFeed.NoPongKeepsLink` | tracker/backend/src/index.ts:68-230 | A batch without pongs leaves the connection state as it was. |
| `BackendFeed.AddedNodeDisarms` | tracker/backend/src/index.ts:89-92 | A batch containing an AddedNode cancels the liveness timer. |
| `BackendFeed.StaysDisarmed` | tracker/backend/src/index.ts:89-92 | Once cancelled, the liveness timer is never armed again by messages. |
| `BackendFeed.RemovedNodeDropsLaterBlocks` | tracker/backend/src/index.ts:97-126 | After RemovedNode, an ImportedBlock for that id is dropped. |
| `BackendFeed.Client.constructor` | tracker/backend/src/index.ts:18-27 | Before open: no ping sent, counter 0, nothing outstanding, liveness timer not armed. |
| `BackendFeed.Client.OnOpen` | tracker/backend/src/index.ts:29-52 | Arms the liveness timer and sends the subscription once. |
| `BackendFeed.Client.OnLivenessTimeout` | tracker/backend/src/index.ts:32-38 | The liveness timer firing is fatal. |
| `BackendFeed.Client.OnUnexpectedResponse` | tracker/backend/src/index.ts:54-58 | An unexpected response is fatal. |
| `BackendFeed.Client.OnPingInterval` | tracker/backend/src/index.ts:42-51 | The new connection state is `PingTick` of the old one. |
| `BackendFeed.Client.OnLocationRetry` | tracker/backend/src/trackingStats.ts:175-177 | The earliest postponed location timer fires between frames: the registry becomes `FireRetry` of the old one, and the connection is unchanged. |
| `BackendFeed.Client.OnSnapshotInterval` | tracker/backend/src/index.ts:234-237 | The interval runs the tracker's flush. |
| `BackendFeed.Client.HandleMessage` | tracker/backend/src/index.ts:68-230 | One switch case has the effect of `Dispatch`. |
| `BackendFeed.Client.HandleMessages` | tracker/backend/src/index.ts:66-232 | The `for…of` loop has the effect of `Run`, and the invariant is kept. |
| `LowdbFeed.Dispatch` | src/index.ts:68-225 | Routing: AddedNode, LocatedNode, ImportedBlock and NodeStats go to the tracker, Pong to the pong case. RemovedNode and every other tag change nothing. |
| `LowdbFeed.Run` | src/index.ts:66-227 | Nothing is handled once the process has exited. |
| `LowdbFeed.DispatchKeepsViewOk` | src/index.ts:68-225 | One message keeps the connection's shape and the registry's invariant. |
| `LowdbFeed.RunKeepsViewOk` | src/index.ts:66-227 | A batch keeps the connection's shape and the registry's invariant. |
| `LowdbFeed.RunAppend` | src/index.ts:67 | Messages are handled in sequence: two batches in a row equal their concatenation. |
| `LowdbFeed.UnexpectedPongDropsRest` | src/index.ts:185-191 | A mismatched pong exits the process, so no later message of the batch is handled. |
| `LowdbFeed.UnexpectedPongStops` | src/index.ts:185-191 | A batch that starts with a mismatched pong ends with the process exited and nothing else changed. |
| `LowdbFeed.RemovedNodeKeepsAccumulating` | src/index.ts:94-99 | RemovedNode only logs, so blocks reported afterwards still accumulate. |
| `LowdbFeed.Client.constructor` | src/index.ts:20-24 | Before connect: no ping sent, counter 0, nothing outstanding. |
| `LowdbFeed.Client.OnConnect` | src/index.ts:31-64 | Sends the subscription once, before any ping. |
| `LowdbFeed.Client.OnConnectionFailure` | src/index.ts:26-43 | Connect failure, connection error and close are fatal. |
| `LowdbFeed.Client.OnPingInterval` | src/index.ts:54-63 | The new connection state is `PingTick` of the old one. |
| `LowdbFeed.Client.OnSnapshotInterval` | src/index.ts:229-232 | The interval runs the tracker's flush. |
| `LowdbFeed.Client.HandleMessage` | src/index.ts:68-225 | One switch case has the effect of `Dispatch`. |
| `LowdbFeed.Client.HandleMessages` | src/index.ts:66-227 | The `for…of` loop has the effect of `Run`, and the invariant is kept. |

## Left out

- **Asynchronous interleaving.** Every tracker operation runs to completion as one step. The model therefore excludes these orderings:
  - the un-awaited `handleNewNode` of the backend finishing after later messages of the same batch, which is why early block imports can be dropped and early locations postponed;
  - messages handled while `saveSnaphot` awaits its database writes. The two phases are separate functions (`BackendTracker.ResetAll`, `BackendTracker.WriteRows`) and methods, and `BackendTracker.BlocksDuringFlushGoToNextInterval` states what imports between them do. But `BackendFeed.Client.OnSnapshotInterval` runs the two phases back to back;
  - lowdb's `await dbPromise` deferring `handleNewNode` and `handleUpdatedLocation`.
  
  Postponed location timers are modelled as separate steps.
- **Writes to the store.** Database and file writes always succeed. The un-awaited lowdb `.write()` is treated as immediate. Failed writes, and the history they would lose, are not modelled.
- **Transport.** The WebSocket transport, frame decoding (`FeedMessage.deserialize`), the `ACTIONS` table and debug logging are not modelled. Messages arrive already decoded, and the payloads the trackers and clients do not read are dropped.
- **Timers.** `setTimeout`/`setInterval` scheduling is only modelled as the timer-callback methods. Their periods (30 s, one second, the flush interval) are not.
- **Shutdown.** `client.close()` before `process.exit()` is subsumed by the `fatal` flag.
- **Numbers.**
  - JavaScript numbers are unbounded integers here. BN's `toNumber` on a huge mean, and `parseInt` of ids beyond 2^53, are not modelled.
  - Latitude and longitude are `real`.
  - `parseInt` skips the six ASCII white-space characters only, not the other Unicode ones.
- **Unused fields.** NodeIO, NodeHardware, address and network id on the lowdb side, and the messages both clients ignore, carry no state.
- **Startup.** `tracker.init()` (`db.sync()`) and the Sequelize and lowdb schema declarations are not modelled. The tables and the lowdb store are constructor arguments, holding what the database or file held at startup.
- **Clock reads.** `Feed.PingTick` requires a clock reading above 0, because 0 would read as "no ping outstanding"; `Date.now()` is always positive.
- **Duplicate lowdb ids.** A loaded file may hold two records with one id. The flush then gives the later record a sample of already-reset statistics (`LowdbTracker.SampleFor`). Only `LowdbTracker.SnapshotSamplesPreFlush` assumes one record per id. That holds for every store the tracker builds from an empty or duplicate-free file, since `handleNewNode` only pushes missing ids.
