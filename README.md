# Long-sync strategy and the Eth peer contract, in Dafny

This project models the block-synchronisation control loop of ethereumj's
long-sync strategy (`LongSync`) together with the slice of the per-peer
protocol-handler contract (`Eth`) that the loop reads and commands.

- `sync_state.dfy` (module `SyncStates`): the sync state names
  (`HashRetrieving`, `DoneHashRetrieving`, `BlockRetrieving`, `Idle`), which
  of them are strategy phases, and the cycle header retrieval → body
  retrieval → idle → header retrieval.
- `eth.dfy` (module `Eth`): a `Peer` class standing for a connected peer
  (the `Channel` that implements `Eth`). Its fields are the sync state, the
  transaction-relay flag and the header-bunch count of its sync statistics.
  Its predicates are the queries `isHashRetrievingDone`, `isHashRetrieving`
  and `isIdle`. Its methods are `changeState`, `disableTransactions` and
  `enableTransactions`.
- `long_sync.dfy` (module `Strategy`): the class `LongSync` with its `state`
  field and one method per source method (`doWork`/`maintainState`,
  `doHeaders`, `doBodies`, `doIdle`, `changeState`). The loop of `doHeaders`
  over the pool is the method `ScanPool`. The methods are specified by pure
  functions: `Scan` (the in-order scan of the pool) and `Decide` (the
  transition table of one tick). Lemmas state the transition table in terms
  of the peers.

The strategy's collaborators are inputs of a tick:
- the queue is a `QueueView` holding its three answers (limit exceeded,
  headers empty, more blocks needed);
- the pool is the sequence of its peers in iteration order;
- the pool's master election (`getMaster`) is the peer it would return, or
  `null`;
- a broadcast to the pool (`pool.changeState(BLOCK_RETRIEVING)`) is an
  event in the list each tick method returns.

Two details of the scan of the pool during header retrieval:
- Only the first peer in pool order that is done or retrieving is consulted.
  A done peer placed after a retrieving peer is never seen (`LaterDoneNotSeen`).
- A master is elected only when no peer's sync state is `HASH_RETRIEVING` or
  `DONE_HASH_RETRIEVING`.

## Model

| member | source | states |
|---|---|---|
| `Eth.Peer.IsHashRetrievingDone` | ethereumj-core/src/main/java/org/ethereum/net/eth/handler/Eth.java:51-54 | true exactly when `syncState` is DONE_HASH_RETRIEVING |
| `Eth.Peer.IsHashRetrieving` | ethereumj-core/src/main/java/org/ethereum/net/eth/handler/Eth.java:56-59 | true exactly when `syncState` is HASH_RETRIEVING |
| `Eth.Peer.IsIdle` | ethereumj-core/src/main/java/org/ethereum/net/eth/handler/Eth.java:61-64 | true exactly when `syncState` is IDLE |
| `Eth.Peer.ChangeState` | ethereumj-core/src/main/java/org/ethereum/net/eth/handler/Eth.java:44-64 | the sync state becomes the given one whatever it was, the relay flag and bunch count are untouched, and each of the three queries then holds exactly when the new state is its value |
| `Eth.ChangeStateTwice` | ethereumj-core/src/main/java/org/ethereum/net/eth/handler/Eth.java:44-49 | changing the state twice to the same value leaves the peer as one change does |
| `Eth.QueriesExclusive` | ethereumj-core/src/main/java/org/ethereum/net/eth/handler/Eth.java:51-64 | at most one of isHashRetrievingDone, isHashRetrieving, isIdle holds; one holds unless the peer retrieves bodies |
| `Eth.Peer.DisableTransactions` | ethereumj-core/src/main/java/org/ethereum/net/eth/handler/Eth.java:71-74 | relay is off afterwards; sync state and bunch count unchanged |
| `Eth.Peer.EnableTransactions` | ethereumj-core/src/main/java/org/ethereum/net/eth/handler/Eth.java:76-79 | relay is on afterwards; sync state and bunch count unchanged |
| `Strategy.LongSync.constructor` | ethereumj-core/src/main/java/org/ethereum/sync/strategy/LongSync.java:29 | a fresh strategy is in header retrieval |
| `Strategy.LongSync.DoWork` | ethereumj-core/src/main/java/org/ethereum/sync/strategy/LongSync.java:31-44 | one tick: new phase and broadcasts are those of `Decide` on the old state; the phase stays a strategy phase and moves at most one step along the cycle; at most one broadcast, issued iff the tick enters body retrieval; only the elected peer may change, and only its sync state, to HashRetrieving when promoted |
| `Strategy.LongSync.DoHeaders` | ethereumj-core/src/main/java/org/ethereum/sync/strategy/LongSync.java:46-86 | header retrieval tick agrees with `Decide`: queue limit first, then the scan, then rotation or election |
| `Strategy.LongSync.ScanPool` | ethereumj-core/src/main/java/org/ethereum/sync/strategy/LongSync.java:54-67 | the loop with early exits returns exactly the outcome of `Scan` |
| `Strategy.LongSync.DoBodies` | ethereumj-core/src/main/java/org/ethereum/sync/strategy/LongSync.java:88-90 | moves to Idle iff headers are empty, otherwise stays; no broadcast |
| `Strategy.LongSync.DoIdle` | ethereumj-core/src/main/java/org/ethereum/sync/strategy/LongSync.java:92-94 | moves to HashRetrieving iff more blocks are needed, otherwise stays; no broadcast |
| `Strategy.LongSync.ChangeState` | ethereumj-core/src/main/java/org/ethereum/sync/strategy/LongSync.java:96-104 | the phase becomes the given one; one broadcast iff it is BlockRetrieving |
| `Strategy.Scan` | ethereumj-core/src/main/java/org/ethereum/sync/strategy/LongSync.java:54-67 | Done iff some peer is done and every peer before it is neither done nor retrieving; Found(i) names a retrieving peer with no such peer before it; NotFound iff no peer is done or retrieving |
| `Strategy.ScanFirstDecisive` | ethereumj-core/src/main/java/org/ethereum/sync/strategy/LongSync.java:54-67 | the first peer that is done or retrieving determines the scan outcome |
| `Strategy.LaterDoneNotSeen` | ethereumj-core/src/main/java/org/ethereum/sync/strategy/LongSync.java:54-67 | a done peer after the first retrieving peer is not seen: that retrieving peer is the master |
| `Strategy.ScanAppend` | ethereumj-core/src/main/java/org/ethereum/sync/strategy/LongSync.java:54-67 | scanning front + back gives the front's outcome when it is decided, else the back's outcome at the back's offset |
| `Strategy.Decide` | ethereumj-core/src/main/java/org/ethereum/sync/strategy/LongSync.java:35-94 | a tick either stays, moves one step along the phase cycle, or promotes the elected peer; promotion only in header retrieval, below the queue limit, with no peer done or retrieving |
| `Strategy.QueueLimitFirst` | ethereumj-core/src/main/java/org/ethereum/sync/strategy/LongSync.java:48-52 | queue limit exceeded: move to body retrieval with one broadcast, for every pool and every elected peer, so no peer is consulted or promoted |
| `Strategy.HeadersByFirstDecisive` | ethereumj-core/src/main/java/org/ethereum/sync/strategy/LongSync.java:54-85 | first decisive peer done: body retrieval; retrieving: body retrieval iff its bunch count exceeds 100, else stay |
| `Strategy.HeadersElection` | ethereumj-core/src/main/java/org/ethereum/sync/strategy/LongSync.java:69-77 | no peer done or retrieving: promote the elected peer if there is one, otherwise nothing happens |
| `Strategy.RotationBoundary` | ethereumj-core/src/main/java/org/ethereum/sync/strategy/LongSync.java:81-84 | a master with 101 bunches is rotated away, one with exactly 100 is kept |
| `Strategy.BodiesAndIdle` | ethereumj-core/src/main/java/org/ethereum/sync/strategy/LongSync.java:88-94 | body retrieval ends iff headers are empty, idling ends iff more blocks are needed, otherwise the phase stays; neither broadcasts |
| `Strategy.TickShape` | ethereumj-core/src/main/java/org/ethereum/sync/strategy/LongSync.java:96-104 | from any strategy phase the next phase is a strategy phase, the same or the next in the cycle; at most one broadcast, issued iff the tick enters body retrieval |
| `Strategy.EmptyPoolStays` | ethereumj-core/src/main/java/org/ethereum/sync/strategy/LongSync.java:69-75 | empty pool, queue below limit, nothing to elect: the phase stays and nobody is promoted |
| `Strategy.SoleDonePeer` | ethereumj-core/src/main/java/org/ethereum/sync/strategy/LongSync.java:57-60 | a pool whose only peer is done: one tick enters body retrieval with exactly one broadcast |

## Left out

- Logging (`logger` calls in `LongSync`) and `logSyncStats`: observability only.
- `hasStatusPassed`, `hasStatusSucceeded`: the interface states no relation between them.
- `onShutdown`, `sendTransaction`, `sendNewBlock`, `sendNewBlockHashes`, `getVersion`,
  `onSyncDone`, `sendStatus` and `recoverGap`: wire I/O and cleanup with no visible body.
- `getStats`: only the header-bunch count is kept, as the peer field `headerBunches`,
  an unbounded natural number; the rest of `SyncStatistics` is not part of this model.
- `SyncQueue`: its internals are not part of this model. A tick reads its three answers
  as fixed values, although the code asks for each one when it needs it.
- `PeerPool.getMaster`: its election policy and any side effect of electing are not part
  of this model. The elected peer is an input, consulted only when the scan finds no peer.
- `PeerPool.changeState`: what a broadcast does to the peers is not part of this model.
  The broadcast is recorded as an event and the peers are left as they were.
- `Channel`: not part of this model. A peer's initial sync state, relay flag and bunch
  count are arguments of the `Peer` constructor.
- The scheduling and threading of `AbstractSyncStrategy` and the Spring wiring: ticks
  are modelled one at a time, with no concurrent peer activity during a tick.
