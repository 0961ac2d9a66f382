/** The sync state names shared by the strategy and the peer handlers
    (org.ethereum.sync.state.SyncStateName). The long-sync strategy uses
    the first, third and fourth as its own phase; a peer may additionally
    report that it has finished retrieving headers. */
module SyncStates {

  datatype SyncStateName = HashRetrieving | DoneHashRetrieving | BlockRetrieving | Idle

  /** The phases the long-sync strategy itself can be in. */
  predicate IsStrategyPhase(s: SyncStateName) {
    s != DoneHashRetrieving
  }

  /** The cycle the long-sync phases follow: header retrieval, then body
      retrieval, then idle, then header retrieval again. */
  function Following(phase: SyncStateName): (next: SyncStateName)
    requires IsStrategyPhase(phase)
    ensures IsStrategyPhase(next) && next != phase
  {
    match phase
    case HashRetrieving => BlockRetrieving
    case BlockRetrieving => Idle
    case Idle => HashRetrieving
  }
}
