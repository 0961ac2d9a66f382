/** The per-peer protocol handler contract (Eth), restricted to what the
    long-sync strategy reads and commands: the peer's sync state, the
    queries over it, the transaction-relay flag and the header-bunch count
    of its sync statistics. */
module Eth {
  import opened SyncStates

  class Peer {
    /** The peer's own sync sub-state. */
    var syncState: SyncStateName
    /** Whether pending transactions are relayed to this peer. */
    var txEnabled: bool
    /** getStats().getHeaderBunchesCount(): header batches received so far. */
    var headerBunches: nat

    constructor (syncState: SyncStateName, txEnabled: bool, headerBunches: nat)
      ensures this.syncState == syncState && this.txEnabled == txEnabled
      ensures this.headerBunches == headerBunches
    {
      this.syncState := syncState;
      this.txEnabled := txEnabled;
      this.headerBunches := headerBunches;
    }

    /** isHashRetrievingDone */
    predicate IsHashRetrievingDone()
      reads this
    {
      syncState == DoneHashRetrieving
    }

    /** isHashRetrieving */
    predicate IsHashRetrieving()
      reads this
    {
      syncState == HashRetrieving
    }

    /** isIdle */
    predicate IsIdle()
      reads this
    {
      syncState == Idle
    }

    /** changeState: the new sync state is the given one, whatever the old
        one was, and nothing else about the peer changes. */
    method ChangeState(newState: SyncStateName)
      modifies this
      ensures syncState == newState
      ensures txEnabled == old(txEnabled) && headerBunches == old(headerBunches)
      ensures IsHashRetrievingDone() <==> newState == DoneHashRetrieving
      ensures IsHashRetrieving() <==> newState == HashRetrieving
      ensures IsIdle() <==> newState == Idle
    {
      syncState := newState;
    }

    /** disableTransactions */
    method DisableTransactions()
      modifies this
      ensures !txEnabled
      ensures syncState == old(syncState) && headerBunches == old(headerBunches)
    {
      txEnabled := false;
    }

    /** enableTransactions */
    method EnableTransactions()
      modifies this
      ensures txEnabled
      ensures syncState == old(syncState) && headerBunches == old(headerBunches)
    {
      txEnabled := true;
    }
  }

  /** At most one of the three sync-state queries holds of a peer, and
      exactly one holds unless the peer is retrieving block bodies. */
  lemma QueriesExclusive(p: Peer)
    ensures !(p.IsHashRetrievingDone() && p.IsHashRetrieving())
    ensures !(p.IsHashRetrievingDone() && p.IsIdle())
    ensures !(p.IsHashRetrieving() && p.IsIdle())
    ensures p.IsHashRetrievingDone() || p.IsHashRetrieving() || p.IsIdle()
            <==> p.syncState != BlockRetrieving
  {
  }

  /** Changing a peer's state twice to the same value leaves it exactly as
      changing it once does. */
  method ChangeStateTwice(p: Peer, s: SyncStateName)
    modifies p
    ensures p.syncState == s
    ensures p.txEnabled == old(p.txEnabled) && p.headerBunches == old(p.headerBunches)
  {
    p.ChangeState(s);
    p.ChangeState(s);
  }
}
