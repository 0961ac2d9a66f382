/** The long-sync strategy: a periodic control loop that drives the peer
    pool and the sync queue through header retrieval, body retrieval and
    idle phases, electing a master peer for headers and rotating it away
    once it has served too many header bunches.

    The queue is seen through the three answers a tick asks of it, the pool
    as the sequence of its peers in iteration order, and the pool's master
    election (getMaster) as the peer it would hand out, or null. A broadcast
    of a phase to the pool (PeerPool.changeState) is reported as an event in
    the list a tick returns. */
module Strategy {
  import opened SyncStates
  import opened Eth

  /** A master peer that has served more header bunches than this is rotated. */
  const RotationLimit: nat := 100

  /** The answers of SyncQueue that a tick reads. */
  datatype QueueView = QueueView(limitExceeded: bool, headersEmpty: bool, moreBlocksNeeded: bool)

  /** What the in-order scan of the pool during header retrieval finds. */
  datatype ScanOutcome =
    | Done              // the first peer that matters has finished retrieving headers
    | Found(index: nat) // the first peer that matters is retrieving headers: the master
    | NotFound          // no peer is retrieving headers or done with them

  /** What a tick does: keep the phase, move to another phase, or keep the
      phase and make the given peer the master for header retrieval. */
  datatype Decision = Stay | Move(to: SyncStateName) | Promote(master: Peer)

  /** A peer that ends the scan: done with headers or retrieving them. */
  predicate Decisive(p: Peer)
    reads p
  {
    p.IsHashRetrievingDone() || p.IsHashRetrieving()
  }

  /** None of the first k peers of the pool ends the scan. */
  predicate Undecided(pool: seq<Peer>, k: nat)
    requires k <= |pool|
    reads pool
  {
    forall j :: 0 <= j < k ==> !Decisive(pool[j])
  }

  /** The scan of the pool in iteration order: the first peer that is done
      or retrieving decides the outcome; later peers are not looked at. */
  function Scan(pool: seq<Peer>): (r: ScanOutcome)
    reads pool
    ensures r.Done? <==>
      exists i :: 0 <= i < |pool| && pool[i].IsHashRetrievingDone() && Undecided(pool, i)
    ensures r.Found? ==>
      r.index < |pool| && pool[r.index].IsHashRetrieving() && Undecided(pool, r.index)
    ensures r.NotFound? <==> Undecided(pool, |pool|)
    decreases |pool|
  {
    if pool == [] then NotFound
    else if pool[0].IsHashRetrievingDone() then Done
    else if pool[0].IsHashRetrieving() then Found(0)
    else
      var rest := Scan(pool[1..]);
      assert forall j :: 1 <= j <= |pool| ==> (Undecided(pool, j) <==> Undecided(pool[1..], j - 1));
      match rest
      case Found(i) => Found(i + 1)
      case _ => rest
  }

  /** The transition table of one tick (maintainState with doHeaders,
      doBodies and doIdle), as a decision taken on the state before it. */
  function Decide(phase: SyncStateName, queue: QueueView, pool: seq<Peer>, elected: Peer?): (d: Decision)
    reads pool
    ensures d.Move? ==> IsStrategyPhase(phase) && d.to == Following(phase)
    ensures d.Promote? ==>
      phase == HashRetrieving && !queue.limitExceeded && Undecided(pool, |pool|) && d.master == elected
    ensures !IsStrategyPhase(phase) ==> d == Stay
  {
    match phase
    case HashRetrieving =>
      if queue.limitExceeded then Move(BlockRetrieving)
      else
        (match Scan(pool)
         case Done => Move(BlockRetrieving)
         case Found(i) => if pool[i].headerBunches > RotationLimit then Move(BlockRetrieving) else Stay
         case NotFound => if elected == null then Stay else Promote(elected))
    case BlockRetrieving => if queue.headersEmpty then Move(Idle) else Stay
    case Idle => if queue.moreBlocksNeeded then Move(HashRetrieving) else Stay
    case DoneHashRetrieving => Stay
  }

  /** The phase after a tick that took decision d. */
  function PhaseAfter(phase: SyncStateName, d: Decision): SyncStateName {
    if d.Move? then d.to else phase
  }

  /** The pool broadcasts a tick that took decision d issues. */
  function BroadcastsOf(d: Decision): seq<SyncStateName> {
    if d == Move(BlockRetrieving) then [BlockRetrieving] else []
  }

  /** Moves a scan outcome of a later part of the pool to the pool's indices. */
  function Shifted(r: ScanOutcome, offset: nat): ScanOutcome {
    if r.Found? then Found(r.index + offset) else r
  }

  /** The first peer that is done or retrieving decides the scan. */
  lemma ScanFirstDecisive(pool: seq<Peer>, i: nat)
    requires i < |pool| && Decisive(pool[i]) && Undecided(pool, i)
    ensures Scan(pool) == if pool[i].IsHashRetrievingDone() then Done else Found(i)
  {
  }

  /** The scan stops at the master: a peer done with headers that comes
      after a retrieving peer is never seen. */
  lemma LaterDoneNotSeen(pool: seq<Peer>, i: nat, j: nat)
    requires i < j < |pool| && Undecided(pool, i)
    requires pool[i].IsHashRetrieving() && pool[j].IsHashRetrievingDone()
    ensures Scan(pool) == Found(i)
  {
    ScanFirstDecisive(pool, i);
  }

  /** Scanning a pool in two parts: peers after the first decisive peer of
      the front part do not matter; when the front has none, the outcome is
      the back part's, at the back part's position in the pool. */
  lemma {:induction false} ScanAppend(front: seq<Peer>, back: seq<Peer>)
    ensures Scan(front + back) == if Scan(front).NotFound? then Shifted(Scan(back), |front|) else Scan(front)
    decreases |front|
  {
    if front == [] {
      assert front + back == back;
    } else {
      assert (front + back)[0] == front[0];
      assert (front + back)[1..] == front[1..] + back;
      if !Decisive(front[0]) {
        ScanAppend(front[1..], back);
      }
    }
  }

  /** With the queue limit exceeded, header retrieval moves to body
      retrieval whatever the pool holds and whatever peer the pool would
      elect: no peer is looked at and none is promoted. */
  lemma QueueLimitFirst(queue: QueueView, pool: seq<Peer>, elected: Peer?)
    requires queue.limitExceeded
    ensures Decide(HashRetrieving, queue, pool, elected) == Move(BlockRetrieving)
    ensures BroadcastsOf(Decide(HashRetrieving, queue, pool, elected)) == [BlockRetrieving]
  {
  }

  /** The first decisive peer of the pool, if done, ends header retrieval;
      if retrieving, it is the master, and header retrieval ends exactly
      when that master has served more than RotationLimit header bunches. */
  lemma HeadersByFirstDecisive(queue: QueueView, pool: seq<Peer>, elected: Peer?, i: nat)
    requires !queue.limitExceeded
    requires i < |pool| && Decisive(pool[i]) && Undecided(pool, i)
    ensures pool[i].IsHashRetrievingDone() ==> Decide(HashRetrieving, queue, pool, elected) == Move(BlockRetrieving)
    ensures pool[i].IsHashRetrieving() ==>
      Decide(HashRetrieving, queue, pool, elected) ==
        if pool[i].headerBunches > RotationLimit then Move(BlockRetrieving) else Stay
  {
    ScanFirstDecisive(pool, i);
  }

  /** With no peer done or retrieving, the peer the pool elects (if any) is
      promoted to master and the phase stays; without one nothing happens. */
  lemma HeadersElection(queue: QueueView, pool: seq<Peer>, elected: Peer?)
    requires !queue.limitExceeded
    requires forall j :: 0 <= j < |pool| ==> !pool[j].IsHashRetrievingDone() && !pool[j].IsHashRetrieving()
    ensures Decide(HashRetrieving, queue, pool, elected) == if elected == null then Stay else Promote(elected)
  {
  }

  /** Rotation at the boundary: a sole retrieving master with 101 bunches
      is rotated away, one with 100 is kept. */
  lemma RotationBoundary(queue: QueueView, master: Peer, elected: Peer?)
    requires !queue.limitExceeded && master.IsHashRetrieving()
    ensures master.headerBunches == RotationLimit + 1 ==>
      Decide(HashRetrieving, queue, [master], elected) == Move(BlockRetrieving)
    ensures master.headerBunches == RotationLimit ==>
      Decide(HashRetrieving, queue, [master], elected) == Stay
  {
    HeadersByFirstDecisive(queue, [master], elected, 0);
  }

  /** Body retrieval ends iff the queue has no headers left; idling ends iff
      the queue needs more blocks; neither issues a broadcast. */
  lemma BodiesAndIdle(queue: QueueView, pool: seq<Peer>, elected: Peer?)
    ensures var d := Decide(BlockRetrieving, queue, pool, elected);
      (PhaseAfter(BlockRetrieving, d) == Idle <==> queue.headersEmpty) &&
      (!queue.headersEmpty ==> d == Stay) && BroadcastsOf(d) == []
    ensures var d := Decide(Idle, queue, pool, elected);
      (PhaseAfter(Idle, d) == HashRetrieving <==> queue.moreBlocksNeeded) &&
      (!queue.moreBlocksNeeded ==> d == Stay) && BroadcastsOf(d) == []
  {
  }

  /** A tick from any strategy phase ends in a strategy phase, one step
      along the cycle at most, and broadcasts once exactly when it enters
      body retrieval. */
  lemma TickShape(phase: SyncStateName, queue: QueueView, pool: seq<Peer>, elected: Peer?)
    requires IsStrategyPhase(phase)
    ensures var d := Decide(phase, queue, pool, elected);
      IsStrategyPhase(PhaseAfter(phase, d)) &&
      (PhaseAfter(phase, d) == phase || PhaseAfter(phase, d) == Following(phase)) &&
      (BroadcastsOf(d) != [] <==> PhaseAfter(phase, d) == BlockRetrieving && phase != BlockRetrieving) &&
      |BroadcastsOf(d)| <= 1
  {
  }

  /** An empty pool in header retrieval, with the queue below its limit and
      no peer to elect: the phase stays and no master is promoted. */
  lemma EmptyPoolStays(queue: QueueView)
    requires !queue.limitExceeded
    ensures Decide(HashRetrieving, queue, [], null) == Stay
  {
  }

  /** A pool whose only peer is done with headers: one tick enters body
      retrieval with exactly one broadcast. */
  lemma SoleDonePeer(queue: QueueView, p: Peer, elected: Peer?)
    requires p.IsHashRetrievingDone()
    ensures Decide(HashRetrieving, queue, [p], elected) == Move(BlockRetrieving)
    ensures BroadcastsOf(Decide(HashRetrieving, queue, [p], elected)) == [BlockRetrieving]
  {
  }

  class LongSync {
    /** The strategy's phase. */
    var state: SyncStateName

    /** The strategy's phase is never a peer-only state. */
    ghost predicate Valid()
      reads this
    {
      IsStrategyPhase(state)
    }

    /** A fresh strategy starts by retrieving headers. */
    constructor ()
      ensures Valid() && state == HashRetrieving
    {
      state := HashRetrieving;
    }

    /** doWork / maintainState: one tick of the control loop. The phase
        moves at most one step around the cycle; a broadcast, at most one,
        is issued exactly when the tick enters body retrieval; the only
        peer that may change is the elected one, and only its sync state. */
    method DoWork(queue: QueueView, pool: seq<Peer>, elected: Peer?) returns (sent: seq<SyncStateName>)
      requires Valid()
      modifies this, elected
      ensures Valid()
      ensures var d := old(Decide(state, queue, pool, elected));
        state == PhaseAfter(old(state), d) && sent == BroadcastsOf(d) &&
        (elected != null ==> elected.syncState == if d.Promote? then HashRetrieving else old(elected.syncState))
      ensures state == old(state) || state == Following(old(state))
      ensures |sent| <= 1
      ensures sent != [] <==> state == BlockRetrieving && old(state) != BlockRetrieving
      ensures elected != null ==>
        elected.txEnabled == old(elected.txEnabled) && elected.headerBunches == old(elected.headerBunches)
    {
      match state
      case HashRetrieving => sent := DoHeaders(queue, pool, elected);
      case BlockRetrieving => sent := DoBodies(queue);
      case Idle => sent := DoIdle(queue);
    }

    /** doHeaders: header retrieval. */
    method DoHeaders(queue: QueueView, pool: seq<Peer>, elected: Peer?) returns (sent: seq<SyncStateName>)
      requires state == HashRetrieving
      modifies this, elected
      ensures var d := old(Decide(state, queue, pool, elected));
        state == PhaseAfter(old(state), d) && sent == BroadcastsOf(d) &&
        (elected != null ==> elected.syncState == if d.Promote? then HashRetrieving else old(elected.syncState))
      ensures elected != null ==>
        elected.txEnabled == old(elected.txEnabled) && elected.headerBunches == old(elected.headerBunches)
    {
      if queue.limitExceeded {
        sent := ChangeState(BlockRetrieving);
        return;
      }
      var scan := ScanPool(pool);
      match scan
      case Done =>
        sent := ChangeState(BlockRetrieving);
      case Found(i) =>
        sent := [];
        if pool[i].headerBunches > RotationLimit {
          sent := ChangeState(BlockRetrieving);
        }
      case NotFound =>
        sent := [];
        if elected != null {
          elected.ChangeState(HashRetrieving);
        }
    }

    /** The loop of doHeaders over the pool: stops at the first peer that
        is done (the phase is then left) or retrieving (the master). */
    method ScanPool(pool: seq<Peer>) returns (r: ScanOutcome)
      ensures r == Scan(pool)
    {
      var k := 0;
      while k < |pool|
        invariant 0 <= k <= |pool|
        invariant Undecided(pool, k)
      {
        var peer := pool[k];
        if peer.IsHashRetrievingDone() {
          return Done;
        }
        if peer.IsHashRetrieving() {
          return Found(k);
        }
        k := k + 1;
      }
      return NotFound;
    }

    /** doBodies: body retrieval ends when the queue has no headers left. */
    method DoBodies(queue: QueueView) returns (sent: seq<SyncStateName>)
      requires state == BlockRetrieving
      modifies this
      ensures state == (if queue.headersEmpty then Idle else BlockRetrieving)
      ensures sent == []
    {
      sent := [];
      if queue.headersEmpty {
        sent := ChangeState(Idle);
      }
    }

    /** doIdle: header retrieval restarts when the queue needs more blocks. */
    method DoIdle(queue: QueueView) returns (sent: seq<SyncStateName>)
      requires state == Idle
      modifies this
      ensures state == (if queue.moreBlocksNeeded then HashRetrieving else Idle)
      ensures sent == []
    {
      sent := [];
      if queue.moreBlocksNeeded {
        sent := ChangeState(HashRetrieving);
      }
    }

    /** changeState: sets the phase; entering body retrieval, and only that,
        is broadcast to the pool. */
    method ChangeState(newState: SyncStateName) returns (sent: seq<SyncStateName>)
      modifies this
      ensures state == newState
      ensures sent == if newState == BlockRetrieving then [BlockRetrieving] else []
    {
      sent := [];
      if newState == BlockRetrieving {
        sent := [BlockRetrieving];
      }
      state := newState;
    }
  }
}
