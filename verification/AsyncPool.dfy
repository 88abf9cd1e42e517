/** The asynchronous connection pool (remote_cmd/core/async_connection_pool.py). It keeps
    the same books as the synchronous pool, but what happens between two awaits is one
    block, a task may be cancelled at every await, and closing is finished by a shielded
    recovery task when its caller is cancelled. The blocks that both pools share are those
    of SyncPool; here are the ones that differ. */
module AsyncPool {
  import opened SyncPool

  /** What follows once _close_connection has disconnected: the rest of acquire, release,
      cleanup or close_all. `all` are the connections close_all set out to close. */
  datatype Then =
    | TryNextFree
    | FailAcquire
    | Finish
    | ReleaseFinally
    | ReleaseAfterRaise
    | ScanOn(rest: seq<nat>, keep: seq<nat>)
    | CloseKeptOn(kept: seq<nat>)
    | CloseEachOn(left: set<nat>, all: set<nat>, recovering: bool)

  datatype Recovery = NotNeeded | Running | Over

  /** `p` are the books, the rest the flags of close_all. */
  datatype AsyncState = AsyncState(p: Pool, closeInProgress: bool, closeFinished: bool, recovery: Recovery)

  function NewAsyncPool(max: nat): AsyncState {
    AsyncState(NewPool(max), false, false, NotNeeded)
  }

  /** acquire once the semaphore lets it through. */
  function Resume(p: Pool): (Pool, Popped)
    requires p.permits > 0
  {
    PopFree(Unregister(TakePermit(p)))
  }

  /** _close_connection up to its await: the connection is forgotten before it is
      disconnected; true when it was tracked. */
  function StartClose(p: Pool, c: nat): (Pool, bool) {
    var (p1, tracked) := Untrack(p, c);
    (p1.(leased := p1.leased - {c}), tracked)
  }

  /** A connected client becomes tracked and is leased without another await. */
  function Adopt(p: Pool, c: nat): (Pool, bool) {
    var (p1, ok) := Track(p, c);
    if ok then LeaseCreated(p1, c) else (p1, false)
  }

  datatype Release = Ignored | PutBackFree | Closes(tracked: bool, next: Then)

  /** release up to its first await; `verdict` is what is_connected and the age limits say. */
  function ReleaseBlock(p: Pool, c: nat, verdict: Verdict): (Pool, Release) {
    var (p1, claim) := ClaimLease(p, c);
    if claim.NotLeased? then (p1, Ignored)
    else if claim.LeaseOfOpen? && verdict.Good? then (PutBack(p1, c).0, PutBackFree)
    else
      var (p2, tracked) := StartClose(p1, c);
      (p2, Closes(tracked, if claim.LeaseOfClosed? then Finish
                           else if verdict.Raised? then ReleaseAfterRaise else ReleaseFinally))
  }

  datatype CloseEntry = AwaitRecovery | AwaitFinish | AlreadyClosed | Starts(conns: set<nat>)

  /** close_all up to its first await. */
  function BeginClose(a: AsyncState): (AsyncState, CloseEntry) {
    if !a.recovery.NotNeeded? then (a, AwaitRecovery)
    else if a.closeInProgress then (a, AwaitFinish)
    else if a.p.closed && a.closeFinished then (a, AlreadyClosed)
    else
      var (p, conns) := Close(a.p);
      (a.(p := p, closeInProgress := true), Starts(conns))
  }

  class AsyncConnectionPool {
    const max: nat
    var closed: bool
    var connections: set<nat>
    var meta: set<nat>
    var free: seq<nat>
    var leased: set<nat>
    var closedLeases: set<nat>
    var permits: nat
    var acquireWaiters: int
    var totalCreated: nat
    var totalReleased: nat
    var closeInProgress: bool
    var closeFinished: bool
    var recovery: Recovery

    function Books(): Pool
      reads this
    {
      Pool(max, closed, connections, meta, free, leased, closedLeases, permits, acquireWaiters,
                    totalCreated, totalReleased)
    }

    function Value(): AsyncState
      reads this
    {
      AsyncState(Books(), closeInProgress, closeFinished, recovery)
    }

    constructor (maxConnections: nat)
      ensures Value() == NewAsyncPool(maxConnections)
    {
      max, closed, connections, meta, free := maxConnections, false, {}, {}, [];
      leased, closedLeases, permits, acquireWaiters := {}, {}, maxConnections, 0;
      totalCreated, totalReleased := 0, 0;
      closeInProgress, closeFinished, recovery := false, false, NotNeeded;
    }

    method ResumeAcquire() returns (popped: Popped)
      requires permits > 0
      modifies this
      ensures (Books(), popped) == Resume(old(Books()))
      ensures Value() == old(Value()).(p := Books())
      ensures Books() == old(Books()).(permits := old(permits) - 1, acquireWaiters := old(acquireWaiters) - 1,
                                       free := if popped.Popped? then old(free)[1..] else old(free))
      ensures popped == if old(closed) then PoolClosed else if old(free) == [] then NoneFree else Popped(old(free)[0])
    {
      permits := permits - 1;
      acquireWaiters := acquireWaiters - 1;
      if closed {
        return PoolClosed;
      }
      if free == [] {
        return NoneFree;
      }
      popped := Popped(free[0]);
      free := free[1..];
    }

    method ForgetConnection(c: nat) returns (tracked: bool)
      modifies this
      ensures (Books(), tracked) == StartClose(old(Books()), c)
      ensures Value() == old(Value()).(p := Books())
      ensures tracked <==> c in old(connections)
      ensures Books() == old(Books()).(connections := old(connections) - {c}, meta := old(meta) - {c},
                                       leased := old(leased) - {c})
    {
      meta := meta - {c};
      tracked := c in connections;
      assert tracked || connections - {c} == connections;
      if tracked {
        connections := connections - {c};
      }
      leased := leased - {c};
    }

    method AdoptClient(c: nat) returns (leasedOut: bool)
      modifies this
      ensures (Books(), leasedOut) == Adopt(old(Books()), c)
      ensures Value() == old(Value()).(p := Books())
      ensures leasedOut <==> !old(closed)
      ensures Books() == if old(closed) then old(Books())
                         else old(Books()).(connections := old(connections) + {c}, meta := old(meta) + {c},
                                            leased := old(leased) + {c}, totalCreated := old(totalCreated) + 1)
    {
      if closed {
        return false;
      }
      connections, meta := connections + {c}, meta + {c};
      totalCreated := totalCreated + 1;
      leased := leased + {c};
      leasedOut := true;
    }

    /** What is not lent out changes nothing. A lease of an open pool ends: a fit connection
        goes to the end of the free queue with its permit; an unfit one is forgotten and
        will be closed, its permit to follow, on the path of a raised check if the look at it
        raised. A connection lent before the close is closed whatever its state. */
    method ReleaseLease(c: nat, verdict: Verdict) returns (next: Release)
      modifies this
      ensures (Books(), next) == ReleaseBlock(old(Books()), c, verdict)
      ensures Value() == old(Value()).(p := Books())
      ensures c !in old(leased) && c !in old(closedLeases) ==> next == Ignored && Books() == old(Books())
      ensures c in old(leased) || c in old(closedLeases) ==>
                && leased == old(leased) - {c} && totalReleased == old(totalReleased) + 1
                && closedLeases == (if c in old(leased) then old(closedLeases) else old(closedLeases) - {c})
                && (if !old(closed) && verdict == Good
                    then && next == PutBackFree && free == old(free) + [c] && permits == old(permits) + 1
                         && connections == old(connections) && meta == old(meta)
                    else && next == Closes(c in old(connections), if old(closed) then Finish
                                           else if verdict == Raised then ReleaseAfterRaise else ReleaseFinally)
                         && free == old(free) && permits == old(permits)
                         && connections == old(connections) - {c} && meta == old(meta) - {c})
    {
      if c in leased {
        leased := leased - {c};
      } else if c in closedLeases {
        closedLeases := closedLeases - {c};
      } else {
        return Ignored;
      }
      totalReleased := totalReleased + 1;
      if !closed && verdict.Good? {
        free := free + [c];
        permits := permits + 1;
        return PutBackFree;
      }
      var wasClosed := closed;
      var tracked := ForgetConnection(c);
      next := Closes(tracked, if wasClosed then Finish else if verdict.Raised? then ReleaseAfterRaise else ReleaseFinally);
    }

    method BeginCloseAll() returns (entry: CloseEntry)
      modifies this
      ensures (Value(), entry) == BeginClose(old(Value()))
      ensures entry == if old(recovery) != NotNeeded then AwaitRecovery
                       else if old(closeInProgress) then AwaitFinish
                       else if old(closed) && old(closeFinished) then AlreadyClosed
                       else Starts(old(connections))
      ensures !entry.Starts? ==> Value() == old(Value())
      ensures entry.Starts? ==> closed && closeInProgress && closeFinished == old(closeFinished) && recovery == NotNeeded
      ensures entry.Starts? ==> connections == old(connections) && meta == old(meta)
      ensures entry.Starts? && !old(closed) ==>
                && permits == old(permits) + (if old(acquireWaiters) > 0 then old(acquireWaiters) else 0)
                && closedLeases == old(closedLeases) + old(leased) && leased == {} && free == []
    {
      if !recovery.NotNeeded? {
        return AwaitRecovery;
      }
      if closeInProgress {
        return AwaitFinish;
      }
      if closed && closeFinished {
        return AlreadyClosed;
      }
      closeInProgress := true;
      if !closed {
        closed := true;
        var woken := 0;
        while woken < acquireWaiters
          invariant 0 <= woken && (woken <= acquireWaiters || woken == 0)
          invariant Value() == old(Value()).(p := old(Books()).(closed := true, permits := old(permits) + woken),
                                             closeInProgress := true)
        {
          permits := permits + 1;
          woken := woken + 1;
        }
        closedLeases := closedLeases + leased;
        leased := {};
        while free != []
          invariant Value() == old(Value()).(closeInProgress := true,
                      p := old(Books()).(closed := true, permits := old(permits) + woken,
                                         closedLeases := old(closedLeases) + old(leased), leased := {}, free := free))
          decreases |free|
        {
          free := free[1..];
        }
      }
      entry := Starts(connections);
    }
  }
}
