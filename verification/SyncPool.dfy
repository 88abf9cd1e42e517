/** The synchronous connection pool (remote_cmd/core/sync_connection_pool.py): a
    semaphore, a queue of free connections, the connections the pool tracks, and the
    connections it has leased out. `Pool` is the value of one pool; each function is
    one block under the pool's lock (or one semaphore operation).
    `SyncConnectionPool` is the object, proved against the functions. */
module SyncPool {
  import opened Options
  import opened Sequences

  /** Connections are numbered. `connections` is the list of tracked clients (a list
      of distinct objects, used as a set), `meta` the keys of the metadata table. */
  datatype Pool = Pool(
    max: nat,
    closed: bool,
    connections: set<nat>,
    meta: set<nat>,
    free: seq<nat>,
    leased: set<nat>,
    closedLeases: set<nat>,
    permits: nat,
    acquireWaiters: int,
    totalCreated: nat,
    totalReleased: nat)

  function NewPool(max: nat): Pool {
    Pool(max, false, {}, {}, [], {}, {}, max, 0, 0, 0)
  }

  datatype Popped = PoolClosed | NoneFree | Popped(conn: nat)

  /** What a look at a connection says: fit, not fit, or the look itself raised. */
  datatype Verdict = Good | Bad | Raised

  datatype Claim = NotLeased | LeaseOfClosed | LeaseOfOpen

  /** acquire, first block; false when the pool is closed. */
  function Register(p: Pool): (Pool, bool) {
    if p.closed then (p, false) else (p.(acquireWaiters := p.acquireWaiters + 1), true)
  }

  function Unregister(p: Pool): Pool {
    p.(acquireWaiters := p.acquireWaiters - 1)
  }

  function TakePermit(p: Pool): Pool
    requires p.permits > 0
  {
    p.(permits := p.permits - 1)
  }

  function GivePermit(p: Pool): Pool {
    p.(permits := p.permits + 1)
  }

  function PopFree(p: Pool): (Pool, Popped) {
    if p.closed then (p, PoolClosed)
    else if p.free == [] then (p, NoneFree)
    else (p.(free := p.free[1..]), Popped(p.free[0]))
  }

  function LeaseReused(p: Pool, c: nat): (Pool, bool) {
    if p.closed then (p, false) else (p.(leased := p.leased + {c}), true)
  }

  function LeaseCreated(p: Pool, c: nat): (Pool, bool) {
    if p.closed || c !in p.meta then (p, false) else (p.(leased := p.leased + {c}), true)
  }

  function Track(p: Pool, c: nat): (Pool, bool) {
    if p.closed then (p, false)
    else (p.(connections := p.connections + {c}, meta := p.meta + {c}, totalCreated := p.totalCreated + 1), true)
  }

  /** The locked block of _close_connection; true when the connection was tracked. */
  function Untrack(p: Pool, c: nat): (Pool, bool) {
    (p.(connections := p.connections - {c}, meta := p.meta - {c}), c in p.connections)
  }

  /** release, first block. */
  function ClaimLease(p: Pool, c: nat): (Pool, Claim) {
    if c in p.leased then
      (p.(leased := p.leased - {c}, totalReleased := p.totalReleased + 1),
       if p.closed then LeaseOfClosed else LeaseOfOpen)
    else if c in p.closedLeases then
      (p.(closedLeases := p.closedLeases - {c}, totalReleased := p.totalReleased + 1),
       if p.closed then LeaseOfClosed else LeaseOfOpen)
    else (p, NotLeased)
  }

  function GiveIfOpen(p: Pool): Pool {
    if p.closed then p else GivePermit(p)
  }

  /** release, last block; false when the pool was closed meanwhile. */
  function PutBack(p: Pool, c: nat): (Pool, bool) {
    if p.closed then (p, false) else (GivePermit(p.(free := p.free + [c])), true)
  }

  /** _cleanup_expired, first and last block. */
  function Drain(p: Pool): (Pool, seq<nat>) {
    (p.(free := []), p.free)
  }

  function Restore(p: Pool, keep: seq<nat>): (Pool, bool) {
    if p.closed then (p, false) else (p.(free := p.free + keep), true)
  }

  /** close_all, locked block: the tracked connections still to be closed. */
  function Close(p: Pool): (Pool, set<nat>) {
    if p.closed then (p, p.connections)
    else
      (p.(closed := true, permits := p.permits + (if p.acquireWaiters > 0 then p.acquireWaiters else 0),
          closedLeases := p.closedLeases + p.leased, leased := {}, free := []),
       p.connections)
  }

  // ------------------------------------------------- one caller after the other

  ghost function Members(xs: seq<nat>): set<nat> {
    set x | x in xs
  }

  /** Each tracked connection is either leased or free. */
  ghost predicate Sorted(p: Pool) {
    && (forall c :: c in p.connections <==> c in p.leased || c in p.free)
    && (forall c :: c in p.free ==> c !in p.leased)
  }

  /** The books of a pool between two calls, when no call is interrupted by another: an
      open pool tracks exactly the leased and the free connections, and each permit is
      free or with a lease. */
  ghost predicate Balanced(p: Pool) {
    && p.meta == p.connections && p.acquireWaiters == 0
    && Distinct(p.free)
    && (if p.closed then p.free == [] && p.leased == {}
        else && Sorted(p) && p.permits + |p.leased| == p.max && |p.free| <= p.permits && p.closedLeases == {})
  }

  lemma {:induction false} DistinctSize(xs: seq<nat>)
    requires Distinct(xs)
    ensures |Members(xs)| == |xs|
  {
    if xs == [] {
      assert Members(xs) == {};
    } else {
      DistinctSize(xs[1..]);
      TailMembers(xs);
    }
  }

  lemma TailMembers(xs: seq<nat>)
    requires xs != []
    ensures Members(xs) == Members(xs[1..]) + {xs[0]}
    ensures Distinct(xs) ==> xs[0] !in Members(xs[1..]) && Distinct(xs[1..])
  {
    assert xs == [xs[0]] + xs[1..];
  }

  /** Without interleavings the limit on connections holds. */
  lemma BalancedLimit(p: Pool)
    requires Balanced(p) && !p.closed
    ensures |p.connections| == |p.leased| + |p.free| <= p.max
  {
    DistinctSize(p.free);
    assert p.connections == p.leased + Members(p.free);
  }

  /** How many of the free connections are unfit before the first that is not. */
  function Unfit(free: seq<nat>, verdict: nat -> Verdict): (k: nat)
    ensures k <= |free| && (k < |free| ==> !verdict(free[k]).Bad?)
    ensures forall i :: 0 <= i < k ==> verdict(free[i]).Bad?
  {
    if free == [] || !verdict(free[0]).Bad? then 0 else 1 + Unfit(free[1..], verdict)
  }

  /** acquire with a permit, up to the creation of a new connection: unfit connections
      are closed until one is fit, the look at one raises, or none is left. */
  function Reuse(p: Pool, verdict: nat -> Verdict): (Pool, Option<nat>, bool)
    decreases |p.free|
  {
    if p.free == [] then (p, None, false)
    else
      var c, popped := p.free[0], p.(free := p.free[1..]);
      match verdict(c)
      case Good => (popped.(leased := p.leased + {c}), Some(c), false)
      case Raised => (Untrack(popped, c).0, None, true)
      case Bad => Reuse(Untrack(popped, c).0, verdict)
  }

  /** The books while one caller has a permit and no connection. */
  ghost predicate Lending(p: Pool) {
    && p.meta == p.connections && p.acquireWaiters == 0 && Distinct(p.free) && !p.closed
    && Sorted(p)
    && p.permits + 1 + |p.leased| == p.max && |p.free| <= p.permits + 1 && p.closedLeases == {}
  }

  lemma PopSorted(p: Pool)
    requires Sorted(p) && Distinct(p.free) && p.free != []
    ensures p.free[0] in p.connections && p.free[0] !in p.leased && Distinct(p.free[1..])
    ensures forall c :: c in p.free[1..] <==> c in p.free && c != p.free[0]
  {
    TailMembers(p.free);
    assert p.free[0] in p.free;
    forall c ensures c in p.free[1..] <==> c in p.free && c != p.free[0] {
      assert c in p.free[1..] <==> c in Members(p.free[1..]);
      assert c in p.free <==> c in Members(p.free);
    }
  }

  lemma PopLending(p: Pool)
    requires Lending(p) && p.free != []
    ensures Lending(Untrack(p.(free := p.free[1..]), p.free[0]).0)
    ensures Balanced(p.(free := p.free[1..], leased := p.leased + {p.free[0]})) && p.free[0] !in p.leased
  {
    PopSorted(p);
  }

  /** What the caller gets: the first connection that is not unfit, if the look at it does
      not raise; the connections before it are closed, those after it stay. */
  ghost predicate Reused(p: Pool, verdict: nat -> Verdict, q: Pool, conn: Option<nat>, raised: bool) {
    var k, n := Unfit(p.free, verdict), |p.free|;
    && conn == (if k < n && verdict(p.free[k]).Good? then Some(p.free[k]) else None)
    && q.free == (if k < n then p.free[k + 1..] else [])
    && q.leased == p.leased + (if conn.Some? then {conn.value} else {})
    && (conn.Some? ==> conn.value !in p.leased)
    && (raised <==> k < n && conn.None?)
    && q.permits == p.permits && q.closed == p.closed && q.connections <= p.connections
  }

  lemma ReusedLater(p: Pool, verdict: nat -> Verdict, q: Pool, conn: Option<nat>, raised: bool)
    requires p.free != [] && verdict(p.free[0]).Bad?
    requires Reused(Untrack(p.(free := p.free[1..]), p.free[0]).0, verdict, q, conn, raised)
    ensures Reused(p, verdict, q, conn, raised)
  {
    var k := Unfit(p.free[1..], verdict);
    assert k < |p.free| - 1 ==> p.free[1..][k] == p.free[k + 1] && p.free[1..][k + 1..] == p.free[k + 2..];
  }

  lemma {:induction false} ReuseExact(p: Pool, verdict: nat -> Verdict)
    requires Lending(p)
    ensures var (q, conn, raised) := Reuse(p, verdict);
            Reused(p, verdict, q, conn, raised) && if conn.Some? then Balanced(q) else Lending(q)
    decreases |p.free|
  {
    if p.free != [] {
      PopLending(p);
      if verdict(p.free[0]).Bad? {
        var p1 := Untrack(p.(free := p.free[1..]), p.free[0]).0;
        ReuseExact(p1, verdict);
        var (q, conn, raised) := Reuse(p1, verdict);
        ReusedLater(p, verdict, q, conn, raised);
      }
    }
  }

  /** acquire after the loop over the free connections. */
  function AcquireRest(q: Pool, conn: Option<nat>, raised: bool, connects: bool, client: nat): (Pool, Option<nat>) {
    if conn.Some? then (q, conn)
    else if raised || !connects then (GivePermit(q), None)
    else (LeaseCreated(Track(q, client).0, client).0, Some(client))
  }

  /** acquire as one uninterrupted call. */
  function AcquireCall(p: Pool, verdict: nat -> Verdict, connects: bool, client: nat): (Pool, Option<nat>) {
    if p.closed || p.permits == 0 then (p, None)
    else
      var (q, conn, raised) := Reuse(TakePermit(p), verdict);
      AcquireRest(q, conn, raised, connects, client)
  }

  /** What acquire does for a caller whom no other call disturbs: nothing in a closed pool
      or when every connection is lent out (it waits until it is interrupted); else it
      lends the connection that has been idle longest among those that are fit, having
      closed the unfit ones before it, or a new one if none is left; and it gets none if
      the look at a connection raises or the new client does not connect. */
  ghost predicate Acquired(p: Pool, verdict: nat -> Verdict, connects: bool, client: nat, q: Pool, conn: Option<nat>) {
    var k, n := Unfit(p.free, verdict), |p.free|;
    if p.closed || p.permits == 0 then q == p && conn.None?
    else
      && conn == (if k == n then if connects then Some(client) else None
                  else if verdict(p.free[k]).Good? then Some(p.free[k]) else None)
      && q.free == (if k < n then p.free[k + 1..] else [])
      && q.leased == p.leased + (if conn.Some? then {conn.value} else {})
      && (conn.Some? ==> conn.value !in p.leased)
      && q.closed == p.closed
  }

  lemma RestBalanced(q: Pool, conn: Option<nat>, raised: bool, connects: bool, client: nat)
    requires if conn.Some? then Balanced(q) else Lending(q)
    requires client !in q.connections && (conn.None? && !raised ==> q.free == [])
    ensures Balanced(AcquireRest(q, conn, raised, connects, client).0)
  {
  }

  lemma RestAcquired(p: Pool, verdict: nat -> Verdict, q: Pool, conn: Option<nat>, raised: bool, connects: bool, client: nat)
    requires !p.closed && p.permits > 0 && Reused(TakePermit(p), verdict, q, conn, raised) && client !in p.leased
    requires q.meta == q.connections
    ensures var (r, got) := AcquireRest(q, conn, raised, connects, client);
            Acquired(p, verdict, connects, client, r, got)
            && forall c :: c in r.connections ==> c in p.connections || c == client
  {
  }

  lemma AcquireExact(p: Pool, verdict: nat -> Verdict, connects: bool, client: nat)
    requires Balanced(p) && client !in p.connections
    ensures var (q, conn) := AcquireCall(p, verdict, connects, client);
            Balanced(q) && Acquired(p, verdict, connects, client, q, conn)
            && forall c :: c in q.connections ==> c in p.connections || c == client
  {
    if !p.closed && p.permits > 0 {
      ReuseExact(TakePermit(p), verdict);
      var (q, conn, raised) := Reuse(TakePermit(p), verdict);
      RestBalanced(q, conn, raised, connects, client);
      RestAcquired(p, verdict, q, conn, raised, connects, client);
    }
  }

  /** release as one uninterrupted call. */
  function ReleaseCall(p: Pool, c: nat, verdict: Verdict): Pool {
    var (q, claim) := ClaimLease(p, c);
    match claim
    case NotLeased => q
    case LeaseOfClosed => Untrack(q, c).0
    case LeaseOfOpen => if verdict.Good? then PutBack(q, c).0 else GivePermit(Untrack(q, c).0)
  }

  lemma ReleaseBalanced(p: Pool, c: nat, verdict: Verdict)
    requires Balanced(p)
    ensures Balanced(ReleaseCall(p, c, verdict))
  {
  }

  /** The fit ones, in order. */
  function Kept(xs: seq<nat>, verdict: nat -> Verdict): seq<nat> {
    if xs == [] then [] else (if verdict(xs[0]).Good? then [xs[0]] else []) + Kept(xs[1..], verdict)
  }

  lemma {:induction false} KeptFacts(xs: seq<nat>, verdict: nat -> Verdict)
    requires Distinct(xs)
    ensures Distinct(Kept(xs, verdict)) && |Kept(xs, verdict)| <= |xs|
    ensures forall c :: c in Kept(xs, verdict) <==> c in xs && verdict(c).Good?
  {
    if xs != [] {
      TailMembers(xs);
      KeptFacts(xs[1..], verdict);
      assert xs == [xs[0]] + xs[1..];
      assert xs[0] !in Members(xs[1..]);
      assert xs[0] !in xs[1..];
    }
  }

  lemma {:induction false} KeptAppend(xs: seq<nat>, c: nat, verdict: nat -> Verdict)
    ensures Kept(xs + [c], verdict) == Kept(xs, verdict) + (if verdict(c).Good? then [c] else [])
  {
    if xs == [] {
      assert xs + [c] == [c];
      assert Kept([c], verdict) == (if verdict(c).Good? then [c] else []) + Kept([], verdict);
    } else {
      assert (xs + [c])[1..] == xs[1..] + [c];
      KeptAppend(xs[1..], c, verdict);
    }
  }

  /** The books after a cleanup that closed the unfit idle connections. */
  lemma KeptBalanced(p: Pool, q: Pool, verdict: nat -> Verdict)
    requires Balanced(p) && forall c :: c in p.free ==> !verdict(c).Raised?
    requires q == p.(free := Kept(p.free, verdict), connections := q.connections, meta := q.connections)
    requires forall c :: c in q.connections <==> c in p.connections && !(c in p.free && verdict(c).Bad?)
    ensures Balanced(q)
  {
    KeptFacts(p.free, verdict);
  }

  class SyncConnectionPool {
    const max: nat
    var closed: bool
    var connections: set<nat>
    var meta: set<nat>
    var free: seq<nat>
    var leased: set<nat>
    var closedLeases: set<nat>
    var permits: nat
    var acquireWaiters: int
    var totalCreated: nat
    var totalReleased: nat

    function Value(): Pool
      reads this
    {
      Pool(max, closed, connections, meta, free, leased, closedLeases, permits, acquireWaiters,
           totalCreated, totalReleased)
    }

    constructor (maxConnections: nat)
      requires maxConnections > 0
      ensures Value() == NewPool(maxConnections)
    {
      max := maxConnections;
      closed, connections, meta, free, leased, closedLeases := false, {}, {}, [], {}, {};
      permits, acquireWaiters, totalCreated, totalReleased := maxConnections, 0, 0, 0;
    }

    method RegisterWaiter() returns (registered: bool)
      modifies this
      ensures (Value(), registered) == Register(old(Value()))
    {
      if closed {
        return false;
      }
      acquireWaiters := acquireWaiters + 1;
      registered := true;
    }

    method UnregisterWaiter()
      modifies this
      ensures Value() == Unregister(old(Value()))
    {
      acquireWaiters := acquireWaiters - 1;
    }

    method GetNowait() returns (popped: Popped)
      modifies this
      ensures (Value(), popped) == PopFree(old(Value()))
    {
      if closed {
        return PoolClosed;
      }
      if free == [] {
        return NoneFree;
      }
      popped := Popped(free[0]);
      free := free[1..];
    }

    method LeaseHealthy(c: nat) returns (leasedNow: bool)
      modifies this
      ensures (Value(), leasedNow) == LeaseReused(old(Value()), c)
    {
      leasedNow := !closed;
      if leasedNow {
        leased := leased + {c};
      }
    }

    method LeaseFresh(c: nat) returns (leasedNow: bool)
      modifies this
      ensures (Value(), leasedNow) == LeaseCreated(old(Value()), c)
    {
      if closed || c !in meta {
        return false;
      }
      leased := leased + {c};
      leasedNow := true;
    }

    method AppendConnection(c: nat) returns (tracked: bool)
      modifies this
      ensures (Value(), tracked) == Track(old(Value()), c)
    {
      if closed {
        return false;
      }
      connections := connections + {c};
      meta := meta + {c};
      totalCreated := totalCreated + 1;
      tracked := true;
    }

    method RemoveConnection(c: nat) returns (tracked: bool)
      modifies this
      ensures (Value(), tracked) == Untrack(old(Value()), c)
    {
      meta := meta - {c};
      tracked := c in connections;
      if tracked {
        connections := connections - {c};
      }
      assert connections == old(connections) - {c};
    }

    method TakeLease(c: nat) returns (claim: Claim)
      modifies this
      ensures (Value(), claim) == ClaimLease(old(Value()), c)
    {
      if c in leased {
        leased := leased - {c};
      } else if c in closedLeases {
        closedLeases := closedLeases - {c};
      } else {
        return NotLeased;
      }
      totalReleased := totalReleased + 1;
      claim := if closed then LeaseOfClosed else LeaseOfOpen;
    }

    method ReturnToFree(c: nat) returns (kept: bool)
      modifies this
      ensures (Value(), kept) == PutBack(old(Value()), c)
    {
      kept := !closed;
      if kept {
        free := free + [c];
        permits := permits + 1;
      }
    }

    method DrainFree() returns (snapshot: seq<nat>)
      modifies this
      ensures (Value(), snapshot) == Drain(old(Value()))
      ensures snapshot == old(free) && Value() == old(Value()).(free := [])
    {
      snapshot := [];
      while free != []
        invariant snapshot + free == old(free)
        invariant Value() == old(Value()).(free := free)
        decreases |free|
      {
        snapshot := snapshot + [free[0]];
        free := free[1..];
      }
      assert snapshot == snapshot + free;
    }

    method RestoreKept(keep: seq<nat>) returns (restored: bool)
      modifies this
      ensures (Value(), restored) == Restore(old(Value()), keep)
      ensures restored <==> !old(closed)
      ensures Value() == if restored then old(Value()).(free := old(free) + keep) else old(Value())
    {
      if closed {
        return false;
      }
      for i := 0 to |keep|
        invariant Value() == old(Value()).(free := old(free) + keep[..i])
      {
        free := free + [keep[i]];
      }
      assert keep[..|keep|] == keep;
      restored := true;
    }

    method CloseAll() returns (conns: set<nat>)
      modifies this
      ensures (Value(), conns) == Close(old(Value()))
      ensures conns == connections == old(connections) && meta == old(meta) && closed
      ensures old(closed) ==> Value() == old(Value())
      ensures !old(closed) ==>
                && permits == old(permits) + (if old(acquireWaiters) > 0 then old(acquireWaiters) else 0)
                && closedLeases == old(closedLeases) + old(leased) && leased == {} && free == []
    {
      var firstClose := !closed;
      closed := true;
      if firstClose {
        var i := 0;
        while i < acquireWaiters
          invariant 0 <= i && (i <= acquireWaiters || i == 0)
          invariant Value() == old(Value()).(closed := true, permits := old(permits) + i)
        {
          permits := permits + 1;
          i := i + 1;
        }
        closedLeases := closedLeases + leased;
        leased := {};
        while free != []
          invariant Value() == old(Value()).(closed := true, permits := old(permits) + i,
                                             closedLeases := old(closedLeases) + old(leased), leased := {}, free := free)
          decreases |free|
        {
          free := free[1..];
        }
      }
      conns := connections;
    }

    // ---------------------------------------------------------- whole calls

    ghost predicate Valid()
      reads this
    {
      Balanced(Value())
    }

    method ReuseFree(verdict: nat -> Verdict) returns (conn: Option<nat>, raised: bool)
      requires !closed
      modifies this
      ensures (Value(), conn, raised) == Reuse(old(Value()), verdict)
    {
      while true
        invariant !closed && Reuse(Value(), verdict) == Reuse(old(Value()), verdict)
        decreases |free|
      {
        var popped := GetNowait();
        if popped.NoneFree? {
          return None, false;
        }
        match verdict(popped.conn)
        case Good =>
          var _ := LeaseHealthy(popped.conn);
          return Some(popped.conn), false;
        case Raised =>
          var _ := RemoveConnection(popped.conn);
          return None, true;
        case Bad =>
          var _ := RemoveConnection(popped.conn);
      }
    }

    /** `verdict` is what a health check of each connection would say; `client` is the
        client that would be made, and `connects` whether it gets its budget slot and
        connects. */
    method Acquire(verdict: nat -> Verdict, connects: bool, client: nat) returns (conn: Option<nat>)
      requires Valid() && client !in connections
      modifies this
      ensures Valid() && Acquired(old(Value()), verdict, connects, client, Value(), conn)
      ensures (Value(), conn) == AcquireCall(old(Value()), verdict, connects, client)
      ensures forall c :: c in connections ==> c in old(connections) || c == client
    {
      AcquireExact(Value(), verdict, connects, client);
      conn := AcquireBlocks(verdict, connects, client);
    }

    method AcquireBlocks(verdict: nat -> Verdict, connects: bool, client: nat) returns (conn: Option<nat>)
      modifies this
      ensures (Value(), conn) == AcquireCall(old(Value()), verdict, connects, client)
    {
      var registered := RegisterWaiter();
      if !registered {
        return None;
      }
      if permits == 0 {
        UnregisterWaiter();
        return None;
      }
      permits := permits - 1;
      UnregisterWaiter();
      var raised;
      conn, raised := ReuseFree(verdict);
      if conn.Some? {
        return;
      }
      if raised || !connects {
        permits := permits + 1;
        return;
      }
      var _ := AppendConnection(client);
      var _ := LeaseFresh(client);
      conn := Some(client);
    }

    /** release, as one uninterrupted call: a connection that is fit goes to the end of the
        free queue, any other is closed; what is not lent out is left alone. Returns
        whether the look at the connection raised. */
    method Release(c: nat, verdict: Verdict) returns (raised: bool)
      requires Valid()
      modifies this
      ensures Valid() && closed == old(closed) && leased == old(leased) - {c} && closedLeases == old(closedLeases) - {c}
      ensures Value() == ReleaseCall(old(Value()), c, verdict)
      ensures c !in old(leased) && c !in old(closedLeases) ==> Value() == old(Value())
      ensures raised <==> c in old(leased) && verdict.Raised?
      ensures free == old(free) + (if c in old(leased) && verdict.Good? then [c] else [])
      ensures connections <= old(connections)
    {
      ReleaseBalanced(Value(), c, verdict);
      var claim := TakeLease(c);
      raised := false;
      match claim
      case NotLeased =>
      case LeaseOfClosed =>
        var _ := RemoveConnection(c);
      case LeaseOfOpen =>
        if verdict.Good? {
          var _ := ReturnToFree(c);
        } else {
          var _ := RemoveConnection(c);
          permits := permits + 1;
          raised := verdict.Raised?;
        }
    }

    /** _cleanup_expired, as one uninterrupted call: the fit idle connections stay idle, in
        order, and exactly the unfit ones are closed. If the look at one raises, the cleanup
        ends there: those it has not closed stay tracked, but none of them is idle. */
    method CleanupExpired(verdict: nat -> Verdict) returns (raised: bool)
      requires Valid()
      modifies this
      ensures closed == old(closed) && leased == old(leased) && closedLeases == old(closedLeases) && permits == old(permits)
      ensures raised <==> exists c :: c in old(free) && verdict(c).Raised?
      ensures !raised ==> Valid() && free == Kept(old(free), verdict)
      ensures !raised ==> forall c :: c in connections <==> c in old(connections) && !(c in old(free) && verdict(c).Bad?)
      ensures raised ==> free == [] && connections <= old(connections)
      ensures raised ==> forall c :: c in old(connections) && !(c in old(free) && verdict(c).Bad?) ==> c in connections
    {
      ghost var start := Value();
      var snapshot := DrainFree();
      var keep: seq<nat> := [];
      for i := 0 to |snapshot|
        invariant forall j :: 0 <= j < i ==> !verdict(snapshot[j]).Raised?
        invariant keep == Kept(snapshot[..i], verdict)
        invariant Value() == start.(free := [], connections := connections, meta := connections)
        invariant forall c :: c in connections <==> c in start.connections && !(c in snapshot[..i] && verdict(c).Bad?)
      {
        var c := snapshot[i];
        assert snapshot[..i + 1] == snapshot[..i] + [c];
        KeptAppend(snapshot[..i], c, verdict);
        match verdict(c)
        case Raised =>
          assert c in start.free;
          return true;
        case Bad =>
          var _ := RemoveConnection(c);
        case Good =>
          keep := keep + [c];
      }
      assert snapshot[..|snapshot|] == snapshot;
      var restored := RestoreKept(keep);
      KeptBalanced(start, start.(free := keep, connections := connections, meta := connections), verdict);
      raised := false;
    }

    /** close_all, as one uninterrupted call. */
    method CloseConnections()
      requires Valid()
      modifies this
      ensures Valid() && closed && connections == {} && free == [] && leased == {}
      ensures closedLeases == old(closedLeases) + old(leased)
    {
      var conns := CloseAll();
      while conns != {}
        invariant Valid() && closed && connections <= conns && free == [] && leased == {}
        invariant closedLeases == old(closedLeases) + old(leased)
        decreases conns
      {
        var c :| c in conns;
        conns := conns - {c};
        var _ := RemoveConnection(c);
      }
    }
  }
}
