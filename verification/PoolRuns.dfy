/** Any number of threads using one synchronous pool at once. A thread is one call of
    acquire, release, _cleanup_expired or close_all; a step is one block under the
    pool's lock, one semaphore or budget operation, or one action of the remote side
    (a connect, a disconnect or a health check with any outcome). A connection that
    needs a slot of the shared budget waits for it at `AwaitSlot`; whether and when the
    slot is granted is decided outside this module. Actions that are not possible in a
    state leave it unchanged, so every sequence of actions is a run. */
module PoolRuns {
  import opened SyncPool

  datatype Result = Leased(conn: nat) | Failed | Finished | ClosedAll

  /** What a thread does after closing one connection. */
  datatype Then =
    | TryNextFree
    | FailAcquire
    | Finish
    | GivePermitBack
    | ScanOn(rest: seq<nat>, keep: seq<nat>)
    | CloseKeptOn(kept: set<nat>)
    | CloseEachOn(conns: set<nat>)

  datatype Pc =
    | Done(result: Result)
    // acquire
    | WaitPermit
    | Unregister(got: bool)
    | CheckOpen
    | PopFree
    | CheckHealth(conn: nat)
    | LeaseFree(conn: nat)
    | NeedClient
    | AwaitSlot(conn: nat)
    | SlotHeld(conn: nat)
    | Connecting(conn: nat)
    | TrackNew(conn: nat)
    | DropClient(conn: nat, held: bool, connected: bool)
    | ReturnSlot
    | LeaseNew(conn: nat)
    | AcquireFailed
    | GiveBack
    // release
    | Inspect(conn: nat)
    | PutBackFree(conn: nat)
    | GiveBackIfOpen
    // _close_connection, then the rest of the caller
    | Disconnect(conn: nat, next: Then)
    | Untracking(conn: nat, next: Then)
    | FreeSlot(next: Then)
    // _cleanup_expired
    | Scan(rest: seq<nat>, keep: seq<nat>)
    | RestoreKept(keep: seq<nat>)
    | CloseKept(kept: set<nat>)
    // close_all
    | CloseEach(conns: set<nat>)

  /** `live` are the tracked clients that have not been disconnected (a client its maker
      has not handed over yet is open from `Connecting` to `DropClient`), `known` all
      clients ever made; `orphans` are tracked connections a cleanup dropped when a check raised. */
  datatype System = System(p: Pool, threads: seq<Pc>, live: set<nat>, known: set<nat>, orphans: seq<nat>)

  datatype Move =
    | Advance
    | Interrupt
    | Judge(verdict: Verdict)
    | RequestSlot(client: nat)
    | SlotGranted
    | SlotRefused
    | CloseOne(victim: nat)

  datatype Action =
    | CallAcquire
    | CallRelease(conn: nat)
    | CallCleanup
    | CallCloseAll
    | On(t: nat, move: Move)

  function After(next: Then): Pc {
    match next
    case TryNextFree => PopFree
    case FailAcquire => AcquireFailed
    case Finish => Done(Finished)
    case GivePermitBack => GiveBackIfOpen
    case ScanOn(rest, keep) => Scan(rest, keep)
    case CloseKeptOn(kept) => CloseKept(kept)
    case CloseEachOn(conns) => CloseEach(conns)
  }

  function Start(max: nat): System {
    System(NewPool(max), [], {}, {}, [])
  }

  function Spawn(s: System, p: Pool, pc: Pc): System {
    s.(p := p, threads := s.threads + [pc])
  }

  function Go(s: System, t: nat, p: Pool, pc: Pc): System
    requires t < |s.threads|
  {
    s.(p := p, threads := s.threads[t := pc])
  }

  function SpawnAcquire(s: System): System {
    var (p, ok) := Register(s.p);
    Spawn(s, p, if ok then WaitPermit else Done(Failed))
  }

  function SpawnRelease(s: System, c: nat): System {
    var (p, claim) := ClaimLease(s.p, c);
    Spawn(s, p, match claim
                case NotLeased => Done(Finished)
                case LeaseOfClosed => Disconnect(c, Finish)
                case LeaseOfOpen => Inspect(c))
  }

  function SpawnCleanup(s: System): System {
    var (p, snapshot) := Drain(s.p);
    Spawn(s, p, Scan(snapshot, []))
  }

  function SpawnClose(s: System): System {
    var (p, conns) := Close(s.p);
    Spawn(s, p, CloseEach(conns))
  }

  /** acquire: the wait for a permit and the reuse of a free connection. */
  function AcquireStep(s: System, t: nat): System
    requires t < |s.threads|
  {
    match s.threads[t]
    case WaitPermit => if s.p.permits > 0 then Go(s, t, TakePermit(s.p), Unregister(true)) else s
    case Unregister(got) => Go(s, t, SyncPool.Unregister(s.p), if got then CheckOpen else Done(Failed))
    case CheckOpen => Go(s, t, s.p, if s.p.closed then Done(Failed) else PopFree)
    case PopFree =>
      var (p, popped) := SyncPool.PopFree(s.p);
      Go(s, t, p, match popped
                  case PoolClosed => AcquireFailed
                  case NoneFree => NeedClient
                  case Popped(c) => CheckHealth(c))
    case LeaseFree(c) =>
      var (p, ok) := LeaseReused(s.p, c);
      Go(s, t, p, if ok then Done(Leased(c)) else Disconnect(c, FailAcquire))
    case AcquireFailed => Go(s, t, s.p, if s.p.closed then Done(Failed) else GiveBack)
    case GiveBack => Go(s, t, GivePermit(s.p), Done(Failed))
    case _ => s
  }

  /** acquire: _create_connection and the lease of the new connection. */
  function CreateStep(s: System, t: nat): System
    requires t < |s.threads|
  {
    match s.threads[t]
    case SlotHeld(c) =>
      if s.p.closed then Go(s, t, s.p, DropClient(c, true, false))
      else Go(s, t, s.p, Connecting(c))
    case TrackNew(c) =>
      var (p, ok) := Track(s.p, c);
      if ok then Go(s, t, p, LeaseNew(c)).(live := s.live + {c})
      else Go(s, t, p, DropClient(c, true, true))
    case DropClient(_, held, _) =>
      Go(s, t, s.p, if held then ReturnSlot else AcquireFailed)
    case ReturnSlot => Go(s, t, s.p, AcquireFailed)
    case LeaseNew(c) =>
      var (p, ok) := LeaseCreated(s.p, c);
      Go(s, t, p, if ok then Done(Leased(c)) else AcquireFailed)
    case _ => s
  }

  /** The last blocks of release. */
  function ReturnStep(s: System, t: nat): System
    requires t < |s.threads|
  {
    match s.threads[t]
    case PutBackFree(c) =>
      var (p, kept) := PutBack(s.p, c);
      Go(s, t, p, if kept then Done(Finished) else Disconnect(c, Finish))
    case GiveBackIfOpen => Go(s, t, GiveIfOpen(s.p), Done(Finished))
    case _ => s
  }

  /** _close_connection: disconnect, untrack, free the budget slot if it was tracked. */
  function CloseStep(s: System, t: nat): System
    requires t < |s.threads|
  {
    match s.threads[t]
    case Disconnect(c, next) => Go(s, t, s.p, Untracking(c, next)).(live := s.live - {c})
    case Untracking(c, next) =>
      var (p, tracked) := Untrack(s.p, c);
      Go(s, t, p, if tracked then FreeSlot(next) else After(next))
    case FreeSlot(next) => Go(s, t, s.p, After(next))
    case _ => s
  }

  /** The ends of the loops of _cleanup_expired and close_all. */
  function SweepStep(s: System, t: nat): System
    requires t < |s.threads|
  {
    match s.threads[t]
    case Scan(rest, keep) => if rest == [] then Go(s, t, s.p, RestoreKept(keep)) else s
    case RestoreKept(keep) =>
      var (p, restored) := Restore(s.p, keep);
      Go(s, t, p, if restored then Done(Finished) else CloseKept(set c | c in keep))
    case CloseKept(conns) => if conns == {} then Go(s, t, s.p, Done(Finished)) else s
    case CloseEach(conns) => if conns == {} then Go(s, t, s.p, Done(ClosedAll)) else s
    case _ => s
  }

  /** Steps whose outcome the pool decides. */
  function Continue(s: System, t: nat): System
    requires t < |s.threads|
  {
    var pc := s.threads[t];
    if pc.SlotHeld? || pc.TrackNew? || pc.DropClient? || pc.ReturnSlot? || pc.LeaseNew? then CreateStep(s, t)
    else if pc.PutBackFree? || pc.GiveBackIfOpen? then ReturnStep(s, t)
    else if pc.Disconnect? || pc.Untracking? || pc.FreeSlot? then CloseStep(s, t)
    else if pc.Scan? || pc.RestoreKept? || pc.CloseKept? || pc.CloseEach? then SweepStep(s, t)
    else AcquireStep(s, t)
  }

  /** Steps whose outcome the remote side decides: a health check of acquire, a
      connect, the check of release, one check of the cleanup scan. */
  function Judged(s: System, t: nat, verdict: Verdict): System
    requires t < |s.threads|
  {
    match s.threads[t]
    case CheckHealth(c) =>
      Go(s, t, s.p, match verdict
                    case Good => LeaseFree(c)
                    case Bad => Disconnect(c, TryNextFree)
                    case Raised => Disconnect(c, FailAcquire))
    case Connecting(c) => Go(s, t, s.p, if verdict == Good then TrackNew(c) else DropClient(c, true, true))
    case Inspect(c) => Go(s, t, s.p, if verdict == Good then PutBackFree(c) else Disconnect(c, GivePermitBack))
    case Scan(rest, keep) =>
      if rest == [] then s else
      (match verdict
       case Good => Go(s, t, s.p, Scan(rest[1..], keep + [rest[0]]))
       case Bad => Go(s, t, s.p, Disconnect(rest[0], ScanOn(rest[1..], keep)))
       case Raised => Go(s, t, s.p, Done(Failed)).(orphans := s.orphans + rest + keep))
    case _ => s
  }

  /** Closes one of the connections a thread has to close. */
  function CloseNext(s: System, t: nat, c: nat): System
    requires t < |s.threads|
  {
    match s.threads[t]
    case CloseKept(conns) => if c in conns then Go(s, t, s.p, Disconnect(c, CloseKeptOn(conns - {c}))) else s
    case CloseEach(conns) => if c in conns then Go(s, t, s.p, Disconnect(c, CloseEachOn(conns - {c}))) else s
    case _ => s
  }

  function Requested(s: System, t: nat, c: nat): System
    requires t < |s.threads|
  {
    if s.threads[t] == NeedClient && c !in s.known
    then Go(s, t, s.p, AwaitSlot(c)).(known := s.known + {c})
    else s
  }

  function Granted(s: System, t: nat, granted: bool): System
    requires t < |s.threads|
  {
    if s.threads[t].AwaitSlot? then
      var c := s.threads[t].conn;
      Go(s, t, s.p, if granted then SlotHeld(c) else DropClient(c, false, false))
    else s
  }

  function Interrupted(s: System, t: nat): System
    requires t < |s.threads|
  {
    if s.threads[t] == WaitPermit then Go(s, t, s.p, Unregister(false)) else s
  }

  function Moved(s: System, t: nat, move: Move): System
    requires t < |s.threads|
  {
    match move
    case Advance => Continue(s, t)
    case Interrupt => Interrupted(s, t)
    case Judge(verdict) => Judged(s, t, verdict)
    case RequestSlot(c) => Requested(s, t, c)
    case SlotGranted => Granted(s, t, true)
    case SlotRefused => Granted(s, t, false)
    case CloseOne(c) => CloseNext(s, t, c)
  }

  function Step(s: System, a: Action): System {
    match a
    case CallAcquire => SpawnAcquire(s)
    case CallRelease(c) => SpawnRelease(s, c)
    case CallCleanup => SpawnCleanup(s)
    case CallCloseAll => SpawnClose(s)
    case On(t, move) => if t < |s.threads| then Moved(s, t, move) else s
  }

  function Exec(s: System, actions: seq<Action>): System
    decreases |actions|
  {
    if actions == [] then s else Exec(Step(s, actions[0]), actions[1..])
  }

  lemma {:induction false} ExecJoin(s: System, xs: seq<Action>, ys: seq<Action>)
    ensures Exec(s, xs + ys) == Exec(Exec(s, xs), ys)
    decreases |xs|
  {
    if xs == [] {
      assert xs + ys == ys;
    } else {
      assert (xs + ys)[1..] == xs[1..] + ys;
      ExecJoin(Step(s, xs[0]), xs[1..], ys);
    }
  }

  lemma ExecOne(s: System, a: Action)
    ensures Exec(s, [a]) == Step(s, a)
  {
    assert Exec(Step(s, a), []) == Step(s, a);
  }

  lemma ExecThen(s: System, xs: seq<Action>, a: Action)
    ensures Exec(s, xs + [a]) == Step(Exec(s, xs), a)
  {
    ExecJoin(s, xs, [a]);
    ExecOne(Exec(s, xs), a);
  }
}
