/** Any number of tasks using one asynchronous pool. A step is what one task does between
    two awaits; every await may end well, raise, or be cancelled. */
module AsyncRuns {
  import opened Sequences
  import opened SyncPool
  import opened AsyncPool

  datatype Result = Leased(conn: nat) | Failed | Finished | ClosedAll

  /** Where a task awaits. `Scanning` and `CloseLeft` stand for the loops of cleanup and
      close_all, which are entered here one connection at a time. */
  datatype Pc =
    | Done(result: Result)
    | Waiting
    | Checking(conn: nat)
    | Asking(conn: nat)
    | Connecting(conn: nat)
    | Dropping(conn: nat, held: bool)
    | Closing(conn: nat, tracked: bool, next: Then)
    | Scanning(rest: seq<nat>, keep: seq<nat>)
    | CloseKept(kept: seq<nat>)
    | CloseLeft(left: set<nat>, all: set<nat>, recovering: bool)
    | AwaitingRecovery
    | AwaitingFinish

  /** `made` counts the clients, `tracked` are all connections ever tracked, `orphans` those
      a cleanup dropped when it was cancelled or a check raised; `slots` is how many budget
      slots the pool has been granted and not released, and `overReleased` tells that it
      released one it did not have; `lost` counts the permits that were never given back. */
  datatype System = System(
    a: AsyncState,
    tasks: seq<Pc>,
    made: nat,
    tracked: set<nat>,
    orphans: seq<nat>,
    slots: int,
    overReleased: bool,
    lost: nat)

  datatype Move =
    | Advance
    | Judge(verdict: Verdict)
    | Cancel
    | CloseOne(victim: nat)

  datatype Action =
    | CallAcquire
    | CallRelease(conn: nat, verdict: Verdict)
    | CallCleanup
    | CallCloseAll
    | On(t: nat, move: Move)

  function Start(max: nat): System {
    System(NewAsyncPool(max), [], 0, {}, [], 0, false, 0)
  }

  function Books(s: System, p: Pool): System {
    s.(a := s.a.(p := p))
  }

  function At(s: System, t: nat, pc: Pc): System
    requires t < |s.tasks|
  {
    s.(tasks := s.tasks[t := pc])
  }

  /** The pool releases a budget slot. */
  function FreeSlot(s: System): System {
    s.(slots := s.slots - 1, overReleased := s.overReleased || s.slots <= 0)
  }

  /** acquire fails: the permit goes back unless the pool is closed. */
  function Fail(s: System, t: nat): System
    requires t < |s.tasks|
  {
    At(Books(s, GiveIfOpen(s.a.p)), t, Done(Failed))
  }

  /** acquire goes on with what the free queue gave it. */
  function Continue(s: System, t: nat, popped: Popped): System
    requires t < |s.tasks|
  {
    match popped
    case PoolClosed => Fail(s, t)
    case Popped(c) => At(s, t, Checking(c))
    case NoneFree => At(s.(made := s.made + 1), t, Asking(s.made))
  }

  function Forget(s: System, t: nat, c: nat, next: Then): System
    requires t < |s.tasks|
  {
    var (p, tracked) := StartClose(s.a.p, c);
    At(Books(s, p), t, Closing(c, tracked, next))
  }

  /** After _close_connection. */
  function AfterClose(s: System, t: nat, next: Then): System
    requires t < |s.tasks|
  {
    match next
    case TryNextFree => var (p, popped) := PopFree(s.a.p); Continue(Books(s, p), t, popped)
    case FailAcquire => Fail(s, t)
    case Finish => At(s, t, Done(Finished))
    case ReleaseFinally => At(Books(s, GiveIfOpen(s.a.p)), t, Done(Finished))
    case ReleaseAfterRaise => At(Books(s, GiveIfOpen(s.a.p)), t, Done(Failed))
    case ScanOn(rest, keep) => At(s, t, Scanning(rest, keep))
    case CloseKeptOn(kept) => At(s, t, CloseKept(kept))
    case CloseEachOn(left, all, recovering) => At(s, t, CloseLeft(left, all, recovering))
  }

  /** The same when its disconnect was cancelled. */
  function AfterCancel(s: System, t: nat, next: Then): System
    requires t < |s.tasks|
  {
    match next
    case TryNextFree => Fail(s, t)
    case FailAcquire => Fail(s, t)
    case Finish => At(s, t, Done(Failed))
    case ReleaseFinally => At(Books(s, GiveIfOpen(s.a.p)), t, Done(Failed))
    case ReleaseAfterRaise => At(s.(lost := s.lost + One(!s.a.p.closed)), t, Done(Failed))
    case ScanOn(rest, keep) => At(s.(orphans := s.orphans + (rest + keep)), t, Done(Failed))
    case CloseKeptOn(_) => At(s, t, Done(Failed))
    case CloseEachOn(_, all, _) => At(s.(a := s.a.(recovery := Running)), t, CloseLeft(all, all, true))
  }

  function AcquireStep(s: System, t: nat, move: Move): System
    requires t < |s.tasks|
  {
    match s.tasks[t]
    case Waiting =>
      if move.Cancel? then At(Books(s, Unregister(s.a.p)), t, Done(Failed))
      else if s.a.p.permits > 0 then
        var (p, popped) := Resume(s.a.p);
        if popped.PoolClosed? then At(Books(s, p), t, Done(Failed)) else Continue(Books(s, p), t, popped)
      else s
    case Checking(c) =>
      if move == Judge(Good) && !s.a.p.closed then At(Books(s, LeaseReused(s.a.p, c).0), t, Done(Leased(c)))
      else if move == Judge(Bad) then Forget(s, t, c, TryNextFree)
      else Forget(s, t, c, FailAcquire)
    case _ => s
  }

  function CreateStep(s: System, t: nat, move: Move): System
    requires t < |s.tasks|
  {
    match s.tasks[t]
    case Asking(c) =>
      if !move.Advance? then At(s, t, Dropping(c, false))
      else At(s.(slots := s.slots + 1), t, if s.a.p.closed then Dropping(c, true) else Connecting(c))
    case Connecting(c) =>
      if !move.Advance? || s.a.p.closed then At(s, t, Dropping(c, true))
      else At(Books(s, Adopt(s.a.p, c).0).(tracked := s.tracked + {c}), t, Done(Leased(c)))
    case Dropping(_, held) => Fail(if held then FreeSlot(s) else s, t)
    case _ => s
  }

  function CloseStep(s: System, t: nat, move: Move): System
    requires t < |s.tasks|
  {
    match s.tasks[t]
    case Closing(_, tracked, next) =>
      var s1 := if tracked then FreeSlot(s) else s;
      if move.Cancel? && !(next.CloseEachOn? && next.recovering) then AfterCancel(s1, t, next)
      else AfterClose(s1, t, next)
    case _ => s
  }

  function ScanStep(s: System, t: nat, move: Move): System
    requires t < |s.tasks|
  {
    match s.tasks[t]
    case Scanning(rest, keep) =>
      if rest == [] then
        var (p, restored) := Restore(s.a.p, keep);
        At(Books(s, p), t, if restored then Done(Finished) else CloseKept(keep))
      else if move == Judge(Good) then At(s, t, Scanning(rest[1..], keep + [rest[0]]))
      else if move == Judge(Bad) then Forget(s, t, rest[0], ScanOn(rest[1..], keep))
      else At(s.(orphans := s.orphans + (rest + keep)), t, Done(Failed))
    case CloseKept(kept) =>
      if kept == [] then At(s, t, Done(Finished)) else Forget(s, t, kept[0], CloseKeptOn(kept[1..]))
    case _ => s
  }

  function CloseAllStep(s: System, t: nat, move: Move): System
    requires t < |s.tasks|
  {
    match s.tasks[t]
    case CloseLeft(left, all, recovering) =>
      if left == {} then
        At(s.(a := s.a.(closeInProgress := false, closeFinished := true,
                        recovery := if recovering then Over else s.a.recovery)), t, Done(ClosedAll))
      else if move.CloseOne? && move.victim in left then
        Forget(s, t, move.victim, CloseEachOn(left - {move.victim}, all, recovering))
      else if move.Cancel? && !recovering then
        At(s.(a := s.a.(recovery := Running)), t, CloseLeft(all, all, true))
      else s
    case AwaitingRecovery =>
      if move.Cancel? then At(s, t, Done(Failed)) else if s.a.recovery.Over? then At(s, t, Done(ClosedAll)) else s
    case AwaitingFinish =>
      if move.Cancel? then At(s, t, Done(Failed))
      else if s.a.closeFinished then At(s, t, if s.a.recovery.NotNeeded? then Done(ClosedAll) else AwaitingRecovery)
      else s
    case _ => s
  }

  function Moved(s: System, t: nat, move: Move): System
    requires t < |s.tasks|
  {
    var pc := s.tasks[t];
    if pc.Waiting? || pc.Checking? then AcquireStep(s, t, move)
    else if pc.Asking? || pc.Connecting? || pc.Dropping? then CreateStep(s, t, move)
    else if pc.Closing? then CloseStep(s, t, move)
    else if pc.Scanning? || pc.CloseKept? then ScanStep(s, t, move)
    else CloseAllStep(s, t, move)
  }

  function Spawn(s: System, p: Pool, pc: Pc): System {
    Books(s, p).(tasks := s.tasks + [pc])
  }

  function SpawnRelease(s: System, c: nat, verdict: Verdict): System {
    var (p, next) := ReleaseBlock(s.a.p, c, verdict);
    Spawn(s, p, match next
                case Closes(tracked, after) => Closing(c, tracked, after)
                case _ => Done(Finished))
  }

  function SpawnClose(s: System): System {
    var (a, entry) := BeginClose(s.a);
    s.(a := a, tasks := s.tasks + [match entry
                                   case AwaitRecovery => AwaitingRecovery
                                   case AwaitFinish => AwaitingFinish
                                   case AlreadyClosed => Done(ClosedAll)
                                   case Starts(conns) => CloseLeft(conns, conns, false)])
  }

  function Step(s: System, a: Action): System {
    match a
    case CallAcquire =>
      var (p, ok) := Register(s.a.p);
      Spawn(s, p, if ok then Waiting else Done(Failed))
    case CallRelease(c, verdict) => SpawnRelease(s, c, verdict)
    case CallCleanup =>
      var (p, snapshot) := Drain(s.a.p);
      Spawn(s, p, Scanning(snapshot, []))
    case CallCloseAll => SpawnClose(s)
    case On(t, move) => if t < |s.tasks| then Moved(s, t, move) else s
  }

  function Exec(s: System, actions: seq<Action>): System
    decreases |actions|
  {
    if actions == [] then s else Exec(Step(s, actions[0]), actions[1..])
  }
}
