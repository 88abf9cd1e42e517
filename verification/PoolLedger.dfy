/** The counts of the pool: permits, registered waiters, tracked connections. */
module PoolLedger {
  import opened Counting
  import opened Sequences
  import opened SyncPool
  import opened PoolRuns
  import opened PoolOwnership

  function PermitThen(next: Then): nat {
    One(next.TryNextFree? || next.FailAcquire? || next.GivePermitBack?)
  }

  /** A thread that holds a permit of the pool's semaphore. */
  function Permit(pc: Pc): nat {
    match pc
    case Done(_) => 0
    case WaitPermit => 0
    case Unregister(got) => One(got)
    case Disconnect(_, next) => PermitThen(next)
    case Untracking(_, next) => PermitThen(next)
    case FreeSlot(next) => PermitThen(next)
    case Scan(_, _) => 0
    case RestoreKept(_) => 0
    case CloseKept(_) => 0
    case CloseEach(_) => 0
    case _ => 1
  }

  /** A thread counted in `_acquire_waiters`, and one still waiting for the semaphore. */
  function Registered(pc: Pc): nat {
    One(pc.WaitPermit? || pc.Unregister?)
  }

  function Blocked(pc: Pc): nat {
    One(pc.WaitPermit?)
  }

  function HeldThen(next: Then): nat {
    if next.ScanOn? then |next.rest| + |next.keep| else 0
  }

  /** How many tracked connections a thread has in its hands. */
  function Held(pc: Pc): nat {
    match pc
    case CheckHealth(_) => 1
    case LeaseFree(_) => 1
    case LeaseNew(_) => 1
    case Inspect(_) => 1
    case PutBackFree(_) => 1
    case Disconnect(_, next) => 1 + HeldThen(next)
    case Untracking(_, next) => 1 + HeldThen(next)
    case FreeSlot(next) => HeldThen(next)
    case Scan(rest, keep) => |rest| + |keep|
    case RestoreKept(keep) => |keep|
    case _ => 0
  }

  ghost predicate Ledger(s: System) {
    && s.p.acquireWaiters == Total(s.threads, Registered)
    && (s.p.closed ==> s.p.permits >= Total(s.threads, Blocked))
    && (!s.p.closed ==> s.p.permits + Total(s.threads, Permit) + |s.p.leased| == s.p.max)
    && (!s.p.closed ==>
          |s.p.connections| == |s.p.leased| + |s.p.free| + |s.orphans| + Total(s.threads, Held))
  }

  /** A step of thread `t` that keeps the four counts. */
  ghost predicate Balances(s: System, s': System, t: nat)
    requires t < |s.threads| == |s'.threads|
  {
    var pc, pc' := s.threads[t], s'.threads[t];
    && s'.p.closed == s.p.closed && s'.p.max == s.p.max
    && s'.p.acquireWaiters - Registered(pc') == s.p.acquireWaiters - Registered(pc)
    && s'.p.permits - Blocked(pc') >= s.p.permits - Blocked(pc)
    && (!s.p.closed ==> s'.p.permits + Permit(pc') + |s'.p.leased| == s.p.permits + Permit(pc) + |s.p.leased|)
    && (!s.p.closed ==>
          |s'.p.connections| - |s'.p.leased| - |s'.p.free| - |s'.orphans| - Held(pc') ==
          |s.p.connections| - |s.p.leased| - |s.p.free| - |s.orphans| - Held(pc))
  }

  lemma BalancesLedger(s: System, s': System, t: nat)
    requires Ledger(s) && OnlyThread(s, s', t) && Balances(s, s', t)
    ensures Ledger(s')
  {
    TotalUpdate(s.threads, t, s'.threads[t], Registered);
    TotalUpdate(s.threads, t, s'.threads[t], Blocked);
    TotalUpdate(s.threads, t, s'.threads[t], Permit);
    TotalUpdate(s.threads, t, s'.threads[t], Held);
  }

  /** The connection thread `t` works on, when it works on one. */
  function Subject(pc: Pc): nat {
    match pc
    case LeaseFree(c) => c
    case LeaseNew(c) => c
    case TrackNew(c) => c
    case Untracking(c, _) => c
    case _ => 0
  }

  lemma AcquireBalances(s: System, t: nat)
    requires t < |s.threads| && View(s, t, Subject(s.threads[t]))
    ensures Balances(s, AcquireStep(s, t), t)
  {
  }

  lemma CreateBalances(s: System, t: nat)
    requires t < |s.threads| && View(s, t, Subject(s.threads[t]))
    ensures Balances(s, CreateStep(s, t), t)
  {
  }

  lemma ReturnBalances(s: System, t: nat)
    requires t < |s.threads|
    ensures Balances(s, ReturnStep(s, t), t)
  {
  }

  lemma CloseBalances(s: System, t: nat)
    requires t < |s.threads| && View(s, t, Subject(s.threads[t]))
    ensures Balances(s, CloseStep(s, t), t)
  {
  }

  lemma SweepBalances(s: System, t: nat)
    requires t < |s.threads| && (Closing(s.threads[t]) ==> s.p.closed)
    ensures Balances(s, SweepStep(s, t), t)
  {
  }

  lemma JudgedBalances(s: System, t: nat, verdict: Verdict)
    requires t < |s.threads|
    ensures Balances(s, Judged(s, t, verdict), t)
  {
  }

  lemma MovedBalances(s: System, t: nat, move: Move)
    requires t < |s.threads| && View(s, t, Subject(s.threads[t]))
    ensures Balances(s, Moved(s, t, move), t)
  {
    match move
    case Advance =>
      AcquireBalances(s, t);
      CreateBalances(s, t);
      ReturnBalances(s, t);
      CloseBalances(s, t);
      SweepBalances(s, t);
    case Judge(verdict) => JudgedBalances(s, t, verdict);
    case _ =>
  }

  lemma SpawnLedger(s: System, a: Action)
    requires Own(s) && Ledger(s) && !a.On?
    ensures Ledger(Step(s, a))
  {
    match a
    case CallAcquire => NewThreadLedger(s, Step(s, a), if s.p.closed then Done(Failed) else WaitPermit);
    case CallRelease(c) => NewThreadLedger(s, Step(s, a), Step(s, a).threads[|s.threads|]);
    case CallCleanup => NewThreadLedger(s, Step(s, a), Scan(s.p.free, []));
    case CallCloseAll => CloseLedger(s);
  }

  /** A call that starts a thread, and the counts that its first block changes. */
  lemma NewThreadLedger(s: System, s': System, pc: Pc)
    requires Ledger(s) && s'.threads == s.threads + [pc] && s'.orphans == s.orphans
    requires && s'.p.closed == s.p.closed && s'.p.max == s.p.max && s'.p.permits == s.p.permits && Blocked(pc) <= Registered(pc)
             && s'.p.acquireWaiters == s.p.acquireWaiters + Registered(pc)
             && (s.p.closed ==> Blocked(pc) == 0)
             && (!s.p.closed ==> Permit(pc) + |s'.p.leased| == |s.p.leased|)
             && (!s.p.closed ==> s'.p.connections == s.p.connections
                                 && |s'.p.leased| + |s'.p.free| + Held(pc) == |s.p.leased| + |s.p.free|)
    ensures Ledger(s')
  {
    TotalAppend(s.threads, pc, Registered);
    TotalAppend(s.threads, pc, Blocked);
    TotalAppend(s.threads, pc, Permit);
    TotalAppend(s.threads, pc, Held);
  }

  lemma CloseLedger(s: System)
    requires Ledger(s)
    ensures Ledger(SpawnClose(s))
  {
    var pc := CloseEach(s.p.connections);
    TotalAppend(s.threads, pc, Registered);
    TotalAppend(s.threads, pc, Blocked);
    TotalMonotone(s.threads, Blocked, Registered);
  }

  lemma StepLedger(s: System, a: Action)
    requires Own(s) && Ledger(s)
    ensures Ledger(Step(s, a))
  {
    match a
    case On(t, move) =>
      if t < |s.threads| {
        ViewOf(s, t, Subject(s.threads[t]));
        MovedBalances(s, t, move);
        MovedOnly(s, t, move);
        BalancesLedger(s, Step(s, a), t);
      }
    case _ => SpawnLedger(s, a);
  }

  lemma {:induction false} ExecLedger(s: System, actions: seq<Action>)
    requires Own(s) && Ledger(s)
    ensures Own(Exec(s, actions)) && Ledger(Exec(s, actions)) && Exec(s, actions).p.max == s.p.max
    decreases |actions|
  {
    if actions != [] {
      StepOwn(s, actions[0]);
      StepLedger(s, actions[0]);
      StepMax(s, actions[0]);
      ExecLedger(Step(s, actions[0]), actions[1..]);
    }
  }

  lemma StepMax(s: System, a: Action)
    requires Own(s)
    ensures Step(s, a).p.max == s.p.max && (s.p.closed ==> Step(s, a).p.closed)
  {
    match a
    case On(t, move) =>
      if t < |s.threads| {
        ViewOf(s, t, Subject(s.threads[t]));
        MovedBalances(s, t, move);
      }
    case _ =>
  }
}
