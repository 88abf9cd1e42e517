/** What permits, budget slots, waiters and connections of the asynchronous pool add up to. */
module AsyncLedger {
  import opened Counting
  import opened Sequences
  import opened SyncPool
  import opened AsyncPool
  import opened AsyncRuns
  import opened AsyncFacts

  function Registered(pc: Pc): nat { One(pc.Waiting?) }

  /** A task that holds a permit and nothing else. */
  function EmptyHanded(pc: Pc): nat {
    One(pc.Closing? && (pc.next.TryNextFree? || pc.next.FailAcquire? || pc.next.ReleaseFinally? || pc.next.ReleaseAfterRaise?))
  }

  function Maker(pc: Pc): nat { One(pc.Asking? || pc.Connecting? || pc.Dropping?) }

  function Permit(pc: Pc): nat { EmptyHanded(pc) + Maker(pc) + One(pc.Checking?) }

  /** A budget slot that no tracked connection accounts for. */
  function SlotOf(pc: Pc): nat {
    One(pc.Connecting? || (pc.Dropping? && pc.held) || (pc.Closing? && pc.tracked))
  }

  /** How many tracked connections a cleanup has taken from the free queue. */
  function Swept(pc: Pc): nat {
    if pc.Scanning? then |pc.rest| + |pc.keep|
    else if pc.Closing? && pc.next.ScanOn? then |pc.next.rest| + |pc.next.keep|
    else 0
  }

  function Held(pc: Pc): nat { Swept(pc) + One(pc.Checking?) }

  ghost predicate Ledger(s: System) {
    && s.a.p.acquireWaiters == Total(s.tasks, Registered)
    && (s.a.p.closed ==> s.a.p.permits >= Total(s.tasks, Registered))
    && (!s.a.p.closed ==> s.a.p.permits + Total(s.tasks, Permit) + |s.a.p.leased| + s.lost == s.a.p.max)
    && (!s.a.p.closed ==>
          |s.a.p.connections| == |s.a.p.leased| + |s.a.p.free| + |s.orphans| + Total(s.tasks, Held))
    && s.slots == |s.a.p.connections| + Total(s.tasks, SlotOf)
    && !s.overReleased
  }

  /** A step of task `t` that keeps the counts. */
  ghost predicate Balances(s: System, s': System, t: nat)
    requires t < |s.tasks| == |s'.tasks|
  {
    var pc, pc' := s.tasks[t], s'.tasks[t];
    && s'.a.p.closed == s.a.p.closed && s'.a.p.max == s.a.p.max
    && s'.a.p.acquireWaiters - Registered(pc') == s.a.p.acquireWaiters - Registered(pc)
    && s'.a.p.permits - Registered(pc') >= s.a.p.permits - Registered(pc)
    && (!s.a.p.closed ==>
          s'.a.p.permits + Permit(pc') + |s'.a.p.leased| + s'.lost == s.a.p.permits + Permit(pc) + |s.a.p.leased| + s.lost)
    && (!s.a.p.closed ==>
          |s'.a.p.connections| - |s'.a.p.leased| - |s'.a.p.free| - |s'.orphans| - Held(pc') ==
          |s.a.p.connections| - |s.a.p.leased| - |s.a.p.free| - |s.orphans| - Held(pc))
    && s'.slots - |s'.a.p.connections| - SlotOf(pc') == s.slots - |s.a.p.connections| - SlotOf(pc)
    && (s'.overReleased ==> s.overReleased || s.slots < SlotOf(pc))
  }

  lemma BalancesLedger(s: System, s': System, t: nat)
    requires Ledger(s) && t < |s.tasks| == |s'.tasks|
    requires s'.tasks == s.tasks[t := s'.tasks[t]] && Balances(s, s', t)
    ensures Ledger(s')
  {
    TotalUpdate(s.tasks, t, s'.tasks[t], Registered);
    TotalUpdate(s.tasks, t, s'.tasks[t], Permit);
    TotalUpdate(s.tasks, t, s'.tasks[t], Held);
    TotalUpdate(s.tasks, t, s'.tasks[t], SlotOf);
    TotalAtLeast(s.tasks, t, SlotOf);
  }

  /** The connection that the next step of a task is about. */
  function Subject(pc: Pc): nat {
    match pc
    case Checking(c) => c
    case Connecting(c) => c
    case Scanning(rest, _) => if rest != [] then rest[0] else 0
    case _ => 0
  }

  lemma ForgetBalances(s: System, t: nat, k: nat, next: Then)
    requires t < |s.tasks| && (s.a.p.closed ==> s.a.p.leased == {})
    requires !s.a.p.closed ==> k in s.a.p.connections && k !in s.a.p.leased
    requires !s.tasks[t].Waiting? && SlotOf(s.tasks[t]) == 0
    requires !s.a.p.closed ==> Permit(Closing(k, true, next)) == Permit(s.tasks[t])
                               && Held(Closing(k, true, next)) == Held(s.tasks[t]) - 1
    ensures Balances(s, Forget(s, t, k, next), t)
  {
    ForgetNumbers(s.a.p, k);
  }

  lemma ForgetNumbers(p: Pool, k: nat)
    requires p.closed ==> p.leased == {}
    requires !p.closed ==> k in p.connections && k !in p.leased
    ensures var (p', tracked) := StartClose(p, k);
            && p' == p.(connections := p'.connections, meta := p'.meta)
            && tracked == (k in p.connections) && |p'.connections| == |p.connections| - One(tracked)
  {
    if k !in p.connections { assert p.connections - {k} == p.connections; }
    assert p.leased - {k} == p.leased;
  }

  /** The books are the same but for the slot that task `t` has just given up, if any. */
  ghost predicate SlotFreed(s: System, s': System, t: nat)
    requires t < |s.tasks|
  {
    && s' == s.(slots := s.slots - SlotOf(s.tasks[t]), overReleased := s'.overReleased)
    && (s'.overReleased ==> s.overReleased || s.slots < SlotOf(s.tasks[t]))
  }

  /** The task gives its permit back and ends. */
  lemma GiveBackBalances(s: System, s': System, t: nat, result: Result)
    requires t < |s.tasks| && SlotFreed(s, s', t)
    requires Held(s.tasks[t]) == 0 && Registered(s.tasks[t]) == 0 && (!s.a.p.closed ==> Permit(s.tasks[t]) == 1)
    ensures Balances(s, At(Books(s', GiveIfOpen(s'.a.p)), t, Done(result)), t)
  {
  }

  /** The task goes on with what it has. */
  lemma GoOnBalances(s: System, s': System, t: nat, pc: Pc)
    requires t < |s.tasks| && SlotFreed(s, s', t) && SlotOf(pc) == 0
    requires Registered(pc) == Registered(s.tasks[t]) == 0
    requires !s.a.p.closed ==> Held(pc) == Held(s.tasks[t]) && Permit(pc) == Permit(s.tasks[t])
    ensures Balances(s, At(s', t, pc), t)
  {
  }

  /** acquire goes on: it takes a free connection, or starts to make one. */
  lemma ContinueBalances(s: System, s': System, t: nat)
    requires t < |s.tasks| && s' == s.(a := s.a.(p := s'.a.p), slots := s'.slots, overReleased := s'.overReleased)
    requires s'.a.p == s.a.p.(permits := s'.a.p.permits, acquireWaiters := s'.a.p.acquireWaiters) && !s.a.p.closed
    requires s'.slots == s.slots - SlotOf(s.tasks[t]) && (s'.overReleased ==> s.overReleased || s.slots < SlotOf(s.tasks[t]))
    requires Held(s.tasks[t]) == 0 && s'.a.p.acquireWaiters == s.a.p.acquireWaiters - Registered(s.tasks[t])
    requires s'.a.p.permits == s.a.p.permits - Registered(s.tasks[t]) && Permit(s.tasks[t]) + Registered(s.tasks[t]) == 1
    ensures var (p, popped) := PopFree(s'.a.p); Balances(s, Continue(Books(s', p), t, popped), t)
  {
  }

  /** The wait is cancelled, or ends because the pool was closed. */
  lemma WaitEndsBalances(s: System, t: nat, taken: nat)
    requires t < |s.tasks| && s.tasks[t].Waiting? && taken <= s.a.p.permits && taken <= One(s.a.p.closed)
    ensures Balances(s, At(Books(s, Unregister(s.a.p.(permits := s.a.p.permits - taken))), t, Done(Failed)), t)
  {
  }

  lemma WaitBalances(s: System, t: nat, move: Move)
    requires t < |s.tasks| && s.tasks[t].Waiting?
    ensures |AcquireStep(s, t, move).tasks| == |s.tasks|
    ensures Balances(s, AcquireStep(s, t, move), t)
  {
    if move.Cancel? {
      WaitEndsBalances(s, t, 0);
    } else if s.a.p.permits > 0 {
      if s.a.p.closed {
        WaitEndsBalances(s, t, 1);
      } else {
        ContinueBalances(s, Books(s, Unregister(TakePermit(s.a.p))), t);
      }
    }
  }

  lemma LeaseBalances(s: System, t: nat)
    requires t < |s.tasks| && s.tasks[t].Checking? && !s.a.p.closed && s.tasks[t].conn !in s.a.p.leased
    ensures var k := s.tasks[t].conn; Balances(s, At(Books(s, LeaseReused(s.a.p, k).0), t, Done(Leased(k))), t)
  {
  }

  lemma AcquireBalances(s: System, t: nat, move: Move)
    requires t < |s.tasks| && (s.tasks[t].Waiting? || s.tasks[t].Checking?) && View(s, t, Subject(s.tasks[t]))
    ensures |AcquireStep(s, t, move).tasks| == |s.tasks|
    ensures Balances(s, AcquireStep(s, t, move), t)
  {
    if s.tasks[t].Waiting? {
      WaitBalances(s, t, move);
    } else if move == Judge(Good) && !s.a.p.closed {
      LeaseBalances(s, t);
    } else {
      ForgetBalances(s, t, s.tasks[t].conn, if move == Judge(Bad) then TryNextFree else FailAcquire);
    }
  }

  lemma CreateBalances(s: System, t: nat, move: Move)
    requires t < |s.tasks| && (s.tasks[t].Asking? || s.tasks[t].Connecting? || s.tasks[t].Dropping?)
    requires View(s, t, Subject(s.tasks[t]))
    ensures Balances(s, CreateStep(s, t, move), t)
  {
  }

  /** What a task does next that has closed a connection. */
  function NextPc(next: Then): Pc {
    match next
    case ScanOn(rest, keep) => Scanning(rest, keep)
    case CloseKeptOn(kept) => CloseKept(kept)
    case CloseEachOn(left, all, recovering) => CloseLeft(left, all, recovering)
    case _ => Done(Finished)
  }

  lemma AfterCloseBalances(s: System, s': System, t: nat)
    requires t < |s.tasks| && s.tasks[t].Closing? && (OnlyClosed(s.tasks[t]) ==> s.a.p.closed) && SlotFreed(s, s', t)
    ensures |AfterClose(s', t, s.tasks[t].next).tasks| == |s.tasks|
    ensures Balances(s, AfterClose(s', t, s.tasks[t].next), t)
  {
    var next := s.tasks[t].next;
    if next.TryNextFree? && !s.a.p.closed {
      ContinueBalances(s, s', t);
    } else if next.TryNextFree? || next.FailAcquire? || next.ReleaseAfterRaise? {
      GiveBackBalances(s, s', t, Failed);
    } else if next.ReleaseFinally? {
      GiveBackBalances(s, s', t, Finished);
    } else {
      GoOnBalances(s, s', t, NextPc(next));
    }
  }

  lemma OrphanBalances(s: System, s': System, t: nat)
    requires t < |s.tasks| && s.tasks[t].Closing? && s.tasks[t].next.ScanOn? && SlotFreed(s, s', t)
    ensures Balances(s, AfterCancel(s', t, s.tasks[t].next), t)
  {
  }

  lemma LostBalances(s: System, s': System, t: nat)
    requires t < |s.tasks| && s.tasks[t].Closing? && s.tasks[t].next.ReleaseAfterRaise? && SlotFreed(s, s', t)
    ensures Balances(s, AfterCancel(s', t, s.tasks[t].next), t)
  {
  }

  lemma RecoverBalances(s: System, s': System, t: nat)
    requires t < |s.tasks| && s.tasks[t].Closing? && s.tasks[t].next.CloseEachOn? && s.a.p.closed && SlotFreed(s, s', t)
    ensures Balances(s, AfterCancel(s', t, s.tasks[t].next), t)
  {
  }

  lemma AfterCancelBalances(s: System, s': System, t: nat)
    requires t < |s.tasks| && s.tasks[t].Closing? && (OnlyClosed(s.tasks[t]) ==> s.a.p.closed) && SlotFreed(s, s', t)
    ensures |AfterCancel(s', t, s.tasks[t].next).tasks| == |s.tasks|
    ensures Balances(s, AfterCancel(s', t, s.tasks[t].next), t)
  {
    var next := s.tasks[t].next;
    if next.TryNextFree? || next.FailAcquire? || next.ReleaseFinally? {
      GiveBackBalances(s, s', t, Failed);
    } else if next.ScanOn? {
      OrphanBalances(s, s', t);
    } else if next.ReleaseAfterRaise? {
      LostBalances(s, s', t);
    } else if next.CloseEachOn? {
      RecoverBalances(s, s', t);
    } else {
      GoOnBalances(s, s', t, Done(Failed));
    }
  }

  lemma CloseSlotFreed(s: System, t: nat)
    requires t < |s.tasks| && s.tasks[t].Closing?
    ensures SlotFreed(s, if s.tasks[t].tracked then FreeSlot(s) else s, t)
  {
  }

  lemma CloseBalances(s: System, t: nat, move: Move)
    requires t < |s.tasks| && s.tasks[t].Closing? && (OnlyClosed(s.tasks[t]) ==> s.a.p.closed)
    ensures |CloseStep(s, t, move).tasks| == |s.tasks|
    ensures Balances(s, CloseStep(s, t, move), t)
  {
    var s' := if s.tasks[t].tracked then FreeSlot(s) else s;
    var next := s.tasks[t].next;
    CloseSlotFreed(s, t);
    if move.Cancel? && !(next.CloseEachOn? && next.recovering) {
      AfterCancelBalances(s, s', t);
    } else {
      AfterCloseBalances(s, s', t);
    }
  }

  lemma ScanBalances(s: System, t: nat, move: Move)
    requires t < |s.tasks| && (s.tasks[t].Scanning? || s.tasks[t].CloseKept?)
    requires View(s, t, Subject(s.tasks[t]))
    ensures |ScanStep(s, t, move).tasks| == |s.tasks|
    ensures Balances(s, ScanStep(s, t, move), t)
  {
    var pc := s.tasks[t];
    if pc.CloseKept? {
      if pc.kept != [] { ForgetBalances(s, t, pc.kept[0], CloseKeptOn(pc.kept[1..])); }
    } else if pc.rest == [] {
      RestoreBalances(s, t);
    } else if move == Judge(Bad) {
      ForgetBalances(s, t, pc.rest[0], ScanOn(pc.rest[1..], pc.keep));
    } else if move == Judge(Good) {
      GoOnBalances(s, s, t, Scanning(pc.rest[1..], pc.keep + [pc.rest[0]]));
    } else {
      DropBalances(s, t);
    }
  }

  lemma DropBalances(s: System, t: nat)
    requires t < |s.tasks| && s.tasks[t].Scanning?
    ensures var pc := s.tasks[t];
            Balances(s, At(s.(orphans := s.orphans + (pc.rest + pc.keep)), t, Done(Failed)), t)
  {
  }

  lemma RestoreBalances(s: System, t: nat)
    requires t < |s.tasks| && s.tasks[t].Scanning? && s.tasks[t].rest == []
    ensures Balances(s, ScanStep(s, t, Advance), t)
  {
  }

  lemma FlagBalances(s: System, t: nat, move: Move)
    requires t < |s.tasks| && (s.tasks[t].Done? || s.tasks[t].AwaitingRecovery? || s.tasks[t].AwaitingFinish?)
    ensures |CloseAllStep(s, t, move).tasks| == |s.tasks|
    ensures Balances(s, CloseAllStep(s, t, move), t)
  {
  }

  lemma CloseLeftBalances(s: System, t: nat, move: Move)
    requires t < |s.tasks| && s.tasks[t].CloseLeft? && s.a.p.closed && Tidy(s.a.p)
    ensures |CloseAllStep(s, t, move).tasks| == |s.tasks|
    ensures Balances(s, CloseAllStep(s, t, move), t)
  {
    var pc := s.tasks[t];
    if move.CloseOne? && move.victim in pc.left {
      ForgetBalances(s, t, move.victim, CloseEachOn(pc.left - {move.victim}, pc.all, pc.recovering));
    }
  }

  lemma CloseAllBalances(s: System, t: nat, move: Move)
    requires t < |s.tasks| && (OnlyClosed(s.tasks[t]) ==> s.a.p.closed) && Tidy(s.a.p)
    requires s.tasks[t].Done? || s.tasks[t].CloseLeft? || s.tasks[t].AwaitingRecovery? || s.tasks[t].AwaitingFinish?
    ensures |CloseAllStep(s, t, move).tasks| == |s.tasks|
    ensures Balances(s, CloseAllStep(s, t, move), t)
  {
    if s.tasks[t].CloseLeft? { CloseLeftBalances(s, t, move); } else { FlagBalances(s, t, move); }
  }

  lemma MovedBalances(s: System, t: nat, move: Move)
    requires Own(s) && t < |s.tasks|
    ensures |Moved(s, t, move).tasks| == |s.tasks| && Balances(s, Moved(s, t, move), t)
  {
    var pc := s.tasks[t];
    ViewOf(s, t, Subject(pc));
    if pc.Waiting? || pc.Checking? { AcquireBalances(s, t, move); }
    else if pc.Asking? || pc.Connecting? || pc.Dropping? { CreateBalances(s, t, move); }
    else if pc.Closing? { CloseBalances(s, t, move); }
    else if pc.Scanning? || pc.CloseKept? { ScanBalances(s, t, move); }
    else { CloseAllBalances(s, t, move); }
  }

  lemma MovedLedger(s: System, t: nat, move: Move)
    requires Own(s) && Ledger(s) && t < |s.tasks|
    ensures Ledger(Moved(s, t, move)) && Moved(s, t, move).a.p.max == s.a.p.max
  {
    MovedBalances(s, t, move);
    ViewOf(s, t, 0);
    MovedConserves(s, t, move, 0);
    BalancesLedger(s, Moved(s, t, move), t);
  }

  /** A call that starts a task, and the counts that its first block changes. */
  lemma NewTaskLedger(s: System, s': System, pc: Pc)
    requires Ledger(s) && s'.tasks == s.tasks + [pc] && s'.orphans == s.orphans && s'.lost == s.lost
    requires s'.slots == s.slots && s'.overReleased == s.overReleased && s'.a.p.max == s.a.p.max
    requires s'.a.p.closed == s.a.p.closed && s'.a.p.acquireWaiters == s.a.p.acquireWaiters + Registered(pc)
    requires s.a.p.closed ==> Registered(pc) == 0 && s'.a.p.permits >= s.a.p.permits
    requires !s.a.p.closed ==>
               && s'.a.p.permits + Permit(pc) + |s'.a.p.leased| == s.a.p.permits + |s.a.p.leased|
               && |s'.a.p.connections| - |s'.a.p.leased| - |s'.a.p.free| - Held(pc)
                  == |s.a.p.connections| - |s.a.p.leased| - |s.a.p.free|
    requires |s'.a.p.connections| + SlotOf(pc) == |s.a.p.connections|
    ensures Ledger(s')
  {
    TotalAppend(s.tasks, pc, Registered);
    TotalAppend(s.tasks, pc, Permit);
    TotalAppend(s.tasks, pc, Held);
    TotalAppend(s.tasks, pc, SlotOf);
  }

  lemma ReleaseLedger(s: System, c: nat, verdict: Verdict)
    requires Ledger(s) && Tidy(s.a.p) && OwnedOnce(s, c)
    ensures Ledger(SpawnRelease(s, c, verdict)) && SpawnRelease(s, c, verdict).a.p.max == s.a.p.max
  {
    var s' := SpawnRelease(s, c, verdict);
    NewTaskLedger(s, s', s'.tasks[|s.tasks|]);
  }

  lemma CloseLedger(s: System)
    requires Ledger(s)
    ensures Ledger(SpawnClose(s)) && SpawnClose(s).a.p.max == s.a.p.max
  {
    var s' := SpawnClose(s);
    var pc := s'.tasks[|s.tasks|];
    TotalAppend(s.tasks, pc, Registered);
    TotalAppend(s.tasks, pc, Permit);
    TotalAppend(s.tasks, pc, Held);
    TotalAppend(s.tasks, pc, SlotOf);
  }

  lemma StepLedger(s: System, a: Action)
    requires Own(s) && Ledger(s)
    ensures Ledger(Step(s, a)) && Step(s, a).a.p.max == s.a.p.max
  {
    match a
    case CallAcquire => NewTaskLedger(s, Step(s, a), if s.a.p.closed then Done(Failed) else Waiting);
    case CallRelease(c, verdict) => assert OwnedOnce(s, c); ReleaseLedger(s, c, verdict);
    case CallCleanup => NewTaskLedger(s, Step(s, a), Scanning(s.a.p.free, []));
    case CallCloseAll => CloseLedger(s);
    case On(t, move) => if t < |s.tasks| { MovedLedger(s, t, move); }
  }

  lemma StartHolds(max: nat)
    ensures Own(Start(max)) && Ledger(Start(max))
  {
  }

  lemma {:induction false} ExecLedger(s: System, actions: seq<Action>)
    requires Own(s) && Ledger(s)
    ensures Own(Exec(s, actions)) && Ledger(Exec(s, actions)) && Exec(s, actions).a.p.max == s.a.p.max
    decreases |actions|
  {
    if actions != [] {
      StepOwn(s, actions[0]);
      StepLedger(s, actions[0]);
      ExecLedger(Step(s, actions[0]), actions[1..]);
    }
  }

  lemma Reached(max: nat, actions: seq<Action>)
    ensures var s := Exec(Start(max), actions); Own(s) && Ledger(s) && s.a.p.max == max
  {
    StartHolds(max);
    ExecLedger(Start(max), actions);
  }
}
