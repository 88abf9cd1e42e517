/** The books of the asynchronous pool in every reachable state: who has each connection,
    and what permits, budget slots and connections add up to. */
module AsyncFacts {
  import opened Counting
  import opened Sequences
  import opened SyncPool
  import opened AsyncPool
  import opened AsyncRuns

  // ---------------------------------------------------------- who has what

  /** How often a task has tracked connection `c` in its hands. */
  function Hands(pc: Pc, c: nat): nat {
    match pc
    case Checking(d) => One(c == d)
    case Scanning(rest, keep) => Count(rest, c) + Count(keep, c)
    case Closing(_, _, next) => if next.ScanOn? then Count(next.rest, c) + Count(next.keep, c) else 0
    case _ => 0
  }

  function HandOf(c: nat): Pc -> nat {
    (pc: Pc) => Hands(pc, c)
  }

  /** A task that made client `c` and has not handed it to the pool. */
  function Making(pc: Pc, c: nat): nat {
    match pc
    case Asking(d) => One(c == d)
    case Connecting(d) => One(c == d)
    case Dropping(d, _) => One(c == d)
    case _ => 0
  }

  function MakerOf(c: nat): Pc -> nat {
    (pc: Pc) => Making(pc, c)
  }

  /** The places of `c` outside the tasks. */
  function Shelves(s: System, c: nat): nat {
    One(c in s.a.p.leased) + Count(s.a.p.free, c) + Count(s.orphans, c)
  }

  ghost predicate OwnedOnce(s: System, c: nat) {
    && (!s.a.p.closed ==> Shelves(s, c) + Total(s.tasks, HandOf(c)) == One(c in s.a.p.connections))
    && Total(s.tasks, MakerOf(c)) + One(c in s.tracked) <= One(c < s.made)
    && (c in s.a.p.connections ==> c in s.tracked)
  }

  ghost predicate Tidy(p: Pool) {
    && p.meta == p.connections
    && (p.closed ==> p.free == [] && p.leased == {})
    && (!p.closed ==> p.closedLeases == {})
  }

  ghost predicate OnlyClosed(pc: Pc) {
    pc.CloseKept? || pc.CloseLeft? || (pc.Closing? && (pc.next.CloseKeptOn? || pc.next.CloseEachOn? || pc.next.Finish?))
  }

  ghost predicate Own(s: System) {
    && Tidy(s.a.p)
    && (forall i :: 0 <= i < |s.tasks| && OnlyClosed(s.tasks[i]) ==> s.a.p.closed)
    && (forall c :: OwnedOnce(s, c))
  }

  /** What the invariant says about connection `c` and task `t` alone. */
  ghost predicate View(s: System, t: nat, c: nat)
    requires t < |s.tasks|
  {
    && Tidy(s.a.p)
    && (OnlyClosed(s.tasks[t]) ==> s.a.p.closed)
    && (!s.a.p.closed ==> Shelves(s, c) + Hands(s.tasks[t], c) <= One(c in s.a.p.connections))
    && Making(s.tasks[t], c) + One(c in s.tracked) <= One(c < s.made)
    && (c in s.a.p.connections ==> c in s.tracked)
  }

  lemma ViewOf(s: System, t: nat, c: nat)
    requires Own(s) && t < |s.tasks|
    ensures View(s, t, c)
  {
    assert OwnedOnce(s, c);
    TotalAtLeast(s.tasks, t, HandOf(c));
    TotalAtLeast(s.tasks, t, MakerOf(c));
  }

  /** A step of task `t` that changes no other task and neither loses nor doubles `c`. */
  ghost predicate Conserves(s: System, s': System, t: nat, c: nat)
    requires t < |s.tasks|
  {
    && |s'.tasks| == |s.tasks| && s'.tasks == s.tasks[t := s'.tasks[t]]
    && Tidy(s'.a.p) && s'.a.p.closed == s.a.p.closed && (OnlyClosed(s'.tasks[t]) ==> s.a.p.closed)
    && (!s.a.p.closed ==>
          Shelves(s', c) + Hands(s'.tasks[t], c) + One(c in s.a.p.connections)
          == Shelves(s, c) + Hands(s.tasks[t], c) + One(c in s'.a.p.connections))
    && Making(s'.tasks[t], c) + One(c in s'.tracked) + One(c < s.made)
       <= Making(s.tasks[t], c) + One(c in s.tracked) + One(c < s'.made)
    && (c in s'.a.p.connections ==> c in s'.tracked)
  }

  lemma ConservesOnce(s: System, s': System, t: nat, c: nat)
    requires t < |s.tasks| && OwnedOnce(s, c) && Conserves(s, s', t, c)
    ensures OwnedOnce(s', c)
  {
    TotalUpdate(s.tasks, t, s'.tasks[t], HandOf(c));
    TotalUpdate(s.tasks, t, s'.tasks[t], MakerOf(c));
  }

  lemma FailConserves(s: System, s': System, t: nat, c: nat)
    requires t < |s.tasks| && View(s, t, c)
    requires s' == s.(slots := s'.slots, overReleased := s'.overReleased)
    requires Hands(s.tasks[t], c) == 0
    ensures Conserves(s, Fail(s', t), t, c)
  {
  }

  lemma ContinueConserves(s: System, s': System, t: nat, c: nat)
    requires t < |s.tasks| && View(s, t, c) && Hands(s.tasks[t], c) == 0 && Making(s.tasks[t], c) == 0
    requires s'.a.p == s.a.p.(permits := s'.a.p.permits, acquireWaiters := s'.a.p.acquireWaiters)
    requires s' == s.(a := s.a.(p := s'.a.p), slots := s'.slots, overReleased := s'.overReleased)
    ensures var (p, popped) := PopFree(s'.a.p); Conserves(s, Continue(Books(s', p), t, popped), t, c)
  {
    if !s.a.p.closed && s.a.p.free != [] {
      assert Count(s.a.p.free, c) == One(s.a.p.free[0] == c) + Count(s.a.p.free[1..], c);
    }
  }

  /** A task forgets connection `k` that it has in its hands, and closes it. */
  lemma ForgetConserves(s: System, t: nat, k: nat, next: Then, c: nat)
    requires t < |s.tasks| && View(s, t, c)
    requires Making(s.tasks[t], c) == 0 && (OnlyClosed(Closing(k, true, next)) ==> s.a.p.closed)
    requires !s.a.p.closed ==> Hands(Closing(k, true, next), c) + One(c == k) == Hands(s.tasks[t], c)
    ensures Conserves(s, Forget(s, t, k, next), t, c)
  {
  }

  lemma WaitConserves(s: System, t: nat, move: Move, c: nat)
    requires t < |s.tasks| && View(s, t, c) && s.tasks[t].Waiting?
    ensures Conserves(s, AcquireStep(s, t, move), t, c)
  {
    if !move.Cancel? && s.a.p.permits > 0 {
      ContinueConserves(s, Books(s, Unregister(TakePermit(s.a.p))), t, c);
    } else {
      assert s.tasks == s.tasks[t := s.tasks[t]];
    }
  }

  lemma LeaseConserves(s: System, t: nat, c: nat)
    requires t < |s.tasks| && View(s, t, c) && s.tasks[t].Checking? && !s.a.p.closed
    ensures var k := s.tasks[t].conn; Conserves(s, At(Books(s, LeaseReused(s.a.p, k).0), t, Done(Leased(k))), t, c)
  {
  }

  lemma AcquireConserves(s: System, t: nat, move: Move, c: nat)
    requires t < |s.tasks| && View(s, t, c) && (s.tasks[t].Waiting? || s.tasks[t].Checking?)
    ensures Conserves(s, AcquireStep(s, t, move), t, c)
  {
    if s.tasks[t].Waiting? {
      WaitConserves(s, t, move, c);
    } else if move == Judge(Good) && !s.a.p.closed {
      LeaseConserves(s, t, c);
    } else {
      ForgetConserves(s, t, s.tasks[t].conn, if move == Judge(Bad) then TryNextFree else FailAcquire, c);
    }
  }

  lemma CreateConserves(s: System, t: nat, move: Move, c: nat)
    requires t < |s.tasks| && View(s, t, c) && (s.tasks[t].Asking? || s.tasks[t].Connecting? || s.tasks[t].Dropping?)
    ensures Conserves(s, CreateStep(s, t, move), t, c)
  {
  }

  lemma AfterCloseConserves(s: System, s': System, t: nat, c: nat)
    requires t < |s.tasks| && View(s, t, c) && s.tasks[t].Closing?
    requires s' == s.(slots := s'.slots, overReleased := s'.overReleased)
    ensures Conserves(s, AfterClose(s', t, s.tasks[t].next), t, c)
  {
    if s.tasks[t].next.TryNextFree? {
      ContinueConserves(s, s', t, c);
    }
  }

  lemma AfterCancelConserves(s: System, s': System, t: nat, c: nat)
    requires t < |s.tasks| && View(s, t, c) && s.tasks[t].Closing?
    requires s' == s.(slots := s'.slots, overReleased := s'.overReleased)
    ensures Conserves(s, AfterCancel(s', t, s.tasks[t].next), t, c)
  {
    var next := s.tasks[t].next;
    if next.ScanOn? {
      OrphanConserves(s, s', t, next.rest, next.keep, c);
    } else if next.TryNextFree? || next.FailAcquire? {
      FailConserves(s, s', t, c);
    }
  }

  /** A cleanup that is cut short drops what it took from the free queue. */
  lemma OrphanConserves(s: System, s': System, t: nat, rest: seq<nat>, keep: seq<nat>, c: nat)
    requires t < |s.tasks| && View(s, t, c) && Making(s.tasks[t], c) == 0
    requires Hands(s.tasks[t], c) == Count(rest, c) + Count(keep, c)
    requires s' == s.(slots := s'.slots, overReleased := s'.overReleased)
    ensures Conserves(s, At(s'.(orphans := s'.orphans + (rest + keep)), t, Done(Failed)), t, c)
  {
    CountAppend(rest, keep, c);
    CountAppend(s.orphans, rest + keep, c);
  }

  lemma CloseConserves(s: System, t: nat, move: Move, c: nat)
    requires t < |s.tasks| && View(s, t, c) && s.tasks[t].Closing?
    ensures Conserves(s, CloseStep(s, t, move), t, c)
  {
    var s' := if s.tasks[t].tracked then FreeSlot(s) else s;
    AfterCloseConserves(s, s', t, c);
    AfterCancelConserves(s, s', t, c);
  }

  lemma RestoreConserves(s: System, t: nat, c: nat)
    requires t < |s.tasks| && View(s, t, c) && s.tasks[t].Scanning? && s.tasks[t].rest == []
    ensures Conserves(s, ScanStep(s, t, Advance), t, c)
  {
    CountAppend(s.a.p.free, s.tasks[t].keep, c);
  }

  lemma KeepConserves(s: System, t: nat, c: nat)
    requires t < |s.tasks| && View(s, t, c) && s.tasks[t].Scanning? && s.tasks[t].rest != []
    ensures var pc := s.tasks[t]; Conserves(s, At(s, t, Scanning(pc.rest[1..], pc.keep + [pc.rest[0]])), t, c)
  {
    CountPush(s.tasks[t].keep, s.tasks[t].rest[0], c);
  }

  lemma ScanConserves(s: System, t: nat, move: Move, c: nat)
    requires t < |s.tasks| && View(s, t, c) && (s.tasks[t].Scanning? || s.tasks[t].CloseKept?)
    ensures Conserves(s, ScanStep(s, t, move), t, c)
  {
    var pc := s.tasks[t];
    if pc.CloseKept? {
      if pc.kept != [] { ForgetConserves(s, t, pc.kept[0], CloseKeptOn(pc.kept[1..]), c); }
    } else if pc.rest == [] {
      RestoreConserves(s, t, c);
    } else if move == Judge(Good) {
      KeepConserves(s, t, c);
    } else if move == Judge(Bad) {
      ForgetConserves(s, t, pc.rest[0], ScanOn(pc.rest[1..], pc.keep), c);
    } else {
      OrphanConserves(s, s, t, pc.rest, pc.keep, c);
    }
  }

  lemma CloseAllConserves(s: System, t: nat, move: Move, c: nat)
    requires t < |s.tasks| && View(s, t, c)
    requires s.tasks[t].Done? || s.tasks[t].CloseLeft? || s.tasks[t].AwaitingRecovery? || s.tasks[t].AwaitingFinish?
    ensures Conserves(s, CloseAllStep(s, t, move), t, c)
  {
    var pc := s.tasks[t];
    assert s.tasks == s.tasks[t := s.tasks[t]];
    if pc.CloseLeft? && move.CloseOne? && move.victim in pc.left {
      ForgetConserves(s, t, move.victim, CloseEachOn(pc.left - {move.victim}, pc.all, pc.recovering), c);
    }
  }

  lemma MovedConserves(s: System, t: nat, move: Move, c: nat)
    requires t < |s.tasks| && View(s, t, c)
    ensures Conserves(s, Moved(s, t, move), t, c)
  {
    var pc := s.tasks[t];
    if pc.Waiting? || pc.Checking? { AcquireConserves(s, t, move, c); }
    else if pc.Asking? || pc.Connecting? || pc.Dropping? { CreateConserves(s, t, move, c); }
    else if pc.Closing? { CloseConserves(s, t, move, c); }
    else if pc.Scanning? || pc.CloseKept? { ScanConserves(s, t, move, c); }
    else { CloseAllConserves(s, t, move, c); }
  }

  lemma MovedOwn(s: System, t: nat, move: Move)
    requires Own(s) && t < |s.tasks|
    ensures Own(Moved(s, t, move))
  {
    var s' := Moved(s, t, move);
    ViewOf(s, t, 0);
    MovedConserves(s, t, move, 0);
    forall c ensures OwnedOnce(s', c) {
      ViewOf(s, t, c);
      MovedConserves(s, t, move, c);
      assert OwnedOnce(s, c);
      ConservesOnce(s, s', t, c);
    }
    forall i | 0 <= i < |s'.tasks| && OnlyClosed(s'.tasks[i]) ensures s'.a.p.closed {
      if i != t { assert s'.tasks[i] == s.tasks[i]; }
    }
  }

  /** A call that starts task `pc`. */
  lemma SpawnOnce(s: System, s': System, pc: Pc, c: nat)
    requires OwnedOnce(s, c) && s'.tasks == s.tasks + [pc] && s'.made == s.made && s'.tracked == s.tracked
    requires Making(pc, c) == 0 && s'.a.p.connections <= s.a.p.connections
    requires !s'.a.p.closed ==> !s.a.p.closed && Shelves(s', c) + Hands(pc, c) + One(c in s.a.p.connections)
                                                == Shelves(s, c) + One(c in s'.a.p.connections)
    ensures OwnedOnce(s', c)
  {
    TotalAppend(s.tasks, pc, HandOf(c));
    TotalAppend(s.tasks, pc, MakerOf(c));
  }

  lemma ReleaseShelves(s: System, k: nat, verdict: Verdict, c: nat)
    requires Tidy(s.a.p) && OwnedOnce(s, c) && OwnedOnce(s, k)
    ensures var s' := SpawnRelease(s, k, verdict);
            && Tidy(s'.a.p) && s'.a.p.closed == s.a.p.closed && s'.a.p.connections <= s.a.p.connections
            && (!s.a.p.closed ==> Shelves(s', c) + One(c in s.a.p.connections) == Shelves(s, c) + One(c in s'.a.p.connections))
  {
    CountPush(s.a.p.free, k, c);
  }

  lemma ReleaseOwn(s: System, k: nat, verdict: Verdict)
    requires Own(s)
    ensures Own(SpawnRelease(s, k, verdict))
  {
    var s' := SpawnRelease(s, k, verdict);
    var pc := s'.tasks[|s.tasks|];
    assert OwnedOnce(s, k) && OwnedOnce(s, 0);
    ReleaseShelves(s, k, verdict, 0);
    forall c ensures OwnedOnce(s', c) {
      assert OwnedOnce(s, c);
      ReleaseShelves(s, k, verdict, c);
      SpawnOnce(s, s', pc, c);
    }
  }

  lemma CallOwn(s: System, s': System, pc: Pc)
    requires Own(s) && s'.tasks == s.tasks + [pc] && s'.made == s.made && s'.tracked == s.tracked
    requires s'.orphans == s.orphans && Tidy(s'.a.p) && (OnlyClosed(pc) ==> s'.a.p.closed)
    requires s'.a.p.connections == s.a.p.connections && (s.a.p.closed ==> s'.a.p.closed)
    requires !s'.a.p.closed ==> s'.a.p.leased == s.a.p.leased
    requires forall c :: Making(pc, c) == 0 &&
               (!s'.a.p.closed ==> Count(s'.a.p.free, c) + Hands(pc, c) == Count(s.a.p.free, c))
    ensures Own(s')
  {
    forall c ensures OwnedOnce(s', c) {
      assert OwnedOnce(s, c);
      SpawnOnce(s, s', pc, c);
    }
  }

  lemma StepOwn(s: System, a: Action)
    requires Own(s)
    ensures Own(Step(s, a))
  {
    match a
    case CallAcquire => CallOwn(s, Step(s, a), if s.a.p.closed then Done(Failed) else Waiting);
    case CallRelease(c, verdict) => ReleaseOwn(s, c, verdict);
    case CallCleanup => CallOwn(s, Step(s, a), Scanning(s.a.p.free, []));
    case CallCloseAll => CallOwn(s, Step(s, a), Step(s, a).tasks[|s.tasks|]);
    case On(t, move) => if t < |s.tasks| { MovedOwn(s, t, move); }
  }
}
