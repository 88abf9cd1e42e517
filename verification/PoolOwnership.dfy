/** Who has each connection, in every reachable state of the pool. */
module PoolOwnership {
  import opened Counting
  import opened Sequences
  import opened SyncPool
  import opened PoolRuns

  function HandsThen(next: Then, c: nat): nat {
    if next.ScanOn? then Count(next.rest, c) + Count(next.keep, c) else 0
  }

  /** How often a thread has tracked connection `c` in its hands: taken from the free
      queue or from a lease, just created, or part of a cleanup snapshot. */
  function Hands(pc: Pc, c: nat): nat {
    match pc
    case CheckHealth(d) => One(c == d)
    case LeaseFree(d) => One(c == d)
    case LeaseNew(d) => One(c == d)
    case Inspect(d) => One(c == d)
    case PutBackFree(d) => One(c == d)
    case Disconnect(d, next) => One(c == d) + HandsThen(next, c)
    case Untracking(d, next) => One(c == d) + HandsThen(next, c)
    case FreeSlot(next) => HandsThen(next, c)
    case Scan(rest, keep) => Count(rest, c) + Count(keep, c)
    case RestoreKept(keep) => Count(keep, c)
    case _ => 0
  }

  function HandOf(c: nat): Pc -> nat {
    (pc: Pc) => Hands(pc, c)
  }

  /** A thread that made client `c` and has not handed it to the pool. */
  function Making(pc: Pc, c: nat): nat {
    match pc
    case AwaitSlot(d) => One(c == d)
    case SlotHeld(d) => One(c == d)
    case Connecting(d) => One(c == d)
    case TrackNew(d) => One(c == d)
    case DropClient(d, _, _) => One(c == d)
    case _ => 0
  }

  function MakerOf(c: nat): Pc -> nat {
    (pc: Pc) => Making(pc, c)
  }

  predicate ClosingThen(next: Then) {
    next.CloseKeptOn? || next.CloseEachOn? || next.Finish?
  }

  /** A thread closing what close_all, a late cleanup or a late release left. */
  predicate Closing(pc: Pc) {
    match pc
    case CloseKept(_) => true
    case CloseEach(_) => true
    case Disconnect(_, next) => ClosingThen(next)
    case Untracking(_, next) => ClosingThen(next)
    case FreeSlot(next) => ClosingThen(next)
    case _ => false
  }

  /** In how many places connection `c` is: leased, free, dropped, in a thread's hands. */
  function Places(s: System, c: nat): nat {
    One(c in s.p.leased) + Count(s.p.free, c) + Count(s.orphans, c) + Total(s.threads, HandOf(c))
  }

  ghost predicate OwnedOnce(s: System, c: nat) {
    && (!s.p.closed ==> Places(s, c) == One(c in s.p.connections))
    && One(c in s.p.connections) + Total(s.threads, MakerOf(c)) <= One(c in s.known)
  }

  /** What holds of the pool itself. */
  ghost predicate Tidy(p: Pool) {
    && p.meta == p.connections
    && (p.closed ==> p.free == [] && p.leased == {})
    && (!p.closed ==> p.closedLeases == {})
  }

  ghost predicate Own(s: System) {
    && Tidy(s.p)
    && (forall i :: 0 <= i < |s.threads| && Closing(s.threads[i]) ==> s.p.closed)
    && (forall c :: OwnedOnce(s, c))
  }

  /** `s'` differs from `s` in the program counter of thread `t` at most. */
  ghost predicate OnlyThread(s: System, s': System, t: nat) {
    t < |s.threads| && |s'.threads| == |s.threads| && s'.threads == s.threads[t := s'.threads[t]]
  }

  lemma MovedOnly(s: System, t: nat, move: Move)
    requires t < |s.threads|
    ensures OnlyThread(s, Moved(s, t, move), t)
  {
    assert s.threads == s.threads[t := s.threads[t]];
  }

  /** The places of connection `c` that a step of thread `t` can change. */
  function Near(s: System, t: nat, c: nat): int
    requires t < |s.threads|
  {
    One(c in s.p.leased) + Count(s.p.free, c) + Count(s.orphans, c) + Hands(s.threads[t], c)
  }

  /** What the invariant says about connection `c` and thread `t` alone. */
  ghost predicate View(s: System, t: nat, c: nat)
    requires t < |s.threads|
  {
    && Tidy(s.p)
    && (Closing(s.threads[t]) ==> s.p.closed)
    && (!s.p.closed ==> Near(s, t, c) <= One(c in s.p.connections))
    && One(c in s.p.connections) + Making(s.threads[t], c) <= One(c in s.known)
  }

  /** A step of thread `t` that moves connection `c` between places without losing
      or doubling it. */
  ghost predicate Conserves(s: System, s': System, t: nat, c: nat)
    requires t < |s.threads| == |s'.threads|
  {
    && s'.p.closed == s.p.closed
    && Tidy(s'.p)
    && (Closing(s'.threads[t]) ==> s'.p.closed)
    && (!s'.p.closed ==> Near(s', t, c) - Near(s, t, c) == One(c in s'.p.connections) - One(c in s.p.connections))
    && One(c in s'.p.connections) - One(c in s.p.connections) + Making(s'.threads[t], c) - Making(s.threads[t], c)
       <= One(c in s'.known) - One(c in s.known)
  }

  lemma ViewOf(s: System, t: nat, c: nat)
    requires t < |s.threads| && Own(s)
    ensures View(s, t, c)
  {
    assert OwnedOnce(s, c);
    TotalAtLeast(s.threads, t, HandOf(c));
    TotalAtLeast(s.threads, t, MakerOf(c));
  }

  lemma ConservesOnce(s: System, s': System, t: nat, c: nat)
    requires OnlyThread(s, s', t) && OwnedOnce(s, c) && Conserves(s, s', t, c)
    ensures OwnedOnce(s', c)
  {
    TotalUpdate(s.threads, t, s'.threads[t], HandOf(c));
    TotalUpdate(s.threads, t, s'.threads[t], MakerOf(c));
  }

  lemma AcquireConserves(s: System, t: nat, c: nat)
    requires t < |s.threads| && View(s, t, c)
    ensures Conserves(s, AcquireStep(s, t), t, c)
  {
  }

  lemma CreateConserves(s: System, t: nat, c: nat)
    requires t < |s.threads| && View(s, t, c)
    ensures Conserves(s, CreateStep(s, t), t, c)
  {
  }

  lemma ReturnConserves(s: System, t: nat, c: nat)
    requires t < |s.threads| && View(s, t, c)
    ensures Conserves(s, ReturnStep(s, t), t, c)
  {
    if s.threads[t].PutBackFree? {
      CountAppend(s.p.free, [s.threads[t].conn], c);
    }
  }

  lemma CloseConserves(s: System, t: nat, c: nat)
    requires t < |s.threads| && View(s, t, c)
    ensures Conserves(s, CloseStep(s, t), t, c)
  {
  }

  lemma SweepConserves(s: System, t: nat, c: nat)
    requires t < |s.threads| && View(s, t, c)
    ensures Conserves(s, SweepStep(s, t), t, c)
  {
    if s.threads[t].RestoreKept? {
      CountAppend(s.p.free, s.threads[t].keep, c);
    }
  }

  lemma ScanConserves(s: System, t: nat, verdict: Verdict, c: nat)
    requires t < |s.threads| && View(s, t, c) && s.threads[t].Scan? && verdict != Raised
    ensures Conserves(s, Judged(s, t, verdict), t, c)
  {
    if s.threads[t].rest != [] {
      CountAppend(s.threads[t].keep, [s.threads[t].rest[0]], c);
    }
  }

  lemma ScanFails(s: System, t: nat, c: nat)
    requires t < |s.threads| && View(s, t, c) && s.threads[t].Scan?
    ensures Conserves(s, Judged(s, t, Raised), t, c)
  {
    CountAppend(s.orphans, s.threads[t].rest, c);
    CountAppend(s.orphans + s.threads[t].rest, s.threads[t].keep, c);
  }

  lemma JudgedConserves(s: System, t: nat, verdict: Verdict, c: nat)
    requires t < |s.threads| && View(s, t, c)
    ensures Conserves(s, Judged(s, t, verdict), t, c)
  {
    if s.threads[t].Scan? {
      if verdict == Raised {
        ScanFails(s, t, c);
      } else {
        ScanConserves(s, t, verdict, c);
      }
    }
  }

  lemma MovedConserves(s: System, t: nat, move: Move, c: nat)
    requires t < |s.threads| && View(s, t, c)
    ensures Conserves(s, Moved(s, t, move), t, c)
  {
    match move
    case Advance =>
      AcquireConserves(s, t, c);
      CreateConserves(s, t, c);
      ReturnConserves(s, t, c);
      CloseConserves(s, t, c);
      SweepConserves(s, t, c);
    case Judge(verdict) => JudgedConserves(s, t, verdict, c);
    case _ =>
  }

  lemma MovedOwn(s: System, t: nat, move: Move)
    requires Own(s) && t < |s.threads|
    ensures Own(Moved(s, t, move))
  {
    var s' := Moved(s, t, move);
    MovedOnly(s, t, move);
    forall c ensures OwnedOnce(s', c) {
      ViewOf(s, t, c);
      MovedConserves(s, t, move, c);
      ConservesOnce(s, s', t, c);
    }
    ViewOf(s, t, 0);
    MovedConserves(s, t, move, 0);
  }

  /** A new call moves each connection it touches to its own hands. */
  lemma SpawnOnce(s: System, s': System, c: nat)
    requires Own(s) && |s'.threads| == |s.threads| + 1 && s'.threads[..|s.threads|] == s.threads
    requires s'.known == s.known && s'.orphans == s.orphans && s'.p.connections == s.p.connections
    requires s.p.closed ==> s'.p.closed
    requires var pc := s'.threads[|s.threads|];
             && Making(pc, c) == 0
             && (!s'.p.closed ==>
                  One(c in s'.p.leased) + Count(s'.p.free, c) + Hands(pc, c) == One(c in s.p.leased) + Count(s.p.free, c))
    ensures OwnedOnce(s', c)
  {
    var pc := s'.threads[|s.threads|];
    assert s'.threads == s.threads + [pc];
    TotalAppend(s.threads, pc, HandOf(c));
    TotalAppend(s.threads, pc, MakerOf(c));
    assert OwnedOnce(s, c);
  }

  lemma SpawnOwn(s: System, a: Action)
    requires Own(s) && !a.On?
    ensures Own(Step(s, a))
  {
    var s' := Step(s, a);
    forall c ensures OwnedOnce(s', c) {
      SpawnOnce(s, s', c);
    }
    assert Tidy(s'.p);
    forall i | 0 <= i < |s'.threads| && Closing(s'.threads[i]) ensures s'.p.closed {
      assert i < |s.threads| ==> s'.threads[i] == s.threads[i];
    }
  }

  lemma StepOwn(s: System, a: Action)
    requires Own(s)
    ensures Own(Step(s, a))
  {
    match a
    case On(t, move) =>
      if t < |s.threads| {
        MovedOwn(s, t, move);
      }
    case _ => SpawnOwn(s, a);
  }

  lemma {:induction false} ExecOwn(s: System, actions: seq<Action>)
    requires Own(s)
    ensures Own(Exec(s, actions))
    decreases |actions|
  {
    if actions != [] {
      StepOwn(s, actions[0]);
      ExecOwn(Step(s, actions[0]), actions[1..]);
    }
  }
}
