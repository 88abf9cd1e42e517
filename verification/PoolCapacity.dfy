/** How many connections a pool can have: who shares them, how many there are, how
    many are open, and what the background cleanup does to the limit. */
module PoolCapacity {
  import opened Counting
  import opened Sequences
  import opened SyncPool
  import opened PoolRuns
  import opened PoolOwnership
  import opened PoolLedger

  /** Exclusive leases: while a pool is open, each tracked connection is in exactly one
      place and no other connection is anywhere. So the idle connections are distinct,
      tracked and never more than the tracked ones. */
  lemma ExclusiveLease(max: nat, actions: seq<Action>, c: nat)
    ensures var s := Exec(Start(max), actions);
            !s.p.closed ==>
              && One(c in s.p.leased) + Count(s.p.free, c) + Count(s.orphans, c) + Total(s.threads, HandOf(c))
                 == One(c in s.p.connections)
              && |s.p.free| <= |s.p.connections|
  {
    ExecLedger(Start(max), actions);
    assert OwnedOnce(Exec(Start(max), actions), c);
  }

  /** No two threads have the same connection in their hands, and none has one that is
      leased out or free. */
  lemma NoSharedHands(max: nat, actions: seq<Action>, c: nat, t: nat, u: nat)
    ensures var s := Exec(Start(max), actions);
            !s.p.closed && t < |s.threads| && Hands(s.threads[t], c) > 0 ==>
              && c in s.p.connections && c !in s.p.leased && Count(s.p.free, c) == 0
              && (u < |s.threads| && u != t ==> Hands(s.threads[u], c) == 0)
  {
    var s := Exec(Start(max), actions);
    ExecLedger(Start(max), actions);
    assert OwnedOnce(s, c);
    if t < |s.threads| {
      TotalAtLeast(s.threads, t, HandOf(c));
      if u < t {
        TotalAtLeastTwo(s.threads, u, t, HandOf(c));
      } else if t < u < |s.threads| {
        TotalAtLeastTwo(s.threads, t, u, HandOf(c));
      }
    }
  }

  /** Permits are conserved through every success, failure and exception path, so at
      most `max` connections are borrowed or being borrowed at any time. */
  lemma PermitConservation(max: nat, actions: seq<Action>)
    ensures var s := Exec(Start(max), actions);
            && s.p.acquireWaiters == Total(s.threads, Registered)
            && (!s.p.closed ==> s.p.permits + Total(s.threads, Permit) + |s.p.leased| == max)
  {
    ExecLedger(Start(max), actions);
  }

  // --------------------------------------------------- the limit without cleanup

  /** A thread with a permit that has not taken or made a connection. */
  function EmptyHanded(pc: Pc): nat {
    match pc
    case Unregister(got) => One(got)
    case CheckOpen => 1
    case PopFree => 1
    case ReturnSlot => 1
    case AcquireFailed => 1
    case GiveBack => 1
    case GiveBackIfOpen => 1
    case FreeSlot(next) => PermitThen(next)
    case _ => 0
  }

  /** A thread that is making a new connection. */
  function Maker(pc: Pc): nat {
    One(pc.NeedClient? || pc.AwaitSlot? || pc.SlotHeld? || pc.Connecting? || pc.TrackNew? || pc.DropClient?)
  }

  predicate Sweeping(pc: Pc) {
    match pc
    case Scan(_, _) => true
    case RestoreKept(_) => true
    case CloseKept(_) => true
    case Disconnect(_, next) => next.ScanOn? || next.CloseKeptOn?
    case Untracking(_, next) => next.ScanOn? || next.CloseKeptOn?
    case FreeSlot(next) => next.ScanOn? || next.CloseKeptOn?
    case _ => false
  }

  /** No cleanup has run; then a free connection is matched by a permit, or by a thread
      with a permit that has not looked into the queue yet. */
  ghost predicate Unswept(s: System) {
    && s.orphans == []
    && (forall i :: 0 <= i < |s.threads| ==> !Sweeping(s.threads[i]))
    && (!s.p.closed ==> |s.p.free| <= s.p.permits + Total(s.threads, EmptyHanded))
    && |s.p.connections| + Total(s.threads, Maker) <= s.p.max
  }

  ghost predicate KeepsMatch(s: System, s': System, t: nat)
    requires t < |s.threads| == |s'.threads|
  {
    var pc, pc' := s.threads[t], s'.threads[t];
    && s'.orphans == s.orphans
    && !Sweeping(pc')
    && (!s.p.closed && (s'.p.free != [] || !pc'.NeedClient?) ==>
          |s'.p.free| - s'.p.permits - EmptyHanded(pc') <= |s.p.free| - s.p.permits - EmptyHanded(pc))
    && (s.p.closed ==> |s'.p.connections| + Maker(pc') <= |s.p.connections| + Maker(pc))
  }

  lemma AcquireKeepsMatch(s: System, t: nat)
    requires t < |s.threads| && !Sweeping(s.threads[t])
    ensures KeepsMatch(s, AcquireStep(s, t), t)
  {
  }

  lemma CreateKeepsMatch(s: System, t: nat)
    requires t < |s.threads| && !Sweeping(s.threads[t])
    ensures KeepsMatch(s, CreateStep(s, t), t)
  {
  }

  lemma ReturnKeepsMatch(s: System, t: nat)
    requires t < |s.threads| && !Sweeping(s.threads[t])
    ensures KeepsMatch(s, ReturnStep(s, t), t)
  {
  }

  lemma CloseKeepsMatch(s: System, t: nat)
    requires t < |s.threads| && !Sweeping(s.threads[t])
    ensures KeepsMatch(s, CloseStep(s, t), t)
  {
    if s.threads[t].Untracking? {
      UntrackKeepsMatch(s, t);
    }
  }

  lemma UntrackKeepsMatch(s: System, t: nat)
    requires t < |s.threads| && !Sweeping(s.threads[t]) && s.threads[t].Untracking?
    ensures KeepsMatch(s, CloseStep(s, t), t)
  {
    assert |s.p.connections - {s.threads[t].conn}| <= |s.p.connections|;
  }

  lemma JudgedKeepsMatch(s: System, t: nat, verdict: Verdict)
    requires t < |s.threads| && !Sweeping(s.threads[t])
    ensures KeepsMatch(s, Judged(s, t, verdict), t)
  {
  }

  lemma MovedKeepsMatch(s: System, t: nat, move: Move)
    requires t < |s.threads| && !Sweeping(s.threads[t])
    ensures KeepsMatch(s, Moved(s, t, move), t)
  {
    match move
    case Advance =>
      AcquireKeepsMatch(s, t);
      CreateKeepsMatch(s, t);
      ReturnKeepsMatch(s, t);
      CloseKeepsMatch(s, t);
    case Judge(verdict) => JudgedKeepsMatch(s, t, verdict);
    case _ =>
  }

  /** While a pool is open and unswept, every permit is with a thread that is empty
      handed, making a connection, or holding one. */
  lemma {:induction false} PermitSplit(threads: seq<Pc>)
    requires forall i :: 0 <= i < |threads| ==> !Sweeping(threads[i]) && !Closing(threads[i])
    ensures Total(threads, Permit) == Total(threads, EmptyHanded) + Total(threads, Maker) + Total(threads, Held)
  {
    if threads != [] {
      PermitSplit(threads[..|threads| - 1]);
    }
  }

  /** In an open pool the limit on tracked connections follows from the match. */
  lemma MatchLimits(s: System)
    requires Own(s) && Ledger(s) && !s.p.closed && s.orphans == []
    requires forall i :: 0 <= i < |s.threads| ==> !Sweeping(s.threads[i])
    requires |s.p.free| <= s.p.permits + Total(s.threads, EmptyHanded)
    ensures |s.p.connections| + Total(s.threads, Maker) <= s.p.max
  {
    PermitSplit(s.threads);
  }

  lemma MovedUnswept(s: System, t: nat, move: Move)
    requires Own(s) && Ledger(s) && Unswept(s) && t < |s.threads|
    ensures Unswept(Moved(s, t, move))
  {
    var s' := Moved(s, t, move);
    MovedKeepsMatch(s, t, move);
    MovedOnly(s, t, move);
    StepOwn(s, On(t, move));
    StepLedger(s, On(t, move));
    StepMax(s, On(t, move));
    ViewOf(s, t, Subject(s.threads[t]));
    MovedBalances(s, t, move);
    TotalUpdate(s.threads, t, s'.threads[t], EmptyHanded);
    TotalUpdate(s.threads, t, s'.threads[t], Maker);
    if !s'.p.closed {
      MatchLimits(s');
    }
  }

  lemma SpawnUnswept(s: System, a: Action)
    requires Own(s) && Ledger(s) && Unswept(s) && !a.On? && !a.CallCleanup?
    ensures Unswept(Step(s, a))
  {
    match a
    case CallAcquire => NewThreadUnswept(s, Step(s, a), if s.p.closed then Done(Failed) else WaitPermit);
    case CallRelease(c) => NewThreadUnswept(s, Step(s, a), Step(s, a).threads[|s.threads|]);
    case CallCloseAll => NewThreadUnswept(s, Step(s, a), CloseEach(s.p.connections));
  }

  lemma NewThreadUnswept(s: System, s': System, pc: Pc)
    requires Unswept(s) && s'.threads == s.threads + [pc] && s'.orphans == s.orphans && s'.p.max == s.p.max
    requires !Sweeping(pc) && EmptyHanded(pc) == Maker(pc) == 0 && s'.p.connections == s.p.connections
    requires s'.p.closed || (!s.p.closed && s'.p.free == s.p.free && s'.p.permits == s.p.permits)
    ensures Unswept(s')
  {
    TotalAppend(s.threads, pc, EmptyHanded);
    TotalAppend(s.threads, pc, Maker);
  }

  lemma {:induction false} ExecUnswept(s: System, actions: seq<Action>)
    requires Own(s) && Ledger(s) && Unswept(s) && CallCleanup !in actions
    ensures Unswept(Exec(s, actions))
    decreases |actions|
  {
    if actions != [] {
      var a := actions[0];
      if !a.On? {
        SpawnUnswept(s, a);
      } else if a.t < |s.threads| {
        MovedUnswept(s, a.t, a.move);
      }
      StepOwn(s, a);
      StepLedger(s, a);
      ExecUnswept(Step(s, a), actions[1..]);
    }
  }

  // ------------------------------------------------------------ open connections

  /** A thread with an open client that the pool does not track yet. */
  function Opened(pc: Pc): nat {
    One(pc.Connecting? || pc.TrackNew? || (pc.DropClient? && pc.held && pc.connected))
  }

  /** A thread that owns a budget slot for a connection the pool does not track: before
      the connection is tracked, or after it was untracked. */
  function SlotOwner(pc: Pc): nat {
    One(pc.SlotHeld? || pc.Connecting? || pc.TrackNew? || (pc.DropClient? && pc.held) || pc.ReturnSlot? || pc.FreeSlot?)
  }

  /** The budget slots a pool accounts for. */
  function Slots(s: System): nat {
    |s.p.connections| + Total(s.threads, SlotOwner)
  }

  /** The open connections of a pool. */
  function Open(s: System): nat {
    |s.live| + Total(s.threads, Opened)
  }

  /** A handed-over client is disconnected before it is untracked. */
  ghost predicate LiveOk(s: System) {
    && s.live <= s.p.connections
    && (forall i :: 0 <= i < |s.threads| && s.threads[i].Untracking? ==> s.threads[i].conn !in s.live)
  }

  /** Only tracking makes a connection live; only a closing thread untracks one. */
  ghost predicate LiveMove(s: System, s': System, t: nat)
    requires t < |s.threads| == |s'.threads|
  {
    var pc, pc' := s.threads[t], s'.threads[t];
    && (pc'.Untracking? ==> pc'.conn !in s'.live)
    && (if pc.TrackNew? && !s.p.closed then
          s'.live == s.live + {pc.conn} && s'.p.connections == s.p.connections + {pc.conn}
        else
          s'.live <= s.live && s'.p.connections >= s.p.connections - (if pc.Untracking? then {pc.conn} else {}))
  }

  lemma AcquireLiveMove(s: System, t: nat)
    requires t < |s.threads| && (s.threads[t].Untracking? ==> s.threads[t].conn !in s.live)
    ensures !s.threads[t].TrackNew? ==> LiveMove(s, AcquireStep(s, t), t)
  {
  }

  lemma CreateLiveMove(s: System, t: nat)
    requires t < |s.threads| && (s.threads[t].SlotHeld? || s.threads[t].TrackNew? || s.threads[t].DropClient? ||
                                 s.threads[t].ReturnSlot? || s.threads[t].LeaseNew?)
    ensures LiveMove(s, CreateStep(s, t), t)
  {
  }

  lemma OtherLiveMove(s: System, t: nat)
    requires t < |s.threads| && !s.threads[t].TrackNew?
    requires s.threads[t].Untracking? ==> s.threads[t].conn !in s.live
    ensures LiveMove(s, ReturnStep(s, t), t) && LiveMove(s, SweepStep(s, t), t)
  {
  }

  lemma CloseLiveMove(s: System, t: nat)
    requires t < |s.threads| && !s.threads[t].TrackNew?
    requires s.threads[t].Untracking? ==> s.threads[t].conn !in s.live
    ensures LiveMove(s, CloseStep(s, t), t)
  {
  }

  lemma MovedLiveMove(s: System, t: nat, move: Move)
    requires t < |s.threads| && (s.threads[t].Untracking? ==> s.threads[t].conn !in s.live)
    ensures Moved(s, t, move) == s || LiveMove(s, Moved(s, t, move), t)
  {
    match move
    case Advance =>
      AcquireLiveMove(s, t);
      if s.threads[t].SlotHeld? || s.threads[t].TrackNew? || s.threads[t].DropClient? ||
         s.threads[t].ReturnSlot? || s.threads[t].LeaseNew? {
        CreateLiveMove(s, t);
      } else {
        OtherLiveMove(s, t);
        CloseLiveMove(s, t);
      }
    case _ =>
  }

  lemma MovedLive(s: System, t: nat, move: Move)
    requires Own(s) && LiveOk(s) && t < |s.threads|
    ensures LiveOk(Moved(s, t, move))
  {
    var s' := Moved(s, t, move);
    MovedOnly(s, t, move);
    MovedLiveMove(s, t, move);
    if s' != s {
      forall i | 0 <= i < |s'.threads| && s'.threads[i].Untracking?
        ensures s'.threads[i].conn !in s'.live
      {
        if i != t {
          ViewOf(s, i, s.threads[i].conn);
          ViewOf(s, t, s.threads[i].conn);
        }
      }
    }
  }

  lemma SpawnLive(s: System, a: Action)
    requires LiveOk(s) && !a.On?
    ensures LiveOk(Step(s, a))
  {
  }

  lemma {:induction false} ExecLive(s: System, actions: seq<Action>)
    requires Own(s) && LiveOk(s)
    ensures LiveOk(Exec(s, actions))
    decreases |actions|
  {
    if actions != [] {
      var a := actions[0];
      if !a.On? {
        SpawnLive(s, a);
      } else if a.t < |s.threads| {
        MovedLive(s, a.t, a.move);
      }
      StepOwn(s, a);
      ExecLive(Step(s, a), actions[1..]);
    }
  }

  /** The open connections of a pool never outnumber the budget slots it accounts for. */
  lemma OpenWithinSlots(s: System)
    requires LiveOk(s)
    ensures Open(s) <= Slots(s)
  {
    TotalMonotone(s.threads, Opened, SlotOwner);
    var rest := s.p.connections - s.live;
    assert s.p.connections == s.live + rest;
  }

  /** Without cleanup the limit holds: in every state of every run in which
      _cleanup_expired is not called, the tracked connections together with those being
      made, and hence the open connections, number at most `max`. */
  lemma LimitWithoutCleanup(max: nat, actions: seq<Action>)
    requires CallCleanup !in actions
    ensures var s := Exec(Start(max), actions);
            && |s.p.connections| + Total(s.threads, Maker) <= max
            && Open(s) <= max
  {
    var s := Exec(Start(max), actions);
    ExecUnswept(Start(max), actions);
    ExecLedger(Start(max), actions);
    ExecLive(Start(max), actions);
    TotalMonotone(s.threads, Opened, Maker);
    assert s.p.connections == s.live + (s.p.connections - s.live);
  }

  /** The connections a thread took out of the free queue for cleanup. */
  function Swept(pc: Pc): nat {
    if Sweeping(pc) then Held(pc) else 0
  }

  lemma {:induction false} HeldSplit(threads: seq<Pc>)
    requires forall i :: 0 <= i < |threads| ==> !Closing(threads[i])
    ensures Total(threads, Permit) + Total(threads, Swept)
         == Total(threads, EmptyHanded) + Total(threads, Maker) + Total(threads, Held)
  {
    if threads != [] {
      HeldSplit(threads[..|threads| - 1]);
    }
  }

  /** What counts against the limit: tracked connections and those being made. */
  function Load(s: System): nat {
    |s.p.connections| + Total(s.threads, Maker)
  }

  ghost predicate LoadFits(s: System, s': System, t: nat)
    requires t < |s.threads| == |s'.threads|
  {
    |s'.p.connections| + Maker(s'.threads[t]) <= |s.p.connections| + Maker(s.threads[t])
  }

  /** The branch of acquire that goes on to make a connection: it has a permit and finds
      the free queue of the open pool empty. */
  predicate MakesNew(s: System, a: Action) {
    a.On? && a.move.Advance? && a.t < |s.threads| && s.threads[a.t].PopFree? && !s.p.closed && s.p.free == []
  }

  lemma AcquireFits(s: System, t: nat)
    requires t < |s.threads| && !MakesNew(s, On(t, Advance))
    ensures LoadFits(s, AcquireStep(s, t), t)
  {
  }

  lemma CreateFits(s: System, t: nat)
    requires t < |s.threads|
    ensures LoadFits(s, CreateStep(s, t), t)
  {
    if s.threads[t].TrackNew? {
      var grown := s.p.connections + {s.threads[t].conn};
      assert |grown| <= |s.p.connections| + 1;
    }
  }

  lemma CloseFits(s: System, t: nat)
    requires t < |s.threads|
    ensures LoadFits(s, CloseStep(s, t), t) && LoadFits(s, SweepStep(s, t), t) && LoadFits(s, ReturnStep(s, t), t)
  {
    if s.threads[t].Untracking? {
      assert |s.p.connections - {s.threads[t].conn}| <= |s.p.connections|;
    }
  }

  lemma MovedFits(s: System, t: nat, move: Move)
    requires t < |s.threads| && !MakesNew(s, On(t, move))
    ensures LoadFits(s, Moved(s, t, move), t)
  {
    match move
    case Advance =>
      AcquireFits(s, t);
      CreateFits(s, t);
      CloseFits(s, t);
    case _ =>
  }

  /** With cleanup running the limit can be exceeded, but only at one branch: a step that
      takes a pool over its limit is an acquire that finds the free queue empty and goes on
      to make a connection. */
  lemma OnlyMakingAdds(s: System, a: Action)
    ensures Load(Step(s, a)) > Load(s) ==> MakesNew(s, a)
  {
    if a.On? {
      if a.t < |s.threads| && !MakesNew(s, a) {
        var s' := Moved(s, a.t, a.move);
        MovedOnly(s, a.t, a.move);
        MovedFits(s, a.t, a.move);
        TotalUpdate(s.threads, a.t, s'.threads[a.t], Maker);
      }
    } else {
      var s' := Step(s, a);
      TotalAppend(s.threads, s'.threads[|s.threads|], Maker);
    }
  }

  /** And that acquire stays within the limit if and only if, before it, the connections
      that a cleanup has dropped or is holding are fewer than the permits that are free or
      with a thread that has nothing yet, its own among them. */
  lemma LimitExactly(max: nat, actions: seq<Action>, a: Action)
    requires MakesNew(Exec(Start(max), actions), a)
    ensures var s := Exec(Start(max), actions);
            Load(Step(s, a)) <= max <==>
            |s.orphans| + Total(s.threads, Swept) < s.p.permits + Total(s.threads, EmptyHanded)
  {
    var s := Exec(Start(max), actions);
    ExecLedger(Start(max), actions);
    HeldSplit(s.threads);
    TotalUpdate(s.threads, a.t, NeedClient, Maker);
  }
}
