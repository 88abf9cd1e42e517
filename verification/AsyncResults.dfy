/** What the asynchronous pool promises over every run. */
module AsyncResults {
  import opened Counting
  import opened Sequences
  import opened SyncPool
  import opened AsyncPool
  import opened AsyncRuns
  import opened AsyncFacts
  import opened AsyncLedger

  /** Exclusive leases: while the pool is open each tracked connection is in exactly one
      place: leased, free, dropped by a cut-short cleanup, or in the hands of one task. */
  lemma ExclusiveLease(max: nat, actions: seq<Action>, c: nat)
    ensures var s := Exec(Start(max), actions);
            !s.a.p.closed ==>
              && One(c in s.a.p.leased) + Count(s.a.p.free, c) + Count(s.orphans, c) + Total(s.tasks, HandOf(c))
                 == One(c in s.a.p.connections)
              && |s.a.p.free| <= |s.a.p.connections|
  {
    Reached(max, actions);
    assert OwnedOnce(Exec(Start(max), actions), c);
  }

  /** The one step that loses a permit: a release is cancelled while it closes, in an open
      pool, a connection whose check raised. */
  predicate LosesPermit(s: System, a: Action) {
    && a.On? && a.move.Cancel? && a.t < |s.tasks| && !s.a.p.closed
    && s.tasks[a.t].Closing? && s.tasks[a.t].next.ReleaseAfterRaise?
  }

  /** How many steps of a run lose a permit. */
  function Losses(s: System, actions: seq<Action>): nat
    decreases |actions|
  {
    if actions == [] then 0 else One(LosesPermit(s, actions[0])) + Losses(Step(s, actions[0]), actions[1..])
  }

  lemma MovedLost(s: System, t: nat, move: Move)
    requires t < |s.tasks|
    ensures Moved(s, t, move).lost == s.lost + One(LosesPermit(s, On(t, move)))
  {
  }

  lemma {:induction false} ExecLost(s: System, actions: seq<Action>)
    ensures Exec(s, actions).lost == s.lost + Losses(s, actions)
    decreases |actions|
  {
    if actions != [] {
      var a := actions[0];
      if a.On? && a.t < |s.tasks| { MovedLost(s, a.t, a.move); }
      ExecLost(Step(s, a), actions[1..]);
    }
  }

  /** Permit conservation, in every state of every run: all permits are accounted for, but
      for one for each step that `LosesPermit`. */
  lemma PermitsConserved(max: nat, actions: seq<Action>)
    ensures var s := Exec(Start(max), actions);
            && s.a.p.acquireWaiters == Total(s.tasks, Registered)
            && (!s.a.p.closed ==>
                  s.a.p.permits + Total(s.tasks, Permit) + |s.a.p.leased| == max - Losses(Start(max), actions))
  {
    Reached(max, actions);
    ExecLost(Start(max), actions);
  }

  /** Slot ledger: the budget slots that the pool has been granted and has not released are
      exactly those of its tracked connections, of clients being connected or dropped, and
      of connections being closed; it never releases one that it does not have. */
  lemma SlotsExact(max: nat, actions: seq<Action>)
    ensures var s := Exec(Start(max), actions);
            s.slots == |s.a.p.connections| + Total(s.tasks, SlotOf) && !s.overReleased
  {
    Reached(max, actions);
  }

  // ------------------------------------------------- the limit without cleanup

  function Sweeper(pc: Pc): nat {
    One(pc.Scanning? || (pc.Closing? && pc.next.ScanOn?))
  }

  /** A task that is closing a connection the pool tracked: it is no longer tracked, but
      still open until its disconnect is over. */
  function Parting(pc: Pc): nat {
    One(pc.Closing? && pc.tracked)
  }

  /** Every connection that may be open: tracked, being made, or being closed. */
  function Load(s: System): nat {
    |s.a.p.connections| + Total(s.tasks, Maker) + Total(s.tasks, Parting)
  }

  /** No cleanup has run, and a connection is idle only beside a free or a lost permit. */
  ghost predicate Unswept(s: System) {
    && s.orphans == [] && Total(s.tasks, Sweeper) == 0
    && (!s.a.p.closed ==> |s.a.p.free| <= s.a.p.permits + s.lost)
    && Load(s) <= s.a.p.max
  }

  /** What one step of task `t` may do to the idle connections, and in a closed pool to
      those that may be open. */
  ghost predicate StaysUnswept(s: System, s': System, t: nat)
    requires t < |s.tasks| == |s'.tasks|
  {
    var pc, pc' := s.tasks[t], s'.tasks[t];
    && s'.orphans == [] && Sweeper(pc') == 0 && s'.a.p.closed == s.a.p.closed
    && (!s.a.p.closed && s'.a.p.free != [] ==>
          |s'.a.p.free| - s'.a.p.permits - s'.lost <= |s.a.p.free| - s.a.p.permits - s.lost)
    && (s.a.p.closed ==>
          |s'.a.p.connections| + Maker(pc') + Parting(pc') <= |s.a.p.connections| + Maker(pc) + Parting(pc))
  }

  lemma ForgetSize(p: Pool, c: nat)
    ensures |StartClose(p, c).0.connections| + One(StartClose(p, c).1) == |p.connections|
  {
    if c !in p.connections { assert p.connections - {c} == p.connections; }
  }

  lemma AcquireUnswept(s: System, t: nat, move: Move)
    requires t < |s.tasks| && s.orphans == [] && (s.tasks[t].Waiting? || s.tasks[t].Checking?)
    ensures |AcquireStep(s, t, move).tasks| == |s.tasks| && StaysUnswept(s, AcquireStep(s, t, move), t)
  {
    if s.tasks[t].Checking? { ForgetSize(s.a.p, s.tasks[t].conn); }
  }

  lemma CreateUnswept(s: System, t: nat, move: Move)
    requires t < |s.tasks| && s.orphans == [] && (s.tasks[t].Asking? || s.tasks[t].Connecting? || s.tasks[t].Dropping?)
    ensures |CreateStep(s, t, move).tasks| == |s.tasks| && StaysUnswept(s, CreateStep(s, t, move), t)
  {
  }

  lemma CloseUnswept(s: System, t: nat, move: Move)
    requires t < |s.tasks| && s.orphans == [] && s.tasks[t].Closing? && !s.tasks[t].next.ScanOn?
    requires OnlyClosed(s.tasks[t]) ==> s.a.p.closed
    ensures |CloseStep(s, t, move).tasks| == |s.tasks| && StaysUnswept(s, CloseStep(s, t, move), t)
  {
    var s' := if s.tasks[t].tracked then FreeSlot(s) else s;
    AfterCloseUnswept(s, s', t);
    AfterCancelUnswept(s, s', t);
  }

  lemma AfterCloseUnswept(s: System, s': System, t: nat)
    requires t < |s.tasks| && s.orphans == [] && s.tasks[t].Closing? && !s.tasks[t].next.ScanOn?
    requires s' == s.(slots := s'.slots, overReleased := s'.overReleased) && (OnlyClosed(s.tasks[t]) ==> s.a.p.closed)
    ensures var n := AfterClose(s', t, s.tasks[t].next); |n.tasks| == |s.tasks| && StaysUnswept(s, n, t)
  {
  }

  lemma AfterCancelUnswept(s: System, s': System, t: nat)
    requires t < |s.tasks| && s.orphans == [] && s.tasks[t].Closing? && !s.tasks[t].next.ScanOn?
    requires s' == s.(slots := s'.slots, overReleased := s'.overReleased) && (OnlyClosed(s.tasks[t]) ==> s.a.p.closed)
    ensures var n := AfterCancel(s', t, s.tasks[t].next); |n.tasks| == |s.tasks| && StaysUnswept(s, n, t)
  {
  }

  lemma KeptUnswept(s: System, t: nat, move: Move)
    requires t < |s.tasks| && s.orphans == [] && s.a.p.closed && s.tasks[t].CloseKept?
    ensures |ScanStep(s, t, move).tasks| == |s.tasks| && StaysUnswept(s, ScanStep(s, t, move), t)
  {
    if s.tasks[t].kept != [] { ForgetSize(s.a.p, s.tasks[t].kept[0]); }
  }

  lemma CloseLeftUnswept(s: System, t: nat, move: Move)
    requires t < |s.tasks| && s.orphans == [] && s.a.p.closed && s.tasks[t].CloseLeft?
    ensures |CloseAllStep(s, t, move).tasks| == |s.tasks| && StaysUnswept(s, CloseAllStep(s, t, move), t)
  {
    if move.CloseOne? { ForgetSize(s.a.p, move.victim); }
  }

  lemma OtherUnswept(s: System, t: nat, move: Move)
    requires t < |s.tasks| && s.orphans == []
    requires s.tasks[t].Done? || s.tasks[t].AwaitingRecovery? || s.tasks[t].AwaitingFinish?
    ensures |CloseAllStep(s, t, move).tasks| == |s.tasks| && StaysUnswept(s, CloseAllStep(s, t, move), t)
  {
  }

  lemma {:induction false} PermitSplit(tasks: seq<Pc>)
    ensures Total(tasks, Permit) + Total(tasks, Swept) == Total(tasks, EmptyHanded) + Total(tasks, Maker) + Total(tasks, Held)
  {
    if tasks != [] { PermitSplit(tasks[..|tasks| - 1]); }
  }

  /** In an open pool the limit follows from the permits: whoever closes a connection that
      was tracked has one. */
  lemma OpenFits(s: System)
    requires Own(s) && Ledger(s) && !s.a.p.closed && s.orphans == [] && Total(s.tasks, Sweeper) == 0
    requires |s.a.p.free| <= s.a.p.permits + s.lost
    ensures Load(s) <= s.a.p.max
  {
    PermitSplit(s.tasks);
    TotalPositive(s.tasks, Swept);
    TotalPositive(s.tasks, Sweeper);
    forall i | 0 <= i < |s.tasks| ensures Parting(s.tasks[i]) <= EmptyHanded(s.tasks[i]) {
      assert Sweeper(s.tasks[i]) == 0 && !OnlyClosed(s.tasks[i]);
    }
    TotalMonotone(s.tasks, Parting, EmptyHanded);
  }

  lemma MovedStays(s: System, t: nat, move: Move)
    requires Own(s) && Unswept(s) && t < |s.tasks|
    ensures |Moved(s, t, move).tasks| == |s.tasks| && StaysUnswept(s, Moved(s, t, move), t)
  {
    var pc := s.tasks[t];
    TotalAtLeast(s.tasks, t, Sweeper);
    if pc.Waiting? || pc.Checking? { AcquireUnswept(s, t, move); }
    else if pc.Asking? || pc.Connecting? || pc.Dropping? { CreateUnswept(s, t, move); }
    else if pc.Closing? { CloseUnswept(s, t, move); }
    else if pc.CloseKept? { KeptUnswept(s, t, move); }
    else if pc.CloseLeft? { CloseLeftUnswept(s, t, move); }
    else { OtherUnswept(s, t, move); }
  }

  lemma MovedUnswept(s: System, t: nat, move: Move)
    requires Own(s) && Ledger(s) && Unswept(s) && t < |s.tasks|
    ensures Unswept(Moved(s, t, move))
  {
    var s' := Moved(s, t, move);
    MovedStays(s, t, move);
    ViewOf(s, t, 0);
    MovedConserves(s, t, move, 0);
    MovedOwn(s, t, move);
    MovedLedger(s, t, move);
    TotalUpdate(s.tasks, t, s'.tasks[t], Sweeper);
    TotalUpdate(s.tasks, t, s'.tasks[t], Maker);
    TotalUpdate(s.tasks, t, s'.tasks[t], Parting);
    if !s'.a.p.closed { OpenFits(s'); }
  }

  lemma SpawnUnswept(s: System, s': System, pc: Pc)
    requires Unswept(s) && s'.tasks == s.tasks + [pc] && s'.orphans == s.orphans && s'.lost == s.lost && Sweeper(pc) == 0
    requires (s.a.p.closed ==> s'.a.p.closed) && s'.a.p.max == s.a.p.max
    requires s'.a.p.closed || |s'.a.p.free| - s'.a.p.permits <= |s.a.p.free| - s.a.p.permits
    requires |s'.a.p.connections| + Maker(pc) + Parting(pc) <= |s.a.p.connections|
    ensures Unswept(s')
  {
    TotalAppend(s.tasks, pc, Sweeper);
    TotalAppend(s.tasks, pc, Maker);
    TotalAppend(s.tasks, pc, Parting);
  }

  lemma ReleaseUnswept(s: System, c: nat, verdict: Verdict)
    requires Unswept(s)
    ensures Unswept(SpawnRelease(s, c, verdict))
  {
    var s' := SpawnRelease(s, c, verdict);
    ForgetSize(ClaimLease(s.a.p, c).0, c);
    SpawnUnswept(s, s', s'.tasks[|s.tasks|]);
  }

  lemma StepUnswept(s: System, a: Action)
    requires Own(s) && Ledger(s) && Unswept(s) && !a.CallCleanup?
    ensures Unswept(Step(s, a))
  {
    match a
    case CallAcquire => SpawnUnswept(s, Step(s, a), if s.a.p.closed then Done(Failed) else Waiting);
    case CallRelease(c, verdict) => ReleaseUnswept(s, c, verdict);
    case CallCloseAll => SpawnUnswept(s, Step(s, a), Step(s, a).tasks[|s.tasks|]);
    case On(t, move) => if t < |s.tasks| { MovedUnswept(s, t, move); }
  }

  lemma {:induction false} ExecUnswept(s: System, actions: seq<Action>)
    requires Own(s) && Ledger(s) && Unswept(s) && CallCleanup !in actions
    ensures Unswept(Exec(s, actions)) && Exec(s, actions).a.p.max == s.a.p.max
    decreases |actions|
  {
    if actions != [] {
      StepOwn(s, actions[0]);
      StepLedger(s, actions[0]);
      StepUnswept(s, actions[0]);
      ExecUnswept(Step(s, actions[0]), actions[1..]);
    }
  }

  /** Without cleanup the limit holds, in open and closed pools: connections that are
      tracked, being made or still being disconnected number at most `max`. */
  lemma LimitWithoutCleanup(max: nat, actions: seq<Action>)
    requires CallCleanup !in actions
    ensures var s := Exec(Start(max), actions);
            |s.a.p.connections| + Total(s.tasks, Maker) + Total(s.tasks, Parting) <= max
  {
    StartHolds(max);
    ExecUnswept(Start(max), actions);
  }

  // ------------------------------------------------------------- a lost permit

  lemma Then(s: System, a: Action, rest: seq<Action>)
    ensures Exec(s, [a] + rest) == Exec(Step(s, a), rest)
  {
    assert ([a] + rest)[1..] == rest;
  }

  /** One client has been connected and leased. */
  function AfterLease(max: nat): System
    requires max > 0
  {
    var p := NewPool(max).(connections := {0}, meta := {0}, leased := {0}, permits := max - 1, totalCreated := 1);
    System(AsyncState(p, false, false, NotNeeded), [Done(Leased(0))], 1, {0}, [], 1, false, 0)
  }

  lemma ToLease(max: nat, rest: seq<Action>)
    requires max > 0
    ensures Exec(Start(max), [CallAcquire] + ([On(0, Advance)] + ([On(0, Advance)] + ([On(0, Advance)] + rest))))
         == Exec(AfterLease(max), rest)
  {
    var s1 := Step(Start(max), CallAcquire);
    assert s1.tasks == [Waiting];
    var s2 := Step(s1, On(0, Advance));
    assert s2.tasks == [Asking(0)] && s2.a.p.permits == max - 1 && s2.a.p.acquireWaiters == 0;
    var s3 := Step(s2, On(0, Advance));
    assert s3.tasks == [Connecting(0)] && s3.slots == 1;
    var s4 := Step(s3, On(0, Advance));
    assert s4.tasks == [Done(Leased(0))] && s4.a.p == AfterLease(max).a.p;
    Then(s3, On(0, Advance), rest);
    Then(s2, On(0, Advance), [On(0, Advance)] + rest);
    Then(s1, On(0, Advance), [On(0, Advance)] + ([On(0, Advance)] + rest));
    Then(Start(max), CallAcquire, [On(0, Advance)] + ([On(0, Advance)] + ([On(0, Advance)] + rest)));
  }

  /** A permit can be lost: when a release is cancelled while it closes a connection whose
      check raised, the pool is open and idle but has one permit less for good. */
  lemma PermitCanBeLost(max: nat) returns (actions: seq<Action>)
    requires max > 0
    ensures var s := Exec(Start(max), actions);
            && !s.a.p.closed && s.a.p.connections == {} && s.a.p.leased == {} && s.a.p.permits == max - 1
            && forall i :: 0 <= i < |s.tasks| ==> s.tasks[i].Done?
  {
    var last := [On(1, Cancel)] + [];
    actions := [CallAcquire] + ([On(0, Advance)] + ([On(0, Advance)] + ([On(0, Advance)] + ([CallRelease(0, Raised)] + last))));
    ToLease(max, [CallRelease(0, Raised)] + last);
    var s5 := Step(AfterLease(max), CallRelease(0, Raised));
    assert s5.tasks == [Done(Leased(0)), Closing(0, true, ReleaseAfterRaise)] && s5.a.p.connections == {};
    var s6 := Step(s5, On(1, Cancel));
    assert s6.tasks == [Done(Leased(0)), Done(Failed)];
    Then(AfterLease(max), CallRelease(0, Raised), last);
    Then(s5, On(1, Cancel), []);
  }
}
