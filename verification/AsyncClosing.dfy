/** Closing the asynchronous pool: close_all is carried out once, by its first caller or
    the recovery task that takes over when the caller is cancelled. */
module AsyncClosing {
  import opened Counting
  import opened Sequences
  import opened AsyncRuns
  import opened AsyncFacts
  import opened AsyncLedger

  function Closer(pc: Pc): nat {
    One(pc.CloseLeft? || (pc.Closing? && pc.next.CloseEachOn?))
  }

  /** A task inside close_all has every connection that is still tracked before it. */
  ghost predicate Covers(pc: Pc, s: System) {
    match pc
    case CloseLeft(left, all, recovering) =>
      s.a.p.connections <= left && left <= all && recovering == s.a.recovery.Running?
    case Closing(_, _, CloseEachOn(left, all, recovering)) =>
      s.a.p.connections <= left && left <= all && recovering == s.a.recovery.Running?
    case Done(ClosedAll) => s.a.closeFinished
    case _ => true
  }

  /** close_all is carried out once, by one task; when it is finished nothing is tracked. */
  ghost predicate ClosedOnce(s: System) {
    && Total(s.tasks, Closer) == One(s.a.closeInProgress)
    && (s.a.p.closed <==> s.a.closeInProgress || s.a.closeFinished)
    && !(s.a.closeInProgress && s.a.closeFinished)
    && (s.a.closeFinished ==> s.a.p.connections == {})
    && (s.a.recovery.Running? ==> s.a.closeInProgress) && (s.a.recovery.Over? ==> s.a.closeFinished)
    && (forall i :: 0 <= i < |s.tasks| ==> Covers(s.tasks[i], s))
  }

  /** A step of task `t` that leaves the carrying out of close_all to others. */
  ghost predicate Bystands(s: System, s': System, t: nat)
    requires t < |s.tasks| == |s'.tasks|
  {
    && s'.a == s.a.(p := s'.a.p) && s'.a.p.closed == s.a.p.closed
    && (s.a.p.closed ==> s'.a.p.connections <= s.a.p.connections)
    && Closer(s'.tasks[t]) == Closer(s.tasks[t]) == 0
    && Covers(s'.tasks[t], s')
  }

  lemma BystandsClosed(s: System, s': System, t: nat)
    requires ClosedOnce(s) && t < |s.tasks| == |s'.tasks| && s'.tasks == s.tasks[t := s'.tasks[t]] && Bystands(s, s', t)
    ensures ClosedOnce(s')
  {
    TotalUpdate(s.tasks, t, s'.tasks[t], Closer);
    forall i | 0 <= i < |s'.tasks| ensures Covers(s'.tasks[i], s') {
      if i != t { KeepsCover(s, s', i); }
    }
  }

  lemma KeepsCover(s: System, s': System, i: nat)
    requires ClosedOnce(s) && i < |s.tasks| <= |s'.tasks| && s'.tasks[i] == s.tasks[i]
    requires s'.a == s.a.(p := s'.a.p) && (s.a.p.closed ==> s'.a.p.connections <= s.a.p.connections)
    ensures Covers(s'.tasks[i], s')
  {
    assert Covers(s.tasks[i], s);
    TotalAtLeast(s.tasks, i, Closer);
  }

  lemma AcquireBystands(s: System, t: nat, move: Move)
    requires t < |s.tasks| && (s.tasks[t].Waiting? || s.tasks[t].Checking?)
    ensures |AcquireStep(s, t, move).tasks| == |s.tasks| && Bystands(s, AcquireStep(s, t, move), t)
  {
  }

  lemma CreateBystands(s: System, t: nat, move: Move)
    requires t < |s.tasks| && (s.tasks[t].Asking? || s.tasks[t].Connecting? || s.tasks[t].Dropping?)
    ensures |CreateStep(s, t, move).tasks| == |s.tasks| && Bystands(s, CreateStep(s, t, move), t)
  {
  }

  lemma AfterCloseBystands(s: System, s': System, t: nat)
    requires t < |s.tasks| && s.tasks[t].Closing? && !s.tasks[t].next.CloseEachOn?
    requires s' == s.(slots := s'.slots, overReleased := s'.overReleased)
    ensures var n := AfterClose(s', t, s.tasks[t].next); |n.tasks| == |s.tasks| && Bystands(s, n, t)
  {
  }

  lemma AfterCancelBystands(s: System, s': System, t: nat)
    requires t < |s.tasks| && s.tasks[t].Closing? && !s.tasks[t].next.CloseEachOn?
    requires s' == s.(slots := s'.slots, overReleased := s'.overReleased)
    ensures var n := AfterCancel(s', t, s.tasks[t].next); |n.tasks| == |s.tasks| && Bystands(s, n, t)
  {
  }

  lemma CloseBystands(s: System, t: nat, move: Move)
    requires t < |s.tasks| && s.tasks[t].Closing? && !s.tasks[t].next.CloseEachOn?
    ensures |CloseStep(s, t, move).tasks| == |s.tasks| && Bystands(s, CloseStep(s, t, move), t)
  {
    var s' := if s.tasks[t].tracked then FreeSlot(s) else s;
    AfterCloseBystands(s, s', t);
    AfterCancelBystands(s, s', t);
  }

  lemma ScanBystands(s: System, t: nat, move: Move)
    requires t < |s.tasks| && (s.tasks[t].Scanning? || s.tasks[t].CloseKept?)
    ensures |ScanStep(s, t, move).tasks| == |s.tasks| && Bystands(s, ScanStep(s, t, move), t)
  {
  }

  lemma AwaitBystands(s: System, t: nat, move: Move)
    requires ClosedOnce(s) && t < |s.tasks|
    requires s.tasks[t].Done? || s.tasks[t].AwaitingRecovery? || s.tasks[t].AwaitingFinish?
    ensures |CloseAllStep(s, t, move).tasks| == |s.tasks| && Bystands(s, CloseAllStep(s, t, move), t)
  {
    assert Covers(s.tasks[t], s);
  }

  lemma MovedBystands(s: System, t: nat, move: Move)
    requires ClosedOnce(s) && t < |s.tasks| && Closer(s.tasks[t]) == 0
    ensures |Moved(s, t, move).tasks| == |s.tasks| && Bystands(s, Moved(s, t, move), t)
  {
    var pc := s.tasks[t];
    if pc.Waiting? || pc.Checking? { AcquireBystands(s, t, move); }
    else if pc.Asking? || pc.Connecting? || pc.Dropping? { CreateBystands(s, t, move); }
    else if pc.Closing? { CloseBystands(s, t, move); }
    else if pc.Scanning? || pc.CloseKept? { ScanBystands(s, t, move); }
    else { AwaitBystands(s, t, move); }
  }

  /** A step of the one task that carries out close_all. */
  ghost predicate CarriesOn(s: System, s': System, t: nat)
    requires t < |s.tasks| == |s'.tasks|
  {
    && s'.a.p.closed == s.a.p.closed && s'.a.p.connections <= s.a.p.connections
    && Closer(s'.tasks[t]) == One(s'.a.closeInProgress)
    && (s'.a.closeInProgress ==> !s'.a.closeFinished && !s'.a.recovery.Over?)
    && (!s'.a.closeInProgress ==> s'.a.closeFinished && s'.a.p.connections == {} && !s'.a.recovery.Running?)
    && Covers(s'.tasks[t], s')
  }

  lemma CarriesOnClosed(s: System, s': System, t: nat)
    requires ClosedOnce(s) && t < |s.tasks| == |s'.tasks| && s'.tasks == s.tasks[t := s'.tasks[t]]
    requires Closer(s.tasks[t]) == 1 && CarriesOn(s, s', t)
    ensures ClosedOnce(s')
  {
    TotalUpdate(s.tasks, t, s'.tasks[t], Closer);
    TotalAtLeast(s.tasks, t, Closer);
    forall i | 0 <= i < |s'.tasks| ensures Covers(s'.tasks[i], s') {
      if i != t {
        TotalAtLeastTwo(s.tasks, if i < t then i else t, if i < t then t else i, Closer);
        assert Covers(s.tasks[i], s);
      }
    }
  }

  lemma CloserCarriesOn(s: System, t: nat, move: Move)
    requires ClosedOnce(s) && t < |s.tasks| && Closer(s.tasks[t]) == 1
    ensures |Moved(s, t, move).tasks| == |s.tasks| && CarriesOn(s, Moved(s, t, move), t)
  {
    assert Covers(s.tasks[t], s);
    TotalAtLeast(s.tasks, t, Closer);
    if s.tasks[t].CloseLeft? { CloseLeftCarriesOn(s, t, move); } else { EachCarriesOn(s, t, move); }
  }

  lemma CloseLeftCarriesOn(s: System, t: nat, move: Move)
    requires t < |s.tasks| && s.tasks[t].CloseLeft? && Covers(s.tasks[t], s)
    requires s.a.closeInProgress && !s.a.closeFinished && !s.a.recovery.Over?
    ensures |CloseAllStep(s, t, move).tasks| == |s.tasks| && CarriesOn(s, CloseAllStep(s, t, move), t)
  {
  }

  lemma EachCarriesOn(s: System, t: nat, move: Move)
    requires t < |s.tasks| && s.tasks[t].Closing? && s.tasks[t].next.CloseEachOn? && Covers(s.tasks[t], s)
    requires s.a.closeInProgress && !s.a.closeFinished && !s.a.recovery.Over?
    ensures |CloseStep(s, t, move).tasks| == |s.tasks| && CarriesOn(s, CloseStep(s, t, move), t)
  {
  }

  lemma MovedClosed(s: System, t: nat, move: Move)
    requires Own(s) && ClosedOnce(s) && t < |s.tasks|
    ensures ClosedOnce(Moved(s, t, move))
  {
    var s' := Moved(s, t, move);
    ViewOf(s, t, 0);
    MovedConserves(s, t, move, 0);
    if Closer(s.tasks[t]) == 0 {
      MovedBystands(s, t, move);
      BystandsClosed(s, s', t);
    } else {
      CloserCarriesOn(s, t, move);
      CarriesOnClosed(s, s', t);
    }
  }

  lemma SpawnClosed(s: System, s': System, pc: Pc)
    requires ClosedOnce(s) && s'.tasks == s.tasks + [pc] && s'.a == s.a.(p := s'.a.p) && s'.a.p.closed == s.a.p.closed
    requires (s.a.p.closed ==> s'.a.p.connections <= s.a.p.connections) && Closer(pc) == 0 && Covers(pc, s')
    ensures ClosedOnce(s')
  {
    TotalAppend(s.tasks, pc, Closer);
    forall i | 0 <= i < |s'.tasks| ensures Covers(s'.tasks[i], s') {
      if i < |s.tasks| { KeepsCover(s, s', i); }
    }
  }

  lemma SpawnCloseClosed(s: System)
    requires ClosedOnce(s)
    ensures ClosedOnce(SpawnClose(s))
  {
    var s' := SpawnClose(s);
    var pc := s'.tasks[|s.tasks|];
    if pc.CloseLeft? {
      TotalAppend(s.tasks, pc, Closer);
      forall i | 0 <= i < |s.tasks| ensures Covers(s'.tasks[i], s') {
        TotalAtLeast(s.tasks, i, Closer);
        assert Covers(s.tasks[i], s);
      }
    } else {
      SpawnClosed(s, s', pc);
    }
  }

  lemma StepClosed(s: System, a: Action)
    requires Own(s) && ClosedOnce(s)
    ensures ClosedOnce(Step(s, a))
  {
    match a
    case CallAcquire => SpawnClosed(s, Step(s, a), if s.a.p.closed then Done(Failed) else Waiting);
    case CallRelease(c, verdict) => SpawnClosed(s, Step(s, a), Step(s, a).tasks[|s.tasks|]);
    case CallCleanup => SpawnClosed(s, Step(s, a), Scanning(s.a.p.free, []));
    case CallCloseAll => SpawnCloseClosed(s);
    case On(t, move) => if t < |s.tasks| { MovedClosed(s, t, move); }
  }

  lemma {:induction false} ExecClosed(s: System, actions: seq<Action>)
    requires Own(s) && ClosedOnce(s)
    ensures Own(Exec(s, actions)) && ClosedOnce(Exec(s, actions))
    decreases |actions|
  {
    if actions != [] {
      StepOwn(s, actions[0]);
      StepClosed(s, actions[0]);
      ExecClosed(Step(s, actions[0]), actions[1..]);
    }
  }

  // -------------------------------------------------------------- after the close

  /** Task `i` has a lease in `s'` only if it already had it in `s`. */
  ghost predicate NoNewLease(s: System, s': System, i: nat) {
    i < |s'.tasks| && s'.tasks[i].Done? && s'.tasks[i].result.Leased? ==> i < |s.tasks| && s'.tasks[i] == s.tasks[i]
  }

  ghost predicate NotLeasing(pc: Pc) {
    !(pc.Done? && pc.result.Leased?)
  }

  lemma AcquireNoLease(s: System, t: nat, move: Move)
    requires s.a.p.closed && t < |s.tasks| && (s.tasks[t].Waiting? || s.tasks[t].Checking?)
    ensures |AcquireStep(s, t, move).tasks| == |s.tasks| && NotLeasing(AcquireStep(s, t, move).tasks[t])
  {
  }

  lemma CreateNoLease(s: System, t: nat, move: Move)
    requires s.a.p.closed && t < |s.tasks| && (s.tasks[t].Asking? || s.tasks[t].Connecting? || s.tasks[t].Dropping?)
    ensures |CreateStep(s, t, move).tasks| == |s.tasks| && NotLeasing(CreateStep(s, t, move).tasks[t])
  {
  }

  lemma CloseNoLease(s: System, t: nat, move: Move)
    requires s.a.p.closed && t < |s.tasks| && s.tasks[t].Closing?
    ensures |CloseStep(s, t, move).tasks| == |s.tasks| && NotLeasing(CloseStep(s, t, move).tasks[t])
  {
  }

  lemma OtherNoLease(s: System, t: nat, move: Move)
    requires t < |s.tasks| && (s.tasks[t].Scanning? || s.tasks[t].CloseKept? || s.tasks[t].CloseLeft?
                               || s.tasks[t].AwaitingRecovery? || s.tasks[t].AwaitingFinish?)
    ensures |Moved(s, t, move).tasks| == |s.tasks| && NotLeasing(Moved(s, t, move).tasks[t])
  {
  }

  lemma MovedNoLease(s: System, t: nat, move: Move)
    requires s.a.p.closed && t < |s.tasks|
    ensures |Moved(s, t, move).tasks| == |s.tasks|
    ensures NoNewLease(s, Moved(s, t, move), t)
  {
    var pc := s.tasks[t];
    if pc.Waiting? || pc.Checking? { AcquireNoLease(s, t, move); }
    else if pc.Asking? || pc.Connecting? || pc.Dropping? { CreateNoLease(s, t, move); }
    else if pc.Closing? { CloseNoLease(s, t, move); }
    else if !pc.Done? { OtherNoLease(s, t, move); }
  }

  lemma ClosedStep(s: System, a: Action)
    requires Own(s) && ClosedOnce(s) && s.a.p.closed
    ensures var s' := Step(s, a);
            && s'.a.p.closed && s'.a.p.connections <= s.a.p.connections && |s.tasks| <= |s'.tasks|
            && forall i: nat :: NoNewLease(s, s', i)
  {
    if a.On? && a.t < |s.tasks| {
      var s' := Moved(s, a.t, a.move);
      MovedNoLease(s, a.t, a.move);
      ViewOf(s, a.t, 0);
      MovedConserves(s, a.t, a.move, 0);
      if Closer(s.tasks[a.t]) == 0 { MovedBystands(s, a.t, a.move); } else { CloserCarriesOn(s, a.t, a.move); }
      forall i: nat ensures NoNewLease(s, s', i) {
        if i < |s.tasks| && i != a.t { assert s'.tasks[i] == s.tasks[i]; }
      }
    }
  }

  lemma {:induction false} ClosedExec(s: System, actions: seq<Action>)
    requires Own(s) && ClosedOnce(s) && s.a.p.closed
    ensures var s' := Exec(s, actions);
            && s'.a.p.closed && s'.a.p.connections <= s.a.p.connections && |s.tasks| <= |s'.tasks|
            && forall i: nat :: NoNewLease(s, s', i)
    decreases |actions|
  {
    if actions != [] {
      var s1 := Step(s, actions[0]);
      ClosedStep(s, actions[0]);
      StepOwn(s, actions[0]);
      StepClosed(s, actions[0]);
      ClosedExec(s1, actions[1..]);
      forall i: nat ensures NoNewLease(s, Exec(s, actions), i) {
        assert NoNewLease(s, s1, i) && NoNewLease(s1, Exec(s1, actions[1..]), i);
      }
    }
  }

  /** Close safety over whole runs, cancellations included. From the moment a pool is
      closed: no acquire returns a connection, nothing is tracked or put into the free
      queue, and there is a permit for every task still waiting for one; and when a call
      of close_all has come to its end, nothing is tracked, now or later. */
  lemma CloseSafety(max: nat, before: seq<Action>, after: seq<Action>)
    requires Exec(Start(max), before).a.p.closed
    ensures var s := Exec(Start(max), before);
            var s' := Exec(s, after);
            && s'.a.p.closed && s'.a.p.connections <= s.a.p.connections && s'.a.p.free == [] && s'.a.p.leased == {}
            && s'.a.p.permits >= Total(s'.tasks, Registered)
            && (forall i: nat :: NoNewLease(s, s', i))
            && (forall i :: 0 <= i < |s'.tasks| && s'.tasks[i] == Done(ClosedAll) ==> s'.a.p.connections == {})
  {
    var s := Exec(Start(max), before);
    Reached(max, before);
    Reached(max, []);
    ExecClosed(Start(max), before);
    ClosedExec(s, after);
    ExecClosed(s, after);
    ExecLedger(s, after);
    var s' := Exec(s, after);
    forall i | 0 <= i < |s'.tasks| && s'.tasks[i] == Done(ClosedAll) ensures s'.a.p.connections == {} {
      assert Covers(s'.tasks[i], s');
    }
  }

  /** While close_all is carried out exactly one task does it, and it has every connection
      that is still tracked before it, also when the caller is cancelled. */
  lemma ClosedByOne(max: nat, actions: seq<Action>)
    ensures var s := Exec(Start(max), actions);
            && Total(s.tasks, Closer) == One(s.a.closeInProgress)
            && (s.a.p.closed <==> s.a.closeInProgress || s.a.closeFinished)
            && (s.a.closeFinished ==> s.a.p.connections == {})
            && (forall i :: 0 <= i < |s.tasks| && s.tasks[i].CloseLeft? ==> s.a.p.connections <= s.tasks[i].left)
  {
    Reached(max, []);
    ExecClosed(Start(max), actions);
    var s := Exec(Start(max), actions);
    forall i | 0 <= i < |s.tasks| && s.tasks[i].CloseLeft? ensures s.a.p.connections <= s.tasks[i].left {
      assert Covers(s.tasks[i], s);
    }
  }
}
