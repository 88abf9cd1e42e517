/** The facts of every task hold in every reachable state. */
module TaskInvariant {
  import opened Options
  import opened TaskRunner
  import opened TaskRuns
  import opened TaskFacts
  import opened TaskSteps

  /** A worker that comes out of a task function finds its task RUNNING. */
  ghost predicate EndsRunning(s: System, t: nat)
    requires t < |s.threads|
  {
    s.threads[t].Returned? || s.threads[t].RaisedIn? ==>
      s.threads[t].task in s.r.tasks && s.r.tasks[s.threads[t].task].Running?
  }

  lemma SubmitterHolds(s: System, t: nat, id: nat, o: Tally)
    requires t < |s.threads| && Holds(s, t, id, o) && IsSubmitterPc(s.threads[t])
    ensures Holds(SubmitterStep(s, t), t, id, o)
  {
    var row := RowOf(s, id);
    if s.threads[t].GivingUp? {
      FreeHolds(s, t, LeavingSubmit, id, o);
    } else {
      if s.threads[t].LeavingSubmit? {
        CountRow(s.r, s.r.submitterCount - 1, id, row.ran, row.confirmed, row.known);
      }
      StillHolds(s, SubmitterStep(s, t), t, id, o);
    }
  }

  lemma WorkerHolds(s: System, t: nat, id: nat, o: Tally)
    requires t < |s.threads| && Holds(s, t, id, o) && IsWorkerPc(s.threads[t])
    ensures Holds(WorkerStep(s, t), t, id, o)
  {
    var pc := s.threads[t];
    if pc.Skipping? {
      FreeHolds(s, t, Idle, id, o);
    } else if pc.Idle? {
      if s.r.queue != [] { PopHolds(s, t, id, o); }
    } else if pc.Marking? {
      MarkingHolds(s, t, id, o);
    } else {
      StillHolds(s, WorkerStep(s, t), t, id, o);
    }
  }

  lemma MarkingHolds(s: System, t: nat, id: nat, o: Tally)
    requires t < |s.threads| && Holds(s, t, id, o) && s.threads[t].Marking?
    ensures Holds(WorkerStep(s, t), t, id, o)
  {
    var k := s.threads[t].task;
    if TryMark(s.r, k).1 {
      MarkedHolds(s, t, id, o);
    } else if k in s.r.tasks && (s.r.tasks[k].Cancelled? || Flagged(s.r, k)) {
      CancelSeenHolds(s, t, id, o);
    } else {
      StillHolds(s, WorkerStep(s, t), t, id, o);
    }
  }

  lemma FinishHolds(s: System, t: nat, id: nat, o: Tally)
    requires t < |s.threads| && Holds(s, t, id, o) && IsFinishPc(s.threads[t]) && EndsRunning(s, t)
    ensures Holds(FinishStep(s, t), t, id, o)
  {
    var pc := s.threads[t];
    if pc.Releasing? {
      ReleasedHolds(s, t, id, o);
    } else if pc.Signalling? {
      SignalledHolds(s, t, id, o);
    } else {
      EndedHolds(s, t, id, o);
    }
  }

  lemma WaiterHolds(s: System, t: nat, id: nat, o: Tally)
    requires t < |s.threads| && Holds(s, t, id, o)
    ensures Holds(WaiterStep(s, t), t, id, o)
  {
    var pc := s.threads[t];
    if pc.Waiting? {
      if EventSet(s.r, pc.task) { WakeHolds(s, t, id, o); }
    } else if pc.Woken? {
      SnapshotHolds(s, t, if pc.task in s.r.tasks then Snapshot(s.r.tasks[pc.task]) else LostTask, id, o);
    } else if pc.LeavingWait? {
      LeaveWaitHolds(s, t, pc.result, id, o);
    } else {
      StillHolds(s, WaiterStep(s, t), t, id, o);
    }
  }

  lemma MovedHolds(s: System, t: nat, move: Move, id: nat, o: Tally)
    requires t < |s.threads| && Holds(s, t, id, o) && EndsRunning(s, t)
    ensures Holds(Moved(s, t, move), t, id, o)
  {
    var pc := s.threads[t];
    match move
    case Advance =>
      if IsSubmitterPc(pc) { SubmitterHolds(s, t, id, o); }
      else if IsWorkerPc(pc) { WorkerHolds(s, t, id, o); }
      else if IsFinishPc(pc) { FinishHolds(s, t, id, o); }
      else { WaiterHolds(s, t, id, o); }
    case Interrupt(isException) => if pc.AwaitingSlot? { AbortedHolds(s, t, isException, id, o); }
    case Start(launches, isException) => if pc.Placing? { PlacedHolds(s, t, launches, isException, id, o); }
    case WaitTimesOut => if pc.Waiting? { SnapshotHolds(s, t, TimedOut, id, o); }
    case _ => StillHolds(s, Moved(s, t, move), t, id, o);
  }

  lemma MovedShape(s: System, t: nat, move: Move)
    requires t < |s.threads|
    ensures var s' := Moved(s, t, move);
            |s.threads| <= |s'.threads| &&
            exists n: nat :: s'.threads == s.threads[t := s'.threads[t]] + IdleWorkers(n)
  {
    var s' := Moved(s, t, move);
    if move.Start? && s.threads[t].Placing? {
      var n := NewWorkers(s.r, s'.r);
      assert s'.threads == s.threads[t := s'.threads[t]] + IdleWorkers(n);
    } else {
      assert s.threads[t := s.threads[t]] == s.threads;
      assert s'.threads == s.threads[t := s'.threads[t]] + IdleWorkers(0);
    }
  }

  /** A thread's part is a part of the sum. */
  lemma RunCounts(threads: seq<Pc>, t: nat)
    requires t < |threads| && (threads[t].Returned? || threads[t].RaisedIn?)
    ensures Sum(threads, PartOf(threads[t].task)).run > 0
  {
    var o := SumSplit(threads, t, threads[t], PartOf(threads[t].task));
  }

  lemma WokeCounts(threads: seq<Pc>, t: nat)
    requires t < |threads| && threads[t].Woken?
    ensures Sum(threads, PartOf(threads[t].task)).woke > 0
  {
    var o := SumSplit(threads, t, threads[t], PartOf(threads[t].task));
  }

  lemma RunningTask(s: System, id: nat)
    requires AllFacts(s) && Sum(s.threads, PartOf(id)).run > 0
    ensures id in s.r.tasks && s.r.tasks[id].Running?
  {
    RunningRow(RowOf(s, id), Sum(s.threads, PartOf(id)));
  }

  lemma RunningRow(row: Row, n: Tally)
    requires Facts(row, n) && n.run > 0
    ensures row.status == Some(Running)
  {
  }

  lemma RunnerIsRunning(s: System, t: nat)
    requires AllFacts(s) && t < |s.threads|
    ensures EndsRunning(s, t)
  {
    var pc := s.threads[t];
    if pc.Returned? || pc.RaisedIn? {
      RunCounts(s.threads, t);
      RunningTask(s, pc.task);
    }
  }

  /** The others' part of the tally is the same before and after. */
  lemma TallyAfter(before: seq<Pc>, after: seq<Pc>, t: nat, n: nat, id: nat) returns (o: Tally)
    requires t < |before| <= |after| && after == before[t := after[t]] + IdleWorkers(n)
    ensures Sum(before, PartOf(id)) == Plus(o, Part(before[t], id))
    ensures Sum(after, PartOf(id)) == Plus(o, Part(after[t], id))
  {
    o := SumSplit(before, t, after[t], PartOf(id));
    SumAppendNobody(before[t := after[t]], IdleWorkers(n), PartOf(id));
  }

  lemma MovedTaskFacts(s: System, t: nat, move: Move, id: nat)
    requires AllFacts(s) && t < |s.threads|
    ensures var s' := Moved(s, t, move);
            Tables(s'.r) && Facts(RowOf(s', id), Sum(s'.threads, PartOf(id)))
  {
    MovedShape(s, t, move);
    RunnerIsRunning(s, t);
    var after := Moved(s, t, move).threads;
    var n: nat :| after == s.threads[t := after[t]] + IdleWorkers(n);
    var o := TallyAfter(s.threads, after, t, n, id);
    ViewTask(s, t, id, o);
    MovedHolds(s, t, move, id, o);
    HoldsFacts(Moved(s, t, move), t, id, o);
  }

  lemma ViewTask(s: System, t: nat, id: nat, o: Tally)
    requires AllFacts(s) && t < |s.threads| && Sum(s.threads, PartOf(id)) == Plus(o, Part(s.threads[t], id))
    ensures Holds(s, t, id, o)
  {
    assert Facts(RowOf(s, id), Sum(s.threads, PartOf(id)));
  }

  lemma HoldsFacts(s: System, t: nat, id: nat, o: Tally)
    requires t < |s.threads| && Holds(s, t, id, o) && Sum(s.threads, PartOf(id)) == Plus(o, Part(s.threads[t], id))
    ensures Tables(s.r) && Facts(RowOf(s, id), Sum(s.threads, PartOf(id)))
  {
  }

  // ------------------------------------------------------ calls that are one step

  lemma RegisterKeeps(row: Row, o: Tally)
    requires Facts(row, o) && !row.known
    ensures Facts(row.(status := Some(Pending), event := false, flag := false, known := true), Plus(o, Nobody.(place := 1)))
  {
  }

  lemma AddWaiterKeeps(row: Row, o: Tally)
    requires Facts(row, o) && row.status.Some?
    ensures Facts(row.(waiters := row.waiters + 1), Plus(o, Nobody.(wait := 1)))
  {
  }

  lemma CancelKeeps(row: Row, o: Tally)
    requires Facts(row, o)
    ensures row.status == Some(Pending) ==>
              Facts(row.(status := Some(Cancelled), event := true, flag := true), o) &&
              Facts(row.(status := Some(Cancelled), event := true, flag := true, confirmed := true), o)
    ensures row.status == Some(Running) ==> Facts(row.(flag := true, confirmed := true), o)
  {
  }

  lemma RemoveKeeps(row: Row, o: Tally)
    requires Facts(row, o) && Finished(row.status) && row.waiters == 0
    ensures Facts(row.(status := None, event := false, flag := false), o)
  {
  }

  lemma RegisterRow(r: Runner, k: nat, id: nat, ran: nat, confirmed: bool, known: bool)
    requires Tables(r) && !r.closed
    ensures var row := RowIn(r, id, ran, confirmed, known);
            Tables(Register(r, k).0) && RowIn(Register(r, k).0, id, ran, confirmed, known) ==
              if k == id then row.(status := Some(Pending), event := false, flag := false) else row
  {
    assert Register(r, k).0.events.Keys == Register(r, k).0.tasks.Keys;
    assert Register(r, k).0.flags.Keys == Register(r, k).0.tasks.Keys;
  }

  lemma AddWaiterRow(r: Runner, k: nat, id: nat, ran: nat, confirmed: bool, known: bool)
    requires Tables(r)
    ensures var row := RowIn(r, id, ran, confirmed, known);
            Tables(AddWaiter(r, k).0) && RowIn(AddWaiter(r, k).0, id, ran, confirmed, known) ==
              if k == id && row.status.Some? then row.(waiters := row.waiters + 1) else row
  {
  }

  lemma FlagRow(r: Runner, k: nat, id: nat, ran: nat, confirmed: bool, known: bool)
    requires Tables(r) && k in r.tasks
    ensures var row := RowIn(r, id, ran, confirmed, known);
            var r' := r.(flags := r.flags[k := true]);
            Tables(r') && RowIn(r', id, ran, confirmed, known) == if k == id then row.(flag := true) else row
  {
    assert r.flags[k := true].Keys == r.flags.Keys;
  }

  lemma CancelRow(r: Runner, k: nat, id: nat, ran: nat, confirmed: bool, known: bool)
    requires Tables(r)
    ensures var row := RowIn(r, id, ran, confirmed, known);
            var (r', ok) := Cancel(r, k);
            && Tables(r')
            && (ok <==> k in r.tasks && (r.tasks[k].Pending? || r.tasks[k].Running?))
            && RowIn(r', id, ran, confirmed, known) ==
               if k != id then row
               else if row.status == Some(Pending) then row.(status := Some(Cancelled), event := true, flag := true)
               else if row.status == Some(Running) then row.(flag := true)
               else row
  {
    if k in r.tasks {
      FlagRow(r, k, id, ran, confirmed, known);
      var r1 := r.(flags := r.flags[k := true]);
      SettleRow(r1, k, Cancelled, id, ran, confirmed, known);
      if r.tasks[k].Pending? {
        assert Cancel(r, k).0 == WithEvent(WithStatus(r1, k, Cancelled), k);
      }
    }
  }

  lemma SubmitTask(s: System, id: nat)
    requires AllFacts(s) && !s.r.closed
    ensures var s' := Step(s, Submit); Tables(s'.r) && Facts(RowOf(s', id), Sum(s'.threads, PartOf(id)))
  {
    var row, n := RowOf(s, id), Sum(s.threads, PartOf(id));
    assert Facts(row, n);
    NewPart(s.threads, AwaitingSlot(s.submitted), id);
    SubmittedRow(s, id);
    if id == s.submitted {
      RegisterKeeps(row, n);
    }
  }

  lemma SubmittedRow(s: System, id: nat)
    requires Tables(s.r) && !s.r.closed
    ensures Tables(Step(s, Submit).r)
    ensures RowOf(Step(s, Submit), id) ==
            if id == s.submitted then RowOf(s, id).(status := Some(Pending), event := false, flag := false, known := true)
            else RowOf(s, id)
  {
    var row := RowOf(s, id);
    RegisterRow(s.r, s.submitted, id, row.ran, row.confirmed, id <= s.submitted);
  }

  lemma NewPart(threads: seq<Pc>, pc: Pc, id: nat)
    ensures Sum(threads + [pc], PartOf(id)) == Plus(Sum(threads, PartOf(id)), Part(pc, id))
  {
    SumAppend(threads, pc, PartOf(id));
  }

  lemma NewWaiterRow(s: System, k: nat, id: nat)
    requires Tables(s.r)
    ensures Tables(AddWaiter(s.r, k).0)
    ensures RowOf(s.(r := AddWaiter(s.r, k).0), id) ==
            if k == id && k in s.r.events then RowOf(s, id).(waiters := RowOf(s, id).waiters + 1) else RowOf(s, id)
  {
    var row := RowOf(s, id);
    AddWaiterRow(s.r, k, id, row.ran, row.confirmed, row.known);
  }

  lemma RegisteredWaiter(s: System, k: nat)
    requires AllFacts(s) && k in s.r.events
    ensures Facts(RowOf(s.(r := AddWaiter(s.r, k).0), k), Sum(s.threads + [Waiting(k)], PartOf(k)))
  {
    assert Facts(RowOf(s, k), Sum(s.threads, PartOf(k)));
    NewWaiterRow(s, k, k);
    NewPart(s.threads, Waiting(k), k);
    AddWaiterKeeps(RowOf(s, k), Sum(s.threads, PartOf(k)));
  }

  lemma OtherWaiter(s: System, k: nat, pc: Pc, id: nat)
    requires AllFacts(s) && (k != id || k !in s.r.events) && Part(pc, id) == Nobody
    ensures Facts(RowOf(s.(r := AddWaiter(s.r, k).0), id), Sum(s.threads + [pc], PartOf(id)))
  {
    assert Facts(RowOf(s, id), Sum(s.threads, PartOf(id)));
    NewWaiterRow(s, k, id);
    NewPart(s.threads, pc, id);
    assert Sum(s.threads + [pc], PartOf(id)) == Sum(s.threads, PartOf(id));
  }

  lemma RowIgnoresThreads(s: System, r: Runner, threads: seq<Pc>, id: nat)
    ensures RowOf(s.(r := r, threads := threads), id) == RowOf(s.(r := r), id)
  {
  }

  lemma WaitForTask(s: System, k: nat, pc: Pc, id: nat)
    requires AllFacts(s) && pc == if k in s.r.events then Waiting(k) else Waited(NotFound)
    ensures Facts(RowOf(s.(r := AddWaiter(s.r, k).0), id), Sum(s.threads + [pc], PartOf(id)))
  {
    if k != id || k !in s.r.events {
      OtherWaiter(s, k, pc, id);
    } else {
      RegisteredWaiter(s, k);
    }
  }

  lemma WaitForFacts(s: System, k: nat, id: nat)
    requires AllFacts(s)
    ensures var s' := Step(s, WaitFor(k)); Tables(s'.r) && Facts(RowOf(s', id), Sum(s'.threads, PartOf(id)))
  {
    var pc := if k in s.r.events then Waiting(k) else Waited(NotFound);
    NewWaiterRow(s, k, id);
    WaitForTask(s, k, pc, id);
    RowIgnoresThreads(s, AddWaiter(s.r, k).0, s.threads + [pc], id);
    assert Step(s, WaitFor(k)) == s.(r := AddWaiter(s.r, k).0, threads := s.threads + [pc]);
  }

  lemma CancelledRow(s: System, k: nat, id: nat)
    requires Tables(s.r)
    ensures var (r, ok) := Cancel(s.r, k);
            var s' := s.(r := r, confirmed := if ok then s.confirmed + {k} else s.confirmed);
            var row := RowOf(s, id);
            Tables(r) && RowOf(s', id) ==
              if k != id then row
              else if row.status == Some(Pending) then
                row.(status := Some(Cancelled), event := true, flag := true, confirmed := true)
              else if row.status == Some(Running) then row.(flag := true, confirmed := true)
              else row
  {
    var row := RowOf(s, id);
    var ok := Cancel(s.r, k).1;
    CancelRow(s.r, k, id, row.ran, row.confirmed || (ok && k == id), row.known);
  }

  lemma CancelledTask(s: System, k: nat, id: nat)
    requires AllFacts(s)
    ensures var (r, ok) := Cancel(s.r, k);
            var s' := s.(r := r, confirmed := if ok then s.confirmed + {k} else s.confirmed);
            Tables(r) && Facts(RowOf(s', id), Sum(s.threads, PartOf(id)))
  {
    assert Facts(RowOf(s, id), Sum(s.threads, PartOf(id)));
    CancelledRow(s, k, id);
    CancelKeeps(RowOf(s, id), Sum(s.threads, PartOf(id)));
  }

  lemma CancelAllRow(r: Runner, id: nat, ran: nat, confirmed: bool, known: bool)
    requires Tables(r)
    ensures var row := RowIn(r, id, ran, confirmed, known);
            Tables(CancelAll(r)) && RowIn(CancelAll(r), id, ran, confirmed, known) ==
              if row.status == Some(Pending) then row.(status := Some(Cancelled), event := true, flag := true) else row
  {
    assert CancelAll(r).tasks.Keys == r.tasks.Keys;
    assert CancelAll(r).flags.Keys == r.flags.Keys;
    assert CancelAll(r).events.Keys == r.events.Keys;
  }

  lemma CleanupRow(r: Runner, aged: set<nat>, id: nat, ran: nat, confirmed: bool, known: bool)
    requires Tables(r)
    ensures var row := RowIn(r, id, ran, confirmed, known);
            Tables(CleanupOld(r, aged)) && RowIn(CleanupOld(r, aged), id, ran, confirmed, known) ==
              if Removable(r, id, aged) then row.(status := None, event := false, flag := false) else row
  {
    var r' := CleanupOld(r, aged);
    assert r'.events.Keys == r'.tasks.Keys;
    assert r'.flags.Keys == r'.tasks.Keys;
  }

  lemma CallTaskFacts(s: System, a: Action, id: nat)
    requires AllFacts(s) && !a.On?
    ensures var s' := Step(s, a); Tables(s'.r) && Facts(RowOf(s', id), Sum(s'.threads, PartOf(id)))
  {
    match a
    case Submit =>
      if !s.r.closed { SubmitTask(s, id); } else { NewThread(s, s.r, Submitted, id); }
    case WaitFor(k) => WaitForFacts(s, k, id);
    case CancelTask(k) => CancelledTask(s, k, id);
    case CancelAllTasks => BulkCancel(s, id);
    case CleanupOldTasks(aged) => Cleanup(s, aged, id);
    case CloseRunner(wait) => CloseTask(s, if wait then ClosingWait else CloseReturned, id);
  }

  lemma BulkCancel(s: System, id: nat)
    requires AllFacts(s)
    ensures Tables(CancelAll(s.r)) && Facts(RowOf(s.(r := CancelAll(s.r)), id), Sum(s.threads, PartOf(id)))
  {
    var row, n := RowOf(s, id), Sum(s.threads, PartOf(id));
    assert Facts(row, n);
    CancelKeeps(row, n);
    CancelAllRow(s.r, id, row.ran, row.confirmed, row.known);
  }

  lemma Cleanup(s: System, aged: set<nat>, id: nat)
    requires AllFacts(s)
    ensures var r := CleanupOld(s.r, aged);
            Tables(r) && Facts(RowOf(s.(r := r), id), Sum(s.threads, PartOf(id)))
  {
    var row, n := RowOf(s, id), Sum(s.threads, PartOf(id));
    assert Facts(row, n);
    CleanupRow(s.r, aged, id, row.ran, row.confirmed, row.known);
    if Removable(s.r, id, aged) { RemoveKeeps(row, n); }
  }

  /** A new thread with no part in any task changes no facts. */
  lemma NewThread(s: System, r: Runner, pc: Pc, id: nat)
    requires Part(pc, id) == Nobody && Tables(r) && Facts(RowOf(s.(r := r), id), Sum(s.threads, PartOf(id)))
    ensures Facts(RowOf(s.(r := r, threads := s.threads + [pc]), id), Sum(s.threads + [pc], PartOf(id)))
  {
    SumAppend(s.threads, pc, PartOf(id));
    assert Sum(s.threads + [pc], PartOf(id)) == Sum(s.threads, PartOf(id));
  }

  lemma CloseTask(s: System, pc: Pc, id: nat)
    requires AllFacts(s) && (pc.ClosingWait? || pc.CloseReturned?)
    ensures Tables(Close(s.r))
    ensures Facts(RowOf(s.(r := Close(s.r), threads := s.threads + [pc]), id), Sum(s.threads + [pc], PartOf(id)))
  {
    if s.r.closed {
      assert Facts(RowOf(s, id), Sum(s.threads, PartOf(id)));
      assert s.(r := s.r) == s;
      NewThread(s, s.r, pc, id);
    } else {
      BulkCancel(s, id);
      ClosedRow(s, id);
      NewThread(s, Close(s.r), pc, id);
    }
  }

  lemma ClosedRow(s: System, id: nat)
    requires !s.r.closed
    ensures RowOf(s.(r := Close(s.r)), id) == RowOf(s.(r := CancelAll(s.r)), id)
    ensures Tables(CancelAll(s.r)) ==> Tables(Close(s.r))
  {
  }

  lemma StepAllFacts(s: System, a: Action)
    requires AllFacts(s)
    ensures AllFacts(Step(s, a))
  {
    var s' := Step(s, a);
    forall id ensures Tables(s'.r) && Facts(RowOf(s', id), Sum(s'.threads, PartOf(id))) {
      if !a.On? {
        CallTaskFacts(s, a, id);
      } else if a.t < |s.threads| {
        MovedTaskFacts(s, a.t, a.move, id);
      } else {
        assert Facts(RowOf(s, id), Sum(s.threads, PartOf(id)));
      }
    }
    assert Facts(RowOf(s', 0), Sum(s'.threads, PartOf(0)));
  }

  lemma {:induction false} ExecAllFacts(s: System, actions: seq<Action>)
    requires AllFacts(s)
    ensures AllFacts(Exec(s, actions))
    decreases |actions|
  {
    if actions != [] {
      StepAllFacts(s, actions[0]);
      ExecAllFacts(Step(s, actions[0]), actions[1..]);
    }
  }
}
