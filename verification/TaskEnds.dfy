/** A task that has ended stays as it ended, and one whose cancellation was confirmed can
    only end as CANCELLED. */
module TaskEnds {
  import opened Options
  import opened Sequences
  import opened TaskRunner
  import opened TaskRuns
  import opened TaskFacts
  import opened TaskSteps
  import opened TaskInvariant
  import opened TaskLedger

  /** What one step may do to a task: an ended task keeps its status until it is removed,
      a removed one never comes back, and cancel flags and confirmations stay. */
  ghost predicate Onward(row: Row, row': Row) {
    && (row.known ==> row'.known)
    && (Finished(row.status) ==> row'.status == row.status || row'.status == None)
    && (row.known && row.status == None ==> row'.status == None)
    && (row.flag ==> row'.flag || row'.status == None)
    && (row.confirmed ==> row'.confirmed)
  }

  lemma OnwardTwice(a: Row, b: Row, c: Row)
    requires Onward(a, b) && Onward(b, c)
    requires a.status.Some? || a.flag ==> a.known
    ensures Onward(a, c)
  {
  }

  lemma RunningFact(row: Row, n: Tally)
    requires Facts(row, n)
    ensures n.run > 0 ==> row.status == Some(Running)
    ensures row.status.Some? || row.flag ==> row.known
  {
  }

  lemma SubmitterOnward(s: System, t: nat, id: nat)
    requires t < |s.threads| && IsSubmitterPc(s.threads[t])
    ensures Onward(RowOf(s, id), RowOf(SubmitterStep(s, t), id))
  {
    var row, pc := RowOf(s, id), s.threads[t];
    if pc.GivingUp? {
      ReleaseSlotRow(s.r, pc.task, id, row.ran, row.confirmed, row.known);
    } else {
      CountRow(s.r, s.r.submitterCount - 1, id, row.ran, row.confirmed, row.known);
    }
  }

  /** A worker that takes a flagged task from the queue finds it already cancelled. */
  ghost predicate FlagSeen(s: System, t: nat)
    requires t < |s.threads|
  {
    s.threads[t].Marking? && Flagged(s.r, s.threads[t].task) ==>
      s.threads[t].task in s.r.tasks && s.r.tasks[s.threads[t].task].Cancelled?
  }

  lemma FlagSeenOf(s: System, t: nat)
    requires AllFacts(s) && t < |s.threads|
    ensures FlagSeen(s, t)
  {
    var pc := s.threads[t];
    if pc.Marking? {
      var o := SumSplit(s.threads, t, pc, PartOf(pc.task));
      ViewTask(s, t, pc.task, o);
    }
  }

  /** Setting the status of a task that has not ended, or setting it once more. */
  lemma StatusOnward(s: System, s': System, k: nat, st: Status, id: nat)
    requires Tables(s.r) && k in s.r.tasks && (!Terminal(s.r.tasks[k]) || s.r.tasks[k] == st)
    requires s'.r == WithStatus(s.r, k, st) && s'.confirmed == s.confirmed && s'.submitted == s.submitted
    ensures Onward(RowOf(s, id), RowOf(s', id))
  {
    var row := RowOf(s, id);
    WithStatusRow(s.r, k, st, id, Count(s'.ran, id), row.confirmed, row.known);
  }

  lemma SettleOnward(s: System, s': System, k: nat, st: Status, id: nat)
    requires Tables(s.r) && k in s.r.tasks && (!Terminal(s.r.tasks[k]) || s.r.tasks[k] == st)
    requires s'.r == WithEvent(WithStatus(s.r, k, st), k) && s'.confirmed == s.confirmed && s'.submitted == s.submitted
    ensures Onward(RowOf(s, id), RowOf(s', id))
  {
    var row := RowOf(s, id);
    SettleRow(s.r, k, st, id, Count(s'.ran, id), row.confirmed, row.known);
  }

  lemma MarkingOnward(s: System, t: nat, id: nat)
    requires t < |s.threads| && s.threads[t].Marking? && Tables(s.r) && FlagSeen(s, t)
    ensures Onward(RowOf(s, id), RowOf(WorkerStep(s, t), id))
  {
    var k, s' := s.threads[t].task, WorkerStep(s, t);
    if TryMark(s.r, k).1 {
      StatusOnward(s, s', k, Running, id);
    } else if TryMark(s.r, k).0 != s.r {
      SettleOnward(s, s', k, Cancelled, id);
    }
  }

  lemma WorkerOnward(s: System, t: nat, id: nat)
    requires t < |s.threads| && IsWorkerPc(s.threads[t]) && Tables(s.r) && FlagSeen(s, t)
    ensures Onward(RowOf(s, id), RowOf(WorkerStep(s, t), id))
  {
    var row, pc := RowOf(s, id), s.threads[t];
    if pc.Skipping? {
      ReleaseSlotRow(s.r, pc.task, id, row.ran, row.confirmed, row.known);
    } else if pc.Marking? {
      MarkingOnward(s, t, id);
    }
  }

  lemma EndedOnward(s: System, t: nat, id: nat)
    requires t < |s.threads| && (s.threads[t].Returned? || s.threads[t].RaisedIn?) && Tables(s.r) && EndsRunning(s, t)
    ensures Onward(RowOf(s, id), RowOf(FinishStep(s, t), id))
  {
    var pc := s.threads[t];
    var st := if Flagged(s.r, pc.task) then Cancelled else if pc.Returned? then Success else Failed;
    StatusOnward(s, FinishStep(s, t), pc.task, st, id);
  }

  lemma FinishOnward(s: System, t: nat, id: nat)
    requires t < |s.threads| && IsFinishPc(s.threads[t]) && Tables(s.r) && EndsRunning(s, t)
    ensures Onward(RowOf(s, id), RowOf(FinishStep(s, t), id))
  {
    var row, pc := RowOf(s, id), s.threads[t];
    if pc.Releasing? {
      ReleaseSlotRow(s.r, pc.task, id, row.ran, row.confirmed, row.known);
    } else if pc.Signalling? {
      WithEventRow(s.r, pc.task, id, row.ran, row.confirmed, row.known);
    } else {
      EndedOnward(s, t, id);
    }
  }

  lemma WaiterOnward(s: System, t: nat, id: nat)
    requires t < |s.threads|
    ensures Onward(RowOf(s, id), RowOf(WaiterStep(s, t), id))
  {
    var row, pc := RowOf(s, id), s.threads[t];
    if pc.LeavingWait? {
      DropWaiterRow(s.r, pc.task, id, row.ran, row.confirmed, row.known);
    }
  }

  lemma AbortParts(r: Runner, k: nat, isException: bool)
    ensures AbortSubmit(r, k, isException).(submitterCount := r.submitterCount) ==
            if k in r.tasks && r.tasks[k].Pending?
            then WithEvent(WithStatus(r, k, if isException then Failed else Cancelled), k) else r
  {
  }

  lemma CountOnward(s: System, s': System, id: nat)
    requires RowOf(s', id) == RowOf(s'.(r := s'.r.(submitterCount := s.r.submitterCount)), id)
    requires Onward(RowOf(s, id), RowOf(s'.(r := s'.r.(submitterCount := s.r.submitterCount)), id))
    ensures Onward(RowOf(s, id), RowOf(s', id))
  {
  }

  lemma AbortOnward(s: System, t: nat, isException: bool, id: nat)
    requires t < |s.threads| && s.threads[t].AwaitingSlot? && Tables(s.r)
    ensures Onward(RowOf(s, id), RowOf(Go(s, t, AbortSubmit(s.r, s.threads[t].task, isException), Submitted), id))
  {
    var k := s.threads[t].task;
    var s' := Go(s, t, AbortSubmit(s.r, k, isException), Submitted);
    AbortParts(s.r, k, isException);
    var s1 := s'.(r := s'.r.(submitterCount := s.r.submitterCount));
    if k in s.r.tasks && s.r.tasks[k].Pending? {
      SettleOnward(s, s1, k, if isException then Failed else Cancelled, id);
    }
    CountOnward(s, s', id);
  }

  /** A task that is being placed is pending, cancelled or gone. */
  ghost predicate StillPending(s: System, t: nat)
    requires t < |s.threads|
  {
    s.threads[t].Placing? && s.threads[t].task in s.r.tasks ==>
      s.r.tasks[s.threads[t].task].Pending? || s.r.tasks[s.threads[t].task].Cancelled?
  }

  lemma StillPendingOf(s: System, t: nat)
    requires AllFacts(s) && t < |s.threads|
    ensures StillPending(s, t)
  {
    var pc := s.threads[t];
    if pc.Placing? {
      var o := SumSplit(s.threads, t, pc, PartOf(pc.task));
      ViewTask(s, t, pc.task, o);
    }
  }

  lemma PlaceOnward(s: System, t: nat, launches: nat, isException: bool, id: nat)
    requires t < |s.threads| && s.threads[t].Placing? && Tables(s.r) && StillPending(s, t)
    ensures Onward(RowOf(s, id), RowOf(PlaceStep(s, t, launches, isException), id))
  {
    var row, k := RowOf(s, id), s.threads[t].task;
    PlacedRow(s.r, k, launches, isException, id, row.ran, row.confirmed, row.known);
    PlaceCases(s.r, k, launches, isException);
  }

  lemma MovedOnward(s: System, t: nat, move: Move, id: nat)
    requires t < |s.threads| && Tables(s.r) && FlagSeen(s, t) && EndsRunning(s, t) && StillPending(s, t)
    ensures Onward(RowOf(s, id), RowOf(Moved(s, t, move), id))
  {
    var pc := s.threads[t];
    match move
    case Advance =>
      if IsSubmitterPc(pc) { SubmitterOnward(s, t, id); }
      else if IsWorkerPc(pc) { WorkerOnward(s, t, id); }
      else if IsFinishPc(pc) { FinishOnward(s, t, id); }
      else { WaiterOnward(s, t, id); }
    case Interrupt(isException) => if pc.AwaitingSlot? { AbortOnward(s, t, isException, id); }
    case Start(launches, isException) => if pc.Placing? { PlaceOnward(s, t, launches, isException, id); }
    case _ => assert Moved(s, t, move).r == s.r;
  }

  lemma CallOnward(s: System, a: Action, id: nat)
    requires Tables(s.r) && !a.On? && (id >= s.submitted ==> id !in s.r.tasks)
    ensures Onward(RowOf(s, id), RowOf(Step(s, a), id))
  {
    var row := RowOf(s, id);
    match a
    case Submit =>
      if !s.r.closed {
        RegisterRow(s.r, s.submitted, id, row.ran, row.confirmed, id < s.submitted + 1);
      }
    case WaitFor(k) => AddWaiterRow(s.r, k, id, row.ran, row.confirmed, row.known);
    case CancelTask(k) => CancelledRow(s, k, id);
    case CancelAllTasks => CancelAllRow(s.r, id, row.ran, row.confirmed, row.known);
    case CleanupOldTasks(aged) => CleanupRow(s.r, aged, id, row.ran, row.confirmed, row.known);
    case CloseRunner(wait) =>
      CancelAllRow(s.r, id, row.ran, row.confirmed, row.known);
      if !s.r.closed { ClosedRow(s, id); }
  }

  lemma StepOnward(s: System, a: Action, id: nat)
    requires AllFacts(s)
    ensures Onward(RowOf(s, id), RowOf(Step(s, a), id))
  {
    assert Facts(RowOf(s, id), Sum(s.threads, PartOf(id)));
    if !a.On? {
      CallOnward(s, a, id);
    } else if a.t < |s.threads| {
      FlagSeenOf(s, a.t);
      RunnerIsRunning(s, a.t);
      StillPendingOf(s, a.t);
      MovedOnward(s, a.t, a.move, id);
    }
  }

  lemma {:induction false} ExecOnward(s: System, actions: seq<Action>, id: nat)
    requires AllFacts(s)
    ensures Onward(RowOf(s, id), RowOf(Exec(s, actions), id))
    decreases |actions|
  {
    if actions != [] {
      var s1 := Step(s, actions[0]);
      StepAllFacts(s, actions[0]);
      StepOnward(s, actions[0], id);
      ExecOnward(s1, actions[1..], id);
      KnownFact(s, id);
      OnwardTwice(RowOf(s, id), RowOf(s1, id), RowOf(Exec(s, actions), id));
    }
  }

  lemma KnownFact(s: System, id: nat)
    requires AllFacts(s)
    ensures var row := RowOf(s, id); row.status.Some? || row.flag ==> row.known
  {
    RunningFact(RowOf(s, id), Sum(s.threads, PartOf(id)));
  }

  // ------------------------------------------------------------------ results

  /** Terminal states are absorbing: whatever happens later, a task that has ended keeps
      its status until cleanup removes it, and a removed task never comes back. */
  lemma EndIsFinal(max: nat, first: seq<Action>, later: seq<Action>, id: nat)
    ensures var s := Exec(Initial(max), first);
            var s' := Exec(s, later);
            && (id in s.r.tasks && Terminal(s.r.tasks[id]) && id in s'.r.tasks ==> s'.r.tasks[id] == s.r.tasks[id])
            && (id < s.submitted && id !in s.r.tasks ==> id !in s'.r.tasks)
  {
    Reached(max, first);
    ExecOnward(Exec(Initial(max), first), later, id);
  }

  lemma ConfirmedFact(s: System, id: nat)
    requires AllFacts(s)
    ensures id in s.confirmed && id in s.r.tasks ==>
              Flagged(s.r, id) && (s.r.tasks[id].Running? || s.r.tasks[id].Cancelled?)
  {
    assert Facts(RowOf(s, id), Sum(s.threads, PartOf(id)));
  }

  /** Once cancel has returned True for a task, in no later state is it a success or a
      failure: it runs with its cancel flag set, has been cancelled, or is gone. */
  lemma CancelIsKept(max: nat, first: seq<Action>, later: seq<Action>, id: nat)
    requires Cancel(Exec(Initial(max), first).r, id).1
    ensures var s' := Exec(Step(Exec(Initial(max), first), CancelTask(id)), later);
            id in s'.r.tasks ==> Flagged(s'.r, id) && (s'.r.tasks[id].Running? || s'.r.tasks[id].Cancelled?)
  {
    var s := Exec(Initial(max), first);
    var s1 := Step(s, CancelTask(id));
    Reached(max, first);
    StepLedger(s, CancelTask(id));
    StepAllFacts(s, CancelTask(id));
    assert RowOf(s1, id).confirmed;
    ExecOnward(s1, later, id);
    ExecLedger(s1, later);
    ConfirmedFact(Exec(s1, later), id);
  }

  /** The final status is true: when a task function comes out, its task is RUNNING, and
      the next step of its worker makes it CANCELLED if its cancel flag is set, and else
      SUCCESS if the function returned and FAILED if it raised. */
  lemma OutcomeIsTrue(max: nat, actions: seq<Action>, t: nat)
    ensures var s := Exec(Initial(max), actions);
            t < |s.threads| && (s.threads[t].Returned? || s.threads[t].RaisedIn?) ==>
              var id := s.threads[t].task;
              && id in s.r.tasks && s.r.tasks[id].Running?
              && Step(s, On(t, Advance)).r.tasks ==
                 s.r.tasks[id := if Flagged(s.r, id) then Cancelled else if s.threads[t].Returned? then Success else Failed]
  {
    var s := Exec(Initial(max), actions);
    Reached(max, actions);
    if t < |s.threads| {
      RunnerIsRunning(s, t);
    }
  }

  /** A submit whose wait for a slot raises leaves its task FAILED (or CANCELLED, when it
      was interrupted) and signalled, unless it was cancelled before; nobody runs it. */
  lemma InterruptedSubmit(max: nat, actions: seq<Action>, t: nat, isException: bool)
    ensures var s := Exec(Initial(max), actions);
            t < |s.threads| && s.threads[t].AwaitingSlot? ==>
              var id := s.threads[t].task;
              var s' := Step(s, On(t, Interrupt(isException)));
              && Count(s'.ran, id) == 0
              && (id in s'.r.tasks ==>
                    && EventSet(s'.r, id)
                    && s'.r.tasks[id] == if s.r.tasks[id].Pending? && isException then Failed else Cancelled)
  {
    var s := Exec(Initial(max), actions);
    Reached(max, actions);
    if t < |s.threads| && s.threads[t].AwaitingSlot? {
      var id := s.threads[t].task;
      PlaceCounts(s.threads, t);
      PlacedTask(s, id);
    }
  }

  lemma PlaceCounts(threads: seq<Pc>, t: nat)
    requires t < |threads| && threads[t].AwaitingSlot?
    ensures Sum(threads, PartOf(threads[t].task)).place > 0
  {
    var o := SumSplit(threads, t, threads[t], PartOf(threads[t].task));
  }

  lemma PlacedTask(s: System, id: nat)
    requires AllFacts(s) && Sum(s.threads, PartOf(id)).place > 0
    ensures Tables(s.r) && Count(s.ran, id) == 0
    ensures id in s.r.tasks ==> s.r.tasks[id].Pending? || (s.r.tasks[id].Cancelled? && EventSet(s.r, id))
  {
    PlacedRowFact(RowOf(s, id), Sum(s.threads, PartOf(id)));
  }

  lemma PlacedRowFact(row: Row, n: Tally)
    requires Facts(row, n) && n.place > 0
    ensures row.status.Some? ==> row.status == Some(Pending) || row.status == Some(Cancelled)
    ensures (row.status == Some(Cancelled) ==> row.event) && row.ran == 0
  {
  }
}
