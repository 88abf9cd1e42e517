/** The counts of the runner: permits, slots, submitters, workers. */
module TaskLedger {
  import opened Counting
  import opened Sequences
  import opened TaskRunner
  import opened TaskRuns
  import opened TaskFacts
  import opened TaskSteps
  import opened TaskInvariant

  /** A submitter between the semaphore and the lock. */
  function Placer(pc: Pc): nat { One(pc.Placing?) }

  function Submitter(pc: Pc): nat {
    One(pc.AwaitingSlot? || pc.Placing? || pc.GivingUp? || pc.LeavingSubmit?)
  }

  /** A thread that owns the slot of a task that is no longer queued. */
  function Owner(pc: Pc): nat {
    One(pc.GivingUp? || pc.Marking? || pc.Skipping? || pc.Executing? || pc.Returned? || pc.RaisedIn? || pc.Releasing?)
  }

  /** A worker without a slot, and one with a slot. */
  function FreeWorker(pc: Pc): nat {
    One(pc.Idle? || pc.FoundEmpty? || pc.Signalling?)
  }

  function BusyWorker(pc: Pc): nat {
    One(pc.Marking? || pc.Skipping? || pc.Executing? || pc.Returned? || pc.RaisedIn? || pc.Releasing?)
  }

  ghost predicate Ledger(s: System) {
    && s.r.permits + |s.r.slotTasks| + Total(s.threads, Placer) == s.r.max
    && s.r.activeCount == |s.r.slotTasks| == |s.r.queue| + Total(s.threads, Owner)
    && s.r.submitterCount == Total(s.threads, Submitter)
    && s.r.workerCount == Total(s.threads, FreeWorker) + Total(s.threads, BusyWorker)
    && (!s.r.closed && !s.startFailed ==> |s.r.queue| <= Total(s.threads, FreeWorker))
  }

  /** The task whose slot thread `t` takes or gives back is accounted for. */
  ghost predicate SlotView(s: System, t: nat)
    requires t < |s.threads|
  {
    var pc := s.threads[t];
    && (pc.Placing? ==> pc.task !in s.r.slotTasks)
    && (pc.GivingUp? || pc.Skipping? || pc.Releasing? ==> pc.task in s.r.slotTasks)
  }

  lemma SlotViewOf(s: System, t: nat)
    requires AllFacts(s) && t < |s.threads|
    ensures SlotView(s, t)
  {
    var pc := s.threads[t];
    if pc.Placing? || pc.GivingUp? || pc.Skipping? || pc.Releasing? {
      var o := SumSplit(s.threads, t, pc, PartOf(pc.task));
      ViewTask(s, t, pc.task, o);
      SlotViewFrom(s, t, o);
    }
  }

  lemma SlotViewFrom(s: System, t: nat, o: Tally)
    requires t < |s.threads|
    requires var pc := s.threads[t];
             (pc.Placing? || pc.GivingUp? || pc.Skipping? || pc.Releasing?) && Holds(s, t, pc.task, o)
    ensures SlotView(s, t)
  {
    var pc := s.threads[t];
    SlotFact(RowOf(s, pc.task), Plus(o, Part(pc, pc.task)));
  }

  lemma SlotFact(row: Row, n: Tally)
    requires Facts(row, n)
    ensures n.hold > 0 ==> row.slot
    ensures n.place > 0 ==> !row.slot
  {
  }

  /** The runner's numbers, tables aside. */
  ghost predicate SameNumbers(r: Runner, r': Runner) {
    && r'.max == r.max && r'.permits == r.permits && r'.slotTasks == r.slotTasks && r'.activeCount == r.activeCount
    && r'.queue == r.queue && r'.workerCount == r.workerCount && (r.closed ==> r'.closed)
  }

  /** A step of thread `t` that changes no thread but `t`. */
  ghost predicate Balances(s: System, s': System, t: nat)
    requires t < |s.threads| == |s'.threads|
  {
    var pc, pc' := s.threads[t], s'.threads[t];
    && s'.r.max == s.r.max && s'.r.closed == s.r.closed && s'.startFailed == s.startFailed
    && s'.r.permits + |s'.r.slotTasks| + Placer(pc') == s.r.permits + |s.r.slotTasks| + Placer(pc)
    && s'.r.activeCount - |s'.r.slotTasks| == s.r.activeCount - |s.r.slotTasks|
    && |s'.r.slotTasks| - |s'.r.queue| - Owner(pc') == |s.r.slotTasks| - |s.r.queue| - Owner(pc)
    && s'.r.submitterCount - Submitter(pc') == s.r.submitterCount - Submitter(pc)
    && s'.r.workerCount - FreeWorker(pc') - BusyWorker(pc') == s.r.workerCount - FreeWorker(pc) - BusyWorker(pc)
    && (!s.r.closed && s'.r.queue != [] ==>
          |s'.r.queue| - FreeWorker(pc') <= |s.r.queue| - FreeWorker(pc))
  }

  lemma BalancesLedger(s: System, s': System, t: nat)
    requires Ledger(s) && t < |s.threads| == |s'.threads|
    requires s'.threads == s.threads[t := s'.threads[t]] && Balances(s, s', t)
    ensures Ledger(s')
  {
    TotalUpdate(s.threads, t, s'.threads[t], Placer);
    TotalUpdate(s.threads, t, s'.threads[t], Submitter);
    TotalUpdate(s.threads, t, s'.threads[t], Owner);
    TotalUpdate(s.threads, t, s'.threads[t], FreeWorker);
    TotalUpdate(s.threads, t, s'.threads[t], BusyWorker);
  }

  lemma SubmitterBalances(s: System, t: nat)
    requires t < |s.threads| && SlotView(s, t) && IsSubmitterPc(s.threads[t])
    ensures Balances(s, SubmitterStep(s, t), t)
  {
  }

  lemma ReleaseNumbers(r: Runner, k: nat)
    requires k in r.slotTasks
    ensures var r' := ReleaseSlot(r, k);
            && r' == r.(slotTasks := r'.slotTasks, activeCount := r.activeCount - 1, permits := r.permits + 1)
            && |r'.slotTasks| == |r.slotTasks| - 1
  {
  }

  lemma MarkNumbers(r: Runner, k: nat)
    ensures SameNumbers(r, TryMark(r, k).0) && TryMark(r, k).0.submitterCount == r.submitterCount
    ensures TryMark(r, k).0.closed == r.closed
  {
  }

  lemma WorkerBalances(s: System, t: nat)
    requires t < |s.threads| && SlotView(s, t) && IsWorkerPc(s.threads[t])
    ensures Balances(s, WorkerStep(s, t), t)
  {
    if s.threads[t].Skipping? {
      ReleaseNumbers(s.r, s.threads[t].task);
    } else if s.threads[t].Marking? {
      MarkNumbers(s.r, s.threads[t].task);
    }
  }

  lemma FinishBalances(s: System, t: nat)
    requires t < |s.threads| && SlotView(s, t) && IsFinishPc(s.threads[t])
    ensures Balances(s, FinishStep(s, t), t)
  {
    if s.threads[t].Releasing? {
      ReleaseNumbers(s.r, s.threads[t].task);
    } else {
      EndNumbers(s.r, s.threads[t].task);
    }
  }

  lemma EndNumbers(r: Runner, k: nat)
    ensures SameNumbers(r, Complete(r, k)) && Complete(r, k).submitterCount == r.submitterCount
    ensures SameNumbers(r, HandleException(r, k)) && HandleException(r, k).submitterCount == r.submitterCount
    ensures SameNumbers(r, WithEvent(r, k)) && WithEvent(r, k).submitterCount == r.submitterCount
    ensures Complete(r, k).closed == HandleException(r, k).closed == WithEvent(r, k).closed == r.closed
  {
  }

  lemma WaiterBalances(s: System, t: nat)
    requires t < |s.threads| && !IsSubmitterPc(s.threads[t]) && !IsWorkerPc(s.threads[t]) && !IsFinishPc(s.threads[t])
    ensures Balances(s, WaiterStep(s, t), t)
  {
  }

  lemma OtherBalances(s: System, t: nat, move: Move)
    requires t < |s.threads| && !move.Advance? && !(move.Start? && s.threads[t].Placing?)
    ensures |Moved(s, t, move).threads| == |s.threads|
    ensures Balances(s, Moved(s, t, move), t)
  {
    if move.Interrupt? && s.threads[t].AwaitingSlot? {
      AbortNumbers(s.r, s.threads[t].task, move.isException);
    }
  }

  lemma AbortNumbers(r: Runner, k: nat, isException: bool)
    ensures var r' := AbortSubmit(r, k, isException);
            SameNumbers(r, r') && r'.closed == r.closed && r'.submitterCount == r.submitterCount - 1
  {
  }

  lemma AdvanceBalances(s: System, t: nat)
    requires t < |s.threads| && SlotView(s, t)
    ensures |Moved(s, t, Advance).threads| == |s.threads|
    ensures Balances(s, Moved(s, t, Advance), t)
  {
    if IsSubmitterPc(s.threads[t]) { SubmitterBalances(s, t); }
    else if IsWorkerPc(s.threads[t]) { WorkerBalances(s, t); }
    else if IsFinishPc(s.threads[t]) { FinishBalances(s, t); }
    else { WaiterBalances(s, t); }
  }

  lemma MovedLedger(s: System, t: nat, move: Move)
    requires Ledger(s) && t < |s.threads| && SlotView(s, t)
    ensures Ledger(Moved(s, t, move)) && Moved(s, t, move).r.max == s.r.max
  {
    if move.Start? && s.threads[t].Placing? {
      PlaceLedger(s, t, move.launches, move.isException);
    } else {
      if move.Advance? { AdvanceBalances(s, t); } else { OtherBalances(s, t, move); }
      MovedShape(s, t, move);
      var s' := Moved(s, t, move);
      var n: nat :| s'.threads == s.threads[t := s'.threads[t]] + IdleWorkers(n);
      assert s'.threads == s.threads[t := s'.threads[t]];
      BalancesLedger(s, s', t);
    }
  }

  // ------------------------------------------------------ placing a task

  lemma {:induction false} TotalIdle(threads: seq<Pc>, n: nat, w: Pc -> nat)
    requires w(Idle) <= 1
    ensures Total(threads + IdleWorkers(n), w) == Total(threads, w) + (if w(Idle) == 1 then n else 0)
  {
    if n == 0 {
      assert threads + IdleWorkers(0) == threads;
    } else {
      TotalIdle(threads, n - 1, w);
      assert threads + IdleWorkers(n) == threads + IdleWorkers(n - 1) + [Idle];
      TotalAppend(threads + IdleWorkers(n - 1), Idle, w);
    }
  }

  lemma PlaceTotals(s: System, t: nat, pc: Pc, n: nat, w: Pc -> nat)
    requires t < |s.threads| && w(Idle) <= 1
    ensures Total(s.threads[t := pc] + IdleWorkers(n), w)
         == Total(s.threads, w) - w(s.threads[t]) + w(pc) + (if w(Idle) == 1 then n else 0)
  {
    TotalUpdate(s.threads, t, pc, w);
    TotalIdle(s.threads[t := pc], n, w);
  }

  /** With a slot in hand the bounded queue has room, so put_nowait never raises Full. */
  lemma QueueHasRoom(s: System, t: nat)
    requires Ledger(s) && t < |s.threads| && s.threads[t].Placing?
    ensures |s.r.slotTasks| < s.r.max && |s.r.queue| < s.r.max
  {
    TotalAtLeast(s.threads, t, Placer);
  }

  /** The runner's numbers after the block of submit that places a task. */
  lemma PlaceNumbers(r: Runner, k: nat, launches: nat, isException: bool)
    requires k !in r.slotTasks && |r.queue| < r.max && r.activeCount < r.max
    ensures var (r', placement) := Place(r, k, launches, isException);
            && r'.max == r.max && r'.closed == r.closed && r'.permits == r.permits
            && |r'.slotTasks| == |r.slotTasks| + 1 && r'.activeCount == r.activeCount + 1
            && r'.submitterCount == r.submitterCount && r'.workerCount >= r.workerCount
            && |r'.queue| == |r.queue| + One(placement.Scheduled?)
            && (placement.StartFailed? ==> r'.workerCount < r'.activeCount)
            && (placement.GivenUp? ==> r'.workerCount == r.workerCount)
  {
  }

  /** The totals once the submitter has moved on and `n` workers have been started. */
  lemma PlacedTotals(s: System, t: nat, queued: bool, n: nat) returns (threads: seq<Pc>)
    requires t < |s.threads| && s.threads[t].Placing?
    ensures threads == s.threads[t := if queued then LeavingSubmit else GivingUp(s.threads[t].task)] + IdleWorkers(n)
    ensures Total(threads, Placer) == Total(s.threads, Placer) - 1
    ensures Total(threads, Submitter) == Total(s.threads, Submitter)
    ensures Total(threads, Owner) == Total(s.threads, Owner) + One(!queued)
    ensures Total(threads, FreeWorker) == Total(s.threads, FreeWorker) + n
    ensures Total(threads, BusyWorker) == Total(s.threads, BusyWorker) <= Total(threads, Owner)
  {
    var pc := if queued then LeavingSubmit else GivingUp(s.threads[t].task);
    threads := s.threads[t := pc] + IdleWorkers(n);
    PlaceTotals(s, t, pc, n, Placer);
    PlaceTotals(s, t, pc, n, Submitter);
    PlaceTotals(s, t, pc, n, Owner);
    PlaceTotals(s, t, pc, n, FreeWorker);
    PlaceTotals(s, t, pc, n, BusyWorker);
    TotalMonotone(threads, BusyWorker, Owner);
  }

  lemma PlaceLedger(s: System, t: nat, launches: nat, isException: bool)
    requires Ledger(s) && t < |s.threads| && SlotView(s, t) && s.threads[t].Placing?
    ensures Ledger(PlaceStep(s, t, launches, isException)) && PlaceStep(s, t, launches, isException).r.max == s.r.max
  {
    QueueHasRoom(s, t);
    PlaceNumbers(s.r, s.threads[t].task, launches, isException);
    var (r, placement) := Place(s.r, s.threads[t].task, launches, isException);
    var threads := PlacedTotals(s, t, placement.Scheduled?, NewWorkers(s.r, r));
    assert PlaceStep(s, t, launches, isException).threads == threads;
  }

  lemma TablesLedger(s: System, s': System)
    requires Ledger(s) && SameNumbers(s.r, s'.r) && s'.r.submitterCount == s.r.submitterCount
    requires s'.threads == s.threads && s'.startFailed == s.startFailed
    ensures Ledger(s')
  {
  }

  /** A call starts at most one thread, which plays no part yet. */
  lemma NewThreadLedger(s: System, s': System, pc: Pc)
    requires Ledger(s) && SameNumbers(s.r, s'.r) && s'.r.submitterCount == s.r.submitterCount + Submitter(pc)
    requires s'.threads == s.threads + [pc] && s'.startFailed == s.startFailed
    requires Placer(pc) == Owner(pc) == FreeWorker(pc) == BusyWorker(pc) == 0
    ensures Ledger(s')
  {
    TotalAppend(s.threads, pc, Placer);
    TotalAppend(s.threads, pc, Submitter);
    TotalAppend(s.threads, pc, Owner);
    TotalAppend(s.threads, pc, FreeWorker);
    TotalAppend(s.threads, pc, BusyWorker);
  }

  lemma CancelNumbers(r: Runner, id: nat)
    ensures SameNumbers(r, Cancel(r, id).0) && Cancel(r, id).0.submitterCount == r.submitterCount
  {
  }

  lemma CallLedger(s: System, a: Action)
    requires Ledger(s) && !a.On?
    ensures Ledger(Step(s, a)) && Step(s, a).r.max == s.r.max
  {
    var s' := Step(s, a);
    match a
    case Submit => NewThreadLedger(s, s', if s.r.closed then Submitted else AwaitingSlot(s.submitted));
    case WaitFor(k) => NewThreadLedger(s, s', if AddWaiter(s.r, k).1 then Waiting(k) else Waited(NotFound));
    case CancelTask(k) => CancelNumbers(s.r, k); TablesLedger(s, s');
    case CancelAllTasks => TablesLedger(s, s');
    case CleanupOldTasks(aged) => TablesLedger(s, s');
    case CloseRunner(wait) => NewThreadLedger(s, s', if wait then ClosingWait else CloseReturned);
  }

  lemma StepLedger(s: System, a: Action)
    requires AllFacts(s) && Ledger(s)
    ensures Ledger(Step(s, a)) && Step(s, a).r.max == s.r.max
  {
    if !a.On? {
      CallLedger(s, a);
    } else if a.t < |s.threads| {
      SlotViewOf(s, a.t);
      MovedLedger(s, a.t, a.move);
    }
  }

  lemma {:induction false} ExecLedger(s: System, actions: seq<Action>)
    requires AllFacts(s) && Ledger(s)
    ensures AllFacts(Exec(s, actions)) && Ledger(Exec(s, actions)) && Exec(s, actions).r.max == s.r.max
    decreases |actions|
  {
    if actions != [] {
      StepAllFacts(s, actions[0]);
      StepLedger(s, actions[0]);
      ExecLedger(Step(s, actions[0]), actions[1..]);
    }
  }

  lemma Reached(max: nat, actions: seq<Action>)
    ensures var s := Exec(Initial(max), actions); AllFacts(s) && Ledger(s) && s.r.max == max
  {
    ExecLedger(Initial(max), actions);
  }
}
