/** close(wait=True). Closing can hang: a worker whose queue poll has just timed out
    retires once the runner is closed even when an item has been queued meanwhile, and
    nothing starts another worker. Whether this happens is decided when the runner is
    closed; if it does not, the runner can always drain. */
module TaskClose {
  import opened Counting
  import opened Sequences
  import opened TaskRunner
  import opened TaskRuns
  import opened TaskFacts
  import opened TaskInvariant
  import opened TaskLedger

  /** A worker that will still look at the queue. */
  function Live(pc: Pc): nat {
    One(pc.Idle? || pc.Signalling? || pc.Marking? || pc.Skipping? || pc.Executing? || pc.Returned? || pc.RaisedIn?
        || pc.Releasing?)
  }

  /** An item is queued and no worker will look at the queue any more. */
  predicate Doomed(s: System) {
    s.r.queue != [] && Total(s.threads, Live) == 0
  }

  // ---------------------------------------------------- decided at the close

  /** In a closed runner the queue only shrinks, a live worker stops looking only at an
      empty queue, and no thread becomes a live worker. */
  ghost predicate Settled(s: System, s': System, t: nat)
    requires t < |s.threads|
  {
    && s'.r.closed && s'.r.max == s.r.max && |s'.threads| == |s.threads| && s'.threads == s.threads[t := s'.threads[t]]
    && Live(s'.threads[t]) <= Live(s.threads[t])
    && (Live(s'.threads[t]) < Live(s.threads[t]) ==> s.r.queue == [])
    && (s'.r.queue == s.r.queue || (s.r.queue != [] && s'.r.queue == s.r.queue[1..] && Live(s'.threads[t]) == 1))
  }

  lemma SettledDoom(s: System, s': System, t: nat)
    requires t < |s.threads| && Settled(s, s', t)
    ensures Doomed(s') <==> Doomed(s)
  {
    TotalUpdate(s.threads, t, s'.threads[t], Live);
    TotalAtLeast(s'.threads, t, Live);
  }

  lemma SubmitterSettled(s: System, t: nat)
    requires s.r.closed && t < |s.threads| && IsSubmitterPc(s.threads[t])
    ensures Settled(s, SubmitterStep(s, t), t)
  {
  }

  lemma WorkerSettled(s: System, t: nat)
    requires s.r.closed && t < |s.threads| && IsWorkerPc(s.threads[t])
    ensures Settled(s, WorkerStep(s, t), t)
  {
    if s.threads[t].Marking? {
      MarkNumbers(s.r, s.threads[t].task);
    }
  }

  lemma FinishSettled(s: System, t: nat)
    requires s.r.closed && t < |s.threads| && IsFinishPc(s.threads[t])
    ensures Settled(s, FinishStep(s, t), t)
  {
  }

  lemma WaiterSettled(s: System, t: nat)
    requires s.r.closed && t < |s.threads|
    requires !IsSubmitterPc(s.threads[t]) && !IsWorkerPc(s.threads[t]) && !IsFinishPc(s.threads[t])
    ensures Settled(s, WaiterStep(s, t), t)
  {
  }

  lemma PlaceSettled(s: System, t: nat, launches: nat, isException: bool)
    requires s.r.closed && t < |s.threads|
    ensures Settled(s, PlaceStep(s, t, launches, isException), t)
  {
    assert IdleWorkers(0) == [];
  }

  lemma OtherSettled(s: System, t: nat, move: Move)
    requires s.r.closed && t < |s.threads| && !move.Advance? && !move.Start?
    ensures Settled(s, Moved(s, t, move), t)
  {
    assert s.threads[t := s.threads[t]] == s.threads;
  }

  lemma AdvanceSettled(s: System, t: nat)
    requires s.r.closed && t < |s.threads|
    ensures Settled(s, Moved(s, t, Advance), t)
  {
    if IsSubmitterPc(s.threads[t]) { SubmitterSettled(s, t); }
    else if IsWorkerPc(s.threads[t]) { WorkerSettled(s, t); }
    else if IsFinishPc(s.threads[t]) { FinishSettled(s, t); }
    else { WaiterSettled(s, t); }
  }

  lemma MovedSettled(s: System, t: nat, move: Move)
    requires s.r.closed && t < |s.threads|
    ensures Settled(s, Moved(s, t, move), t)
  {
    if move.Advance? { AdvanceSettled(s, t); }
    else if move.Start? { PlaceSettled(s, t, move.launches, move.isException); }
    else { OtherSettled(s, t, move); }
  }

  lemma NewThreadDoom(s: System, s': System, pc: Pc)
    requires s'.r.queue == s.r.queue && s'.threads == s.threads + [pc] && Live(pc) == 0
    ensures Doomed(s') <==> Doomed(s)
  {
    TotalAppend(s.threads, pc, Live);
  }

  lemma CallDoom(s: System, a: Action)
    requires s.r.closed && !a.On?
    ensures Step(s, a).r.closed && (Doomed(Step(s, a)) <==> Doomed(s))
  {
    var s' := Step(s, a);
    match a
    case Submit => NewThreadDoom(s, s', Submitted);
    case WaitFor(k) => NewThreadDoom(s, s', if AddWaiter(s.r, k).1 then Waiting(k) else Waited(NotFound));
    case CancelTask(k) => CancelNumbers(s.r, k); assert Cancel(s.r, k).0.closed;
    case CancelAllTasks =>
    case CleanupOldTasks(aged) =>
    case CloseRunner(wait) => NewThreadDoom(s, s', if wait then ClosingWait else CloseReturned);
  }

  lemma StepDoom(s: System, a: Action)
    requires s.r.closed
    ensures Step(s, a).r.closed && (Doomed(Step(s, a)) <==> Doomed(s))
  {
    if !a.On? {
      CallDoom(s, a);
    } else if a.t < |s.threads| {
      MovedSettled(s, a.t, a.move);
      SettledDoom(s, Moved(s, a.t, a.move), a.t);
    }
  }

  lemma {:induction false} ExecDoom(s: System, actions: seq<Action>)
    requires s.r.closed
    ensures Exec(s, actions).r.closed && (Doomed(Exec(s, actions)) <==> Doomed(s))
    decreases |actions|
  {
    if actions != [] {
      StepDoom(s, actions[0]);
      ExecDoom(Step(s, actions[0]), actions[1..]);
    }
  }

  // ------------------------------------------------------- going on and on

  /** Bounds the moves a thread still makes in a closed runner. */
  function Cost(pc: Pc): nat {
    match pc
    case Marking(_) => 7
    case Executing(_) => 6
    case Returned(_) => 5
    case RaisedIn(_) => 5
    case Releasing(_) => 4
    case Signalling(_) => 3
    case Skipping(_) => 3
    case Idle => 2
    case FoundEmpty => 1
    case AwaitingSlot(_) => 4
    case Placing(_) => 3
    case GivingUp(_) => 2
    case LeavingSubmit => 1
    case Waiting(_) => 3
    case Woken(_) => 2
    case LeavingWait(_, _) => 1
    case ClosingWait => 2
    case Joining => 1
    case _ => 0
  }

  function Work(s: System): nat {
    Total(s.threads, Cost) + 6 * |s.r.queue|
  }

  /** The work left after a move of thread `t` is less than before it. */
  ghost predicate Lighter(s: System, s': System, t: nat)
    requires t < |s.threads|
  {
    |s'.threads| == |s.threads| && Cost(s'.threads[t]) + 6 * |s'.r.queue| < Cost(s.threads[t]) + 6 * |s.r.queue|
  }

  lemma WorkerLighter(s: System, t: nat)
    requires s.r.closed && t < |s.threads| && IsWorkerPc(s.threads[t]) && WorkerStep(s, t) != s
    ensures Lighter(s, WorkerStep(s, t), t)
  {
    if s.threads[t].Marking? {
      MarkNumbers(s.r, s.threads[t].task);
    }
  }

  lemma SubmitterLighter(s: System, t: nat)
    requires t < |s.threads|
    ensures SubmitterStep(s, t) != s ==> Lighter(s, SubmitterStep(s, t), t)
    ensures FinishStep(s, t) != s ==> Lighter(s, FinishStep(s, t), t)
  {
  }

  lemma WaiterLighter(s: System, t: nat)
    requires t < |s.threads|
    ensures WaiterStep(s, t) != s ==> Lighter(s, WaiterStep(s, t), t)
  {
  }

  lemma AdvanceLighter(s: System, t: nat)
    requires s.r.closed && t < |s.threads| && Moved(s, t, Advance) != s
    ensures Lighter(s, Moved(s, t, Advance), t)
  {
    if IsWorkerPc(s.threads[t]) {
      WorkerLighter(s, t);
    } else {
      SubmitterLighter(s, t);
      WaiterLighter(s, t);
    }
  }

  lemma MoveLighter(s: System, t: nat, move: Move)
    requires s.r.closed && t < |s.threads| && Moved(s, t, move) != s
    ensures Lighter(s, Moved(s, t, move), t)
  {
    if move.Advance? { AdvanceLighter(s, t); }
    else if move.Start? { assert IdleWorkers(0) == []; }
  }

  /** Work that a new call brings. */
  function NewWork(a: Action): nat {
    match a
    case WaitFor(_) => 3
    case CloseRunner(wait) => if wait then 2 else 0
    case _ => 0
  }

  lemma NewThreadWork(s: System, s': System, pc: Pc)
    requires s'.r.queue == s.r.queue && s'.threads == s.threads + [pc]
    ensures Work(s') == Work(s) + Cost(pc)
  {
    TotalAppend(s.threads, pc, Cost);
  }

  lemma CallWork(s: System, a: Action)
    requires s.r.closed && !a.On?
    ensures Work(Step(s, a)) <= Work(s) + NewWork(a)
  {
    var s' := Step(s, a);
    match a
    case CancelTask(k) => CancelNumbers(s.r, k);
    case Submit => NewThreadWork(s, s', Submitted);
    case WaitFor(k) => NewThreadWork(s, s', if AddWaiter(s.r, k).1 then Waiting(k) else Waited(NotFound));
    case CloseRunner(wait) => NewThreadWork(s, s', if wait then ClosingWait else CloseReturned);
    case _ =>
  }

  /** In a closed runner every move of a thread, whichever it is, uses up work, and nothing
      brings new work but new calls of wait_for and close: no run goes on forever. */
  lemma WorkRunsOut(s: System, a: Action)
    requires s.r.closed
    ensures Work(Step(s, a)) <= Work(s) + NewWork(a)
    ensures a.On? && Step(s, a) != s ==> Work(Step(s, a)) < Work(s)
  {
    if !a.On? {
      CallWork(s, a);
    } else if a.t < |s.threads| && Moved(s, a.t, a.move) != s {
      var s' := Moved(s, a.t, a.move);
      MovedSettled(s, a.t, a.move);
      MoveLighter(s, a.t, a.move);
      TotalUpdate(s.threads, a.t, s'.threads[a.t], Cost);
    }
  }

  predicate Quiet(s: System) {
    s.r.activeCount == 0 && s.r.submitterCount == 0
  }

  /** close(wait=True) has been called and has not returned. */
  predicate Closing(s: System, t: nat) {
    t < |s.threads| && (s.threads[t].ClosingWait? || s.threads[t].Joining?)
  }

  predicate Returns(s: System, t: nat) {
    t < |s.threads| && s.threads[t].CloseReturned?
  }

  /** A thread that can move whatever the others do. */
  predicate Free(pc: Pc) {
    IsWorking(pc) || pc.Placing? || pc.GivingUp? || pc.LeavingSubmit?
  }

  function Nudge(s: System, pc: Pc): Move {
    if pc.Executing? then FunctionReturns
    else if pc.Placing? then Start(0, true)
    else if pc.Idle? && s.r.queue == [] then GetTimesOut
    else Advance
  }

  lemma NudgeMoves(s: System, t: nat)
    requires s.r.closed && t < |s.threads|
    requires Free(s.threads[t]) || (s.threads[t].AwaitingSlot? && s.r.permits > 0)
             || (s.threads[t].ClosingWait? && Quiet(s)) || (s.threads[t].Joining? && AllRetired(s.threads))
    ensures Moved(s, t, Nudge(s, s.threads[t])) != s
  {
    assert Moved(s, t, Nudge(s, s.threads[t])).threads[t] != s.threads[t];
  }

  lemma NoneFree(s: System)
    requires Ledger(s) && !Doomed(s) && s.r.max > 0
    requires forall t :: 0 <= t < |s.threads| ==> !Free(s.threads[t])
    ensures s.r.queue == [] && s.r.activeCount == 0 && s.r.permits > 0
    ensures (forall t :: 0 <= t < |s.threads| ==> !s.threads[t].AwaitingSlot?) ==> Quiet(s)
  {
    TotalPositive(s.threads, Live);
    TotalPositive(s.threads, Owner);
    TotalPositive(s.threads, Placer);
    TotalPositive(s.threads, Submitter);
  }

  /** No deadlock: while a call of close waits in a runner that is not doomed, some thread
      can move. */
  lemma SomeoneReady(s: System, c: nat) returns (t: nat, move: Move)
    requires s.r.closed && Ledger(s) && s.r.max > 0 && !Doomed(s) && Closing(s, c)
    ensures t < |s.threads| && Moved(s, t, move) != s
  {
    if u: nat :| u < |s.threads| && Free(s.threads[u]) {
      t := u;
    } else {
      NoneFree(s);
      if u: nat :| u < |s.threads| && s.threads[u].AwaitingSlot? {
        t := u;
      } else {
        t := c;
      }
    }
    NudgeMoves(s, t);
    move := Nudge(s, s.threads[t]);
  }

  lemma {:induction false} GoesOn(s: System, c: nat) returns (actions: seq<Action>)
    requires s.r.closed && AllFacts(s) && Ledger(s) && s.r.max > 0 && !Doomed(s) && (Closing(s, c) || Returns(s, c))
    ensures Returns(Exec(s, actions), c)
    decreases Work(s)
  {
    if Returns(s, c) {
      actions := [];
    } else {
      var t, move := SomeoneReady(s, c);
      var a := On(t, move);
      WorkRunsOut(s, a);
      StepLedger(s, a);
      StepAllFacts(s, a);
      StepDoom(s, a);
      ClosingStep(s, c, a);
      var rest := GoesOn(Step(s, a), c);
      actions := [a] + rest;
      assert actions[1..] == rest;
    }
  }

  // ---------------------------------------------------- when close returns

  /** A closing thread waits until the runner is quiet and its workers have retired. */
  lemma ClosingStep(s: System, t: nat, a: Action)
    requires Closing(s, t) || Returns(s, t)
    ensures Closing(Step(s, a), t) || Returns(Step(s, a), t)
    ensures Closing(s, t) && s.threads[t].ClosingWait? && s.r.activeCount > 0 ==> Step(s, a).threads[t].ClosingWait?
  {
    if a.On? && a.t < |s.threads| {
      MovedShape(s, a.t, a.move);
    }
  }

  lemma DoomedActive(s: System)
    requires Ledger(s) && Doomed(s)
    ensures s.r.activeCount > 0
  {
  }

  lemma {:induction false} DoomedExec(s: System, t: nat, actions: seq<Action>)
    requires s.r.closed && AllFacts(s) && Ledger(s) && Doomed(s) && Closing(s, t) && s.threads[t].ClosingWait?
    ensures Closing(Exec(s, actions), t) && Exec(s, actions).threads[t].ClosingWait?
    decreases |actions|
  {
    if actions != [] {
      var a := actions[0];
      StepLedger(s, a);
      StepAllFacts(s, a);
      StepDoom(s, a);
      DoomedActive(s);
      ClosingStep(s, t, a);
      DoomedExec(Step(s, a), t, actions[1..]);
    }
  }

  /** Once close has seen a quiet runner it stays quiet. */
  lemma QuietStays(s: System, a: Action)
    requires s.r.closed && Quiet(s) && Ledger(s)
    ensures Quiet(Step(s, a))
  {
    if a.On? && a.t < |s.threads| {
      TotalAtLeast(s.threads, a.t, Submitter);
      TotalAtLeast(s.threads, a.t, Owner);
      QuietMove(s, a.t, a.move);
    } else if a.CancelTask? {
      CancelNumbers(s.r, a.task);
    }
  }

  lemma QuietMove(s: System, t: nat, move: Move)
    requires Quiet(s) && t < |s.threads| && Submitter(s.threads[t]) == 0 && Owner(s.threads[t]) == 0
    ensures Quiet(Moved(s, t, move))
  {
  }

  /** Whoever waits in close has closed the runner; whoever joins has seen it quiet. */
  ghost predicate ClosersClosed(s: System) {
    && (forall t: nat :: Closing(s, t) ==> s.r.closed)
    && (forall t: nat :: Closing(s, t) && s.threads[t].Joining? ==> Quiet(s))
  }

  lemma OpenClosers(s: System, a: Action)
    requires ClosersClosed(s) && !s.r.closed
    ensures ClosersClosed(Step(s, a))
  {
    var s' := Step(s, a);
    assert forall t: nat :: !Closing(s, t);
    if a.On? && a.t < |s.threads| {
      MovedShape(s, a.t, a.move);
      NotClosing(s, a.t, a.move);
      forall t: nat ensures !Closing(s', t) {
        assert !Closing(s, t);
        assert t < |s.threads| && t != a.t ==> s'.threads[t] == s.threads[t];
      }
    } else {
      forall t: nat | Closing(s', t) ensures s'.r.closed && !s'.threads[t].Joining? {
        assert t < |s.threads| ==> !Closing(s, t);
      }
    }
  }

  lemma NotClosing(s: System, t: nat, move: Move)
    requires t < |s.threads| && !Closing(s, t)
    ensures !Closing(Moved(s, t, move), t)
  {
  }

  /** A thread that comes to join has seen the runner quiet. */
  lemma JoinsQuiet(s: System, t: nat, move: Move)
    requires t < |s.threads| && Moved(s, t, move).threads[t].Joining? && !s.threads[t].Joining?
    ensures Quiet(s)
  {
  }

  lemma StillQuiet(s: System, a: Action, t: nat)
    requires ClosersClosed(s) && s.r.closed && Ledger(s)
    requires Closing(Step(s, a), t) && Step(s, a).threads[t].Joining?
    ensures Quiet(Step(s, a))
  {
    if a.On? && a.t < |s.threads| {
      MovedSettled(s, a.t, a.move);
      if t == a.t && !s.threads[t].Joining? { JoinsQuiet(s, t, a.move); } else { assert Closing(s, t); }
    } else {
      assert t < |s.threads|;
      assert Closing(s, t);
    }
    QuietStays(s, a);
  }

  lemma ClosersStep(s: System, a: Action)
    requires ClosersClosed(s) && Ledger(s)
    ensures ClosersClosed(Step(s, a))
  {
    if !s.r.closed {
      OpenClosers(s, a);
    } else {
      StepDoom(s, a);
      forall t: nat | Closing(Step(s, a), t) && Step(s, a).threads[t].Joining? ensures Quiet(Step(s, a)) {
        StillQuiet(s, a, t);
      }
    }
  }

  lemma {:induction false} ClosersExec(s: System, actions: seq<Action>)
    requires ClosersClosed(s) && AllFacts(s) && Ledger(s)
    ensures ClosersClosed(Exec(s, actions))
    decreases |actions|
  {
    if actions != [] {
      ClosersStep(s, actions[0]);
      StepLedger(s, actions[0]);
      StepAllFacts(s, actions[0]);
      ClosersExec(Step(s, actions[0]), actions[1..]);
    }
  }

  ghost predicate CanReturn(s: System, t: nat) {
    exists later :: Returns(Exec(s, later), t)
  }

  /** A call of close(wait=True) that has not returned can still return, its joins
      included, if and only if the runner is not doomed at that moment: no item is queued,
      or some worker will look at the queue again. */
  lemma CloseReturns(max: nat, first: seq<Action>, t: nat)
    requires max > 0 && Closing(Exec(Initial(max), first), t)
    ensures var s := Exec(Initial(max), first);
            CanReturn(s, t) <==> !Doomed(s)
  {
    var s := Exec(Initial(max), first);
    Reached(max, first);
    Reached(max, []);
    ClosersExec(Initial(max), first);
    if Doomed(s) {
      DoomedActive(s);
      forall later ensures !Returns(Exec(s, later), t) {
        DoomedExec(s, t, later);
      }
    } else {
      var later := GoesOn(s, t);
      assert Returns(Exec(s, later), t);
    }
  }

  /** Nothing that happens after the close changes whether it can return. */
  lemma DoomIsDecided(max: nat, first: seq<Action>, later: seq<Action>)
    requires Exec(Initial(max), first).r.closed
    ensures var s := Exec(Initial(max), first);
            Doomed(Exec(s, later)) <==> Doomed(s)
  {
    ExecDoom(Exec(Initial(max), first), later);
  }

  // ------------------------------------------------------- a run that hangs

  /** One task submitted, its worker started and waiting for the queue. */
  function AfterStart(max: nat): System
    requires max > 0
  {
    System(Runner(max, map[0 := Pending], map[0 := false], map[0 := false], map[], {0}, 1, 1, max - 1, [0], 1, false),
           [LeavingSubmit, Idle], 1, [], {}, false)
  }

  /** The task has succeeded and the worker's next poll of the queue has timed out. */
  function AfterPoll(max: nat): System
    requires max > 0
  {
    System(Runner(max, map[0 := Success], map[0 := true], map[0 := false], map[], {}, 0, 0, max, [], 1, false),
           [Submitted, FoundEmpty], 1, [0], {}, false)
  }

  /** A second task was queued before the worker looked again, and then the runner closed. */
  function AfterClose(max: nat): System
    requires max > 0
  {
    System(Runner(max, map[0 := Success, 1 := Cancelled], map[0 := true, 1 := true], map[0 := false, 1 := true], map[],
                  {1}, 1, 1, max - 1, [1], 1, true),
           [Submitted, FoundEmpty, LeavingSubmit, ClosingWait], 2, [0], {}, false)
  }

  lemma Then(s: System, a: Action, rest: seq<Action>)
    ensures Exec(s, [a] + rest) == Exec(Step(s, a), rest)
  {
    assert ([a] + rest)[1..] == rest;
  }

  /** One task is about to be placed. */
  function AfterSlot(max: nat): System
    requires max > 0
  {
    System(Runner(max, map[0 := Pending], map[0 := false], map[0 := false], map[], {}, 0, 1, max - 1, [], 0, false),
           [Placing(0)], 1, [], {}, false)
  }

  lemma ToSlot(max: nat, rest: seq<Action>)
    requires max > 0
    ensures Exec(Initial(max), [Submit] + ([On(0, Advance)] + rest)) == Exec(AfterSlot(max), rest)
  {
    var s1 := Step(Initial(max), Submit);
    assert s1.threads == [AwaitingSlot(0)];
    var s2 := Step(s1, On(0, Advance));
    assert s2.threads == [Placing(0)] && s2 == AfterSlot(max);
    Then(s1, On(0, Advance), rest);
    Then(Initial(max), Submit, [On(0, Advance)] + rest);
  }

  lemma ToStart(max: nat, rest: seq<Action>)
    requires max > 0
    ensures Exec(AfterSlot(max), [On(0, Start(1, true))] + rest) == Exec(AfterStart(max), rest)
  {
    var s := Step(AfterSlot(max), On(0, Start(1, true)));
    assert s.threads == [LeavingSubmit, Idle];
    assert s.r == AfterStart(max).r;
    Then(AfterSlot(max), On(0, Start(1, true)), rest);
  }

  /** The task ran in the worker. */
  function AfterRun(max: nat): System
    requires max > 0
  {
    System(Runner(max, map[0 := Success], map[0 := false], map[0 := false], map[], {0}, 1, 0, max - 1, [], 1, false),
           [Submitted, Releasing(0)], 1, [0], {}, false)
  }

  lemma ThenTwo(s: System, a: Action, b: Action, rest: seq<Action>)
    ensures Exec(s, [a] + ([b] + rest)) == Exec(Step(Step(s, a), b), rest)
  {
    Then(s, a, [b] + rest);
    Then(Step(s, a), b, rest);
  }

  /** The worker has taken the task from the queue. */
  function AfterTake(max: nat): System
    requires max > 0
  {
    var s := AfterStart(max);
    s.(threads := [Submitted, Marking(0)], r := s.r.(queue := [], submitterCount := 0))
  }

  lemma ToTake(max: nat, rest: seq<Action>)
    requires max > 0
    ensures Exec(AfterStart(max), [On(0, Advance)] + ([On(1, Advance)] + rest)) == Exec(AfterTake(max), rest)
  {
    var s1 := Step(AfterStart(max), On(0, Advance));
    assert s1.threads == [Submitted, Idle];
    var s2 := Step(s1, On(1, Advance));
    assert s2.threads == [Submitted, Marking(0)] && s2.r.queue == [];
    ThenTwo(AfterStart(max), On(0, Advance), On(1, Advance), rest);
  }

  lemma ToRun(max: nat, rest: seq<Action>)
    requires max > 0
    ensures Exec(AfterTake(max), [On(1, Advance)] + ([On(1, FunctionReturns)] + ([On(1, Advance)] + rest)))
         == Exec(AfterRun(max), rest)
  {
    var s3 := Step(AfterTake(max), On(1, Advance));
    assert s3.threads == [Submitted, Executing(0)] && s3.ran == [0] && s3.r.tasks == map[0 := Running];
    var s4 := Step(s3, On(1, FunctionReturns));
    assert s4.threads == [Submitted, Returned(0)];
    var s5 := Step(s4, On(1, Advance));
    assert s5.threads == [Submitted, Releasing(0)] && s5.r.tasks == map[0 := Success];
    assert s5 == AfterRun(max);
    Then(s4, On(1, Advance), rest);
    ThenTwo(AfterTake(max), On(1, Advance), On(1, FunctionReturns), [On(1, Advance)] + rest);
  }

  lemma ToPoll(max: nat, rest: seq<Action>)
    requires max > 0
    ensures Exec(AfterRun(max), [On(1, Advance)] + ([On(1, Advance)] + ([On(1, GetTimesOut)] + rest)))
         == Exec(AfterPoll(max), rest)
  {
    var s1 := Step(AfterRun(max), On(1, Advance));
    assert s1.threads == [Submitted, Signalling(0)] && s1.r.slotTasks == {} && s1.r.permits == max;
    var s2 := Step(s1, On(1, Advance));
    assert s2.threads == [Submitted, Idle] && s2.r.events == map[0 := true];
    var s3 := Step(s2, On(1, GetTimesOut));
    assert s3 == AfterPoll(max);
    Then(s2, On(1, GetTimesOut), rest);
    Then(s1, On(1, Advance), [On(1, GetTimesOut)] + rest);
    Then(AfterRun(max), On(1, Advance), [On(1, Advance)] + ([On(1, GetTimesOut)] + rest));
  }

  /** A second task has been queued before the worker looks again. */
  function AfterQueue(max: nat): System
    requires max > 0
  {
    System(Runner(max, map[0 := Success, 1 := Pending], map[0 := true, 1 := false], map[0 := false, 1 := false], map[],
                  {1}, 1, 1, max - 1, [1], 1, false),
           [Submitted, FoundEmpty, LeavingSubmit], 2, [0], {}, false)
  }

  lemma ToQueue(max: nat, rest: seq<Action>)
    requires max > 0
    ensures Exec(AfterPoll(max), [Submit] + ([On(2, Advance)] + ([On(2, Start(0, true))] + rest)))
         == Exec(AfterQueue(max), rest)
  {
    var s1 := Step(AfterPoll(max), Submit);
    assert s1.r.tasks == map[0 := Success, 1 := Pending];
    var s2 := Step(s1, On(2, Advance));
    assert s2.threads == [Submitted, FoundEmpty, Placing(1)] && s2.r.permits == max - 1;
    var s3 := Step(s2, On(2, Start(0, true)));
    assert s3.threads == [Submitted, FoundEmpty, LeavingSubmit] && s3.r.queue == [1] && s3.r.slotTasks == {1};
    assert s3 == AfterQueue(max);
    Then(s2, On(2, Start(0, true)), rest);
    ThenTwo(AfterPoll(max), Submit, On(2, Advance), [On(2, Start(0, true))] + rest);
  }

  lemma ToClose(max: nat)
    requires max > 0
    ensures Exec(AfterQueue(max), [CloseRunner(true)]) == AfterClose(max)
  {
    var s4 := Step(AfterQueue(max), CloseRunner(true));
    assert s4.r.tasks == AfterClose(max).r.tasks && s4.r.events == AfterClose(max).r.events;
    assert s4.r.flags == AfterClose(max).r.flags && s4.threads == AfterClose(max).threads;
    assert s4 == AfterClose(max);
    assert Exec(s4, []) == s4;
  }

  /** For every number of workers there is a run in which close(wait=True) never returns. */
  lemma CloseCanHang(max: nat) returns (actions: seq<Action>)
    requires max > 0
    ensures var s := Exec(Initial(max), actions);
            Closing(s, 3) && forall later :: Closing(Exec(s, later), 3)
  {
    var a5 := [CloseRunner(true)];
    var a4 := [Submit] + ([On(2, Advance)] + ([On(2, Start(0, true))] + a5));
    var a3 := [On(1, Advance)] + ([On(1, Advance)] + ([On(1, GetTimesOut)] + a4));
    var a2 := [On(1, Advance)] + ([On(1, FunctionReturns)] + ([On(1, Advance)] + a3));
    var a1 := [On(0, Advance)] + ([On(1, Advance)] + a2);
    var a0 := [On(0, Start(1, true))] + a1;
    actions := [Submit] + ([On(0, Advance)] + a0);
    ToSlot(max, a0);
    ToStart(max, a1);
    ToTake(max, a2);
    ToRun(max, a3);
    ToPoll(max, a4);
    ToQueue(max, a5);
    ToClose(max);
    Reached(max, actions);
    var s := AfterClose(max);
    NoneLive(max);
    forall later ensures Closing(Exec(s, later), 3) {
      DoomedExec(s, 3, later);
    }
  }

  lemma NoneLive(max: nat)
    requires max > 0
    ensures Doomed(AfterClose(max))
  {
    var s := AfterClose(max);
    TotalPositive(s.threads, Live);
    assert forall i :: 0 <= i < |s.threads| ==> Live(s.threads[i]) == 0;
  }
}
