/** How calls to the budget end: what each outcome means, that a deadline ends a wait, and
    that the counters count what they say. */
module BudgetOutcomes {
  import opened Counting
  import opened Options
  import opened Sequences
  import opened Budget
  import opened BudgetRuns

  predicate TokenSet(s: System, c: nat)
    requires c < |s.calls|
  {
    var token := s.calls[c].waiter.token;
    token.Some? && token.value in s.b.signals.cancelled
  }

  /** Call `c` is back with outcome `o`. */
  predicate Ended(s: System, c: nat, o: Outcome) {
    c < |s.calls| && s.calls[c].pc == Pc.Returned(o)
  }

  /** The deadline ends the wait of a thread: whatever else is the case, a call that looks
      at the clock after its deadline has returned, is no longer queued and keeps no
      reserved slot; it has timed out unless its wait raised, its pool was closed, or it
      had been given a slot. */
  lemma DeadlineReturns(max: int, actions: seq<Action>, c: nat, interrupted: bool)
    requires max > 0 && At(Exec(Start(max), actions), c, Waiting)
    ensures var s := Exec(Start(max), actions);
            var s' := Step(s, CheckWait(c, true, interrupted));
            && Ended(s', c, if interrupted then Interrupted
                            else if TokenSet(s, c) then Closed
                            else if c in s.b.granted then Acquired
                            else TimedOut)
            && s'.b.timeouts == s.b.timeouts + One(Ended(s', c, TimedOut))
            && !QueuedCall(s', c) && c !in s'.b.granted
  {
    ExecInv(Start(max), actions);
    var s := Exec(Start(max), actions);
    var a := CheckWait(c, true, interrupted);
    StepInv(s, a);
    assert s.calls[c].waiter.call == c;
    PollCounts(s.b, c);
    GoneWhenBack(Step(s, a), c);
  }

  lemma PollCounts(b: Budget, c: nat)
    ensures Withdraw(b, c).timeouts == b.timeouts
    ensures Withdraw(b.(timeouts := b.timeouts + 1), c).timeouts == b.timeouts + 1
  {
    DispatchCounts(CancelWaiter(b, c));
    DispatchCounts(CancelWaiter(b.(timeouts := b.timeouts + 1), c));
  }

  /** A call that is back is neither queued nor holds a reserved slot. */
  lemma GoneWhenBack(s: System, c: nat)
    requires Inv(s) && c < |s.calls| && s.calls[c].pc.Returned?
    ensures !QueuedCall(s, c) && c !in s.b.granted
  {
    assert CallOk(s.b, s.calls[c].waiter, s.calls[c].pc);
  }

  /** The same for a task: once its wait has failed, its next block brings it back. */
  lemma FailureReturns(max: int, actions: seq<Action>, c: nat, expired: bool)
    requires max > 0 && At(Exec(Start(max), actions), c, Failing(expired))
    ensures var s := Exec(Start(max), actions);
            var s' := Step(s, AbandonWait(c));
            && Ended(s', c, if expired then TimedOut else Interrupted)
            && s'.b.timeouts == s.b.timeouts + One(expired)
            && !QueuedCall(s', c) && c !in s'.b.granted
  {
    ExecInv(Start(max), actions);
    var s := Exec(Start(max), actions);
    StepInv(s, AbandonWait(c));
    assert s.calls[c].waiter.call == c;
    PollCounts(s.b, c);
    GoneWhenBack(Step(s, AbandonWait(c)), c);
  }

  /** What the step that ends a call says about it. */
  ghost predicate RightlyEnded(s: System, a: Action, c: nat, o: Outcome) {
    match o
    case Acquired =>
      if c < |s.calls| then c in s.b.granted && !TokenSet(s, c)
      else && a.Acquire? && s.b.inUse < s.b.max && s.b.waiters == []
           && !(a.token.Some? && a.token.value in s.b.signals.cancelled)
    case Closed =>
      if c < |s.calls| then TokenSet(s, c)
      else a.Acquire? && a.token.Some? && a.token.value in s.b.signals.cancelled
    case TimedOut =>
      && c < |s.calls|
      && ((a == CheckWait(c, true, false) && c !in s.b.granted && !TokenSet(s, c))
          || (a == AbandonWait(c) && s.calls[c].pc == Failing(true)))
    case Interrupted =>
      && c < |s.calls|
      && ((a.CheckWait? && a.call == c && a.interrupted)
          || (a == AbandonWait(c) && s.calls[c].pc == Failing(false)))
    case Unreserved => false
  }

  /** Outcomes are true, in every run: acquired means a reserved or free slot and an open
      pool, closed that the pool's event is set, timed out that the deadline has passed and
      the wait had not succeeded, interrupted that the wait raised. */
  lemma OutcomesAreTrue(max: int, actions: seq<Action>, a: Action, c: nat, o: Outcome)
    requires max > 0
    requires var s := Exec(Start(max), actions);
             Ended(Step(s, a), c, o) && !(c < |s.calls| && s.calls[c].pc.Returned?)
    ensures RightlyEnded(Exec(Start(max), actions), a, c, o)
  {
    ExecInv(Start(max), actions);
    var s := Exec(Start(max), actions);
    StepInv(s, a);
    assert forall i :: 0 <= i < |s.calls| ==> s.calls[i].waiter.call == i;
    assert o != Unreserved;
  }

  /** A call that is back stays so, whatever the others do. */
  lemma {:induction false} BackForGood(s: System, actions: seq<Action>, c: nat, o: Outcome)
    requires Ended(s, c, o)
    ensures Ended(Exec(s, actions), c, o)
    decreases |actions|
  {
    if actions != [] {
      BackForGood(Step(s, actions[0]), actions[1..], c, o);
    }
  }

  // ------------------------------------------------------------- the counters

  function TimedOutCall(call: Call): nat {
    One(call.pc == Pc.Returned(TimedOut))
  }

  /** A step that changes one call's place at most. */
  lemma MoveCounts(s: System, c: nat, b: Budget, pc: Pc)
    requires c < |s.calls|
    ensures Total(Move(s, c, b, pc).calls, TimedOutCall)
         == Total(s.calls, TimedOutCall) - TimedOutCall(s.calls[c]) + One(pc == Pc.Returned(TimedOut))
  {
    TotalUpdate(s.calls, c, s.calls[c].(pc := pc), TimedOutCall);
  }

  lemma AcquireCounts(s: System, token: Option<nat>, isAsync: bool)
    requires s.b.timeouts == Total(s.calls, TimedOutCall)
    ensures StepAcquire(s, token, isAsync).b.timeouts == Total(StepAcquire(s, token, isAsync).calls, TimedOutCall)
  {
    var w := Waiter(|s.calls|, token, isAsync);
    DispatchCounts(s.b.(waiters := s.b.waiters + [w]));
    var s' := StepAcquire(s, token, isAsync);
    assert s'.calls == s.calls + [s'.calls[|s.calls|]];
    TotalAppend(s.calls, s'.calls[|s.calls|], TimedOutCall);
  }

  /** A step that brings call `c` to `pc` with the budget `b`. */
  lemma ArrivesCounted(s: System, c: nat, b: Budget, pc: Pc)
    requires c < |s.calls| && !s.calls[c].pc.Returned? && s.b.timeouts == Total(s.calls, TimedOutCall)
    requires b.timeouts == s.b.timeouts + One(pc == Pc.Returned(TimedOut))
    ensures Move(s, c, b, pc).b.timeouts == Total(Move(s, c, b, pc).calls, TimedOutCall)
  {
    MoveCounts(s, c, b, pc);
  }

  lemma WaitCounts(s: System, a: Action)
    requires Inv(s) && Enabled(s, a) && (a.CheckWait? || a.AbandonWait? || a.FinishAsync?)
    requires s.b.timeouts == Total(s.calls, TimedOutCall)
    ensures Step(s, a).b.timeouts == Total(Step(s, a).calls, TimedOutCall)
  {
    var c, s' := a.call, Step(s, a);
    assert s.calls[c].waiter.call == c;
    PollCounts(s.b, c);
    if s'.calls != s.calls {
      ArrivesCounted(s, c, s'.b, s'.calls[c].pc);
    }
  }

  lemma OtherCounts(s: System, a: Action)
    requires Inv(s) && Enabled(s, a) && !a.Acquire? && !a.CheckWait? && !a.AbandonWait? && !a.FinishAsync?
    requires s.b.timeouts == Total(s.calls, TimedOutCall)
    ensures Step(s, a).b.timeouts == Total(Step(s, a).calls, TimedOutCall)
  {
    if a.ReleaseSlot? {
      DispatchCounts(s.b.(inUse := s.b.inUse - 1, released := s.b.released + 1));
    } else if a.ResolveFuture? || a.FailFuture? {
      var s' := Step(s, a);
      MoveCounts(s, a.call, s'.b, s'.calls[a.call].pc);
    }
  }

  lemma {:induction false} ExecCounts(s: System, actions: seq<Action>)
    requires Inv(s) && s.b.timeouts == Total(s.calls, TimedOutCall)
    ensures Exec(s, actions).b.timeouts == Total(Exec(s, actions).calls, TimedOutCall)
    decreases |actions|
  {
    if actions != [] {
      var a := actions[0];
      StepInv(s, a);
      if Enabled(s, a) {
        if a.Acquire? { AcquireCounts(s, a.token, a.isAsync); }
        else if a.CheckWait? || a.AbandonWait? || a.FinishAsync? { WaitCounts(s, a); }
        else { OtherCounts(s, a); }
      }
      ExecCounts(Step(s, a), actions[1..]);
    }
  }

  /** `total_timeouts` is the number of calls that have timed out. */
  lemma TimeoutsCounted(max: int, actions: seq<Action>)
    requires max > 0
    ensures var s := Exec(Start(max), actions); s.b.timeouts == Total(s.calls, TimedOutCall)
  {
    ExecCounts(Start(max), actions);
  }
}
