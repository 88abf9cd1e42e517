/** Any number of callers, threads and tasks, sharing one budget. Every block under
    the budget's lock is one step; between two steps anything else may happen: cancel
    events are set, event loops resolve futures or close, waits time out, tasks are
    cancelled, threads are interrupted. An action that is not possible in a state
    leaves it unchanged, so every sequence of actions is a run. */
module BudgetRuns {
  import opened Options
  import opened Budget
  import opened BudgetQueue

  /** Where a caller is. `Waiting`: a thread in the waiting loop of acquire.
      `Awaiting`: a task awaiting its future. `Resumed`: a task past its await,
      before the last block. `Failing`: a task whose wait timed out or was cancelled,
      before the block that withdraws it. */
  datatype Pc = Waiting | Awaiting | Resumed | Failing(expired: bool) | Returned(outcome: Outcome)

  datatype Call = Call(waiter: Waiter, pc: Pc)

  /** `held` counts the slots callers acquired and have not released;
      `rejected` counts releases answered with a ValueError. */
  datatype System = System(b: Budget, calls: seq<Call>, held: nat, rejected: nat)

  datatype Action =
    | Acquire(token: Option<nat>, isAsync: bool)
    | CheckWait(call: nat, expired: bool, interrupted: bool)
    | ResolveFuture(call: nat)
    | FailFuture(call: nat, expired: bool)
    | AbandonWait(call: nat)
    | FinishAsync(call: nat)
    | ReleaseSlot
    | SetToken(event: nat)
    | NotifyAll
    | CloseLoop(call: nat)

  function Start(max: int): System
    requires max > 0
  {
    System(Budget(max, 0, [], {}, 0, 0, 0, Signals({}, {}, {}, {}, {})), [], 0, 0)
  }

  predicate At(s: System, call: nat, pc: Pc) {
    call < |s.calls| && s.calls[call].pc == pc
  }

  function Move(s: System, call: nat, b: Budget, pc: Pc): System
    requires call < |s.calls|
  {
    System(b, s.calls[call := s.calls[call].(pc := pc)],
           s.held + (if pc == Pc.Returned(Acquired) then 1 else 0), s.rejected)
  }

  function StepAcquire(s: System, token: Option<nat>, isAsync: bool): System {
    var w := Waiter(|s.calls|, token, isAsync);
    var (b, entry) := Enter(s.b, w);
    var pc := match entry
      case Returned(o) => Pc.Returned(o)
      case Queued => if !isAsync then Waiting else if w.call in b.granted then Resumed else Awaiting;
    Move(s.(calls := s.calls + [Call(w, pc)]), |s.calls|, b, pc)
  }

  function StepCheckWait(s: System, c: nat, expired: bool, interrupted: bool): System
    requires At(s, c, Waiting)
  {
    var (b, entry) := Poll(s.b, s.calls[c].waiter, expired, interrupted);
    match entry
    case Returned(o) => Move(s, c, b, Pc.Returned(o))
    case Queued => s.(b := b)
  }

  function StepAbandon(s: System, c: nat): System
    requires c < |s.calls| && s.calls[c].pc.Failing?
  {
    var (b, outcome) := Abandon(s.b, s.calls[c].waiter, s.calls[c].pc.expired);
    Move(s, c, b, Pc.Returned(outcome))
  }

  function StepFinish(s: System, c: nat): System
    requires At(s, c, Resumed)
  {
    var (b, outcome) := Resume(s.b, s.calls[c].waiter);
    Move(s, c, b, Pc.Returned(outcome))
  }

  function FutureDone(b: Budget, c: nat): Budget {
    b.(signals := b.signals.(done := b.signals.done + {c}))
  }

  predicate Enabled(s: System, a: Action) {
    match a
    case Acquire(_, _) => true
    case CheckWait(c, _, _) => At(s, c, Waiting)
    case ResolveFuture(c) => At(s, c, Awaiting) && c in s.b.signals.scheduled && c !in s.b.signals.dead
    case FailFuture(c, expired) => At(s, c, Awaiting) || (At(s, c, Resumed) && !expired)
    case AbandonWait(c) => c < |s.calls| && s.calls[c].pc.Failing?
    case FinishAsync(c) => At(s, c, Resumed)
    case ReleaseSlot => s.held > 0
    case SetToken(_) => true
    case NotifyAll => true
    case CloseLoop(c) => c < |s.calls| && s.calls[c].waiter.isAsync
  }

  /** One step. A release is only enabled for a caller that holds a slot. */
  function Step(s: System, a: Action): System {
    if !Enabled(s, a) then s else
    match a
    case Acquire(token, isAsync) => StepAcquire(s, token, isAsync)
    case CheckWait(c, expired, interrupted) => StepCheckWait(s, c, expired, interrupted)
    case ResolveFuture(c) => Move(s, c, FutureDone(s.b, c), Resumed)
    case FailFuture(c, expired) => Move(s, c, FutureDone(s.b, c), Failing(expired))
    case AbandonWait(c) => StepAbandon(s, c)
    case FinishAsync(c) => StepFinish(s, c)
    case ReleaseSlot =>
      var (b, accepted) := Release(s.b);
      System(b, s.calls, s.held - 1, s.rejected + (if accepted then 0 else 1))
    case SetToken(k) =>
      s.(b := s.b.(signals := s.b.signals.(cancelled := s.b.signals.cancelled + {k})))
    case NotifyAll => s.(b := Notify(s.b))
    case CloseLoop(c) =>
      s.(b := s.b.(signals := s.b.signals.(dead := s.b.signals.dead + {c})))
  }

  function Exec(s: System, actions: seq<Action>): System
    decreases |actions|
  {
    if actions == [] then s else Exec(Step(s, actions[0]), actions[1..])
  }

  // ------------------------------------------------------------------ invariant

  /** What is known of one caller between two steps. */
  ghost predicate CallOk(b: Budget, w: Waiter, pc: Pc) {
    match pc
    case Waiting =>
      && !w.isAsync
      && (w in b.waiters || ((w.call in b.granted || Cancelled(w, b.signals)) && w.call !in b.signals.asleep))
    case Awaiting =>
      && w.isAsync && w.call !in b.signals.done
      && (w in b.waiters || (Left(w, b) && Woken(w, b.signals)))
      && (w.call in b.signals.scheduled ==> w.call in b.granted || Cancelled(w, b.signals))
    case Resumed =>
      w.isAsync && (w.call in b.granted || Cancelled(w, b.signals))
    case Failing(_) => w.isAsync && w.call in b.signals.done
    case Returned(_) => w !in b.waiters && w.call !in b.granted
  }

  ghost predicate Inv(s: System) {
    && Sane(s.b) && Conserving(s.b)
    && s.b.inUse == s.held + |s.b.granted|
    && s.rejected == 0
    && (forall i :: 0 <= i < |s.calls| ==>
          && s.calls[i].waiter.call == i
          && CallOk(s.b, s.calls[i].waiter, s.calls[i].pc)
          && s.calls[i].pc != Pc.Returned(Unreserved))
    && (forall w :: w in s.b.waiters ==> w.call < |s.calls| && s.calls[w.call].waiter == w)
    && (forall c :: c in s.b.granted ==> c < |s.calls|)
    && (forall c :: c in s.b.signals.scheduled ==> c < |s.calls|)
    && (forall c :: c in s.b.signals.done ==> c < |s.calls|)
  }

  lemma ServedLeaves(b: Budget, b': Budget, n: nat, w: Waiter)
    requires Served(b, b', n)
    ensures w in b'.waiters ==> w in b.waiters
    ensures w in b.waiters && w !in b'.waiters ==> Left(w, b') && Woken(w, b'.signals)
  {
    assert forall i :: n <= i < |b.waiters| ==> b.waiters[i] == b'.waiters[i - n];
    if w in b.waiters && w !in b'.waiters {
      var i :| 0 <= i < |b.waiters| && b.waiters[i] == w;
      assert i < n;
    }
  }

  /** Serving a prefix of the queue keeps what is known of every caller. */
  lemma ServedKeepsCall(b: Budget, b': Budget, n: nat, w: Waiter, pc: Pc)
    requires Sane(b) && Served(b, b', n) && CallOk(b, w, pc)
    requires forall v :: v in b.waiters && v.call == w.call ==> v == w
    ensures CallOk(b', w, pc)
  {
    ServedLeaves(b, b', n, w);
    assert forall i :: 0 <= i < n ==> b.waiters[i] in b.waiters;
    if w.call in b'.signals.scheduled && w.call !in b.signals.scheduled {
      var i :| 0 <= i < n && b.waiters[i].call == w.call;
      assert b.waiters[i] in b.waiters;
      assert b.waiters[i] == w && Left(w, b');
    }
  }

  /** Withdrawing another call keeps it too. */
  lemma CancelKeepsCall(b: Budget, c: nat, w: Waiter, pc: Pc)
    requires Sane(b) && CallOk(b, w, pc) && w.call != c
    ensures CallOk(CancelWaiter(b, c), w, pc)
  {
    RemoveCallKeeps(b.waiters, c);
  }

  /** The common shape of the blocks that end in a dispatch: from a state that is
      sane and in which all callers but `c` are fine, dispatch keeps them fine. */
  lemma DispatchKeepsCalls(b: Budget, calls: seq<Call>, c: nat)
    requires Sane(b) && c < |calls|
    requires forall i :: 0 <= i < |calls| ==> calls[i].waiter.call == i
    requires forall i :: 0 <= i < |calls| && i != c ==> CallOk(b, calls[i].waiter, calls[i].pc)
    requires forall w :: w in b.waiters ==> w.call < |calls| && calls[w.call].waiter == w
    requires forall k :: k in b.granted ==> k < |calls|
    requires forall k :: k in b.signals.scheduled ==> k < |calls|
    ensures var b' := Dispatch(b);
            && Sane(b') && Conserving(b')
            && b'.inUse - |b'.granted| == b.inUse - |b.granted|
            && (forall i :: 0 <= i < |calls| && i != c ==> CallOk(b', calls[i].waiter, calls[i].pc))
            && (CallOk(b, calls[c].waiter, calls[c].pc) ==> CallOk(b', calls[c].waiter, calls[c].pc))
            && (forall w :: w in b'.waiters ==> w in b.waiters)
            && (forall k :: k in b'.granted ==> k < |calls|)
            && (forall k :: k in b'.signals.scheduled ==> k < |calls|)
            && b'.signals.done == b.signals.done
  {
    var n := DispatchServes(b);
    var b' := Dispatch(b);
    forall i | 0 <= i < |calls| && CallOk(b, calls[i].waiter, calls[i].pc)
      ensures CallOk(b', calls[i].waiter, calls[i].pc)
    {
      ServedKeepsCall(b, b', n, calls[i].waiter, calls[i].pc);
    }
    forall k | k in b'.granted || k in b'.signals.scheduled ensures k < |calls| {
      if k !in b.granted && k !in b.signals.scheduled {
        var i :| 0 <= i < n && b.waiters[i].call == k;
        assert b.waiters[i] in b.waiters;
      }
    }
  }

  /** Withdrawing a caller and returning to it, whatever the outcome, keeps the invariant. */
  lemma WithdrawInv(s: System, c: nat, t: int, o: Outcome)
    requires Inv(s) && c < |s.calls| && !s.calls[c].pc.Returned? && o != Acquired && o != Unreserved
    ensures Inv(Move(s, c, Withdraw(s.b.(timeouts := t), c), Pc.Returned(o)))
  {
    var b0 := s.b.(timeouts := t);
    var b := CancelWaiter(b0, c);
    CancelWaiterSane(b0, c);
    RemoveCallKeeps(b0.waiters, c);
    var s' := Move(s, c, b, Pc.Returned(o));
    forall i | 0 <= i < |s.calls| && i != c
      ensures CallOk(b, s'.calls[i].waiter, s'.calls[i].pc)
    {
      CancelKeepsCall(b0, c, s.calls[i].waiter, s.calls[i].pc);
    }
    DispatchKeepsCalls(b, s'.calls, c);
  }

  lemma AcquireInv(s: System, token: Option<nat>, isAsync: bool)
    requires Inv(s)
    ensures Inv(StepAcquire(s, token, isAsync))
  {
    var w := Waiter(|s.calls|, token, isAsync);
    var s' := StepAcquire(s, token, isAsync);
    if !Cancelled(w, s.b.signals) && !(s.b.inUse < s.b.max && s.b.waiters == []) {
      var b := s.b.(waiters := s.b.waiters + [w]);
      var calls := s.calls + [Call(w, if isAsync then Awaiting else Waiting)];
      JoinKeepsCalls(s, w);
      DispatchKeepsCalls(b, calls, |s.calls|);
      assert CallOk(Dispatch(b), w, calls[|s.calls|].pc);
      assert forall i :: 0 <= i < |s.calls| ==> s'.calls[i] == calls[i];
    }
  }

  /** A newcomer at the end of the queue changes nothing for the callers before it. */
  lemma JoinKeepsCalls(s: System, w: Waiter)
    requires Inv(s) && w.call == |s.calls| && !Cancelled(w, s.b.signals)
    ensures var b := s.b.(waiters := s.b.waiters + [w]);
            && Sane(b) && CallOk(b, w, if w.isAsync then Awaiting else Waiting)
            && forall i :: 0 <= i < |s.calls| ==> CallOk(b, s.calls[i].waiter, s.calls[i].pc)
  {
  }

  /** A granted caller takes its slot over. */
  lemma TakeOverInv(s: System, c: nat)
    requires Inv(s) && c < |s.calls| && !s.calls[c].pc.Returned? && c in s.b.granted
    ensures Inv(Move(s, c, s.b.(granted := s.b.granted - {c}), Pc.Returned(Acquired)))
  {
    var b := s.b.(granted := s.b.granted - {c});
    var s' := Move(s, c, b, Pc.Returned(Acquired));
    assert forall w :: w in b.waiters ==> w.call != c;
    forall i | 0 <= i < |s'.calls|
      ensures CallOk(b, s'.calls[i].waiter, s'.calls[i].pc)
    {
      assert CallOk(s.b, s.calls[i].waiter, s.calls[i].pc);
    }
  }

  lemma SleepInv(s: System, c: nat)
    requires Inv(s) && At(s, c, Waiting) && c !in s.b.granted && !Cancelled(s.calls[c].waiter, s.b.signals)
    ensures Inv(s.(b := s.b.(signals := s.b.signals.(asleep := s.b.signals.asleep + {c}))))
  {
    var b := s.b.(signals := s.b.signals.(asleep := s.b.signals.asleep + {c}));
    forall i | 0 <= i < |s.calls|
      ensures CallOk(b, s.calls[i].waiter, s.calls[i].pc)
    {
      assert CallOk(s.b, s.calls[i].waiter, s.calls[i].pc);
    }
  }

  lemma CheckWaitInv(s: System, c: nat, expired: bool, interrupted: bool)
    requires Inv(s) && At(s, c, Waiting)
    ensures Inv(StepCheckWait(s, c, expired, interrupted))
  {
    var w := s.calls[c].waiter;
    assert w.call == c;
    assert s.b.(timeouts := s.b.timeouts) == s.b;
    if interrupted {
      WithdrawInv(s, c, s.b.timeouts, Interrupted);
    } else if Cancelled(w, s.b.signals) {
      WithdrawInv(s, c, s.b.timeouts, Closed);
    } else if c in s.b.granted {
      TakeOverInv(s, c);
    } else if expired {
      WithdrawInv(s, c, s.b.timeouts + 1, TimedOut);
    } else {
      SleepInv(s, c);
    }
  }

  lemma AbandonInv(s: System, c: nat)
    requires Inv(s) && c < |s.calls| && s.calls[c].pc.Failing?
    ensures Inv(StepAbandon(s, c))
  {
    AbandonIsWithdraw(s, c);
    if s.calls[c].pc.expired {
      WithdrawInv(s, c, s.b.timeouts + 1, TimedOut);
    } else {
      WithdrawInv(s, c, s.b.timeouts, Interrupted);
    }
  }

  lemma AbandonIsWithdraw(s: System, c: nat)
    requires c < |s.calls| && s.calls[c].pc.Failing? && s.calls[c].waiter.call == c
    ensures var expired := s.calls[c].pc.expired;
            StepAbandon(s, c) == Move(s, c, Withdraw(s.b.(timeouts := s.b.timeouts + if expired then 1 else 0), c),
                                      Pc.Returned(if expired then TimedOut else Interrupted))
  {
    assert s.b.(timeouts := s.b.timeouts) == s.b;
  }

  /** The error branch of the last block is never taken: a resumed task holds a
      grant or its cancel event is set. */
  lemma FinishInv(s: System, c: nat)
    requires Inv(s) && At(s, c, Resumed)
    ensures Resume(s.b, s.calls[c].waiter).1 != Unreserved
    ensures Inv(StepFinish(s, c))
  {
    assert s.calls[c].waiter.call == c && CallOk(s.b, s.calls[c].waiter, Resumed);
    assert s.b.(timeouts := s.b.timeouts) == s.b;
    if Cancelled(s.calls[c].waiter, s.b.signals) {
      WithdrawInv(s, c, s.b.timeouts, Closed);
    } else {
      TakeOverInv(s, c);
    }
  }

  lemma FutureInv(s: System, a: Action)
    requires Inv(s) && Enabled(s, a) && (a.ResolveFuture? || a.FailFuture?)
    ensures Inv(Step(s, a))
  {
    var s' := Step(s, a);
    forall i | 0 <= i < |s'.calls|
      ensures CallOk(s'.b, s'.calls[i].waiter, s'.calls[i].pc)
    {
      assert CallOk(s.b, s.calls[i].waiter, s.calls[i].pc);
    }
  }

  lemma ReleaseInv(s: System)
    requires Inv(s) && s.held > 0
    ensures Release(s.b).1
    ensures Inv(Step(s, ReleaseSlot))
  {
    ReleaseKeepsCalls(s);
    assert forall i :: 0 <= i < |s.b.waiters| ==> s.b.waiters[i] in s.b.waiters;
    if s.calls != [] {
      DispatchKeepsCalls(s.b.(inUse := s.b.inUse - 1, released := s.b.released + 1), s.calls, 0);
    }
  }

  lemma ReleaseKeepsCalls(s: System)
    requires Inv(s) && s.held > 0
    ensures var b := s.b.(inUse := s.b.inUse - 1, released := s.b.released + 1);
            && Sane(b)
            && forall i :: 0 <= i < |s.calls| ==> CallOk(b, s.calls[i].waiter, s.calls[i].pc)
  {
    var b := s.b.(inUse := s.b.inUse - 1, released := s.b.released + 1);
    forall i | 0 <= i < |s.calls| ensures CallOk(b, s.calls[i].waiter, s.calls[i].pc) {
      assert CallOk(s.b, s.calls[i].waiter, s.calls[i].pc);
    }
  }

  lemma SignalInv(s: System, a: Action)
    requires Inv(s) && Enabled(s, a) && (a.SetToken? || a.CloseLoop?)
    ensures Inv(Step(s, a))
  {
    var s' := Step(s, a);
    forall i | 0 <= i < |s'.calls|
      ensures CallOk(s'.b, s'.calls[i].waiter, s'.calls[i].pc)
    {
      assert CallOk(s.b, s.calls[i].waiter, s.calls[i].pc);
    }
  }

  lemma NotifyInv(s: System)
    requires Inv(s)
    ensures Inv(Step(s, NotifyAll))
  {
    var g := s.b.signals.(asleep := {});
    NotifyWakes(s.b.waiters, g);
    var b := Notify(s.b);
    forall i | 0 <= i < |s.calls|
      ensures CallOk(b, s.calls[i].waiter, s.calls[i].pc)
    {
      assert CallOk(s.b, s.calls[i].waiter, s.calls[i].pc);
    }
  }

  lemma StepInv(s: System, a: Action)
    requires Inv(s)
    ensures Inv(Step(s, a))
  {
    if Enabled(s, a) {
      match a
      case Acquire(token, isAsync) => AcquireInv(s, token, isAsync);
      case CheckWait(c, expired, interrupted) => CheckWaitInv(s, c, expired, interrupted);
      case ResolveFuture(_) => FutureInv(s, a);
      case FailFuture(_, _) => FutureInv(s, a);
      case AbandonWait(c) => AbandonInv(s, c);
      case FinishAsync(c) => FinishInv(s, c);
      case ReleaseSlot => ReleaseInv(s);
      case SetToken(_) => SignalInv(s, a);
      case NotifyAll => NotifyInv(s);
      case CloseLoop(_) => SignalInv(s, a);
    }
  }

  lemma {:induction false} ExecInv(s: System, actions: seq<Action>)
    requires Inv(s)
    ensures Inv(Exec(s, actions))
    decreases |actions|
  {
    if actions != [] {
      StepInv(s, actions[0]);
      ExecInv(Step(s, actions[0]), actions[1..]);
    }
  }

  // ------------------------------------------------------------------ results

  /** Slot accounting and work conservation in every reachable state: the budget
      counts exactly the slots its callers hold plus those reserved for waiters still
      on their way back, stays within its maximum, never leaves a free slot beside a
      waiter, never rejects the release of a held slot, and never wakes a caller
      without a reserved slot. */
  lemma SlotAccounting(max: int, actions: seq<Action>)
    requires max > 0
    ensures var s := Exec(Start(max), actions);
            && 0 <= s.b.inUse <= max
            && s.b.inUse == s.b.acquired - s.b.released == s.held + |s.b.granted|
            && (s.b.inUse == max || s.b.waiters == [])
            && (forall w :: w in s.b.waiters ==> w.call !in s.b.granted)
            && s.rejected == 0
            && forall i :: 0 <= i < |s.calls| ==> s.calls[i].pc != Pc.Returned(Unreserved)
  {
    ExecInv(Start(max), actions);
    ExecMax(Start(max), actions);
  }

  lemma StepMax(s: System, a: Action)
    requires Inv(s)
    ensures Step(s, a).b.max == s.b.max
  {
    match a
    case Acquire(token, isAsync) => DispatchMax(s.b.(waiters := s.b.waiters + [Waiter(|s.calls|, token, isAsync)]));
    case CheckWait(_, _, _) => WithdrawMax(s, a);
    case AbandonWait(_) => WithdrawMax(s, a);
    case FinishAsync(_) => WithdrawMax(s, a);
    case ReleaseSlot => DispatchMax(s.b.(inUse := s.b.inUse - 1, released := s.b.released + 1));
    case _ =>
  }

  lemma WithdrawMax(s: System, a: Action)
    requires Inv(s) && (a.CheckWait? || a.AbandonWait? || a.FinishAsync?)
    ensures Step(s, a).b.max == s.b.max
  {
    if Enabled(s, a) {
      assert s.calls[a.call].waiter.call == a.call;
      DispatchMax(CancelWaiter(s.b, a.call));
      DispatchMax(CancelWaiter(s.b.(timeouts := s.b.timeouts + 1), a.call));
    }
  }

  lemma {:induction false} DispatchMax(b: Budget)
    ensures Dispatch(b).max == b.max
    decreases |b.waiters|
  {
    if b.inUse < b.max && b.waiters != [] {
      DispatchMax(ServeHead(b));
    }
  }

  lemma {:induction false} ExecMax(s: System, actions: seq<Action>)
    requires Inv(s)
    ensures Exec(s, actions).b.max == s.b.max
    decreases |actions|
  {
    if actions != [] {
      StepInv(s, actions[0]);
      StepMax(s, actions[0]);
      ExecMax(Step(s, actions[0]), actions[1..]);
    }
  }

  /** No waiter is stranded: in every reachable state a caller that has not returned
      is still queued, or it has a slot or a set cancel event and has been woken (a
      task also when its event loop is gone or its own wait has already failed). */
  lemma NoWaiterStranded(max: int, actions: seq<Action>, c: nat)
    requires max > 0
    ensures var s := Exec(Start(max), actions);
            c < |s.calls| && (s.calls[c].pc.Waiting? || s.calls[c].pc.Awaiting?) ==>
              var w := s.calls[c].waiter;
              || w in s.b.waiters
              || (s.calls[c].pc.Waiting? && (c in s.b.granted || Cancelled(w, s.b.signals)) && c !in s.b.signals.asleep)
              || (s.calls[c].pc.Awaiting? && c in s.b.signals.scheduled && (c in s.b.granted || Cancelled(w, s.b.signals)))
              || (s.calls[c].pc.Awaiting? && c in s.b.signals.dead)
  {
    ExecInv(Start(max), actions);
    var s := Exec(Start(max), actions);
    if c < |s.calls| {
      assert CallOk(s.b, s.calls[c].waiter, s.calls[c].pc);
    }
  }

  ghost predicate HasSlot(s: System, c: nat) {
    c in s.b.granted || At(s, c, Pc.Returned(Acquired))
  }

  ghost predicate QueuedCall(s: System, c: nat) {
    exists w :: w in s.b.waiters && w.call == c
  }

  /** First come, first served: when a step of any run gives caller `u` a slot, no
      caller that arrived before `u` is left in the queue. */
  lemma FirstComeFirstServed(max: int, actions: seq<Action>, a: Action, u: nat, v: nat)
    requires max > 0
    requires var s := Exec(Start(max), actions); !HasSlot(s, u) && HasSlot(Step(s, a), u)
    requires v < u
    ensures !QueuedCall(Step(Exec(Start(max), actions), a), v)
  {
    ExecInv(Start(max), actions);
    ServedInOrder(Exec(Start(max), actions), a, u, v);
  }

  lemma ServedInOrder(s: System, a: Action, u: nat, v: nat)
    requires Inv(s) && !HasSlot(s, u) && HasSlot(Step(s, a), u) && v < u
    ensures !QueuedCall(Step(s, a), v)
  {
    StepInv(s, a);
    assert forall i :: 0 <= i < |s.calls| ==> s.calls[i].waiter.call == i;
    if u !in Step(s, a).b.granted {
      assert a.Acquire?;
    }
  }

  /** How many waiters stand before call `c` in the queue. */
  function Ahead(ws: seq<Waiter>, c: nat): nat {
    if ws == [] || ws[0].call == c then 0 else 1 + Ahead(ws[1..], c)
  }

  lemma AheadDrop(ws: seq<Waiter>, n: nat, c: nat)
    requires InOrder(ws) && n <= |ws|
    requires exists w :: w in ws[n..] && w.call == c
    ensures Ahead(ws[n..], c) + n == Ahead(ws, c)
  {
    var i :| 0 <= i < |ws[n..]| && ws[n..][i].call == c;
    AheadDropAt(ws, n, c, n + i);
  }

  lemma {:induction false} AheadDropAt(ws: seq<Waiter>, n: nat, c: nat, k: nat)
    requires InOrder(ws) && n <= k < |ws| && ws[k].call == c
    ensures Ahead(ws[n..], c) + n == Ahead(ws, c)
    decreases n
  {
    if n > 0 {
      TailInOrder(ws);
      AheadDropAt(ws[1..], n - 1, c, k - 1);
      assert ws[1..][n - 1..] == ws[n..];
    }
  }

  lemma {:induction false} AheadRemove(ws: seq<Waiter>, d: nat, c: nat)
    requires c != d
    ensures Ahead(RemoveCall(ws, d), c) <= Ahead(ws, c)
  {
    if ws != [] && ws[0].call != d && ws[0].call != c {
      AheadRemove(ws[1..], d, c);
    }
  }

  lemma {:induction false} AheadAppend(ws: seq<Waiter>, x: Waiter, c: nat)
    requires exists w :: w in ws && w.call == c
    ensures Ahead(ws + [x], c) == Ahead(ws, c)
  {
    assert (ws + [x])[0] == ws[0];
    if ws[0].call != c {
      assert (ws + [x])[1..] == ws[1..] + [x];
      var i :| 0 <= i < |ws| && ws[i].call == c;
      assert ws[1..][i - 1].call == c;
      AheadAppend(ws[1..], x, c);
    }
  }

  /** From `b`, dispatching moves a caller that stays queued forward, and at least
      by one when a slot is free. */
  lemma DispatchAdvances(b: Budget, c: nat)
    requires Sane(b)
    ensures (exists w :: w in Dispatch(b).waiters && w.call == c) ==>
              && (exists w :: w in b.waiters && w.call == c)
              && Ahead(Dispatch(b).waiters, c) + (if b.inUse < b.max then 1 else 0) <= Ahead(b.waiters, c)
  {
    var n := DispatchServes(b);
    if exists w :: w in Dispatch(b).waiters && w.call == c {
      var w :| w in Dispatch(b).waiters && w.call == c;
      assert w in b.waiters[n..];
      assert w in b.waiters;
      AheadDrop(b.waiters, n, c);
    }
  }

  lemma WithdrawAdvances(b: Budget, d: nat, c: nat)
    requires Sane(b)
    ensures (exists w :: w in Withdraw(b, d).waiters && w.call == c) ==>
              && (exists w :: w in b.waiters && w.call == c)
              && Ahead(Withdraw(b, d).waiters, c) <= Ahead(b.waiters, c)
  {
    CancelWaiterSane(b, d);
    RemoveCallKeeps(b.waiters, d);
    DispatchAdvances(CancelWaiter(b, d), c);
    if c != d {
      AheadRemove(b.waiters, d, c);
    }
  }

  function ReleaseCount(s: System, a: Action): nat {
    if a.ReleaseSlot? && Enabled(s, a) then 1 else 0
  }

  lemma AcquireAdvances(s: System, token: Option<nat>, isAsync: bool, c: nat)
    requires Inv(s) && c < |s.calls| && QueuedCall(StepAcquire(s, token, isAsync), c)
    ensures QueuedCall(s, c)
    ensures Ahead(StepAcquire(s, token, isAsync).b.waiters, c) <= Ahead(s.b.waiters, c)
  {
    var x := Waiter(|s.calls|, token, isAsync);
    var ws := s.b.waiters + [x];
    if !Cancelled(x, s.b.signals) && !(s.b.inUse < s.b.max && s.b.waiters == []) {
      DispatchAdvances(s.b.(waiters := ws), c);
      var i :| 0 <= i < |ws| && ws[i].call == c;
      assert ws[i] in s.b.waiters;
      AheadAppend(s.b.waiters, x, c);
    }
  }

  lemma CheckWaitAdvances(s: System, d: nat, expired: bool, interrupted: bool, c: nat)
    requires Inv(s) && At(s, d, Waiting) && QueuedCall(StepCheckWait(s, d, expired, interrupted), c)
    ensures QueuedCall(s, c)
    ensures Ahead(StepCheckWait(s, d, expired, interrupted).b.waiters, c) <= Ahead(s.b.waiters, c)
  {
    assert s.calls[d].waiter.call == d;
    WithdrawAdvances(s.b, d, c);
    WithdrawAdvances(s.b.(timeouts := s.b.timeouts + 1), d, c);
  }

  lemma AsyncAdvances(s: System, a: Action, d: nat, c: nat)
    requires Inv(s) && Enabled(s, a) && (a == AbandonWait(d) || a == FinishAsync(d)) && QueuedCall(Step(s, a), c)
    ensures QueuedCall(s, c)
    ensures Ahead(Step(s, a).b.waiters, c) <= Ahead(s.b.waiters, c)
  {
    assert s.calls[d].waiter.call == d;
    WithdrawAdvances(s.b, d, c);
    WithdrawAdvances(s.b.(timeouts := s.b.timeouts + 1), d, c);
  }

  /** No step puts a caller back into the queue or moves it backwards; a release
      moves every caller that stays queued forward. */
  lemma StepAdvances(s: System, a: Action, c: nat)
    requires Inv(s) && c < |s.calls| && QueuedCall(Step(s, a), c)
    ensures QueuedCall(s, c)
    ensures Ahead(Step(s, a).b.waiters, c) + ReleaseCount(s, a) <= Ahead(s.b.waiters, c)
  {
    if Enabled(s, a) {
      match a
      case Acquire(token, isAsync) => AcquireAdvances(s, token, isAsync, c);
      case CheckWait(d, expired, interrupted) => CheckWaitAdvances(s, d, expired, interrupted, c);
      case AbandonWait(d) => AsyncAdvances(s, a, d, c);
      case FinishAsync(d) => AsyncAdvances(s, a, d, c);
      case ReleaseSlot => ReleaseAdvances(s, c);
      case _ => SignalAdvances(s, a, c);
    }
  }

  lemma ReleaseAdvances(s: System, c: nat)
    requires Inv(s) && c < |s.calls| && Enabled(s, ReleaseSlot) && QueuedCall(Step(s, ReleaseSlot), c)
    ensures QueuedCall(s, c)
    ensures Ahead(Step(s, ReleaseSlot).b.waiters, c) + ReleaseCount(s, ReleaseSlot) <= Ahead(s.b.waiters, c)
  {
    DispatchAdvances(s.b.(inUse := s.b.inUse - 1, released := s.b.released + 1), c);
  }

  lemma SignalAdvances(s: System, a: Action, c: nat)
    requires Inv(s) && c < |s.calls| && Enabled(s, a)
    requires !a.Acquire? && !a.CheckWait? && !a.AbandonWait? && !a.FinishAsync? && !a.ReleaseSlot?
    ensures Step(s, a).b.waiters == s.b.waiters && ReleaseCount(s, a) == 0
  {
  }

  function Releases(s: System, actions: seq<Action>): nat
    decreases |actions|
  {
    if actions == [] then 0
    else ReleaseCount(s, actions[0]) + Releases(Step(s, actions[0]), actions[1..])
  }

  lemma {:induction false} ExecAdvances(s: System, actions: seq<Action>, c: nat)
    requires Inv(s) && c < |s.calls| && QueuedCall(Exec(s, actions), c)
    ensures QueuedCall(s, c)
    ensures Ahead(Exec(s, actions).b.waiters, c) + Releases(s, actions) <= Ahead(s.b.waiters, c)
    decreases |actions|
  {
    if actions != [] {
      StepInv(s, actions[0]);
      StepGrows(s, actions[0]);
      ExecAdvances(Step(s, actions[0]), actions[1..], c);
      StepAdvances(s, actions[0], c);
    }
  }

  lemma StepGrows(s: System, a: Action)
    ensures |s.calls| <= |Step(s, a).calls|
  {
  }

  /** Bounded bypass: a waiter with k others ahead of it has left the queue for good
      once k + 1 slots have been released, whatever else happens meanwhile. */
  lemma LeavesWithinReleases(max: int, before: seq<Action>, after: seq<Action>, c: nat)
    requires max > 0
    ensures var s := Exec(Start(max), before);
            c < |s.calls| && Releases(s, after) > Ahead(s.b.waiters, c) ==> !QueuedCall(Exec(s, after), c)
  {
    var s := Exec(Start(max), before);
    ExecInv(Start(max), before);
    if c < |s.calls| && QueuedCall(Exec(s, after), c) {
      ExecAdvances(s, after, c);
    }
  }
}
