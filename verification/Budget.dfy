/** The connection budget (remote_cmd/core/budget.py): a counting semaphore whose
    synchronous and asynchronous waiters share one FIFO queue. A slot is reserved
    for a waiter before the waiter is woken, and a waiter that gives up returns a
    slot it was already granted inside the same critical section.

    `Budget` is the value of one budget object; each function below is what one
    block under `with self._cond` does to it. `ConnectionBudget` is the object
    itself: its methods update the fields in place and are proved against the
    functions. */
module Budget {
  import opened Options

  /** One pending call. Calls are numbered in the order in which they reach the
      budget, so the number is also the arrival order. `token` is the cancel event
      of the pool on whose behalf the call waits. */
  datatype Waiter = Waiter(call: nat, token: Option<nat>, isAsync: bool)

  /** What the budget observes of, and does to, the threads and event loops around
      it: cancel events that are set (they are never cleared), futures already done,
      event loops already closed, wake-up callbacks handed to an event loop, and
      synchronous callers blocked on the condition variable. */
  datatype Signals = Signals(
    cancelled: set<nat>,
    done: set<nat>,
    dead: set<nat>,
    scheduled: set<nat>,
    asleep: set<nat>)

  /** `granted` holds the calls whose waiter record has its `granted` flag set and
      which have not returned to their caller yet. */
  datatype Budget = Budget(
    max: int,
    inUse: int,
    waiters: seq<Waiter>,
    granted: set<nat>,
    acquired: int,
    released: int,
    timeouts: int,
    signals: Signals)

  predicate Cancelled(w: Waiter, g: Signals) {
    w.token.Some? && w.token.value in g.cancelled
  }

  predicate Schedulable(w: Waiter, g: Signals) {
    w.isAsync && w.call !in g.done && w.call !in g.dead
  }

  /** Wakes the caller behind `w`: notify_all for a thread, a callback on its event
      loop for a task (nothing when its future is done or its loop is closed). */
  function Wake(w: Waiter, g: Signals): Signals {
    if !w.isAsync then g.(asleep := {})
    else if Schedulable(w, g) then g.(scheduled := g.scheduled + {w.call})
    else g
  }

  function Reserve(b: Budget): Budget {
    b.(inUse := b.inUse + 1, acquired := b.acquired + 1)
  }

  /** Serves the queue head: skipped when its cancel event is set or its future can
      no longer be resolved, otherwise granted a slot and woken. */
  function ServeHead(b: Budget): Budget
    requires b.waiters != []
  {
    var w := b.waiters[0];
    var rest := b.(waiters := b.waiters[1..]);
    if Cancelled(w, b.signals) then rest.(signals := Wake(w, b.signals))
    else if w.isAsync && !Schedulable(w, b.signals) then rest
    else Reserve(rest).(granted := b.granted + {w.call}, signals := Wake(w, b.signals))
  }

  function Dispatch(b: Budget): Budget
    decreases |b.waiters|
  {
    if b.inUse < b.max && b.waiters != [] then Dispatch(ServeHead(b)) else b
  }

  function RemoveCall(ws: seq<Waiter>, call: nat): seq<Waiter> {
    if ws == [] then []
    else if ws[0].call == call then ws[1..]
    else [ws[0]] + RemoveCall(ws[1..], call)
  }

  /** Withdraws a call; a slot already reserved for it is returned at once. */
  function CancelWaiter(b: Budget, call: nat): Budget {
    var back := if call in b.granted
                then b.(granted := b.granted - {call}, inUse := b.inUse - 1, released := b.released + 1)
                else b;
    back.(waiters := RemoveCall(b.waiters, call))
  }

  function Withdraw(b: Budget, call: nat): Budget {
    Dispatch(CancelWaiter(b, call))
  }

  /** How a call to acquire ended. `Unreserved` is the RuntimeError "woke without a
      reserved slot"; `Interrupted` is any other exception raised while waiting. */
  datatype Outcome = Acquired | TimedOut | Closed | Interrupted | Unreserved

  datatype Entry = Returned(outcome: Outcome) | Queued

  /** The block with which acquire and acquire_async start. */
  function Enter(b: Budget, w: Waiter): (Budget, Entry) {
    if Cancelled(w, b.signals) then (b, Returned(Closed))
    else if b.inUse < b.max && b.waiters == [] then (Reserve(b), Returned(Acquired))
    else (Dispatch(b.(waiters := b.waiters + [w])), Queued)
  }

  /** One turn of the waiting loop of a synchronous caller. `expired` says that its
      deadline has passed, `interrupted` that the wait itself raised. */
  function Poll(b: Budget, w: Waiter, expired: bool, interrupted: bool): (Budget, Entry) {
    if interrupted then (Withdraw(b, w.call), Returned(Interrupted))
    else if w.call in b.granted then
      if Cancelled(w, b.signals) then (Withdraw(b, w.call), Returned(Closed))
      else (b.(granted := b.granted - {w.call}), Returned(Acquired))
    else if Cancelled(w, b.signals) then (Withdraw(b, w.call), Returned(Closed))
    else if expired then (Withdraw(b.(timeouts := b.timeouts + 1), w.call), Returned(TimedOut))
    else (b.(signals := b.signals.(asleep := b.signals.asleep + {w.call})), Queued)
  }

  /** The block an asynchronous caller runs after its wait timed out or was cancelled. */
  function Abandon(b: Budget, w: Waiter, expired: bool): (Budget, Outcome) {
    if expired then (Withdraw(b.(timeouts := b.timeouts + 1), w.call), TimedOut)
    else (Withdraw(b, w.call), Interrupted)
  }

  /** The last block of acquire_async, after its future was resolved. */
  function Resume(b: Budget, w: Waiter): (Budget, Outcome) {
    if Cancelled(w, b.signals) then (Withdraw(b, w.call), Closed)
    else if w.call !in b.granted then (Withdraw(b, w.call), Unreserved)
    else (b.(granted := b.granted - {w.call}), Acquired)
  }

  /** Returns the new budget and whether the release was accepted (ValueError otherwise). */
  function Release(b: Budget): (Budget, bool) {
    if b.inUse <= 0 then (b, false)
    else (Dispatch(b.(inUse := b.inUse - 1, released := b.released + 1)), true)
  }

  /** _notify_waiters: every queued waiter whose cancel event is set is woken. */
  function NotifyFrom(ws: seq<Waiter>, g: Signals): Signals {
    if ws == [] then g
    else NotifyFrom(ws[1..], if Cancelled(ws[0], g) then Wake(ws[0], g) else g)
  }

  function Notify(b: Budget): Budget {
    b.(signals := NotifyFrom(b.waiters, b.signals.(asleep := {})))
  }

  /** Dispatching acquires a slot for each one in use more, and counts nothing else. */
  lemma {:induction false} DispatchCounts(b: Budget)
    ensures var d := Dispatch(b);
            && d.released == b.released && d.timeouts == b.timeouts && d.max == b.max
            && d.acquired - b.acquired == d.inUse - b.inUse >= 0
    decreases |b.waiters|
  {
    if b.inUse < b.max && b.waiters != [] {
      DispatchCounts(ServeHead(b));
    }
  }

  /** A close notification: all threads wake up, and exactly those queued tasks whose cancel
      event is set and whose futures can still be resolved. */
  lemma {:induction false} NotifyExactly(ws: seq<Waiter>, g: Signals)
    requires g.asleep == {}
    ensures var h := NotifyFrom(ws, g);
            && h == g.(scheduled := h.scheduled)
            && forall c :: c in h.scheduled <==>
                 c in g.scheduled ||
                 exists w :: w in ws && w.call == c && w.isAsync && w.call !in g.done && w.call !in g.dead
                             && w.token.Some? && w.token.value in g.cancelled
  {
    if ws != [] {
      NotifyExactly(ws[1..], if Cancelled(ws[0], g) then Wake(ws[0], g) else g);
      assert forall w :: w in ws <==> w == ws[0] || w in ws[1..];
    }
  }

  /** The budget object. */
  class ConnectionBudget {
    const max: int
    var inUse: int
    var waiters: seq<Waiter>
    var granted: set<nat>
    var totalAcquired: int
    var totalReleased: int
    var totalTimeouts: int
    var signals: Signals

    function Value(): Budget
      reads this
    {
      Budget(max, inUse, waiters, granted, totalAcquired, totalReleased, totalTimeouts, signals)
    }

    constructor (maxConnections: int, signals: Signals)
      requires maxConnections > 0
      ensures Value() == Budget(maxConnections, 0, [], {}, 0, 0, 0, signals)
    {
      max := maxConnections;
      inUse, waiters, granted := 0, [], {};
      totalAcquired, totalReleased, totalTimeouts := 0, 0, 0;
      this.signals := signals;
    }

    method ReserveSlot()
      modifies this
      ensures Value() == Reserve(old(Value()))
    {
      inUse := inUse + 1;
      totalAcquired := totalAcquired + 1;
    }

    method DispatchWaiters()
      modifies this
      ensures Value() == Dispatch(old(Value()))
    {
      while inUse < max && waiters != []
        invariant Dispatch(Value()) == Dispatch(old(Value()))
        decreases |waiters|
      {
        var w := waiters[0];
        waiters := waiters[1..];
        if Cancelled(w, signals) {
          signals := Wake(w, signals);
          continue;
        }
        if w.isAsync && !Schedulable(w, signals) {
          continue;
        }
        signals := Wake(w, signals);
        granted := granted + {w.call};
        ReserveSlot();
      }
    }

    method Cancel(call: nat)
      modifies this
      ensures Value() == CancelWaiter(old(Value()), call)
      ensures granted == old(granted) - {call} && signals == old(signals)
      ensures old(inUse) - inUse == totalReleased - old(totalReleased) == if call in old(granted) then 1 else 0
      ensures totalAcquired == old(totalAcquired) && totalTimeouts == old(totalTimeouts)
    {
      if call in granted {
        granted := granted - {call};
        inUse := inUse - 1;
        totalReleased := totalReleased + 1;
      }
      waiters := RemoveCall(waiters, call);
    }

    method AcquireEnter(w: Waiter) returns (entry: Entry)
      modifies this
      ensures (Value(), entry) == Enter(old(Value()), w)
      ensures w.token.Some? && w.token.value in old(signals).cancelled ==>
                entry == Returned(Closed) && Value() == old(Value())
      ensures !(w.token.Some? && w.token.value in old(signals).cancelled) ==>
                if old(inUse) < max && old(waiters) == []
                then && entry == Returned(Acquired) && waiters == [] && signals == old(signals)
                     && inUse == old(inUse) + 1 && totalAcquired == old(totalAcquired) + 1
                else entry == Queued
      ensures totalReleased == old(totalReleased) && totalTimeouts == old(totalTimeouts)
    {
      DispatchCounts(Value().(waiters := waiters + [w]));
      if Cancelled(w, signals) {
        return Returned(Closed);
      }
      if inUse < max && waiters == [] {
        ReserveSlot();
        return Returned(Acquired);
      }
      waiters := waiters + [w];
      DispatchWaiters();
      entry := Queued;
    }

    /** An exception of the wait comes first, then the cancel event, then the slot, then the
        deadline; a call that has none of them sleeps on, and nothing else changes. Only a
        deadline counts as a timeout, and a slot reserved for a call that does not take it
        goes back. */
    method AcquirePoll(w: Waiter, expired: bool, interrupted: bool) returns (entry: Entry)
      modifies this
      ensures (Value(), entry) == Poll(old(Value()), w, expired, interrupted)
      ensures entry == if interrupted then Returned(Interrupted)
                       else if w.token.Some? && w.token.value in old(signals).cancelled then Returned(Closed)
                       else if w.call in old(granted) then Returned(Acquired)
                       else if expired then Returned(TimedOut)
                       else Queued
      ensures totalTimeouts == old(totalTimeouts) + if entry == Returned(TimedOut) then 1 else 0
      ensures entry == Queued ==>
                Value() == old(Value()).(signals := old(signals).(asleep := old(signals).asleep + {w.call}))
      ensures entry == Returned(Acquired) ==> Value() == old(Value()).(granted := old(granted) - {w.call})
      ensures totalReleased - old(totalReleased)
           == if entry != Returned(Acquired) && w.call in old(granted) then 1 else 0
    {
      DispatchCounts(CancelWaiter(Value(), w.call));
      DispatchCounts(CancelWaiter(Value().(timeouts := totalTimeouts + 1), w.call));
      if interrupted {
        Cancel(w.call);
        DispatchWaiters();
        return Returned(Interrupted);
      }
      if w.call !in granted {
        if Cancelled(w, signals) {
          Cancel(w.call);
          DispatchWaiters();
          return Returned(Closed);
        }
        if expired {
          totalTimeouts := totalTimeouts + 1;
          Cancel(w.call);
          DispatchWaiters();
          return Returned(TimedOut);
        }
        signals := signals.(asleep := signals.asleep + {w.call});
        return Queued;
      }
      if Cancelled(w, signals) {
        Cancel(w.call);
        DispatchWaiters();
        return Returned(Closed);
      }
      granted := granted - {w.call};
      entry := Returned(Acquired);
    }

    method AcquireAbandon(w: Waiter, expired: bool) returns (outcome: Outcome)
      modifies this
      ensures (Value(), outcome) == Abandon(old(Value()), w, expired)
      ensures outcome == if expired then TimedOut else Interrupted
      ensures totalTimeouts == old(totalTimeouts) + if expired then 1 else 0
      ensures totalReleased - old(totalReleased) == if w.call in old(granted) then 1 else 0
    {
      DispatchCounts(CancelWaiter(Value(), w.call));
      DispatchCounts(CancelWaiter(Value().(timeouts := totalTimeouts + 1), w.call));
      if expired {
        totalTimeouts := totalTimeouts + 1;
      }
      Cancel(w.call);
      DispatchWaiters();
      outcome := if expired then TimedOut else Interrupted;
    }

    method AcquireResume(w: Waiter) returns (outcome: Outcome)
      modifies this
      ensures (Value(), outcome) == Resume(old(Value()), w)
      ensures outcome == if w.token.Some? && w.token.value in old(signals).cancelled then Closed
                         else if w.call in old(granted) then Acquired
                         else Unreserved
      ensures outcome == Acquired ==> Value() == old(Value()).(granted := old(granted) - {w.call})
      ensures totalReleased - old(totalReleased) == if outcome != Acquired && w.call in old(granted) then 1 else 0
      ensures totalTimeouts == old(totalTimeouts)
    {
      DispatchCounts(CancelWaiter(Value(), w.call));
      if Cancelled(w, signals) {
        Cancel(w.call);
        DispatchWaiters();
        return Closed;
      }
      if w.call !in granted {
        Cancel(w.call);
        DispatchWaiters();
        return Unreserved;
      }
      granted := granted - {w.call};
      outcome := Acquired;
    }

    method ReleaseSlot() returns (accepted: bool)
      modifies this
      ensures (Value(), accepted) == Release(old(Value()))
      ensures accepted <==> old(inUse) > 0
      ensures !accepted ==> Value() == old(Value())
      ensures accepted ==> totalReleased == old(totalReleased) + 1 && totalTimeouts == old(totalTimeouts)
      ensures inUse - old(inUse) == (totalAcquired - old(totalAcquired)) - (totalReleased - old(totalReleased))
    {
      DispatchCounts(Value().(inUse := inUse - 1, released := totalReleased + 1));
      if inUse <= 0 {
        return false;
      }
      inUse := inUse - 1;
      totalReleased := totalReleased + 1;
      DispatchWaiters();
      accepted := true;
    }

    method NotifyWaiters()
      modifies this
      ensures Value() == Notify(old(Value()))
      ensures Value() == old(Value()).(signals := signals)
      ensures signals.asleep == {}
      ensures signals == old(signals).(asleep := {}, scheduled := signals.scheduled)
      ensures forall c :: c in signals.scheduled <==>
                c in old(signals).scheduled ||
                exists w :: w in old(waiters) && w.call == c && w.isAsync && w.call !in old(signals).done
                            && w.call !in old(signals).dead && w.token.Some? && w.token.value in old(signals).cancelled
    {
      NotifyExactly(waiters, signals.(asleep := {}));
      signals := signals.(asleep := {});
      ghost var start := signals;
      for i := 0 to |waiters|
        invariant waiters == old(waiters) && inUse == old(inUse) && granted == old(granted)
        invariant totalAcquired == old(totalAcquired) && totalReleased == old(totalReleased)
        invariant totalTimeouts == old(totalTimeouts)
        invariant NotifyFrom(waiters[i..], signals) == NotifyFrom(waiters, start)
      {
        assert waiters[i..][1..] == waiters[i + 1..];
        if Cancelled(waiters[i], signals) {
          signals := Wake(waiters[i], signals);
        }
      }
    }
  }
}
