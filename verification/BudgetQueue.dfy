/** What one dispatch and one withdrawal do to the budget, stated once for all
    inputs: which waiters leave the queue, who is granted, who is woken. */
module BudgetQueue {
  import opened Budget

  /** The queue is in arrival order; calls are distinct. */
  ghost predicate InOrder(ws: seq<Waiter>) {
    forall i, j :: 0 <= i < j < |ws| ==> ws[i].call < ws[j].call
  }

  /** What every critical section assumes of the budget on entry. */
  ghost predicate Sane(b: Budget) {
    && 0 < b.max
    && b.inUse <= b.max
    && b.inUse == b.acquired - b.released
    && |b.granted| <= b.inUse
    && InOrder(b.waiters)
    && (forall w :: w in b.waiters ==> w.call !in b.granted)
    && (forall w, c :: w in b.waiters && c in b.granted ==> c < w.call)
  }

  /** Every free slot has been given out: work conservation. */
  ghost predicate Conserving(b: Budget) {
    b.inUse == b.max || b.waiters == []
  }

  /** A waiter that left the queue was granted, or is closing, or cannot be woken any more. */
  ghost predicate Left(w: Waiter, b: Budget) {
    || w.call in b.granted
    || Cancelled(w, b.signals)
    || (w.isAsync && !Schedulable(w, b.signals))
  }

  /** Its caller has been woken, unless its future or loop is gone. */
  ghost predicate Woken(w: Waiter, g: Signals) {
    if w.isAsync then w.call in g.scheduled || !Schedulable(w, g) else w.call !in g.asleep
  }

  /** `after` is `before` with its first `n` waiters served, in order. */
  ghost predicate Served(before: Budget, after: Budget, n: nat) {
    && n <= |before.waiters|
    && after.waiters == before.waiters[n..]
    && after.max == before.max
    && after.timeouts == before.timeouts
    && after.released == before.released
    && after.acquired - before.acquired == after.inUse - before.inUse == |after.granted| - |before.granted| >= 0
    && before.granted <= after.granted
    && after.signals.cancelled == before.signals.cancelled
    && after.signals.done == before.signals.done
    && after.signals.dead == before.signals.dead
    && before.signals.scheduled <= after.signals.scheduled
    && after.signals.asleep <= before.signals.asleep
    && (forall c :: c in after.granted ==> c in before.granted || exists i :: 0 <= i < n && before.waiters[i].call == c)
    && (forall i :: 0 <= i < n ==> Left(before.waiters[i], after) && Woken(before.waiters[i], after.signals))
    && (forall c :: c in after.signals.scheduled ==>
          c in before.signals.scheduled ||
          exists i :: 0 <= i < n && before.waiters[i].call == c &&
                      (c in after.granted || Cancelled(before.waiters[i], after.signals)))
  }

  lemma TailInOrder(ws: seq<Waiter>)
    requires InOrder(ws) && ws != []
    ensures InOrder(ws[1..])
    ensures forall w :: w in ws[1..] ==> w in ws && ws[0].call < w.call
  {
  }

  lemma ServeHeadSane(b: Budget)
    requires Sane(b) && b.inUse < b.max && b.waiters != []
    ensures Sane(ServeHead(b))
  {
    assert b.waiters[0] in b.waiters;
    TailInOrder(b.waiters);
  }

  lemma ServeHeadServes(b: Budget)
    requires Sane(b) && b.inUse < b.max && b.waiters != []
    ensures Served(b, ServeHead(b), 1)
  {
    assert b.waiters[0] in b.waiters;
  }

  lemma ServedTwice(a: Budget, b: Budget, c: Budget, n: nat)
    requires Served(a, b, 1) && Served(b, c, n)
    ensures Served(a, c, n + 1)
  {
    forall i | 0 <= i < n + 1
      ensures Left(a.waiters[i], c) && Woken(a.waiters[i], c.signals)
    {
      if i > 0 {
        assert a.waiters[i] == b.waiters[i - 1];
      }
    }
    forall k | k in c.granted
      ensures k in a.granted || exists i :: 0 <= i < n + 1 && a.waiters[i].call == k
    {
      if k !in b.granted {
        var i :| 0 <= i < n && b.waiters[i].call == k;
        assert a.waiters[i + 1].call == k;
      }
    }
    forall k | k in c.signals.scheduled
      ensures k in a.signals.scheduled ||
              exists i :: 0 <= i < n + 1 && a.waiters[i].call == k &&
                          (k in c.granted || Cancelled(a.waiters[i], c.signals))
    {
      if k !in b.signals.scheduled {
        var i :| 0 <= i < n && b.waiters[i].call == k && (k in c.granted || Cancelled(b.waiters[i], c.signals));
        assert a.waiters[i + 1].call == k;
      }
    }
  }

  /** Dispatch serves a prefix of the queue, at least the head when a slot is free,
      and leaves no free slot beside a waiter. */
  lemma {:induction false} DispatchServes(b: Budget) returns (n: nat)
    requires Sane(b)
    ensures Sane(Dispatch(b)) && Conserving(Dispatch(b))
    ensures Served(b, Dispatch(b), n)
    ensures b.inUse < b.max && b.waiters != [] ==> n > 0
    decreases |b.waiters|
  {
    if b.inUse < b.max && b.waiters != [] {
      ServeHeadSane(b);
      ServeHeadServes(b);
      var m := DispatchServes(ServeHead(b));
      ServedTwice(b, ServeHead(b), Dispatch(b), m);
      n := m + 1;
    } else {
      n := 0;
    }
  }

  lemma {:induction false} RemoveCallMembers(ws: seq<Waiter>, call: nat)
    requires InOrder(ws)
    ensures forall w :: w in RemoveCall(ws, call) <==> w in ws && w.call != call
  {
    if ws != [] {
      TailInOrder(ws);
      RemoveCallMembers(ws[1..], call);
      assert forall w :: w in ws <==> w == ws[0] || w in ws[1..];
    }
  }

  lemma {:induction false} RemoveCallKeeps(ws: seq<Waiter>, call: nat)
    requires InOrder(ws)
    ensures InOrder(RemoveCall(ws, call))
    ensures forall w :: w in RemoveCall(ws, call) <==> w in ws && w.call != call
  {
    RemoveCallMembers(ws, call);
    if ws != [] {
      TailInOrder(ws);
      RemoveCallKeeps(ws[1..], call);
      if ws[0].call != call { HeadFirst(ws, RemoveCall(ws[1..], call)); }
    }
  }

  /** The head of a queue still comes first before any part of its tail. */
  lemma HeadFirst(ws: seq<Waiter>, part: seq<Waiter>)
    requires InOrder(ws) && ws != [] && InOrder(part) && forall w :: w in part ==> w in ws[1..]
    ensures InOrder([ws[0]] + part)
  {
    forall i | 0 <= i < |part| ensures ws[0].call < part[i].call {
      assert part[i] in ws[1..];
      var k :| 0 <= k < |ws[1..]| && ws[1..][k] == part[i];
      assert ws[k + 1] == part[i];
    }
  }

  lemma CancelWaiterSane(b: Budget, call: nat)
    requires Sane(b)
    ensures Sane(CancelWaiter(b, call))
  {
    RemoveCallKeeps(b.waiters, call);
  }

  /** Withdrawing a call a second time returns nothing more. */
  lemma CancelTwice(b: Budget, call: nat)
    requires Sane(b)
    ensures CancelWaiter(CancelWaiter(b, call), call) == CancelWaiter(b, call)
    ensures CancelWaiter(b, call).inUse == b.inUse - (if call in b.granted then 1 else 0)
  {
    RemoveCallKeeps(b.waiters, call);
    RemoveAbsent(RemoveCall(b.waiters, call), call);
  }

  lemma {:induction false} RemoveAbsent(ws: seq<Waiter>, call: nat)
    requires forall w :: w in ws ==> w.call != call
    ensures RemoveCall(ws, call) == ws
  {
    if ws != [] {
      RemoveAbsent(ws[1..], call);
    }
  }

  lemma {:induction false} NotifyWakes(ws: seq<Waiter>, g: Signals)
    ensures var h := NotifyFrom(ws, g);
            && h.cancelled == g.cancelled && h.done == g.done && h.dead == g.dead
            && h.asleep <= g.asleep && g.scheduled <= h.scheduled
            && (forall c :: c in h.scheduled ==>
                  (c in g.scheduled || exists w :: w in ws && w.call == c && Cancelled(w, g)))
            && (forall w :: w in ws && Cancelled(w, g) && w.isAsync ==> Woken(w, h))
  {
    if ws != [] {
      var g1 := if Cancelled(ws[0], g) then Wake(ws[0], g) else g;
      NotifyWakes(ws[1..], g1);
      assert forall w :: w in ws <==> w == ws[0] || w in ws[1..];
    }
  }
}
