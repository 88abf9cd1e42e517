/** Closing a pool: what close_all still has to close, and what can no longer happen. */
module PoolClosing {
  import opened Counting
  import opened SyncPool
  import opened PoolRuns
  import opened PoolOwnership
  import opened PoolLedger

  /** A thread inside close_all, and the connections it has yet to close. */
  predicate IsCloser(pc: Pc) {
    match pc
    case CloseEach(_) => true
    case Disconnect(_, next) => next.CloseEachOn?
    case Untracking(_, next) => next.CloseEachOn?
    case FreeSlot(next) => next.CloseEachOn?
    case Done(result) => result.ClosedAll?
    case _ => false
  }

  function Pending(pc: Pc): set<nat>
    requires IsCloser(pc)
  {
    match pc
    case CloseEach(conns) => conns
    case Disconnect(c, next) => {c} + next.conns
    case Untracking(c, next) => {c} + next.conns
    case FreeSlot(next) => next.conns
    case Done(_) => {}
  }

  ghost predicate Closers(s: System) {
    forall i :: 0 <= i < |s.threads| && IsCloser(s.threads[i]) ==>
      s.p.closed && s.p.connections <= Pending(s.threads[i])
  }

  /** Once a pool is closed, a step only takes connections away; no acquire leases
      one, and a closing thread that drops a connection from its list has untracked it. */
  ghost predicate Shrinks(s: System, s': System, t: nat)
    requires t < |s.threads| == |s'.threads|
  {
    var pc, pc' := s.threads[t], s'.threads[t];
    && (s.p.closed ==> s'.p.closed && s'.p.connections <= s.p.connections && s'.p.free == [] && s'.p.leased == {})
    && (s.p.closed && pc'.Done? && pc'.result.Leased? ==> pc' == pc)
    && (IsCloser(pc') ==> IsCloser(pc))
    && (IsCloser(pc') && s.p.connections <= Pending(pc) ==> s'.p.connections <= Pending(pc'))
  }

  lemma AcquireShrinks(s: System, t: nat)
    requires t < |s.threads| && Tidy(s.p)
    ensures Shrinks(s, AcquireStep(s, t), t)
  {
  }

  lemma CreateShrinks(s: System, t: nat)
    requires t < |s.threads| && Tidy(s.p)
    ensures Shrinks(s, CreateStep(s, t), t)
  {
  }

  lemma ReturnShrinks(s: System, t: nat)
    requires t < |s.threads| && Tidy(s.p)
    ensures Shrinks(s, ReturnStep(s, t), t)
  {
  }

  lemma CloseShrinks(s: System, t: nat)
    requires t < |s.threads| && Tidy(s.p)
    ensures Shrinks(s, CloseStep(s, t), t)
  {
  }

  lemma SweepShrinks(s: System, t: nat)
    requires t < |s.threads| && Tidy(s.p)
    ensures Shrinks(s, SweepStep(s, t), t)
  {
  }

  lemma CloseNextShrinks(s: System, t: nat, c: nat)
    requires t < |s.threads| && Tidy(s.p)
    ensures Shrinks(s, CloseNext(s, t, c), t)
  {
  }

  lemma JudgedShrinks(s: System, t: nat, verdict: Verdict)
    requires t < |s.threads| && Tidy(s.p)
    ensures Shrinks(s, Judged(s, t, verdict), t)
  {
  }

  lemma MovedShrinks(s: System, t: nat, move: Move)
    requires t < |s.threads| && Tidy(s.p)
    ensures Shrinks(s, Moved(s, t, move), t)
  {
    match move
    case Advance =>
      AcquireShrinks(s, t);
      CreateShrinks(s, t);
      ReturnShrinks(s, t);
      CloseShrinks(s, t);
      SweepShrinks(s, t);
    case Judge(verdict) => JudgedShrinks(s, t, verdict);
    case CloseOne(c) => CloseNextShrinks(s, t, c);
    case _ =>
  }

  lemma StepClosers(s: System, a: Action)
    requires Own(s) && Closers(s)
    ensures Closers(Step(s, a))
  {
    var s' := Step(s, a);
    match a
    case On(t, move) =>
      if t < |s.threads| {
        MovedShrinks(s, t, move);
        MovedOnly(s, t, move);
        forall i | 0 <= i < |s'.threads| && IsCloser(s'.threads[i])
          ensures s'.p.closed && s'.p.connections <= Pending(s'.threads[i])
        {
          assert IsCloser(s.threads[i]);
        }
      }
    case _ =>
      forall i | 0 <= i < |s'.threads| && IsCloser(s'.threads[i])
        ensures s'.p.closed && s'.p.connections <= Pending(s'.threads[i])
      {
        assert i < |s.threads| ==> s'.threads[i] == s.threads[i];
      }
  }

  lemma {:induction false} ExecClosers(s: System, actions: seq<Action>)
    requires Own(s) && Closers(s)
    ensures Own(Exec(s, actions)) && Closers(Exec(s, actions))
    decreases |actions|
  {
    if actions != [] {
      StepOwn(s, actions[0]);
      StepClosers(s, actions[0]);
      ExecClosers(Step(s, actions[0]), actions[1..]);
    }
  }

  /** One step of a closed pool: nothing is tracked, freed or leased any more. */
  lemma ClosedStep(s: System, a: Action)
    requires Own(s) && s.p.closed
    ensures var s' := Step(s, a);
            && s'.p.closed && s'.p.connections <= s.p.connections && s'.p.free == [] && s'.p.leased == {}
            && |s.threads| <= |s'.threads|
            && (forall i :: 0 <= i < |s'.threads| && s'.threads[i].Done? && s'.threads[i].result.Leased? ==>
                  i < |s.threads| && s'.threads[i] == s.threads[i])
  {
    match a
    case On(t, move) =>
      if t < |s.threads| {
        MovedShrinks(s, t, move);
        MovedOnly(s, t, move);
      }
    case _ =>
  }

  lemma {:induction false} ClosedExec(s: System, actions: seq<Action>)
    requires Own(s) && s.p.closed
    ensures var s' := Exec(s, actions);
            && s'.p.closed && s'.p.connections <= s.p.connections && s'.p.free == [] && s'.p.leased == {}
            && |s.threads| <= |s'.threads|
            && (forall i :: 0 <= i < |s'.threads| && s'.threads[i].Done? && s'.threads[i].result.Leased? ==>
                  i < |s.threads| && s'.threads[i] == s.threads[i])
    decreases |actions|
  {
    if actions != [] {
      var m := Step(s, actions[0]);
      ClosedStep(s, actions[0]);
      StepOwn(s, actions[0]);
      ClosedExec(m, actions[1..]);
    }
  }

  /** Close safety over whole runs. From the moment a pool is closed: no connection is
      tracked or put into the free queue, no acquire returns one, and there is a permit
      for every thread still blocked on the semaphore; when close_all has returned,
      nothing is tracked at all, now or later. */
  lemma CloseSafety(max: nat, before: seq<Action>, after: seq<Action>)
    requires Exec(Start(max), before).p.closed
    ensures var s := Exec(Start(max), before);
            var s' := Exec(s, after);
            && s'.p.closed && s'.p.connections <= s.p.connections && s'.p.free == [] && s'.p.leased == {}
            && s'.p.permits >= Total(s'.threads, Blocked)
            && (forall i :: 0 <= i < |s'.threads| && s'.threads[i].Done? && s'.threads[i].result.Leased? ==>
                  i < |s.threads| && s'.threads[i] == s.threads[i])
            && (forall i :: 0 <= i < |s'.threads| && s'.threads[i] == Done(ClosedAll) ==> s'.p.connections == {})
  {
    var s := Exec(Start(max), before);
    ExecLedger(Start(max), before);
    ExecClosers(Start(max), before);
    ClosedExec(s, after);
    ExecLedger(s, after);
    ExecClosers(s, after);
  }
}
