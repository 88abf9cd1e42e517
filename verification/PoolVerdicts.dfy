/** What checks decide: a connection is lent, kept or put back only by a thread that has
    found it fit, and one that was found unfit is closed. */
module PoolVerdicts {
  import opened Sequences
  import opened SyncPool
  import opened PoolRuns
  import opened PoolOwnership
  import opened PoolCapacity

  /** The branches that follow a check of a health, a connect, a returned connection or an
      idle one in a cleanup. */
  lemma VerdictDecides(s: System, t: nat, verdict: Verdict)
    requires t < |s.threads|
    ensures var pc, s' := s.threads[t], Moved(s, t, Judge(verdict));
            && s'.p == s.p && |s'.threads| == |s.threads|
            && (pc.CheckHealth? ==>
                  s'.threads[t] == if verdict == Good then LeaseFree(pc.conn)
                                   else Disconnect(pc.conn, if verdict == Bad then TryNextFree else FailAcquire))
            && (pc.Connecting? ==>
                  s'.threads[t] == if verdict == Good then TrackNew(pc.conn) else DropClient(pc.conn, true, true))
            && (pc.Inspect? ==>
                  s'.threads[t] == if verdict == Good then PutBackFree(pc.conn) else Disconnect(pc.conn, GivePermitBack))
            && (pc.Scan? && pc.rest != [] ==>
                  s'.threads[t] == if verdict == Good then Scan(pc.rest[1..], pc.keep + [pc.rest[0]])
                                   else if verdict == Bad then Disconnect(pc.rest[0], ScanOn(pc.rest[1..], pc.keep))
                                   else Done(Failed))
            && s'.orphans == if pc.Scan? && pc.rest != [] && verdict == Raised then s.orphans + pc.rest + pc.keep else s.orphans
  {
  }

  /** The thread answers for connection `c`: it is about to lend it or put it back, or has
      lent it. */
  predicate Vouches(pc: Pc, c: nat) {
    match pc
    case LeaseFree(d) => c == d
    case TrackNew(d) => c == d
    case LeaseNew(d) => c == d
    case Done(result) => result == Leased(c)
    case PutBackFree(d) => c == d
    case Scan(_, keep) => c in keep
    case RestoreKept(keep) => c in keep
    case Disconnect(_, next) => next.ScanOn? && c in next.keep
    case Untracking(_, next) => next.ScanOn? && c in next.keep
    case FreeSlot(next) => next.ScanOn? && c in next.keep
    case _ => false
  }

  /** The thread is looking at connection `c`. */
  predicate LooksAt(pc: Pc, c: nat) {
    || pc == CheckHealth(c) || pc == Connecting(c) || pc == Inspect(c)
    || (pc.Scan? && pc.rest != [] && pc.rest[0] == c)
  }

  lemma JudgedVouch(s: System, t: nat, verdict: Verdict, c: nat)
    requires t < |s.threads| && Vouches(Judged(s, t, verdict).threads[t], c) && !Vouches(s.threads[t], c)
    ensures verdict == Good && LooksAt(s.threads[t], c)
  {
  }

  lemma ContinueVouch(s: System, t: nat, c: nat)
    requires t < |s.threads| && Vouches(Continue(s, t).threads[t], c)
    ensures Vouches(s.threads[t], c)
  {
  }

  lemma MovedVouch(s: System, t: nat, move: Move, c: nat)
    requires t < |s.threads| && Vouches(Moved(s, t, move).threads[t], c) && !Vouches(s.threads[t], c)
    ensures move == Judge(Good) && LooksAt(s.threads[t], c)
  {
    match move
    case Advance => ContinueVouch(s, t, c);
    case Judge(verdict) => JudgedVouch(s, t, verdict, c);
    case _ =>
  }

  /** At step `k` of the run, thread `t` found connection `c` fit. */
  ghost predicate FoundFit(max: nat, actions: seq<Action>, k: nat, t: nat, c: nat) {
    && k < |actions| && actions[k] == On(t, Judge(Good))
    && var s := Exec(Start(max), actions[..k]); t < |s.threads| && LooksAt(s.threads[t], c)
  }

  lemma {:induction false} VouchedWasFit(max: nat, actions: seq<Action>, t: nat, c: nat) returns (k: nat)
    requires var s := Exec(Start(max), actions); t < |s.threads| && Vouches(s.threads[t], c)
    ensures FoundFit(max, actions, k, t, c)
    decreases |actions|
  {
    if actions == [] {
      assert false;
    } else {
      var last := |actions| - 1;
      var front, a := actions[..last], actions[last];
      assert actions == front + [a];
      ExecThen(Start(max), front, a);
      var s := Exec(Start(max), front);
      StepVouch(s, a, t, c);
      if t < |s.threads| && Vouches(s.threads[t], c) {
        k := VouchedWasFit(max, front, t, c);
        assert actions[..k] == front[..k];
      } else {
        k := last;
      }
    }
  }

  lemma StepVouch(s: System, a: Action, t: nat, c: nat)
    requires t < |Step(s, a).threads| && Vouches(Step(s, a).threads[t], c)
    ensures t < |s.threads| && (Vouches(s.threads[t], c) || (a == On(t, Judge(Good)) && LooksAt(s.threads[t], c)))
  {
    if a.On? {
      if a.t < |s.threads| {
        MovedOnly(s, a.t, a.move);
        if t == a.t && !Vouches(s.threads[t], c) { MovedVouch(s, t, a.move, c); }
      }
    }
  }

  /** Whoever is lent a connection has found it fit in that very call: its health check was
      good, or it has just been connected. */
  lemma LentWasFit(max: nat, actions: seq<Action>, t: nat, c: nat) returns (k: nat)
    requires var s := Exec(Start(max), actions); t < |s.threads| && s.threads[t] == Done(Leased(c))
    ensures FoundFit(max, actions, k, t, c)
  {
    k := VouchedWasFit(max, actions, t, c);
  }

  /** A connection becomes idle only by a thread that has found it fit in that very call. */
  lemma IdleWasFit(max: nat, actions: seq<Action>, a: Action, c: nat) returns (t: nat, k: nat)
    requires var s := Exec(Start(max), actions); c !in s.p.free && c in Step(s, a).p.free
    ensures FoundFit(max, actions, k, t, c)
  {
    var s := Exec(Start(max), actions);
    assert a.On? && a.t < |s.threads| by { OnlyThreadsFill(s, a, c); }
    t := a.t;
    MovedFills(s, t, a.move, c);
    k := VouchedWasFit(max, actions, t, c);
  }

  lemma OnlyThreadsFill(s: System, a: Action, c: nat)
    requires c !in s.p.free && c in Step(s, a).p.free
    ensures a.On? && a.t < |s.threads|
  {
  }

  lemma MovedFills(s: System, t: nat, move: Move, c: nat)
    requires t < |s.threads| && c !in s.p.free && c in Moved(s, t, move).p.free
    ensures Vouches(s.threads[t], c)
  {
    if move.Advance? { ContinueFills(s, t, c); }
  }

  lemma ContinueFills(s: System, t: nat, c: nat)
    requires t < |s.threads| && c !in s.p.free && c in Continue(s, t).p.free
    ensures Vouches(s.threads[t], c)
  {
  }

  /** Only an open pool begins to connect a client, and only with the client's slot in hand. */
  lemma ConnectsWhileOpen(s: System, a: Action, t: nat)
    requires t < |Step(s, a).threads| && Step(s, a).threads[t].Connecting?
    requires !(t < |s.threads| && s.threads[t] == Step(s, a).threads[t])
    ensures !s.p.closed && t < |s.threads| && s.threads[t] == SlotHeld(Step(s, a).threads[t].conn)
  {
    if a.On? && a.t < |s.threads| {
      MovedOnly(s, a.t, a.move);
      if t == a.t { MovedConnects(s, t, a.move); }
    }
  }

  lemma MovedConnects(s: System, t: nat, move: Move)
    requires t < |s.threads| && Moved(s, t, move).threads[t].Connecting? && Moved(s, t, move).threads[t] != s.threads[t]
    ensures !s.p.closed && s.threads[t] == SlotHeld(Moved(s, t, move).threads[t].conn)
  {
    if move.Advance? { ContinueConnects(s, t); }
  }

  lemma ContinueConnects(s: System, t: nat)
    requires t < |s.threads| && Continue(s, t).threads[t].Connecting? && Continue(s, t).threads[t] != s.threads[t]
    ensures !s.p.closed && s.threads[t] == SlotHeld(Continue(s, t).threads[t].conn)
  {
  }

  // ------------------------------------------------------- after the close

  /** The thread has connection `c` to return, to lend or to close. */
  predicate Holds(pc: Pc, c: nat) {
    Hands(pc, c) > 0 || (pc.CloseKept? && c in pc.kept) || (pc.Disconnect? && pc.next.CloseKeptOn? && c in pc.next.kept)
    || (pc.Untracking? && pc.next.CloseKeptOn? && c in pc.next.kept)
    || (pc.FreeSlot? && pc.next.CloseKeptOn? && c in pc.next.kept)
  }

  lemma CountPositive(xs: seq<nat>, c: nat)
    ensures Count(xs, c) > 0 <==> c in xs
  {
    if xs != [] {
      CountPositive(xs[1..], c);
      assert xs == [xs[0]] + xs[1..];
    }
  }

  lemma ContinueHolds(s: System, t: nat, c: nat)
    requires s.p.closed && t < |s.threads| && Holds(s.threads[t], c) && !s.threads[t].LeaseNew?
    requires s.threads[t].Untracking? ==> s.threads[t].conn !in s.live
    ensures Holds(Continue(s, t).threads[t], c) || c !in Continue(s, t).live
  {
    if s.threads[t].RestoreKept? { CountPositive(s.threads[t].keep, c); }
  }

  lemma ScanHolds(s: System, t: nat, verdict: Verdict, c: nat)
    requires t < |s.threads| && s.threads[t].Scan? && Holds(s.threads[t], c)
    ensures Holds(Judged(s, t, verdict).threads[t], c) || c in Judged(s, t, verdict).orphans
  {
    var rest, keep := s.threads[t].rest, s.threads[t].keep;
    if rest != [] {
      CountPositive(rest, c);
      CountPositive(keep, c);
      CountPush(keep, rest[0], c);
    }
  }

  lemma JudgedHolds(s: System, t: nat, verdict: Verdict, c: nat)
    requires t < |s.threads| && Holds(s.threads[t], c)
    ensures Holds(Judged(s, t, verdict).threads[t], c) || c in Judged(s, t, verdict).orphans
  {
    if s.threads[t].Scan? { ScanHolds(s, t, verdict, c); }
  }

  /** In a closed pool no call lets go of a connection that it has taken out of the books
      before it has disconnected it, unless a look of a cleanup raises. (A connection that
      was tracked only now is before close_all.) */
  lemma HeldUntilClosed(max: nat, actions: seq<Action>, t: nat, move: Move, c: nat)
    requires var s := Exec(Start(max), actions);
             s.p.closed && t < |s.threads| && Holds(s.threads[t], c) && !s.threads[t].LeaseNew?
    ensures var s' := Moved(Exec(Start(max), actions), t, move);
            |s'.threads| > t && (Holds(s'.threads[t], c) || c !in s'.live || c in s'.orphans)
  {
    var s := Exec(Start(max), actions);
    ExecLive(Start(max), actions);
    MovedOnly(s, t, move);
    match move
    case Advance => ContinueHolds(s, t, c);
    case Judge(verdict) => JudgedHolds(s, t, verdict, c);
    case _ =>
  }

  /** A call of release: what is not lent out is left alone, a lease of an open pool is
      looked at, one of a closed pool is closed. */
  lemma ReleaseDecides(s: System, c: nat)
    ensures var p, s' := s.p, Step(s, CallRelease(c));
            s'.threads == s.threads + [if c !in p.leased && c !in p.closedLeases then Done(Finished)
                                       else if p.closed then Disconnect(c, Finish) else Inspect(c)]
            && s'.p.leased == p.leased - {c} && s'.p.free == p.free && s'.p.connections == p.connections
            && s'.p.permits == p.permits
  {
  }

  /** Which handed-over connections are open, step by step: one becomes so when its maker
      hands it to an open pool, and stops being so when it is disconnected, not before. */
  lemma OpenUntilDisconnected(s: System, t: nat, move: Move, c: nat)
    requires t < |s.threads|
    ensures c in Moved(s, t, move).live <==>
              || (c in s.live && !(move == Advance && s.threads[t].Disconnect? && s.threads[t].conn == c))
              || (move == Advance && s.threads[t] == TrackNew(c) && !s.p.closed)
  {
    if move.Advance? { ContinueOpen(s, t, c); }
  }

  lemma ContinueOpen(s: System, t: nat, c: nat)
    requires t < |s.threads|
    ensures c in Continue(s, t).live <==>
              || (c in s.live && !(s.threads[t].Disconnect? && s.threads[t].conn == c))
              || (s.threads[t] == TrackNew(c) && !s.p.closed)
  {
  }
}
