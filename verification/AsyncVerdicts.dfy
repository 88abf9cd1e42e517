/** What checks decide in the asynchronous pool. */
module AsyncVerdicts {
  import opened SyncPool
  import opened AsyncPool
  import opened AsyncRuns
  import opened AsyncFacts
  import opened AsyncLedger

  /** The branches that follow a health check of acquire. */
  lemma CheckDecides(s: System, t: nat, verdict: Verdict)
    requires t < |s.tasks| && s.tasks[t].Checking?
    ensures var c, s' := s.tasks[t].conn, Moved(s, t, Judge(verdict));
            && |s'.tasks| == |s.tasks|
            && s'.tasks[t] == if verdict == Good && !s.a.p.closed then Done(Leased(c))
                              else Closing(c, c in s.a.p.connections, if verdict == Bad then TryNextFree else FailAcquire)
  {
  }

  /** Those that follow a look at an idle connection in a cleanup. */
  lemma ScanDecides(s: System, t: nat, verdict: Verdict)
    requires t < |s.tasks| && s.tasks[t].Scanning? && s.tasks[t].rest != []
    ensures var pc, s' := s.tasks[t], Moved(s, t, Judge(verdict));
            && |s'.tasks| == |s.tasks|
            && s'.tasks[t] == (if verdict == Good then Scanning(pc.rest[1..], pc.keep + [pc.rest[0]])
                               else if verdict == Bad then Closing(pc.rest[0], pc.rest[0] in s.a.p.connections,
                                                                   ScanOn(pc.rest[1..], pc.keep))
                               else Done(Failed))
            && s'.orphans == if verdict == Raised then s.orphans + (pc.rest + pc.keep) else s.orphans
  {
  }

  /** The end of a cleanup's scan: what was found fit is idle again, or is closed, one after
      the other, if the pool has been closed meanwhile. */
  lemma ScanEnds(s: System, t: nat, move: Move)
    requires t < |s.tasks| && (s.tasks[t].Scanning? || s.tasks[t].CloseKept?)
    ensures var pc, s' := s.tasks[t], Moved(s, t, move);
            && |s'.tasks| == |s.tasks|
            && (pc.Scanning? && pc.rest == [] ==>
                  && s'.tasks[t] == (if s.a.p.closed then CloseKept(pc.keep) else Done(Finished))
                  && s'.a.p.free == if s.a.p.closed then s.a.p.free else s.a.p.free + pc.keep)
            && (pc.CloseKept? ==>
                  s'.tasks[t] == if pc.kept == [] then Done(Finished)
                                 else Closing(pc.kept[0], pc.kept[0] in s.a.p.connections, CloseKeptOn(pc.kept[1..])))
  {
  }

  /** A call of release: what is not lent out is left alone, a fit connection of an open
      pool is idle at once, any other is forgotten and will be closed. */
  lemma ReleaseDecides(s: System, c: nat, verdict: Verdict)
    ensures var p, s' := s.a.p, Step(s, CallRelease(c, verdict));
            var pc := s'.tasks[|s.tasks|];
            if c !in p.leased && c !in p.closedLeases then s'.a == s.a && pc == Done(Finished)
            else if !p.closed && verdict == Good then
              pc == Done(Finished) && s'.a.p.free == p.free + [c] && s'.a.p.connections == p.connections
            else
              && s'.a.p.free == p.free && s'.a.p.connections == p.connections - {c}
              && pc == Closing(c, c in p.connections, if p.closed then Finish
                                                      else if verdict == Raised then ReleaseAfterRaise else ReleaseFinally)
  {
  }

  /** The task answers for connection `c`. */
  predicate Vouches(pc: Pc, c: nat) {
    match pc
    case Done(result) => result == Leased(c)
    case Scanning(_, keep) => c in keep
    case Closing(_, _, next) => next.ScanOn? && c in next.keep
    case _ => false
  }

  /** The task finds connection `c` fit: its check is good, or it has just been connected. */
  predicate Finds(pc: Pc, move: Move, c: nat) {
    || (pc == Checking(c) && move == Judge(Good))
    || (pc == Connecting(c) && move == Advance)
    || (pc.Scanning? && pc.rest != [] && pc.rest[0] == c && move == Judge(Good))
  }

  lemma MovedVouch(s: System, t: nat, move: Move, c: nat)
    requires t < |s.tasks| && |Moved(s, t, move).tasks| == |s.tasks|
    requires Vouches(Moved(s, t, move).tasks[t], c) && !Vouches(s.tasks[t], c)
    ensures Finds(s.tasks[t], move, c)
  {
    var pc := s.tasks[t];
    if pc.Waiting? || pc.Checking? { AcquireVouch(s, t, move, c); }
    else if pc.Closing? { CloseVouch(s, t, move, c); }
    else if pc.Scanning? || pc.CloseKept? { ScanVouch(s, t, move, c); }
  }

  lemma AcquireVouch(s: System, t: nat, move: Move, c: nat)
    requires t < |s.tasks| && (s.tasks[t].Waiting? || s.tasks[t].Checking?)
    ensures |AcquireStep(s, t, move).tasks| == |s.tasks|
    ensures Vouches(AcquireStep(s, t, move).tasks[t], c) ==> Finds(s.tasks[t], move, c)
  {
  }

  lemma AfterVouch(s: System, t: nat, next: Then, c: nat)
    requires t < |s.tasks|
    ensures |AfterClose(s, t, next).tasks| == |s.tasks| && |AfterCancel(s, t, next).tasks| == |s.tasks|
    ensures Vouches(AfterClose(s, t, next).tasks[t], c) ==> next.ScanOn? && c in next.keep
    ensures !Vouches(AfterCancel(s, t, next).tasks[t], c)
  {
  }

  lemma CloseVouch(s: System, t: nat, move: Move, c: nat)
    requires t < |s.tasks| && s.tasks[t].Closing?
    ensures |CloseStep(s, t, move).tasks| == |s.tasks|
    ensures Vouches(CloseStep(s, t, move).tasks[t], c) ==> Vouches(s.tasks[t], c)
  {
    AfterVouch(if s.tasks[t].tracked then FreeSlot(s) else s, t, s.tasks[t].next, c);
  }

  lemma ScanVouch(s: System, t: nat, move: Move, c: nat)
    requires t < |s.tasks| && (s.tasks[t].Scanning? || s.tasks[t].CloseKept?)
    ensures |ScanStep(s, t, move).tasks| == |s.tasks|
    ensures Vouches(ScanStep(s, t, move).tasks[t], c) ==> Vouches(s.tasks[t], c) || Finds(s.tasks[t], move, c)
  {
  }

  lemma StepVouch(s: System, a: Action, t: nat, c: nat)
    requires Own(s) && t < |Step(s, a).tasks| && Vouches(Step(s, a).tasks[t], c)
    ensures t < |s.tasks| && (Vouches(s.tasks[t], c) || (a.On? && a.t == t && Finds(s.tasks[t], a.move, c)))
  {
    if a.On? && a.t < |s.tasks| {
      ViewOf(s, a.t, 0);
      MovedConserves(s, a.t, a.move, 0);
      if t == a.t && !Vouches(s.tasks[t], c) { MovedVouch(s, t, a.move, c); }
    }
  }

  /** At step `k` of the run, task `t` found connection `c` fit. */
  ghost predicate FoundFit(max: nat, actions: seq<Action>, k: nat, t: nat, c: nat) {
    && k < |actions| && actions[k].On? && actions[k].t == t
    && var s := Exec(Start(max), actions[..k]); t < |s.tasks| && Finds(s.tasks[t], actions[k].move, c)
  }

  lemma {:induction false} ExecThen(s: System, actions: seq<Action>, a: Action)
    ensures Exec(s, actions + [a]) == Step(Exec(s, actions), a)
    decreases |actions|
  {
    if actions == [] {
      assert Exec(Step(s, a), []) == Step(s, a);
    } else {
      assert (actions + [a])[1..] == actions[1..] + [a];
      ExecThen(Step(s, actions[0]), actions[1..], a);
    }
  }

  lemma {:induction false} VouchedWasFit(max: nat, actions: seq<Action>, t: nat, c: nat) returns (k: nat)
    requires var s := Exec(Start(max), actions); t < |s.tasks| && Vouches(s.tasks[t], c)
    ensures FoundFit(max, actions, k, t, c)
    decreases |actions|
  {
    if actions == [] {
      assert false;
    } else {
      var last := |actions| - 1;
      var front, a := actions[..last], actions[last];
      assert actions == front + [a];
      ExecThen(Start(max), front, a);
      var s := Exec(Start(max), front);
      Reached(max, front);
      StepVouch(s, a, t, c);
      if t < |s.tasks| && Vouches(s.tasks[t], c) {
        k := VouchedWasFit(max, front, t, c);
        assert actions[..k] == front[..k];
      } else {
        k := last;
      }
    }
  }

  /** Whoever is lent a connection has found it fit in that very call. */
  lemma LentWasFit(max: nat, actions: seq<Action>, t: nat, c: nat) returns (k: nat)
    requires var s := Exec(Start(max), actions); t < |s.tasks| && s.tasks[t] == Done(Leased(c))
    ensures FoundFit(max, actions, k, t, c)
  {
    k := VouchedWasFit(max, actions, t, c);
  }

  /** A connection becomes idle only by a release that finds it fit, or by a cleanup that
      has found it fit. */
  lemma IdleWasFit(max: nat, actions: seq<Action>, a: Action, c: nat) returns (t: nat, k: nat)
    requires var s := Exec(Start(max), actions); c !in s.a.p.free && c in Step(s, a).a.p.free
    ensures a == CallRelease(c, Good) || FoundFit(max, actions, k, t, c)
  {
    var s := Exec(Start(max), actions);
    t, k := 0, 0;
    if a.CallRelease? {
      ReleaseDecides(s, a.conn, a.verdict);
    } else {
      Fills(s, a, c);
      t := a.t;
      k := VouchedWasFit(max, actions, t, c);
    }
  }

  lemma Fills(s: System, a: Action, c: nat)
    requires !a.CallRelease? && c !in s.a.p.free && c in Step(s, a).a.p.free
    ensures a.On? && a.t < |s.tasks| && Vouches(s.tasks[a.t], c)
  {
    if a.On? && a.t < |s.tasks| {
      var pc := s.tasks[a.t];
      if pc.Scanning? || pc.CloseKept? { ScanFills(s, a.t, a.move, c); }
      else if pc.Closing? { CloseFillsNone(s, a.t, a.move, c); }
      else if pc.Waiting? || pc.Checking? { AcquireFillsNone(s, a.t, a.move, c); }
      else { OthersFillNone(s, a.t, a.move, c); }
    }
  }

  lemma ScanFills(s: System, t: nat, move: Move, c: nat)
    requires t < |s.tasks| && (s.tasks[t].Scanning? || s.tasks[t].CloseKept?)
    requires c !in s.a.p.free && c in ScanStep(s, t, move).a.p.free
    ensures Vouches(s.tasks[t], c)
  {
  }

  lemma AcquireFillsNone(s: System, t: nat, move: Move, c: nat)
    requires t < |s.tasks| && (s.tasks[t].Waiting? || s.tasks[t].Checking?) && c !in s.a.p.free
    ensures c !in AcquireStep(s, t, move).a.p.free
  {
  }

  lemma CloseFillsNone(s: System, t: nat, move: Move, c: nat)
    requires t < |s.tasks| && s.tasks[t].Closing? && c !in s.a.p.free
    ensures c !in CloseStep(s, t, move).a.p.free
  {
  }

  lemma OthersFillNone(s: System, t: nat, move: Move, c: nat)
    requires t < |s.tasks| && c !in s.a.p.free
    ensures c !in CreateStep(s, t, move).a.p.free && c !in CloseAllStep(s, t, move).a.p.free
  {
  }

  /** Only an open pool begins to connect a client, when the client has got its slot; one
      that has just been closed drops the client, and an attempt that raised drops it too. */
  lemma CreationDecides(s: System, t: nat, move: Move)
    requires t < |s.tasks| && (s.tasks[t].Asking? || s.tasks[t].Connecting?)
    ensures var c, s' := s.tasks[t].conn, Moved(s, t, move);
            && |s'.tasks| == |s.tasks|
            && (s.tasks[t].Asking? ==>
                  && s'.tasks[t] == (if move != Advance then Dropping(c, false)
                                     else if s.a.p.closed then Dropping(c, true) else Connecting(c))
                  && s'.slots == s.slots + if move == Advance then 1 else 0)
            && (s.tasks[t].Connecting? ==>
                  && s'.tasks[t] == (if move == Advance && !s.a.p.closed then Done(Leased(c)) else Dropping(c, true))
                  && s'.a.p.connections == s.a.p.connections + if move == Advance && !s.a.p.closed then {c} else {})
  {
  }
}
