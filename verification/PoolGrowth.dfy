/** The limit on tracked connections is not kept when the background cleanup runs: a
    cleanup that has drained the free queue makes an acquire create a connection
    although idle ones exist, and puts those back afterwards. Repeating this, a pool
    comes to track any number of connections. */
module PoolGrowth {
  import opened SyncPool
  import opened PoolRuns

  /** Open, nothing leased, a permit free, `k` idle connections numbered below `k`. */
  ghost predicate Idle(s: System, k: nat) {
    && !s.p.closed && s.p.permits > 0 && s.p.meta == s.p.connections
    && |s.p.free| == k && |s.p.connections| == k
    && (forall c :: c in s.known || c in s.p.connections || c in s.p.leased ==> c < k)
  }

  /** An acquire that finds the free queue empty makes and leases a new connection. */
  lemma AcquireNew(s: System, k: nat) returns (actions: seq<Action>)
    requires !s.p.closed && s.p.permits > 0 && s.p.free == [] && s.p.meta == s.p.connections
    requires forall c :: c in s.known || c in s.p.connections || c in s.p.leased ==> c < k
    ensures var s' := Exec(s, actions);
            && s'.p == s.p.(permits := s.p.permits - 1, connections := s.p.connections + {k}, meta := s.p.meta + {k},
                            leased := s.p.leased + {k}, totalCreated := s.p.totalCreated + 1)
            && s'.threads == s.threads + [Done(Leased(k))]
            && s'.known == s.known + {k} && s'.orphans == s.orphans
  {
    var t := |s.threads|;
    var s4, first := AcquireEmpty(s);
    actions := first + [On(t, RequestSlot(k))];
    ExecThen(s, first, On(t, RequestSlot(k)));
    var s5 := Step(s4, On(t, RequestSlot(k)));
    ExecThen(s, actions, On(t, SlotGranted));
    var s6 := Step(s5, On(t, SlotGranted));
    actions := actions + [On(t, SlotGranted)];
    ExecThen(s, actions, On(t, Advance));
    var s7 := Step(s6, On(t, Advance));
    assert s7.threads == s.threads + [Connecting(k)];
    actions := actions + [On(t, Advance)];
    ExecThen(s, actions, On(t, Judge(Good)));
    var s8 := Step(s7, On(t, Judge(Good)));
    actions := actions + [On(t, Judge(Good))];
    ExecThen(s, actions, On(t, Advance));
    var s9 := Step(s8, On(t, Advance));
    assert s9.threads == s.threads + [LeaseNew(k)];
    actions := actions + [On(t, Advance)];
    ExecThen(s, actions, On(t, Advance));
    actions := actions + [On(t, Advance)];
  }

  lemma AcquireEmpty(s: System) returns (s': System, actions: seq<Action>)
    requires !s.p.closed && s.p.permits > 0 && s.p.free == []
    ensures s' == Exec(s, actions)
    ensures s' == s.(p := s.p.(permits := s.p.permits - 1), threads := s.threads + [NeedClient])
  {
    var t := |s.threads|;
    actions := [CallAcquire];
    ExecOne(s, CallAcquire);
    s' := Step(s, CallAcquire);
    ExecThen(s, actions, On(t, Advance));
    s', actions := Step(s', On(t, Advance)), actions + [On(t, Advance)];
    ExecThen(s, actions, On(t, Advance));
    s', actions := Step(s', On(t, Advance)), actions + [On(t, Advance)];
    assert s'.threads == s.threads + [CheckOpen];
    ExecThen(s, actions, On(t, Advance));
    s', actions := Step(s', On(t, Advance)), actions + [On(t, Advance)];
    ExecThen(s, actions, On(t, Advance));
    s', actions := Step(s', On(t, Advance)), actions + [On(t, Advance)];
    assert s'.threads == s.threads + [NeedClient];
    assert s'.p == s.p.(permits := s.p.permits - 1);
  }

  /** A cleanup that finds nothing expired puts every connection back. */
  lemma {:induction false} KeepAll(s: System, t: nat, rest: seq<nat>, keep: seq<nat>) returns (actions: seq<Action>)
    requires !s.p.closed && t < |s.threads| && s.threads[t] == Scan(rest, keep)
    ensures var s' := Exec(s, actions);
            && s'.p == s.p.(free := s.p.free + (keep + rest))
            && |s'.threads| == |s.threads|
            && s'.known == s.known && s'.orphans == s.orphans
    decreases |rest|
  {
    if rest == [] {
      assert keep + rest == keep;
      var s1 := Step(s, On(t, Advance));
      ExecOne(s, On(t, Advance));
      ExecThen(s, [On(t, Advance)], On(t, Advance));
      actions := [On(t, Advance)] + [On(t, Advance)];
    } else {
      var a := On(t, Judge(Good));
      var more := KeepAll(Step(s, a), t, rest[1..], keep + [rest[0]]);
      ExecOne(s, a);
      ExecJoin(s, [a], more);
      actions := [a] + more;
      assert keep + [rest[0]] + rest[1..] == keep + rest;
    }
  }

  /** A release of a healthy connection returns it and its permit. */
  lemma ReleaseHealthy(s: System, c: nat) returns (actions: seq<Action>)
    requires !s.p.closed && c in s.p.leased
    ensures var s' := Exec(s, actions);
            && s'.p == s.p.(leased := s.p.leased - {c}, free := s.p.free + [c], permits := s.p.permits + 1,
                            totalReleased := s.p.totalReleased + 1)
            && s'.known == s.known
  {
    var t := |s.threads|;
    actions := [CallRelease(c)];
    ExecOne(s, CallRelease(c));
    var s1 := Step(s, CallRelease(c));
    ExecThen(s, actions, On(t, Judge(Good)));
    var s2 := Step(s1, On(t, Judge(Good)));
    actions := actions + [On(t, Judge(Good))];
    ExecThen(s, actions, On(t, Advance));
    actions := actions + [On(t, Advance)];
  }

  lemma Round(s: System, k: nat) returns (actions: seq<Action>)
    requires Idle(s, k)
    ensures Idle(Exec(s, actions), k + 1)
  {
    var t := |s.threads|;
    ExecOne(s, CallCleanup);
    var s1 := Step(s, CallCleanup);
    var make := AcquireNew(s1, k);
    ExecJoin(s, [CallCleanup], make);
    var s2 := Exec(s1, make);
    assert s2.threads[t] == Scan(s.p.free, []);
    var keep := KeepAll(s2, t, s.p.free, []);
    ExecJoin(s, [CallCleanup] + make, keep);
    var s3 := Exec(s2, keep);
    var back := ReleaseHealthy(s3, k);
    ExecJoin(s, [CallCleanup] + make + keep, back);
    actions := [CallCleanup] + make + keep + back;
  }

  /** For every limit and every number there is a run in which an open pool tracks that
      many connections. */
  lemma {:induction false} LimitFailsWithCleanup(max: nat, k: nat) returns (actions: seq<Action>)
    requires max > 0
    ensures var s := Exec(Start(max), actions);
            Idle(s, k) && |s.p.connections| == k
  {
    if k == 0 {
      actions := [];
    } else {
      var before := LimitFailsWithCleanup(max, k - 1);
      var round := Round(Exec(Start(max), before), k - 1);
      ExecJoin(Start(max), before, round);
      actions := before + round;
    }
  }
}
