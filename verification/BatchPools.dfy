/** The internal pools of a batch: each is a pool of one connection that nobody sweeps,
    and it has been closed when its host's execution ends. */
module BatchPools {
  import opened Counting
  import opened Options
  import opened BatchRuns
  import opened BatchInvariant
  import opened PoolSettling
  import opened PoolCapacity
  import opened PoolClosing
  import P = PoolRuns

  /** A pool that can have come about in a host's execution. */
  ghost predicate Used(pool: P.System) {
    exists acts :: P.CallCleanup !in acts && pool == P.Exec(P.Start(1), acts)
  }

  lemma NewPoolUsed()
    ensures Used(P.Start(1))
  {
    assert P.Exec(P.Start(1), []) == P.Start(1);
  }

  lemma StepUsed(pool: P.System, act: P.Action)
    requires Used(pool) && !act.CallCleanup?
    ensures Used(P.Step(pool, act))
  {
    var acts :| P.CallCleanup !in acts && pool == P.Exec(P.Start(1), acts);
    P.ExecThen(P.Start(1), acts, act);
    assert P.CallCleanup !in acts + [act];
  }

  /** The pool's limit of one connection. */
  lemma UsedOpen(pool: P.System)
    requires Used(pool)
    ensures Open(pool) <= 1
  {
    var acts :| P.CallCleanup !in acts && pool == P.Exec(P.Start(1), acts);
    LimitWithoutCleanup(1, acts);
  }

  /** When close_all and every other use have come back, nothing is open. */
  lemma SettledOpen(pool: P.System)
    requires Used(pool) && Settled(pool)
    ensures Open(pool) == 0
  {
    var acts :| P.CallCleanup !in acts && pool == P.Exec(P.Start(1), acts);
    CloserClosed(acts);
    CloseSafety(1, acts, []);
    assert P.Exec(pool, []) == pool;
    SlotsOfReached(acts);
    TotalPositive(pool.threads, Opened);
  }

  lemma CloserClosed(acts: seq<P.Action>)
    requires Settled(P.Exec(P.Start(1), acts))
    ensures P.Exec(P.Start(1), acts).p.closed
  {
    ExecClosers(P.Start(1), acts);
  }

  lemma SlotsOfReached(acts: seq<P.Action>)
    ensures LiveOk(P.Exec(P.Start(1), acts))
  {
    ExecLive(P.Start(1), acts);
  }

  ghost predicate PoolOk(pc: Worker) {
    pc.Running? && pc.pool.Some? ==> Used(pc.pool.value)
  }

  ghost predicate PoolsOk(s: System) {
    && (forall w :: 0 <= w < |s.workers| ==> PoolOk(s.workers[w]))
    && (forall i :: 0 <= i < |s.retired| ==> Used(s.retired[i]) && Settled(s.retired[i]))
  }

  lemma StepPools(s: System, a: Action)
    requires PoolsOk(s)
    ensures PoolsOk(Step(s, a))
  {
    NewPoolUsed();
    if IsWork(a) && a.w < |s.workers| {
      assert PoolOk(s.workers[a.w]);
      if a.UsePool? && s.workers[a.w].Running? && s.workers[a.w].pool.Some? && !a.act.CallCleanup? {
        StepUsed(s.workers[a.w].pool.value, a.act);
      }
    }
  }

  lemma {:induction false} ExecPools(s: System, actions: seq<Action>)
    requires PoolsOk(s)
    ensures PoolsOk(Exec(s, actions))
    decreases |actions|
  {
    if actions != [] {
      StepPools(s, actions[0]);
      ExecPools(Step(s, actions[0]), actions[1..]);
    }
  }

  // -------------------------------------------------- ending an execution

  function Lifted(w: nat, acts: seq<P.Action>): seq<Action> {
    if acts == [] then [] else [UsePool(w, acts[0])] + Lifted(w, acts[1..])
  }

  /** Uses of one worker's pool are a run of that pool. */
  lemma {:induction false} ExecLifted(s: System, w: nat, acts: seq<P.Action>)
    requires w < |s.workers| && s.workers[w].Running? && s.workers[w].pool.Some? && P.CallCleanup !in acts
    ensures Exec(s, Lifted(w, acts))
         == Set(s, w, s.b, Running(s.workers[w].host, Some(P.Exec(s.workers[w].pool.value, acts))))
    decreases |acts|
  {
    if acts == [] {
      assert s.workers == s.workers[w := s.workers[w]];
    } else {
      var first := UsePool(w, acts[0]);
      var s' := Step(s, first);
      ExecLifted(s', w, acts[1..]);
      assert ([first] + Lifted(w, acts[1..]))[1..] == Lifted(w, acts[1..]);
      assert s'.workers[w := Exec(s', Lifted(w, acts[1..])).workers[w]]
          == s.workers[w := Exec(s', Lifted(w, acts[1..])).workers[w]];
    }
  }

  ghost predicate AllBy(moves: seq<Action>, w: nat) {
    forall i :: 0 <= i < |moves| ==> IsWork(moves[i]) && moves[i].w == w
  }

  lemma {:induction false} LiftedBy(w: nat, acts: seq<P.Action>)
    ensures AllBy(Lifted(w, acts), w)
  {
    if acts != [] { LiftedBy(w, acts[1..]); }
  }

  /** From whatever an execution is doing, its internal pool can be closed. */
  lemma ClosesPool(s: System, w: nat) returns (moves: seq<Action>)
    requires PoolsOk(s) && w < |s.workers| && s.workers[w].Running? && s.workers[w].pool.Some?
    ensures AllBy(moves, w)
    ensures var s' := Exec(s, moves);
            |s'.workers| == |s.workers| && s'.workers[w].Running? && MayEnd(s'.workers[w].pool)
            && s' == Set(s, w, s.b, s'.workers[w])
  {
    assert PoolOk(s.workers[w]);
    var pool := s.workers[w].pool.value;
    var past :| P.CallCleanup !in past && pool == P.Exec(P.Start(1), past);
    var acts := CloseSettles(1, past);
    var all := [P.CallCloseAll] + acts;
    assert all[1..] == acts && P.CallCleanup !in all;
    ExecLifted(s, w, all);
    LiftedBy(w, all);
    moves := Lifted(w, all);
  }
}
