/** What a batch run promises, whatever the interleaving of workers and collector. */
module BatchResults {
  import opened Counting
  import opened Sequences
  import opened Batch
  import opened BatchRuns
  import opened BatchInvariant
  import opened BatchPools
  import opened PoolCapacity
  import PoolSettling
  import P = PoolRuns

  // ---------------------------------------------------------------- safety

  function Below(n: nat): set<nat> {
    if n == 0 then {} else Below(n - 1) + {n - 1}
  }

  lemma {:induction false} BelowSize(n: nat)
    ensures |Below(n)| == n && forall h: nat :: h in Below(n) <==> h < n
  {
    if n > 0 { BelowSize(n - 1); }
  }

  /** In every state that has not been stopped, each host of the batch is in exactly one
      place: unclaimed, with one worker, queued, with the collector, or collected. */
  lemma HostsAreConserved(total: nat, limit: nat, actions: seq<Action>, h: nat)
    ensures var s := Exec(Initial(total, limit), actions);
            && Places(s, h) <= 1
            && (!s.b.stopped ==> Places(s, h) == One(h < total))
  {
    Reached(total, limit, actions);
    assert Places(Exec(Initial(total, limit), actions), h) <= 1;
  }

  lemma AllCollected(s: System)
    requires Inv(s) && !s.b.stopped && s.b.completed >= s.b.total
    ensures forall h: nat :: h < s.b.total ==> h in s.b.results
  {
    BelowSize(s.b.total);
    SubsetSize(s.b.results.Keys, Below(s.b.total));
  }

  lemma ReturnsComplete(s: System)
    requires Inv(s) && s.collector == Finished(false)
    ensures (forall h: nat :: h in s.b.results <==> h < s.b.total) && |s.b.results| == s.b.total
  {
    BelowSize(s.b.total);
    if !s.b.stopped {
      AllCollected(s);
    }
    assert s.b.results.Keys == Below(s.b.total);
  }

  /** A batch that returns has exactly one result for each host, so its `failed` count is
      the number of failed hosts; each result is what the host's own execution returned,
      or says that the user interrupted the batch. */
  lemma OneResultPerHost(total: nat, limit: nat, actions: seq<Action>)
    ensures var s := Exec(Initial(total, limit), actions);
            s.collector == Finished(false) ==>
              (forall h: nat :: h in s.b.results <==> h < total) && |s.b.results| == total
    ensures var s := Exec(Initial(total, limit), actions);
            forall h :: h in s.b.results ==>
              (s.b.results[h].UserInterrupted? && s.b.stopped) || Genuine(s.produced, Item(h, Result(s.b.results[h])))
  {
    Reached(total, limit, actions);
    var s := Exec(Initial(total, limit), actions);
    if s.collector == Finished(false) {
      ReturnsComplete(s);
    }
  }

  /** At step `k` of the run worker `w` was executing host `h` and its execution ended so. */
  ghost predicate EndedAt(total: nat, limit: nat, actions: seq<Action>, k: nat, h: nat, outcome: Outcome) {
    && k < |actions|
    && (match actions[k]
        case Answer(_, success, output) => outcome == Result(Ran(success, output))
        case Raise(_, keyboard) => outcome == Raised(keyboard)
        case _ => false)
    && var s := Exec(Initial(total, limit), actions[..k]);
       actions[k].w < |s.workers| && s.workers[actions[k].w].Running? && s.workers[actions[k].w].host == h
  }

  lemma StepProduces(s: System, a: Action, h: nat)
    requires h in Step(s, a).produced
    ensures (h in s.produced && Step(s, a).produced[h] == s.produced[h])
            || (&& (a.Answer? || a.Raise?) && a.w < |s.workers| && s.workers[a.w].Running? && s.workers[a.w].host == h
                && Step(s, a).produced[h] == if a.Answer? then Result(Ran(a.success, a.output)) else Raised(a.keyboard))
  {
  }

  /** What a host's execution is remembered to have returned is what it returned at some
      step of the run. */
  lemma {:induction false} ProducedAt(total: nat, limit: nat, actions: seq<Action>, h: nat) returns (k: nat)
    requires h in Exec(Initial(total, limit), actions).produced
    ensures EndedAt(total, limit, actions, k, h, Exec(Initial(total, limit), actions).produced[h])
    decreases |actions|
  {
    if actions == [] {
      assert false;
    } else {
      var last := |actions| - 1;
      var front, a := actions[..last], actions[last];
      assert actions == front + [a];
      ExecThen(Initial(total, limit), front, a);
      var s := Exec(Initial(total, limit), front);
      StepProduces(s, a, h);
      if h in s.produced && Step(s, a).produced[h] == s.produced[h] {
        k := ProducedAt(total, limit, front, h);
        assert actions[..k] == front[..k];
      } else {
        k := last;
      }
    }
  }

  /** Each result of a batch is the answer that the host's own execution gave at some step,
      with its success and output, or says that the user interrupted a stopped batch. */
  lemma ResultsAreAnswers(total: nat, limit: nat, actions: seq<Action>, h: nat) returns (k: nat)
    requires h in Exec(Initial(total, limit), actions).b.results
    ensures var s := Exec(Initial(total, limit), actions);
            (s.b.results[h].UserInterrupted? && s.b.stopped)
            || EndedAt(total, limit, actions, k, h, Result(s.b.results[h]))
  {
    k := 0;
    Reached(total, limit, actions);
    var s := Exec(Initial(total, limit), actions);
    if !(s.b.results[h].UserInterrupted? && s.b.stopped) {
      assert Genuine(s.produced, Item(h, Result(s.b.results[h])));
      k := ProducedAt(total, limit, actions, h);
    }
  }

  /** Progress is reported as 1, 2, 3, ..., never twice for a host; a batch that returns
      without having been interrupted has reported exactly once for each host. */
  lemma ProgressReports(total: nat, limit: nat, actions: seq<Action>)
    ensures var s := Exec(Initial(total, limit), actions);
            && (forall i :: 0 <= i < |s.b.callbacks| ==> s.b.callbacks[i].0 == i + 1)
            && (forall h: nat :: Called(s.b, h) <= 1)
            && (s.collector == Finished(false) && !s.b.stopped ==>
                  |s.b.callbacks| == total && forall h: nat :: Called(s.b, h) == One(h < total))
  {
    var s := Exec(Initial(total, limit), actions);
    Reached(total, limit, actions);
    forall h: nat ensures Called(s.b, h) <= 1 {
      assert Places(s, h) <= 1;
    }
    if s.collector == Finished(false) && !s.b.stopped {
      OneResultPerHost(total, limit, actions);
      forall h: nat ensures Called(s.b, h) == One(h < total) {
        assert h in s.b.results <==> h < total;
      }
    }
  }

  /** The open connections of the internal pool of the host a worker executes. */
  function OpenConnections(pc: Worker): nat {
    if pc.Running? && pc.pool.Some? then Open(pc.pool.value) else 0
  }

  lemma {:induction false} OpenAtMost(workers: seq<Worker>)
    requires forall w :: 0 <= w < |workers| ==> PoolOk(workers[w])
    ensures Total(workers, OpenConnections) <= |workers|
  {
    if workers != [] {
      var last := |workers| - 1;
      OpenAtMost(workers[..last]);
      assert PoolOk(workers[last]);
      if workers[last].Running? && workers[last].pool.Some? {
        UsedOpen(workers[last].pool.value);
      }
    }
  }

  lemma {:induction false} RetiredClosed(pools: seq<P.System>)
    requires forall i :: 0 <= i < |pools| ==> Used(pools[i]) && PoolSettling.Settled(pools[i])
    ensures Total(pools, Open) == 0
  {
    if pools != [] {
      RetiredClosed(pools[..|pools| - 1]);
      SettledOpen(pools[|pools| - 1]);
    }
  }

  /** However the hosts' executions use their internal pools: at most `limit` connections
      of internal pools are open at any time, at most one for each host that is being
      executed, and none for a host whose execution has ended. */
  lemma ConnectionsWithinConcurrency(total: nat, limit: nat, actions: seq<Action>)
    ensures var s := Exec(Initial(total, limit), actions);
            && Total(s.workers, OpenConnections) + Total(s.retired, Open) <= limit
            && Total(s.workers, OpenConnections) + Total(s.retired, Open) <= total
            && (forall w :: 0 <= w < |s.workers| ==> OpenConnections(s.workers[w]) <= 1)
            && Total(s.retired, Open) == 0
  {
    var s := Exec(Initial(total, limit), actions);
    Reached(total, limit, actions);
    ExecPools(Initial(total, limit), actions);
    OpenAtMost(s.workers);
    RetiredClosed(s.retired);
    forall w | 0 <= w < |s.workers| ensures OpenConnections(s.workers[w]) <= 1 {
      assert PoolOk(s.workers[w]);
      if s.workers[w].Running? && s.workers[w].pool.Some? {
        UsedOpen(s.workers[w].pool.value);
      }
    }
  }

  /** No more worker calls than hosts or than `limit`, exactly that many once collecting
      has begun, and no more queued results than `limit`, or one. */
  lemma WorkersAndQueue(total: nat, limit: nat, actions: seq<Action>)
    ensures var s := Exec(Initial(total, limit), actions);
            && |s.workers| <= limit && |s.workers| <= total
            && (s.collector.Getting? ==> |s.workers| == limit || |s.workers| == total)
            && (|s.b.queue| <= limit || |s.b.queue| <= 1)
  {
    Reached(total, limit, actions);
  }

  // ------------------------------------------------------- after a stop

  function IsClaiming(pc: Worker): nat {
    One(pc.Claiming?)
  }

  /** What worker calls may still claim once the batch has been stopped. */
  function StillClaimed(s: System): nat {
    s.b.next + Total(s.workers, IsClaiming)
  }

  lemma StopWork(s: System, a: Action)
    requires s.b.stopped && IsWork(a)
    ensures Step(s, a).b.stopped && StillClaimed(Step(s, a)) <= StillClaimed(s)
  {
    var s' := Step(s, a);
    if a.w < |s.workers| && s' != s { TotalUpdate(s.workers, a.w, s'.workers[a.w], IsClaiming); }
  }

  lemma StopCollect(s: System, a: Action)
    requires s.b.stopped && !IsWork(a)
    ensures Step(s, a).b.stopped && StillClaimed(Step(s, a)) <= StillClaimed(s)
  {
    TotalAppend(s.workers, Looking, IsClaiming);
  }

  /** Once a batch is stopped, no further host is claimed but by worker calls that had
      already looked at the stop flag. */
  lemma {:induction false} StopEndsClaims(s: System, actions: seq<Action>)
    requires s.b.stopped
    ensures Exec(s, actions).b.next <= StillClaimed(Exec(s, actions)) <= StillClaimed(s)
    decreases |actions|
  {
    if actions != [] {
      if IsWork(actions[0]) { StopWork(s, actions[0]); } else { StopCollect(s, actions[0]); }
      StopEndsClaims(Step(s, actions[0]), actions[1..]);
    }
  }

  // -------------------------------------------------------------- progress

  function WorkLeft(pc: Worker): nat {
    match pc
    case Looking => 2
    case Claiming => 1
    case Running(_, _) => 8
    case Publishing(_) => 7
    case Exited(_) => 0
  }

  function CollectorLeft(c: Collector): nat {
    match c
    case Launching => 6
    case Getting => 3
    case Holding(_) => 5
    case Joining => 2
    case Leaving(_) => 1
    case Finished(_) => 0
  }

  /** Bounds the steps that are left, but for those of the internal pools. */
  function Measure(s: System): int {
    10 * (s.b.total - s.b.next) + Total(s.workers, WorkLeft) + 3 * |s.b.queue| + CollectorLeft(s.collector)
    + 3 * (WorkerCount(s.b) - |s.workers|)
  }

  lemma WorkDecreases(s: System, a: Action)
    requires Shape(s) && IsWork(a) && !a.MakePool? && !a.UsePool? && a.w < |s.workers| && WorkerStep(s, a) != s
    ensures Measure(WorkerStep(s, a)) < Measure(s)
  {
    TotalUpdate(s.workers, a.w, WorkerStep(s, a).workers[a.w], WorkLeft);
  }

  lemma CallerDecreases(s: System, a: Action)
    requires Shape(s) && !IsWork(a) && Step(s, a) != s
    requires Total(s.workers + [Looking], WorkLeft) == Total(s.workers, WorkLeft) + 2
    ensures Measure(Step(s, a)) < Measure(s)
  {
  }

  /** Every step makes progress: but for what hosts do with their internal pools, no step
      can be repeated forever. */
  lemma StepDecreases(s: System, a: Action)
    requires Inv(s) && !a.MakePool? && !a.UsePool? && Step(s, a) != s
    ensures 0 <= Measure(Step(s, a)) < Measure(s)
  {
    StepShape(s, a);
    if IsWork(a) {
      WorkDecreases(s, a);
    } else {
      TotalAppend(s.workers, Looking, WorkLeft);
      CallerDecreases(s, a);
    }
  }

  lemma SomeMissing(s: System) returns (h: nat)
    requires Inv(s) && !s.b.stopped && s.b.completed < s.b.total
    ensures h < s.b.total && h !in s.b.results
  {
    BelowSize(s.b.total);
    if Below(s.b.total) <= s.b.results.Keys {
      SubsetSize(Below(s.b.total), s.b.results.Keys);
    }
    h :| h in Below(s.b.total) && h !in s.b.results;
  }

  lemma HandsEmpty(s: System, h: nat)
    requires Inv(s) && !s.b.stopped && s.b.completed >= s.b.total
    ensures Total(s.workers, Hands(h)) == 0
  {
    AllCollected(s);
    assert Places(s, h) == One(h < s.b.total);
    assert h in s.b.results ==> Called(s.b, h) > 0;
  }

  /** Nothing is published any more once everything is collected. */
  lemma NoneHeld(s: System, w: nat)
    requires Inv(s) && !s.b.stopped && s.b.completed >= s.b.total && w < |s.workers|
    ensures !s.workers[w].Publishing?
  {
    if s.workers[w].Publishing? {
      HandsEmpty(s, s.workers[w].item.host);
      TotalAtLeast(s.workers, w, Hands(s.workers[w].item.host));
    }
  }

  /** One step of a worker call that is not executing a host. */
  lemma WorkerStepDown(s: System, w: nat) returns (a: Action)
    requires Inv(s) && w < |s.workers| && !s.workers[w].Exited?
    requires s.workers[w].Publishing? ==> s.b.stopped || |s.b.queue| < Capacity(s.b.limit)
    requires s.workers[w].Running? ==> MayEnd(s.workers[w].pool)
    ensures AllBy([a], w) && 0 <= Measure(Step(s, a)) < Measure(s)
  {
    var pc := s.workers[w];
    a := match pc
         case Looking => Look(w)
         case Claiming => Claim(w)
         case Running(_, _) => Answer(w, true, 0)
         case _ => if s.b.stopped then GiveUp(w) else Put(w);
    assert Step(s, a).workers[w] != pc;
    StepDecreases(s, a);
  }

  /** Before an execution can end, its internal pool is closed. */
  lemma PoolFirst(s: System, w: nat) returns (before: seq<Action>)
    requires PoolsOk(s) && w < |s.workers|
    ensures AllBy(before, w)
    ensures var s' := Exec(s, before);
            && |s'.workers| == |s.workers| && s' == Set(s, w, s.b, s'.workers[w]) && Measure(s') == Measure(s)
            && (if s.workers[w].Running? then s'.workers[w].Running? && MayEnd(s'.workers[w].pool)
                else s'.workers[w] == s.workers[w])
  {
    before := [];
    assert s.workers == s.workers[w := s.workers[w]];
    if s.workers[w].Running? && s.workers[w].pool.Some? {
      before := ClosesPool(s, w);
      TotalUpdate(s.workers, w, Exec(s, before).workers[w], WorkLeft);
    }
  }

  lemma WorkerMoves(s: System, w: nat) returns (moves: seq<Action>)
    requires Inv(s) && PoolsOk(s) && w < |s.workers| && !s.workers[w].Exited?
    requires s.workers[w].Publishing? ==> s.b.stopped || |s.b.queue| < Capacity(s.b.limit)
    ensures moves != [] && AllBy(moves, w) && 0 <= Measure(Exec(s, moves)) < Measure(s)
  {
    var before := PoolFirst(s, w);
    ExecInv(s, before);
    var a := WorkerStepDown(Exec(s, before), w);
    ExecThen(s, before, a);
    moves := before + [a];
  }

  lemma {:induction false} ExecThen(s: System, actions: seq<Action>, a: Action)
    ensures Exec(s, actions + [a]) == Step(Exec(s, actions), a)
    decreases |actions|
  {
    if actions == [] {
      assert Exec(Step(s, a), []) == Step(s, a);
    } else {
      assert (actions + [a])[1..] == actions[1..] + [a];
      ExecThen(Step(s, actions[0]), actions[1..], a);
    }
  }

  lemma MissingIsOpen(s: System, h: nat)
    requires Inv(s) && s.collector.Getting? && s.b.queue == [] && h < s.b.total && h !in s.b.results
    ensures s.b.next <= h || Total(s.workers, Hands(h)) > 0
  {
    assert Places(s, h) == 1;
    assert Called(s.b, h) > 0 ==> h in s.b.results;
  }

  /** While a host is missing and nothing is queued, some worker call has not ended. */
  lemma SomeoneWorks(s: System) returns (w: nat)
    requires Inv(s) && s.collector.Getting? && s.b.queue == [] && s.b.completed < s.b.total && s.b.limit >= 1
    ensures w < |s.workers| && !s.workers[w].Exited?
  {
    var h := SomeMissing(s);
    MissingIsOpen(s, h);
    TotalPositive(s.workers, Hands(h));
    TotalPositive(s.workers, AbortedCall);
    TotalPositive(s.workers, QuitCall);
    if Total(s.workers, Hands(h)) > 0 {
      w :| 0 <= w < |s.workers| && Hands(h)(s.workers[w]) > 0;
    } else {
      w := 0;
      assert AbortedCall(s.workers[0]) == 0 && QuitCall(s.workers[0]) == 0;
    }
  }

  /** Moves of the calling thread alone, or of one worker call alone. */
  ghost predicate ByOne(moves: seq<Action>) {
    moves == [Collect] || exists w :: AllBy(moves, w)
  }

  lemma CollectorDown(s: System)
    requires Inv(s) && Step(s, Collect) != s
    ensures 0 <= Measure(Exec(s, [Collect])) < Measure(s)
  {
    StepDecreases(s, Collect);
    assert Exec(Step(s, Collect), []) == Step(s, Collect);
  }

  lemma LeavingMoves(s: System) returns (moves: seq<Action>)
    requires Inv(s) && PoolsOk(s) && (s.collector.Joining? || s.collector.Leaving?)
    ensures moves != [] && ByOne(moves) && 0 <= Measure(Exec(s, moves)) < Measure(s)
  {
    if AllExited(s.workers) {
      CollectorDown(s);
      moves := [Collect];
    } else {
      var w :| 0 <= w < |s.workers| && !s.workers[w].Exited?;
      if !s.b.stopped { NoneHeld(s, w); }
      moves := WorkerMoves(s, w);
    }
  }

  /** No deadlock: as long as the calling thread has not left, the calling thread or some
      worker call can go on, on its own, to a state with less left to do. */
  lemma SomeoneMoves(s: System) returns (moves: seq<Action>)
    requires Inv(s) && PoolsOk(s) && s.b.limit >= 1 && !s.collector.Finished?
    ensures moves != [] && ByOne(moves) && 0 <= Measure(Exec(s, moves)) < Measure(s)
  {
    if s.collector.Joining? || s.collector.Leaving? {
      moves := LeavingMoves(s);
    } else if s.collector.Getting? && s.b.queue == [] && s.b.completed < s.b.total {
      var w := SomeoneWorks(s);
      moves := WorkerMoves(s, w);
    } else {
      CollectorDown(s);
      moves := [Collect];
    }
  }

  /** Calls that neither fail to start a thread nor interrupt the run. */
  predicate Smooth(actions: seq<Action>) {
    forall i :: 0 <= i < |actions| ==> !actions[i].Interrupt? && !actions[i].LaunchFails?
  }

  lemma {:induction false} ExecJoin(s: System, xs: seq<Action>, ys: seq<Action>)
    ensures Exec(s, xs + ys) == Exec(Exec(s, xs), ys)
    decreases |xs|
  {
    if xs == [] {
      assert xs + ys == ys;
    } else {
      assert (xs + ys)[1..] == xs[1..] + ys;
      ExecJoin(Step(s, xs[0]), xs[1..], ys);
    }
  }

  lemma {:induction false} RunsOut(s: System) returns (actions: seq<Action>)
    requires Inv(s) && PoolsOk(s) && s.b.limit >= 1
    ensures Smooth(actions) && Exec(s, actions).collector.Finished?
    decreases Measure(s)
  {
    if s.collector.Finished? {
      actions := [];
    } else {
      var moves := SomeoneMoves(s);
      ExecInv(s, moves);
      ExecPools(s, moves);
      var rest := RunsOut(Exec(s, moves));
      actions := moves + rest;
      ExecJoin(s, moves, rest);
    }
  }

  /** From every reachable state, with the completion queue full or not, whatever hosts are
      doing with their internal pools, and however the batch was interrupted, the batch can
      end. */
  lemma BatchEnds(total: nat, limit: nat, first: seq<Action>) returns (later: seq<Action>)
    requires limit >= 1
    ensures Smooth(later) && Exec(Exec(Initial(total, limit), first), later).collector.Finished?
  {
    Reached(total, limit, first);
    ExecPools(Initial(total, limit), first);
    later := RunsOut(Exec(Initial(total, limit), first));
  }
}
