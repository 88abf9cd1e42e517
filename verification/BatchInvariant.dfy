/** What holds in every state of a batch run. */
module BatchInvariant {
  import opened Counting
  import opened Sequences
  import opened Batch
  import opened BatchRuns

  predicate IsWork(a: Action) {
    !a.Collect? && !a.LaunchFails? && !a.Interrupt?
  }

  // ------------------------------------------------------------------- shape

  ghost predicate Shape(s: System) {
    && s.b.next <= s.b.total && |s.b.queue| <= Capacity(s.b.limit) && |s.workers| <= WorkerCount(s.b)
    && (s.collector.Launching? || s.collector.Getting? || s.collector.Holding? || s.collector.Joining? ==> !s.b.stopped)
    && (s.collector.Getting? || s.collector.Holding? || s.collector.Joining? ==> |s.workers| == WorkerCount(s.b))
    && (s.collector.Joining? ==> s.b.completed >= s.b.total)
    && (s.collector.Leaving? || s.collector.Finished? ==>
          if s.collector.raised then s.b.stopped else s.b.stopped || s.b.completed >= s.b.total)
  }

  lemma WorkShape(s: System, a: Action)
    requires Shape(s) && IsWork(a) && a.w < |s.workers|
    ensures Shape(WorkerStep(s, a))
  {
  }

  lemma StepShape(s: System, a: Action)
    requires Shape(s)
    ensures Shape(Step(s, a))
  {
    if IsWork(a) && a.w < |s.workers| {
      WorkShape(s, a);
    }
  }

  // ------------------------------------------------- every host is in one place

  ghost predicate Partition(s: System) {
    forall h: nat :: Places(s, h) <= 1 && (!s.b.stopped ==> Places(s, h) == One(h < s.b.total))
  }

  lemma TakePlaces(s: System, h: nat)
    requires s.collector.Getting? && s.b.queue != []
    ensures Places(s.(b := s.b.(queue := s.b.queue[1..]), collector := Holding(s.b.queue[0])), h) == Places(s, h)
  {
    TotalPop(s.b.queue, ItemFor(h));
  }

  lemma RecordPlaces(s: System, h: nat, result: HostResult)
    requires s.collector.Holding?
    ensures Places(s.(b := Record(s.b, s.collector.item.host, result), collector := Getting), h) == Places(s, h)
  {
    TotalAppend(s.b.callbacks, (s.b.completed + 1, s.collector.item.host), CallFor(h));
  }

  lemma CollectPlaces(s: System, h: nat)
    ensures Places(CollectStep(s), h) <= Places(s, h)
    ensures Places(CollectStep(s), h) == Places(s, h) || CollectStep(s).b.stopped
  {
    if s.collector.Launching? {
      TotalAppend(s.workers, Looking, Hands(h));
    } else if s.collector.Getting? && s.b.queue != [] {
      TakePlaces(s, h);
    } else if s.collector.Holding? && s.collector.item.outcome.Result? {
      RecordPlaces(s, h, s.collector.item.outcome.result);
    }
  }

  lemma StepPlaces(s: System, a: Action, h: nat)
    requires s.b.next <= s.b.total
    ensures Places(Step(s, a), h) <= Places(s, h)
    ensures Places(Step(s, a), h) == Places(s, h) || Step(s, a).b.stopped
  {
    if a.Collect? {
      CollectPlaces(s, h);
    } else if a.LaunchFails? {
      TotalAppend(s.workers, Looking, Hands(h));
    } else if IsWork(a) && a.w < |s.workers| {
      WorkerPlaces(s, a, h);
    }
  }

  lemma StepKeepsStop(s: System, a: Action)
    ensures s.b.stopped ==> Step(s, a).b.stopped
    ensures Step(s, a).b.total == s.b.total && Step(s, a).b.limit == s.b.limit
  {
  }

  lemma StepPartition(s: System, a: Action)
    requires Shape(s) && Partition(s)
    ensures Partition(Step(s, a))
  {
    var s' := Step(s, a);
    StepKeepsStop(s, a);
    forall h: nat ensures Places(s', h) <= 1 && (!s'.b.stopped ==> Places(s', h) == One(h < s'.b.total)) {
      StepPlaces(s, a, h);
      assert Places(s, h) <= 1;
    }
  }

  // ---------------------------------------------------- results and callbacks

  function Called(b: Shared, h: nat): nat {
    Total(b.callbacks, CallFor(h))
  }

  /** Callbacks count 1, 2, 3, ...; until the batch is stopped the hosts with a result are
      those that were called back, and a keyboard interrupt gives every host a result. */
  ghost predicate Tallied(s: System) {
    && |s.b.callbacks| == s.b.completed
    && (forall i :: 0 <= i < s.b.completed ==> s.b.callbacks[i].0 == i + 1)
    && (forall h: nat :: Called(s.b, h) > 0 ==> h in s.b.results)
    && (!s.b.stopped ==> forall h: nat :: h in s.b.results ==> Called(s.b, h) > 0)
    && (forall h :: h in s.b.results ==> h < s.b.total)
    && (!s.b.stopped ==> |s.b.results| == s.b.completed)
    && ((s.collector.Leaving? || s.collector.Finished?) && !s.collector.raised && s.b.stopped ==>
          forall h: nat :: h < s.b.total ==> h in s.b.results)
  }

  lemma RecordTallied(s: System)
    requires Shape(s) && Partition(s) && Tallied(s) && s.collector.Holding? && s.collector.item.outcome.Result?
    ensures Tallied(CollectStep(s))
  {
    var item := s.collector.item;
    var b := Record(s.b, item.host, item.outcome.result);
    assert Places(s, item.host) == One(item.host < s.b.total);
    assert item.host !in s.b.results;
    forall h: nat ensures Called(b, h) == Called(s.b, h) + One(h == item.host) {
      TotalAppend(s.b.callbacks, (s.b.completed + 1, item.host), CallFor(h));
    }
    assert b.results.Keys == s.b.results.Keys + {item.host};
  }

  lemma StopTallied(s: System, keyboard: bool)
    requires Tallied(s)
    ensures Tallied(Stop(s, keyboard))
  {
    forall h: nat
      ensures h in Filled(s.b.results, s.b.total) <==> h in s.b.results || h < s.b.total
    {
      FilledEach(s.b.results, s.b.total, h);
    }
  }

  lemma StepTallied(s: System, a: Action)
    requires Shape(s) && Partition(s) && Tallied(s)
    ensures Tallied(Step(s, a))
  {
    if a.Interrupt? {
      StopTallied(s, a.keyboard);
    } else if a.Collect? && s.collector.Holding? {
      if s.collector.item.outcome.Raised? {
        StopTallied(s, s.collector.item.outcome.keyboard);
      } else {
        RecordTallied(s);
      }
    } else {
      SameTallied(s, Step(s, a));
    }
  }

  lemma SameTallied(s: System, s': System)
    requires Tallied(s)
    requires s'.b.callbacks == s.b.callbacks && s'.b.completed == s.b.completed && s'.b.results == s.b.results
    requires s'.b.total == s.b.total && (s.b.stopped ==> s'.b.stopped)
    requires s'.collector.Leaving? || s'.collector.Finished? ==>
               s'.collector.raised || !s'.b.stopped
               || ((s.collector.Leaving? || s.collector.Finished?) && !s.collector.raised && s.b.stopped)
    ensures Tallied(s')
  {
  }

  // --------------------------------------- results are what the hosts produced

  predicate Genuine(produced: map<nat, Outcome>, item: Item) {
    item.host in produced && produced[item.host] == item.outcome
  }

  ghost predicate Faithful(s: System) {
    && (forall h :: h in s.produced ==> h < s.b.next)
    && (forall w :: 0 <= w < |s.workers| && s.workers[w].Running? ==>
          s.workers[w].host < s.b.next && s.workers[w].host !in s.produced)
    && (forall w :: 0 <= w < |s.workers| && s.workers[w].Publishing? ==> Genuine(s.produced, s.workers[w].item))
    && (forall i :: 0 <= i < |s.b.queue| ==> Genuine(s.produced, s.b.queue[i]))
    && (s.collector.Holding? ==> Genuine(s.produced, s.collector.item))
    && (forall h :: h in s.b.results ==>
          (s.b.results[h].UserInterrupted? && s.b.stopped) || Genuine(s.produced, Item(h, Result(s.b.results[h]))))
  }

  lemma OnlyRunner(s: System, w: nat, v: nat)
    requires Partition(s) && w < |s.workers| && v < |s.workers| && w != v
    requires s.workers[w].Running? && s.workers[v].Running?
    ensures s.workers[w].host != s.workers[v].host
  {
    var h := s.workers[w].host;
    TotalAtLeastTwo(s.workers, if w < v then w else v, if w < v then v else w, Hands(h));
    assert Places(s, h) <= 1;
  }

  lemma EndFaithful(s: System, w: nat, outcome: Outcome)
    requires Partition(s) && Faithful(s) && w < |s.workers| && s.workers[w].Running? && MayEnd(s.workers[w].pool)
    ensures Faithful(EndExecution(s, w, outcome))
  {
    var s' := EndExecution(s, w, outcome);
    forall v | 0 <= v < |s'.workers| && s'.workers[v].Running?
      ensures s'.workers[v].host < s'.b.next && s'.workers[v].host !in s'.produced
    {
      assert s.workers[v] == s'.workers[v];
      OnlyRunner(s, w, v);
    }
  }

  lemma PutFaithful(s: System, w: nat)
    requires Faithful(s) && w < |s.workers|
    ensures Faithful(PutStep(s, w))
  {
  }

  lemma ClaimFaithful(s: System, w: nat)
    requires Faithful(s) && w < |s.workers|
    ensures Faithful(ClaimStep(s, w))
  {
  }

  ghost predicate MayFinish(s: System, w: nat)
    requires w < |s.workers|
  {
    s.workers[w].Running? && MayEnd(s.workers[w].pool)
  }

  lemma WorkFaithful(s: System, a: Action)
    requires Partition(s) && Faithful(s) && IsWork(a) && a.w < |s.workers|
    ensures Faithful(WorkerStep(s, a))
  {
    match a
    case Answer(w, success, output) => if MayFinish(s, w) { EndFaithful(s, w, Result(Ran(success, output))); }
    case Raise(w, keyboard) => if MayFinish(s, w) { EndFaithful(s, w, Raised(keyboard)); }
    case Put(w) => PutFaithful(s, w);
    case Claim(w) => ClaimFaithful(s, w);
    case _ => SamePc(s, a);
  }

  lemma SamePc(s: System, a: Action)
    requires Faithful(s) && (a.Look? || a.MakePool? || a.UsePool? || a.GiveUp?) && a.w < |s.workers|
    ensures Faithful(WorkerStep(s, a))
  {
  }

  lemma StopFaithful(s: System, keyboard: bool)
    requires Faithful(s)
    ensures Faithful(Stop(s, keyboard))
  {
    forall h: nat
      ensures h in s.b.results ==> h in Filled(s.b.results, s.b.total) && Filled(s.b.results, s.b.total)[h] == s.b.results[h]
      ensures h in Filled(s.b.results, s.b.total) && h !in s.b.results ==>
                Filled(s.b.results, s.b.total)[h].UserInterrupted?
    {
      FilledEach(s.b.results, s.b.total, h);
    }
  }

  lemma StepFaithful(s: System, a: Action)
    requires Partition(s) && Faithful(s)
    ensures Faithful(Step(s, a))
  {
    if a.Interrupt? {
      StopFaithful(s, a.keyboard);
    } else if a.Collect? {
      if s.collector.Holding? && s.collector.item.outcome.Raised? {
        StopFaithful(s, s.collector.item.outcome.keyboard);
      }
    } else if IsWork(a) && a.w < |s.workers| {
      WorkFaithful(s, a);
    }
  }

  // --------------------------------------------------------- why workers exit

  function AbortedCall(pc: Worker): nat { One(pc == Exited(true)) }

  function QuitCall(pc: Worker): nat { One(pc == Exited(false)) }

  function RaisedItem(item: Item): nat { One(item.outcome.Raised?) }

  /** Until the batch is stopped, a worker call ends because there are no more hosts, or
      after an interrupt that the collector is still to see. */
  ghost predicate Exits(s: System) {
    !s.b.stopped ==>
      && Total(s.workers, AbortedCall)
         == Total(s.b.queue, RaisedItem) + One(s.collector.Holding? && s.collector.item.outcome.Raised?)
      && (Total(s.workers, QuitCall) > 0 ==> s.b.next >= s.b.total)
  }

  lemma WorkExits(s: System, a: Action)
    requires Exits(s) && IsWork(a) && a.w < |s.workers|
    ensures Exits(WorkerStep(s, a))
  {
    var s' := WorkerStep(s, a);
    if s' != s {
      TotalUpdate(s.workers, a.w, s'.workers[a.w], AbortedCall);
      TotalUpdate(s.workers, a.w, s'.workers[a.w], QuitCall);
      if a.Put? {
        TotalAppend(s.b.queue, s.workers[a.w].item, RaisedItem);
      }
    }
  }

  lemma CollectExits(s: System)
    requires Exits(s)
    ensures Exits(CollectStep(s))
  {
    TotalAppend(s.workers, Looking, AbortedCall);
    TotalAppend(s.workers, Looking, QuitCall);
    if s.collector.Getting? && s.b.queue != [] {
      TotalPop(s.b.queue, RaisedItem);
    }
  }

  lemma StepExits(s: System, a: Action)
    requires Exits(s)
    ensures Exits(Step(s, a))
  {
    if a.Collect? {
      CollectExits(s);
    } else if IsWork(a) && a.w < |s.workers| {
      WorkExits(s, a);
    }
  }

  // -------------------------------------------------------------- every state

  ghost predicate Inv(s: System) {
    Shape(s) && Partition(s) && Tallied(s) && Faithful(s) && Exits(s)
  }

  lemma InitialInv(total: nat, limit: nat)
    ensures Inv(Initial(total, limit))
  {
  }

  lemma StepInv(s: System, a: Action)
    requires Inv(s)
    ensures Inv(Step(s, a))
  {
    StepShape(s, a);
    StepPartition(s, a);
    StepTallied(s, a);
    StepFaithful(s, a);
    StepExits(s, a);
  }

  lemma {:induction false} ExecInv(s: System, actions: seq<Action>)
    requires Inv(s)
    ensures Inv(Exec(s, actions)) && Exec(s, actions).b.total == s.b.total && Exec(s, actions).b.limit == s.b.limit
    decreases |actions|
  {
    if actions != [] {
      StepInv(s, actions[0]);
      StepKeepsStop(s, actions[0]);
      ExecInv(Step(s, actions[0]), actions[1..]);
    }
  }

  lemma Reached(total: nat, limit: nat, actions: seq<Action>)
    ensures var s := Exec(Initial(total, limit), actions); Inv(s) && s.b.total == total && s.b.limit == limit
  {
    InitialInv(total, limit);
    ExecInv(Initial(total, limit), actions);
  }
}
