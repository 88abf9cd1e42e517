/** A batch run as a state machine: worker calls drain the shared host iterator and put
    their results into a bounded queue, the collector takes them out. A step is one queue
    or iterator operation, one look at the stop flag, or the end of a host's execution.
    Actions that are not possible in a state leave it unchanged. */
module BatchRuns {
  import opened Counting
  import opened Options
  import opened Sequences
  import opened Batch
  import opened PoolSettling
  import P = PoolRuns

  /** A worker call. `pool` is the internal pool of the host that is being executed, if
      one has been made for it. */
  datatype Worker =
    | Looking
    | Claiming
    | Running(host: nat, pool: Option<P.System>)
    | Publishing(item: Item)
    | Exited(aborted: bool)

  /** The calling thread: starts the worker calls, collects, then leaves the executor,
      which waits for the worker calls; `raised` tells a return from an exception. */
  datatype Collector =
    | Launching
    | Getting
    | Holding(item: Item)
    | Joining
    | Leaving(raised: bool)
    | Finished(raised: bool)

  /** `produced` remembers what each host's execution returned, `retired` the internal
      pools of the executions that have ended. */
  datatype System = System(
    b: Shared,
    workers: seq<Worker>,
    collector: Collector,
    produced: map<nat, Outcome>,
    retired: seq<P.System>)

  datatype Action =
    | Collect
    | LaunchFails(queued: bool)
    | Interrupt(keyboard: bool)
    | Look(w: nat)
    | Claim(w: nat)
    | MakePool(w: nat)
    | UsePool(w: nat, act: P.Action)
    | Answer(w: nat, success: bool, output: nat)
    | Raise(w: nat, keyboard: bool)
    | Put(w: nat)
    | GiveUp(w: nat)

  function Initial(total: nat, limit: nat): System {
    System(NewShared(total, limit), [], Launching, map[], [])
  }

  /** worker_count = min(max_concurrency, total) */
  function WorkerCount(b: Shared): nat {
    if b.limit < b.total then b.limit else b.total
  }

  predicate AllExited(workers: seq<Worker>) {
    forall w :: 0 <= w < |workers| ==> workers[w].Exited?
  }

  function Stop(s: System, keyboard: bool): System {
    s.(b := StopBatch(s.b, keyboard), collector := Leaving(!keyboard))
  }

  function CollectStep(s: System): System {
    match s.collector
    case Launching =>
      if |s.workers| < WorkerCount(s.b) then s.(workers := s.workers + [Looking]) else s.(collector := Getting)
    case Getting =>
      if s.b.completed >= s.b.total then s.(collector := Joining)
      else if s.b.queue != [] then s.(b := s.b.(queue := s.b.queue[1..]), collector := Holding(s.b.queue[0]))
      else s
    case Holding(item) =>
      if item.outcome.Raised? then Stop(s, item.outcome.keyboard)
      else s.(b := Record(s.b, item.host, item.outcome.result), collector := Getting)
    case Joining => if AllExited(s.workers) then s.(collector := Leaving(false)) else s
    case Leaving(raised) => if AllExited(s.workers) then s.(collector := Finished(raised)) else s
    case Finished(_) => s
  }

  function Set(s: System, w: nat, b: Shared, pc: Worker): System
    requires w < |s.workers|
  {
    s.(b := b, workers := s.workers[w := pc])
  }

  /** An execution ends only when every use of its internal pool has come back, and so
      has the close_all of its finally clause. */
  ghost predicate MayEnd(pool: Option<P.System>) {
    pool.Some? ==> Settled(pool.value)
  }

  ghost function EndExecution(s: System, w: nat, outcome: Outcome): System
    requires w < |s.workers|
  {
    match s.workers[w]
    case Running(h, pool) =>
      if MayEnd(pool) then
        Set(s, w, s.b, Publishing(Item(h, outcome))).(
          produced := s.produced[h := outcome],
          retired := if pool.Some? then s.retired + [pool.value] else s.retired)
      else s
    case _ => s
  }

  function PutStep(s: System, w: nat): System
    requires w < |s.workers|
  {
    match s.workers[w]
    case Publishing(item) =>
      var (b, accepted) := Publish(s.b, item);
      if accepted then Set(s, w, b, if item.outcome.Raised? then Exited(true) else Looking) else s
    case _ => s
  }

  function ClaimStep(s: System, w: nat): System
    requires w < |s.workers|
  {
    if s.workers[w].Claiming? then
      var (b, host) := NextHost(s.b);
      Set(s, w, b, if host.Some? then Running(host.value, None) else Exited(false))
    else s
  }

  /** SyncConnectionPool(max_connections=1), once the host is resolved. */
  function MakePoolStep(s: System, w: nat): System
    requires w < |s.workers|
  {
    match s.workers[w]
    case Running(h, pool) => if pool.None? then Set(s, w, s.b, Running(h, Some(P.Start(1)))) else s
    case _ => s
  }

  /** Any step of the internal pool: nobody starts the background cleanup of one. */
  function UsePoolStep(s: System, w: nat, act: P.Action): System
    requires w < |s.workers|
  {
    match s.workers[w]
    case Running(h, pool) =>
      if pool.Some? && !act.CallCleanup? then Set(s, w, s.b, Running(h, Some(P.Step(pool.value, act)))) else s
    case _ => s
  }

  /** The stop flag may be set between a worker's look at it and its next operation, so
      claiming a host and putting a result remain possible after the stop. */
  ghost function WorkerStep(s: System, a: Action): System
    requires !a.Collect? && !a.LaunchFails? && !a.Interrupt? && a.w < |s.workers|
  {
    var pc := s.workers[a.w];
    match a
    case Look(w) => if pc.Looking? then Set(s, w, s.b, if s.b.stopped then Exited(false) else Claiming) else s
    case Claim(w) => ClaimStep(s, w)
    case MakePool(w) => MakePoolStep(s, w)
    case UsePool(w, act) => UsePoolStep(s, w, act)
    case Answer(w, success, output) => EndExecution(s, w, Result(Ran(success, output)))
    case Raise(w, keyboard) => EndExecution(s, w, Raised(keyboard))
    case Put(w) => PutStep(s, w)
    case GiveUp(w) => if pc.Publishing? && s.b.stopped then Set(s, w, s.b, Exited(false)) else s
  }

  ghost function Step(s: System, a: Action): System {
    match a
    case Collect => CollectStep(s)
    case LaunchFails(queued) =>
      if s.collector.Launching? && |s.workers| < WorkerCount(s.b) then
        s.(b := s.b.(stopped := true), collector := Leaving(true),
           workers := if queued then s.workers + [Looking] else s.workers)
      else s
    case Interrupt(keyboard) =>
      if s.collector.Getting? || s.collector.Holding? || s.collector.Joining? then Stop(s, keyboard) else s
    case _ => if a.w < |s.workers| then WorkerStep(s, a) else s
  }

  ghost function Exec(s: System, actions: seq<Action>): System
    decreases |actions|
  {
    if actions == [] then s else Exec(Step(s, actions[0]), actions[1..])
  }

  // -------------------------------------------------------------- where a host is

  function Hands(h: nat): Worker -> nat {
    (pc: Worker) => One((pc.Running? && pc.host == h) || (pc.Publishing? && pc.item.host == h))
  }

  function ItemFor(h: nat): Item -> nat {
    (item: Item) => One(item.host == h)
  }

  function CallFor(h: nat): ((nat, nat)) -> nat {
    (call: (nat, nat)) => One(call.1 == h)
  }

  /** In how many places host `h` is: unclaimed, in a worker's hands, queued, in the
      collector's hands, or collected. */
  function Places(s: System, h: nat): nat {
    One(s.b.next <= h < s.b.total) + Total(s.workers, Hands(h)) + Total(s.b.queue, ItemFor(h))
    + One(s.collector.Holding? && s.collector.item.host == h) + Total(s.b.callbacks, CallFor(h))
  }

  lemma WorkerPlaces(s: System, a: Action, h: nat)
    requires !a.Collect? && !a.LaunchFails? && !a.Interrupt? && a.w < |s.workers| && s.b.next <= s.b.total
    ensures Places(WorkerStep(s, a), h) <= Places(s, h)
    ensures Places(WorkerStep(s, a), h) == Places(s, h) || s.b.stopped
  {
    var s' := WorkerStep(s, a);
    if s' != s {
      TotalUpdate(s.workers, a.w, s'.workers[a.w], Hands(h));
      if a.Put? {
        TotalAppend(s.b.queue, s.workers[a.w].item, ItemFor(h));
      }
    }
  }
}
