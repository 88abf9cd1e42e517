/** Any number of submitters, workers, waiters and closers using one task runner. A
    thread is one call of submit, wait_for or close, or one worker; a step is one block
    under the runner's lock, one semaphore, queue or event operation, or the end of a
    task function (which may return or raise). Actions that are not possible in a state
    leave it unchanged, so every sequence of actions is a run. */
module TaskRuns {
  import opened TaskRunner

  datatype WaitResult = Snapshot(status: Status) | TimedOut | NotFound | LostTask

  datatype Pc =
    // submit
    | AwaitingSlot(task: nat)
    | Placing(task: nat)
    | GivingUp(task: nat)
    | LeavingSubmit
    | Submitted
    // a worker
    | Idle
    | FoundEmpty
    | Marking(task: nat)
    | Skipping(task: nat)
    | Executing(task: nat)
    | Returned(task: nat)
    | RaisedIn(task: nat)
    | Releasing(task: nat)
    | Signalling(task: nat)
    | Retired
    // wait_for
    | Waiting(task: nat)
    | Woken(task: nat)
    | LeavingWait(task: nat, result: WaitResult)
    | Waited(result: WaitResult)
    // close(wait=True)
    | ClosingWait
    | Joining
    | CloseReturned

  /** `submitted` counts the tasks; `ran` logs each start of a task function;
      `confirmed` are the tasks for which cancel returned True; `startFailed` records
      that a worker thread could not be started. */
  datatype System = System(
    r: Runner,
    threads: seq<Pc>,
    submitted: nat,
    ran: seq<nat>,
    confirmed: set<nat>,
    startFailed: bool)

  datatype Move =
    | Advance
    | Interrupt(isException: bool)
    | Start(launches: nat, isException: bool)
    | GetTimesOut
    | FunctionReturns
    | FunctionRaises
    | WaitTimesOut

  datatype Action =
    | Submit
    | WaitFor(task: nat)
    | CancelTask(task: nat)
    | CancelAllTasks
    | CleanupOldTasks(aged: set<nat>)
    | CloseRunner(wait: bool)
    | On(t: nat, move: Move)

  function Initial(max: nat): System {
    System(NewRunner(max), [], 0, [], {}, false)
  }

  function Go(s: System, t: nat, r: Runner, pc: Pc): System
    requires t < |s.threads|
  {
    s.(r := r, threads := s.threads[t := pc])
  }

  function IdleWorkers(n: nat): seq<Pc> {
    seq(n, i => Idle)
  }

  function NewWorkers(r: Runner, r': Runner): nat {
    if r'.workerCount > r.workerCount then r'.workerCount - r.workerCount else 0
  }

  /** The block of submit that follows the semaphore; new workers start idle. */
  function PlaceStep(s: System, t: nat, launches: nat, isException: bool): System
    requires t < |s.threads|
  {
    match s.threads[t]
    case Placing(id) =>
      var (r, placement) := Place(s.r, id, launches, isException);
      var pc := if placement.Scheduled? then LeavingSubmit else GivingUp(id);
      var required := if s.r.max < s.r.activeCount + 1 then s.r.max else s.r.activeCount + 1;
      s.(r := r, threads := s.threads[t := pc] + IdleWorkers(NewWorkers(s.r, r)),
         startFailed := s.startFailed || (placement != GivenUp && r.workerCount < required))
    case _ => s
  }

  function SubmitterStep(s: System, t: nat): System
    requires t < |s.threads|
  {
    match s.threads[t]
    case AwaitingSlot(id) =>
      if s.r.permits > 0 then Go(s, t, s.r.(permits := s.r.permits - 1), Placing(id)) else s
    case GivingUp(id) => Go(s, t, ReleaseSlot(s.r, id), LeavingSubmit)
    case LeavingSubmit => Go(s, t, LeaveSubmit(s.r), Submitted)
    case _ => s
  }

  function WorkerStep(s: System, t: nat): System
    requires t < |s.threads|
  {
    match s.threads[t]
    case Idle =>
      if s.r.queue != [] then Go(s, t, s.r.(queue := s.r.queue[1..]), Marking(s.r.queue[0])) else s
    case FoundEmpty =>
      var (r, retired) := Retire(s.r);
      Go(s, t, r, if retired then Retired else Idle)
    case Marking(id) =>
      var (r, marked) := TryMark(s.r, id);
      if marked then Go(s, t, r, Executing(id)).(ran := s.ran + [id]) else Go(s, t, r, Skipping(id))
    case Skipping(id) => Go(s, t, ReleaseSlot(s.r, id), Idle)
    case _ => s
  }

  function FinishStep(s: System, t: nat): System
    requires t < |s.threads|
  {
    match s.threads[t]
    case Returned(id) => Go(s, t, Complete(s.r, id), Releasing(id))
    case RaisedIn(id) => Go(s, t, HandleException(s.r, id), Releasing(id))
    case Releasing(id) => Go(s, t, ReleaseSlot(s.r, id), Signalling(id))
    case Signalling(id) => Go(s, t, WithEvent(s.r, id), Idle)
    case _ => s
  }

  /** A worker thread that has not come to its end. */
  predicate IsWorking(pc: Pc) {
    IsWorkerPc(pc) || IsFinishPc(pc) || pc.Executing?
  }

  predicate AllRetired(threads: seq<Pc>) {
    forall i :: 0 <= i < |threads| ==> !IsWorking(threads[i])
  }

  /** close waits for the runner to be quiet and then joins the workers; no worker starts
      in a closed runner that is quiet, so those it joins are all that have not retired. */
  function WaiterStep(s: System, t: nat): System
    requires t < |s.threads|
  {
    match s.threads[t]
    case Waiting(id) => if EventSet(s.r, id) then Go(s, t, s.r, Woken(id)) else s
    case Woken(id) =>
      Go(s, t, s.r, LeavingWait(id, if id in s.r.tasks then Snapshot(s.r.tasks[id]) else LostTask))
    case LeavingWait(id, result) => Go(s, t, DropWaiter(s.r, id), Waited(result))
    case ClosingWait =>
      if s.r.activeCount == 0 && s.r.submitterCount == 0 then Go(s, t, s.r, Joining) else s
    case Joining => if AllRetired(s.threads) then Go(s, t, s.r, CloseReturned) else s
    case _ => s
  }

  predicate IsWorkerPc(pc: Pc) {
    pc.Idle? || pc.FoundEmpty? || pc.Marking? || pc.Skipping?
  }

  predicate IsFinishPc(pc: Pc) {
    pc.Returned? || pc.RaisedIn? || pc.Releasing? || pc.Signalling?
  }

  predicate IsSubmitterPc(pc: Pc) {
    pc.AwaitingSlot? || pc.GivingUp? || pc.LeavingSubmit?
  }

  function Moved(s: System, t: nat, move: Move): System
    requires t < |s.threads|
  {
    match move
    case Advance =>
      if IsSubmitterPc(s.threads[t]) then SubmitterStep(s, t)
      else if IsWorkerPc(s.threads[t]) then WorkerStep(s, t)
      else if IsFinishPc(s.threads[t]) then FinishStep(s, t)
      else WaiterStep(s, t)
    case Interrupt(isException) =>
      if s.threads[t].AwaitingSlot? then Go(s, t, AbortSubmit(s.r, s.threads[t].task, isException), Submitted) else s
    case Start(launches, isException) => PlaceStep(s, t, launches, isException)
    case GetTimesOut => if s.threads[t].Idle? && s.r.queue == [] then Go(s, t, s.r, FoundEmpty) else s
    case FunctionReturns => if s.threads[t].Executing? then Go(s, t, s.r, Returned(s.threads[t].task)) else s
    case FunctionRaises => if s.threads[t].Executing? then Go(s, t, s.r, RaisedIn(s.threads[t].task)) else s
    case WaitTimesOut =>
      if s.threads[t].Waiting? then Go(s, t, s.r, LeavingWait(s.threads[t].task, TimedOut)) else s
  }

  function Step(s: System, a: Action): System {
    match a
    case Submit =>
      var (r, ok) := Register(s.r, s.submitted);
      if ok then s.(r := r, threads := s.threads + [AwaitingSlot(s.submitted)], submitted := s.submitted + 1)
      else s.(threads := s.threads + [Submitted])
    case WaitFor(id) =>
      var (r, ok) := AddWaiter(s.r, id);
      s.(r := r, threads := s.threads + [if ok then Waiting(id) else Waited(NotFound)])
    case CancelTask(id) =>
      var (r, ok) := Cancel(s.r, id);
      s.(r := r, confirmed := if ok then s.confirmed + {id} else s.confirmed)
    case CancelAllTasks => s.(r := CancelAll(s.r))
    case CleanupOldTasks(aged) => s.(r := CleanupOld(s.r, aged))
    case CloseRunner(wait) =>
      s.(r := Close(s.r), threads := s.threads + [if wait then ClosingWait else CloseReturned])
    case On(t, move) => if t < |s.threads| then Moved(s, t, move) else s
  }

  function Exec(s: System, actions: seq<Action>): System
    decreases |actions|
  {
    if actions == [] then s else Exec(Step(s, actions[0]), actions[1..])
  }
}
