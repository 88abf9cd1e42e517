/** The background task runner (remote_cmd/service/task_runner.py): tasks with a status,
    a completion event and a cancel flag, worker slots guarded by a semaphore, a bounded
    queue, and reusable worker threads. `Runner` is the value of one runner; each
    function is one block under its lock. `TaskRunner` is the object, proved against the
    functions. */
module TaskRunner {
  import opened Options
  import opened Sequences

  datatype Status = Pending | Running | Success | Failed | Cancelled

  predicate Terminal(st: Status) {
    st.Success? || st.Failed? || st.Cancelled?
  }

  /** Tasks are numbered in submission order. `tasks`, `events` (is the completion event
      set) and `flags` (is the cancel flag set) are the three tables keyed by task. */
  datatype Runner = Runner(
    max: nat,
    tasks: map<nat, Status>,
    events: map<nat, bool>,
    flags: map<nat, bool>,
    waiters: map<nat, nat>,
    slotTasks: set<nat>,
    activeCount: int,
    submitterCount: int,
    permits: nat,
    queue: seq<nat>,
    workerCount: int,
    closed: bool)

  function NewRunner(max: nat): Runner {
    Runner(max, map[], map[], map[], map[], {}, 0, 0, max, [], 0, false)
  }

  predicate EventSet(r: Runner, id: nat) {
    id in r.events && r.events[id]
  }

  predicate Flagged(r: Runner, id: nat) {
    id in r.flags && r.flags[id]
  }

  function WithStatus(r: Runner, id: nat, st: Status): Runner {
    r.(tasks := r.tasks[id := st])
  }

  /** `self._events[id].set()` guarded by membership, as every caller guards it. */
  function WithEvent(r: Runner, id: nat): Runner {
    if id in r.events then r.(events := r.events[id := true]) else r
  }

  /** submit, first block; false when the runner is closed. */
  function Register(r: Runner, id: nat): (Runner, bool) {
    if r.closed then (r, false)
    else (r.(tasks := r.tasks[id := Pending], events := r.events[id := false], flags := r.flags[id := false],
             submitterCount := r.submitterCount + 1), true)
  }

  /** submit, when waiting for a slot raised. */
  function AbortSubmit(r: Runner, id: nat, isException: bool): Runner {
    var r1 := if id in r.tasks && r.tasks[id].Pending?
              then WithEvent(WithStatus(r, id, if isException then Failed else Cancelled), id) else r;
    r1.(submitterCount := r1.submitterCount - 1)
  }

  /** _ensure_workers_locked: how many workers there are afterwards when `launches`
      thread starts succeed before one fails. */
  function EnsureWorkers(workers: int, required: int, launches: nat): int {
    if workers >= required then workers
    else if workers + launches >= required then required else workers + launches
  }

  datatype Placement = Scheduled | GivenUp | StartFailed

  /** submit, the block that runs once the slot is acquired: takes the slot, and queues
      the task unless it was cancelled or closed meanwhile, no worker can be started, or
      the queue is full. */
  function Place(r: Runner, id: nat, launches: nat, isException: bool): (Runner, Placement) {
    var r1 := r.(activeCount := r.activeCount + 1, slotTasks := r.slotTasks + {id});
    if id !in r.tasks || r.tasks[id].Cancelled? || Flagged(r, id) || r.closed then (r1, GivenUp)
    else
      var required := if r1.max < r1.activeCount then r1.max else r1.activeCount;
      var r2 := r1.(workerCount := EnsureWorkers(r1.workerCount, required, launches));
      if (r2.workerCount < required && r2.workerCount == 0) || |r2.queue| >= r2.max then
        (WithEvent(WithStatus(r2, id, if isException then Failed else Cancelled), id), StartFailed)
      else (r2.(queue := r2.queue + [id]), Scheduled)
  }

  function LeaveSubmit(r: Runner): Runner {
    r.(submitterCount := r.submitterCount - 1)
  }

  function ReleaseSlot(r: Runner, id: nat): Runner {
    if id !in r.slotTasks then r
    else r.(slotTasks := r.slotTasks - {id}, activeCount := r.activeCount - 1, permits := r.permits + 1)
  }

  /** _try_mark_running */
  function TryMark(r: Runner, id: nat): (Runner, bool) {
    if id !in r.tasks then (r, false)
    else if r.tasks[id].Cancelled? || Flagged(r, id) then (WithEvent(WithStatus(r, id, Cancelled), id), false)
    else if !r.tasks[id].Pending? then (r, false)
    else (WithStatus(r, id, Running), true)
  }

  function Complete(r: Runner, id: nat): Runner {
    if id !in r.tasks then r
    else if Flagged(r, id) then WithStatus(r, id, Cancelled)
    else WithStatus(r, id, Success)
  }

  function HandleException(r: Runner, id: nat): Runner {
    if id !in r.tasks then r
    else if Flagged(r, id) then WithStatus(r, id, Cancelled)
    else if !r.tasks[id].Cancelled? then WithStatus(r, id, Failed)
    else r
  }

  /** _worker_loop, when the queue stayed empty: true when the worker retires. */
  function Retire(r: Runner): (Runner, bool) {
    if r.queue == [] || r.closed then (r.(workerCount := r.workerCount - 1), true) else (r, false)
  }

  function Cancel(r: Runner, id: nat): (Runner, bool) {
    if id !in r.tasks then (r, false)
    else if r.tasks[id].Pending? then
      var r1 := WithStatus(r, id, Cancelled);
      (WithEvent(r1.(flags := if id in r.flags then r.flags[id := true] else r.flags), id), true)
    else if r.tasks[id].Running? then
      (r.(flags := if id in r.flags then r.flags[id := true] else r.flags), true)
    else (r, false)
  }

  predicate Hit(r: Runner, ids: set<nat>, id: nat) {
    id in ids && id in r.tasks && r.tasks[id].Pending?
  }

  /** Those of `ids` that are pending become cancelled, flagged and signalled. */
  function CancelThose(r: Runner, ids: set<nat>): Runner {
    r.(tasks := map id | id in r.tasks :: if Hit(r, ids, id) then Cancelled else r.tasks[id],
       flags := map id | id in r.flags :: r.flags[id] || Hit(r, ids, id),
       events := map id | id in r.events :: r.events[id] || Hit(r, ids, id))
  }

  function CancelAll(r: Runner): Runner {
    CancelThose(r, r.tasks.Keys)
  }

  lemma CancelNone(r: Runner)
    ensures CancelThose(r, {}) == r
  {
    var none := CancelThose(r, {});
    assert none.tasks == r.tasks && none.flags == r.flags && none.events == r.events;
  }

  /** Cancelling one task after the others is cancelling it with them. */
  lemma CancelOneMore(r: Runner, ids: set<nat>, id: nat)
    requires id in r.tasks && id !in ids
    ensures var r0 := CancelThose(r, ids);
            CancelThose(r, ids + {id}) == if r.tasks[id].Pending? then Cancel(r0, id).0 else r0
  {
    var r0, r1 := CancelThose(r, ids), CancelThose(r, ids + {id});
    var hit := r.tasks[id].Pending?;
    forall k ensures Hit(r, ids + {id}, k) == (Hit(r, ids, k) || (k == id && hit)) {
    }
    assert r1.tasks == if hit then r0.tasks[id := Cancelled] else r0.tasks;
    assert r1.flags == if hit && id in r0.flags then r0.flags[id := true] else r0.flags;
    assert r1.events == if hit && id in r0.events then r0.events[id := true] else r0.events;
  }

  /** close, first block. */
  function Close(r: Runner): Runner {
    if r.closed then r else CancelAll(r).(closed := true)
  }

  function WaiterCount(r: Runner, id: nat): nat {
    if id in r.waiters then r.waiters[id] else 0
  }

  function AddWaiter(r: Runner, id: nat): (Runner, bool) {
    if id !in r.events then (r, false)
    else (r.(waiters := r.waiters[id := WaiterCount(r, id) + 1]), true)
  }

  function DropWaiter(r: Runner, id: nat): Runner {
    if WaiterCount(r, id) > 1 then r.(waiters := r.waiters[id := WaiterCount(r, id) - 1])
    else r.(waiters := r.waiters - {id})
  }

  /** cleanup_old: `aged` are the tasks whose age has reached the limit. */
  predicate Removable(r: Runner, id: nat, aged: set<nat>) {
    id in r.tasks && Terminal(r.tasks[id]) && WaiterCount(r, id) == 0 && id in aged
  }

  function CleanupOld(r: Runner, aged: set<nat>): Runner {
    var gone := set id | id in r.tasks && Removable(r, id, aged);
    r.(tasks := r.tasks - gone, events := r.events - gone, flags := r.flags - gone)
  }

  // ------------------------------------------------- one caller after the other

  /** The three tables have the same keys. */
  ghost predicate TablesMatch(r: Runner) {
    r.tasks.Keys == r.events.Keys == r.flags.Keys
  }

  /** A task that a worker will run when it takes it from the queue. */
  predicate Runs(r: Runner, id: nat) {
    id in r.tasks && r.tasks[id].Pending? && !Flagged(r, id)
  }

  predicate Ends(r: Runner, id: nat) {
    id in r.tasks ==> Terminal(r.tasks[id]) && EventSet(r, id)
  }

  /** Nothing about the tasks other than `id` differs. */
  ghost predicate OthersSame(r: Runner, r': Runner, id: nat) {
    && r'.tasks.Keys == r.tasks.Keys && r'.events.Keys == r.events.Keys && r'.flags.Keys == r.flags.Keys
    && (forall k :: k in r.tasks && k != id ==> r'.tasks[k] == r.tasks[k])
    && (forall k :: k in r.events && k != id ==> r'.events[k] == r.events[k])
    && (forall k :: k in r.flags && k != id ==> r'.flags[k] == r.flags[k])
    && r'.queue == r.queue && r'.closed == r.closed && r'.workerCount == r.workerCount && r'.max == r.max
  }

  /** What executing a task comes to: its function runs if and only if the task is pending
      and not flagged; afterwards the task has ended, as a success or failure only if it was
      not cancelled, its event is set and its slot is back; no other task is touched. */
  ghost predicate Executed(r: Runner, r': Runner, id: nat, meanwhile: bool, succeeds: bool, ran: bool) {
    && (ran <==> Runs(r, id))
    && OthersSame(r, r', id)
    && r'.slotTasks == r.slotTasks - {id}
    && r'.permits - r.permits == r.activeCount - r'.activeCount == (if id in r.slotTasks then 1 else 0)
    && (id in r.tasks && (r.tasks[id].Pending? || r.tasks[id].Cancelled?) ==>
          && EventSet(r', id) && id in r'.tasks
          && r'.tasks[id] == if !ran || meanwhile then Cancelled else if succeeds then Success else Failed)
  }

  /** The status, event and flag of a task. */
  ghost predicate Row(r: Runner, id: nat, status: Status, event: bool, flag: bool) {
    id in r.tasks && r.tasks[id] == status && id in r.events && r.events[id] == event && id in r.flags && r.flags[id] == flag
  }

  ghost predicate SlotsSame(r: Runner, r': Runner) {
    r'.slotTasks == r.slotTasks && r'.permits == r.permits && r'.activeCount == r.activeCount
  }

  /** One block of an execution: it touches no other task and no slot. */
  ghost predicate Touches(r: Runner, r': Runner, id: nat) {
    OthersSame(r, r', id) && SlotsSame(r, r')
  }

  lemma TouchesTwice(a: Runner, b: Runner, c: Runner, id: nat)
    requires Touches(a, b, id) && Touches(b, c, id)
    ensures Touches(a, c, id)
  {
  }

  /** A task is in all three tables or, once cleaned up, in none. */
  predicate InTables(r: Runner, id: nat) {
    (id in r.tasks <==> id in r.events) && (id in r.tasks <==> id in r.flags)
  }

  lemma MarkTouches(r: Runner, id: nat)
    requires InTables(r, id)
    ensures Touches(r, TryMark(r, id).0, id) && (TryMark(r, id).1 <==> Runs(r, id))
    ensures Runs(r, id) ==> Row(TryMark(r, id).0, id, Running, r.events[id], false)
    ensures !Runs(r, id) && id in r.tasks && (r.tasks[id].Pending? || r.tasks[id].Cancelled?) ==>
              Row(TryMark(r, id).0, id, Cancelled, true, r.flags[id])
  {
  }

  lemma CancelTouches(r: Runner, id: nat, event: bool)
    requires Row(r, id, Running, event, false)
    ensures Touches(r, Cancel(r, id).0, id) && Row(Cancel(r, id).0, id, Running, event, true)
  {
  }

  lemma EndTouches(r: Runner, id: nat, event: bool, flag: bool, succeeds: bool)
    requires Row(r, id, Running, event, flag)
    ensures var r' := if succeeds then Complete(r, id) else HandleException(r, id);
            && Touches(r, r', id)
            && Row(r', id, if flag then Cancelled else if succeeds then Success else Failed, event, flag)
  {
  }

  /** The last blocks: the slot goes back and the event is set. */
  lemma ReleaseExact(r: Runner, id: nat, signals: bool)
    ensures var r' := if signals then WithEvent(ReleaseSlot(r, id), id) else ReleaseSlot(r, id);
            && OthersSame(r, r', id) && r'.tasks == r.tasks && r'.slotTasks == r.slotTasks - {id}
            && r'.permits - r.permits == r.activeCount - r'.activeCount == (if id in r.slotTasks then 1 else 0)
            && (id in r.events ==> id in r'.events && (r'.events[id] <==> r.events[id] || signals))
  {
  }

  lemma ExecutedBy(r: Runner, m: Runner, r': Runner, id: nat, meanwhile: bool, succeeds: bool, ran: bool)
    requires Touches(r, m, id) && (ran <==> Runs(r, id))
    requires OthersSame(m, r', id) && r'.tasks == m.tasks && r'.slotTasks == m.slotTasks - {id}
    requires r'.permits - m.permits == m.activeCount - r'.activeCount == (if id in m.slotTasks then 1 else 0)
    requires id in r.tasks && (r.tasks[id].Pending? || r.tasks[id].Cancelled?) ==>
               && m.tasks[id] == (if !ran || meanwhile then Cancelled else if succeeds then Success else Failed)
               && EventSet(r', id)
    ensures Executed(r, r', id, meanwhile, succeeds, ran)
  {
  }

  /** The tasks of `ids` whose functions run, in order. */
  function Runnable(r: Runner, ids: seq<nat>): seq<nat> {
    if ids == [] then [] else (if Runs(r, ids[0]) then [ids[0]] else []) + Runnable(r, ids[1..])
  }

  lemma {:induction false} SameRunnable(r: Runner, r': Runner, ids: seq<nat>)
    requires forall id :: id in ids ==> (Runs(r, id) <==> Runs(r', id))
    ensures Runnable(r, ids) == Runnable(r', ids)
  {
    if ids != [] {
      assert forall id :: id in ids[1..] ==> id in ids;
      SameRunnable(r, r', ids[1..]);
    }
  }

  /** A queued task with its slot, that nobody has looked at. */
  ghost predicate Waits(r: Runner, id: nat) {
    id in r.slotTasks && (id in r.tasks ==> r.tasks[id].Pending? || r.tasks[id].Cancelled?)
  }

  /** A worker has executed the first `k` of the queued tasks. */
  ghost predicate Progress(start: Runner, r: Runner, k: nat) {
    && k <= |start.queue| && r.queue == start.queue[k..]
    && TablesMatch(r) && r.tasks.Keys == start.tasks.Keys && r.closed == start.closed && r.workerCount == start.workerCount
    && r.permits - start.permits == k == start.activeCount - r.activeCount
    && (forall i :: k <= i < |start.queue| ==> Waits(r, start.queue[i]))
    && (forall i :: 0 <= i < k ==> start.queue[i] !in r.slotTasks && Ends(r, start.queue[i]))
  }

  /** How a queued task ends if nobody cancels it before its turn. */
  function FinalStatus(start: Runner, id: nat, cancelled: set<nat>, raising: set<nat>): Status {
    if !Runs(start, id) || id in cancelled then Cancelled else if id in raising then Failed else Success
  }

  /** The first `k` queued tasks have ended as they should, the others are as they were. */
  ghost predicate Finals(start: Runner, r: Runner, k: nat, cancelled: set<nat>, raising: set<nat>) {
    && k <= |start.queue|
    && (forall i :: 0 <= i < k && start.queue[i] in r.tasks ==>
          r.tasks[start.queue[i]] == FinalStatus(start, start.queue[i], cancelled, raising))
    && (forall i :: k <= i < |start.queue| ==> (Runs(r, start.queue[i]) <==> Runs(start, start.queue[i])))
  }

  lemma FinalsStep(start: Runner, r: Runner, r': Runner, k: nat, cancelled: set<nat>, raising: set<nat>, ran: bool)
    requires Progress(start, r, k) && Finals(start, r, k, cancelled, raising) && k < |start.queue| && Distinct(start.queue)
    requires var id := start.queue[k];
             Executed(r.(queue := r.queue[1..]), r', id, id in cancelled, id !in raising, ran)
    ensures Finals(start, r', k + 1, cancelled, raising)
  {
    assert Waits(r, start.queue[k]);
    forall i | 0 <= i < |start.queue| && i != k ensures start.queue[i] != start.queue[k] {
    }
  }

  lemma AllDone(start: Runner, r: Runner, cancelled: set<nat>, raising: set<nat>)
    requires Progress(start, r, |start.queue|) && Finals(start, r, |start.queue|, cancelled, raising)
    ensures forall id :: id in start.queue ==> Ends(r, id) && id !in r.slotTasks
    ensures forall id :: id in start.queue && id in r.tasks ==> r.tasks[id] == FinalStatus(start, id, cancelled, raising)
  {
  }

  lemma ProgressStep(start: Runner, r: Runner, r': Runner, k: nat, meanwhile: bool, succeeds: bool, ran: bool)
    requires Progress(start, r, k) && k < |start.queue| && Distinct(start.queue)
    requires Executed(r.(queue := r.queue[1..]), r', start.queue[k], meanwhile, succeeds, ran)
    ensures Progress(start, r', k + 1)
  {
    assert Waits(r, start.queue[k]);
    forall i | 0 <= i < |start.queue| && i != k ensures start.queue[i] != start.queue[k] {
    }
  }

  lemma RunnableStep(start: Runner, r: Runner, r': Runner, k: nat, meanwhile: bool, succeeds: bool, ran: bool)
    requires Progress(start, r, k) && k < |start.queue| && Distinct(start.queue)
    requires Executed(r.(queue := r.queue[1..]), r', start.queue[k], meanwhile, succeeds, ran)
    ensures Runnable(r, r.queue) == (if ran then [start.queue[k]] else []) + Runnable(r', r'.queue)
  {
    forall i | k < i < |start.queue| ensures Runs(r, start.queue[i]) <==> Runs(r', start.queue[i]) {
      assert start.queue[i] != start.queue[k];
    }
    forall id | id in r'.queue ensures Runs(r, id) <==> Runs(r', id) {
      var j :| 0 <= j < |r'.queue| && r'.queue[j] == id;
      assert start.queue[k + 1 + j] == id;
    }
    SameRunnable(r, r', r'.queue);
  }

  /** What submit comes to: refused when closed; given up when the wait for a slot is broken
      off or no worker can be started or the queue is full; else the task is queued with a
      slot and there is a worker. */
  ghost predicate Submits(r: Runner, r': Runner, id: nat, isException: bool, scheduled: bool) {
    && r'.closed == r.closed && r'.submitterCount == r.submitterCount
    && (r.closed ==> !scheduled && r' == r)
    && (scheduled ==>
          && r'.queue == r.queue + [id] && r'.slotTasks == r.slotTasks + {id} && r'.permits == r.permits - 1
          && r'.activeCount == r.activeCount + 1 && r'.workerCount > 0
          && r'.tasks == r.tasks[id := Pending] && !EventSet(r', id))
    && (!scheduled ==>
          && r'.queue == r.queue && r'.slotTasks == r.slotTasks && r'.permits == r.permits
          && r'.activeCount == r.activeCount)
    && (!scheduled && !r.closed ==>
          r'.tasks == r.tasks[id := if isException then Failed else Cancelled] && EventSet(r', id))
  }

  lemma PlaceExact(r: Runner, id: nat, launches: nat, isException: bool)
    requires id in r.tasks && r.tasks[id].Pending? && !Flagged(r, id) && id in r.events && !r.closed
    requires id !in r.slotTasks && r.activeCount >= 0 && r.workerCount >= 0 && r.max > 0
    ensures var (r', placement) := Place(r, id, launches, isException);
            && !placement.GivenUp? && r'.slotTasks == r.slotTasks + {id} && r'.activeCount == r.activeCount + 1
            && r'.permits == r.permits && r'.closed == r.closed && r'.submitterCount == r.submitterCount
            && (placement.Scheduled? <==> |r.queue| < r.max && (r.workerCount > 0 || launches > 0))
            && (if placement.Scheduled?
                then r'.queue == r.queue + [id] && r'.workerCount > 0 && r'.tasks == r.tasks && r'.events == r.events
                else && r'.queue == r.queue && r'.tasks == r.tasks[id := if isException then Failed else Cancelled]
                     && r'.events == r.events[id := true])
  {
  }

  lemma OldRemoved(r: Runner, aged: set<nat>)
    ensures var r' := CleanupOld(r, aged);
            && r' == r.(tasks := r'.tasks, events := r'.events, flags := r'.flags)
            && (forall id :: id in r'.tasks <==>
                  id in r.tasks &&
                  !(&& (r.tasks[id] == Success || r.tasks[id] == Failed || r.tasks[id] == Cancelled)
                    && id in aged && !(id in r.waiters && r.waiters[id] > 0)))
            && (forall id :: id in r'.events <==> id in r.events && (id in r.tasks ==> id in r'.tasks))
            && (forall id :: id in r'.flags <==> id in r.flags && (id in r.tasks ==> id in r'.tasks))
            && (forall id :: id in r'.tasks ==> r'.tasks[id] == r.tasks[id])
            && (forall id :: id in r'.events ==> r'.events[id] == r.events[id])
            && (forall id :: id in r'.flags ==> r'.flags[id] == r.flags[id])
            && r.tasks.Keys - r'.tasks.Keys == set id | id in r.tasks && Removable(r, id, aged)
  {
  }

  class TaskRunner {
    const max: nat
    var tasks: map<nat, Status>
    var events: map<nat, bool>
    var flags: map<nat, bool>
    var waiters: map<nat, nat>
    var slotTasks: set<nat>
    var activeCount: int
    var submitterCount: int
    var permits: nat
    var queue: seq<nat>
    var workerCount: int
    var closed: bool

    function Value(): Runner
      reads this
    {
      Runner(max, tasks, events, flags, waiters, slotTasks, activeCount, submitterCount, permits, queue,
             workerCount, closed)
    }

    constructor (maxWorkers: nat)
      requires maxWorkers > 0
      ensures Value() == NewRunner(maxWorkers)
    {
      max := maxWorkers;
      tasks, events, flags, waiters, slotTasks := map[], map[], map[], map[], {};
      activeCount, submitterCount, permits, queue, workerCount, closed := 0, 0, maxWorkers, [], 0, false;
    }

    method RegisterTask(id: nat) returns (accepted: bool)
      modifies this
      ensures (Value(), accepted) == Register(old(Value()), id)
    {
      if closed {
        return false;
      }
      tasks := tasks[id := Pending];
      events := events[id := false];
      flags := flags[id := false];
      submitterCount := submitterCount + 1;
      accepted := true;
    }

    /** Starts workers one by one until there are enough or a start fails. */
    method StartWorkers(required: int, launches: nat) returns (raised: bool)
      modifies this
      ensures Value() == old(Value()).(workerCount := EnsureWorkers(old(workerCount), required, launches))
      ensures raised <==> workerCount < required && workerCount == 0
      ensures old(workerCount) <= workerCount && (workerCount > old(workerCount) ==> workerCount <= required)
      ensures workerCount < required ==> workerCount == old(workerCount) + launches
    {
      var left := launches;
      while workerCount < required
        invariant Value() == old(Value()).(workerCount := workerCount)
        invariant workerCount - old(workerCount) == launches - left >= 0
        invariant workerCount <= required || workerCount == old(workerCount)
        decreases required - workerCount
      {
        if left == 0 {
          return workerCount == 0;
        }
        workerCount := workerCount + 1;
        left := left - 1;
      }
      raised := false;
    }

    method PlaceTask(id: nat, launches: nat, isException: bool) returns (placement: Placement)
      modifies this
      ensures (Value(), placement) == Place(old(Value()), id, launches, isException)
      ensures slotTasks == old(slotTasks) + {id} && activeCount == old(activeCount) + 1 && permits == old(permits)
      ensures placement.GivenUp? <==>
                id !in old(tasks) || old(tasks)[id].Cancelled? || (id in old(flags) && old(flags)[id]) || old(closed)
      ensures placement.GivenUp? ==> queue == old(queue) && tasks == old(tasks) && workerCount == old(workerCount)
      ensures placement.Scheduled? ==> queue == old(queue) + [id] && tasks == old(tasks) && events == old(events)
      ensures placement.StartFailed? ==>
                && queue == old(queue) && tasks == old(tasks)[id := if isException then Failed else Cancelled]
                && (id in old(events) ==> events == old(events)[id := true])
                && (workerCount == 0 || |old(queue)| >= max)
    {
      activeCount := activeCount + 1;
      slotTasks := slotTasks + {id};
      if id !in tasks || tasks[id].Cancelled? || Flagged(Value(), id) || closed {
        return GivenUp;
      }
      var raised := StartWorkers(if max < activeCount then max else activeCount, launches);
      if raised || |queue| >= max {
        tasks := tasks[id := if isException then Failed else Cancelled];
        if id in events {
          events := events[id := true];
        }
        return StartFailed;
      }
      queue := queue + [id];
      placement := Scheduled;
    }

    method FreeSlot(id: nat)
      modifies this
      ensures Value() == ReleaseSlot(old(Value()), id)
    {
      if id !in slotTasks {
        return;
      }
      slotTasks := slotTasks - {id};
      activeCount := activeCount - 1;
      permits := permits + 1;
    }

    method MarkRunning(id: nat) returns (marked: bool)
      modifies this
      ensures (Value(), marked) == TryMark(old(Value()), id)
    {
      if id !in tasks {
        return false;
      }
      if tasks[id].Cancelled? || Flagged(Value(), id) {
        tasks := tasks[id := Cancelled];
        if id in events {
          events := events[id := true];
        }
        return false;
      }
      if !tasks[id].Pending? {
        return false;
      }
      tasks := tasks[id := Running];
      marked := true;
    }

    method CompleteTask(id: nat)
      modifies this
      ensures Value() == Complete(old(Value()), id)
    {
      if id in tasks {
        tasks := tasks[id := if Flagged(Value(), id) then Cancelled else Success];
      }
    }

    method FailTask(id: nat)
      modifies this
      ensures Value() == HandleException(old(Value()), id)
    {
      if id in tasks {
        if Flagged(Value(), id) {
          tasks := tasks[id := Cancelled];
        } else if !tasks[id].Cancelled? {
          tasks := tasks[id := Failed];
        }
      }
    }

    method CancelTask(id: nat) returns (cancelled: bool)
      modifies this
      ensures (Value(), cancelled) == Cancel(old(Value()), id)
      ensures cancelled <==> id in old(tasks) && (old(tasks)[id].Pending? || old(tasks)[id].Running?)
      ensures cancelled && id in old(flags) ==> id in flags && flags[id]
      ensures cancelled && old(tasks)[id].Pending? ==>
                tasks == old(tasks)[id := Cancelled] && (id in old(events) ==> id in events && events[id])
      ensures cancelled && old(tasks)[id].Running? ==> tasks == old(tasks) && events == old(events)
      ensures !cancelled ==> Value() == old(Value())
    {
      if id !in tasks {
        return false;
      }
      if tasks[id].Pending? {
        tasks := tasks[id := Cancelled];
        if id in flags {
          flags := flags[id := true];
        }
        if id in events {
          events := events[id := true];
        }
        return true;
      }
      if tasks[id].Running? {
        if id in flags {
          flags := flags[id := true];
        }
        return true;
      }
      cancelled := false;
    }

    method CancelPending()
      modifies this
      ensures Value() == CancelAll(old(Value()))
      ensures Value() == old(Value()).(tasks := tasks, events := events, flags := flags)
      ensures tasks.Keys == old(tasks).Keys && events.Keys == old(events).Keys && flags.Keys == old(flags).Keys
      ensures forall id :: id in tasks ==> tasks[id] == if old(tasks)[id] == Pending then Cancelled else old(tasks)[id]
      ensures forall id :: id in events ==> (events[id] <==> old(events)[id] || (id in old(tasks) && old(tasks)[id] == Pending))
      ensures forall id :: id in flags ==> (flags[id] <==> old(flags)[id] || (id in old(tasks) && old(tasks)[id] == Pending))
    {
      ghost var start := Value();
      CancelNone(start);
      var left := tasks.Keys;
      while left != {}
        invariant left <= start.tasks.Keys && tasks.Keys == start.tasks.Keys
        invariant Value() == CancelThose(start, start.tasks.Keys - left)
        decreases left
      {
        var id :| id in left;
        CancelOneMore(start, start.tasks.Keys - left, id);
        assert start.tasks.Keys - left + {id} == start.tasks.Keys - (left - {id});
        left := left - {id};
        if tasks[id].Pending? {
          var _ := CancelTask(id);
        }
      }
      assert start.tasks.Keys - left == start.tasks.Keys;
    }

    method CloseRunner()
      modifies this
      ensures Value() == Close(old(Value()))
      ensures closed && tasks.Keys == old(tasks).Keys && flags.Keys == old(flags).Keys
      ensures old(closed) ==> Value() == old(Value())
      ensures !old(closed) ==> forall id :: id in tasks ==>
                tasks[id] == if old(tasks)[id] == Pending then Cancelled else old(tasks)[id]
      ensures !old(closed) ==> forall id :: id in flags ==>
                (flags[id] <==> old(flags)[id] || (id in old(tasks) && old(tasks)[id] == Pending))
    {
      if !closed {
        CancelPending();
        closed := true;
      }
    }

    method BeginWait(id: nat) returns (found: bool)
      modifies this
      ensures (Value(), found) == AddWaiter(old(Value()), id)
    {
      if id !in events {
        return false;
      }
      waiters := waiters[id := WaiterCount(Value(), id) + 1];
      found := true;
    }

    method EndWait(id: nat)
      modifies this
      ensures Value() == DropWaiter(old(Value()), id)
    {
      var n := WaiterCount(Value(), id);
      if n > 1 {
        waiters := waiters[id := n - 1];
      } else {
        waiters := waiters - {id};
      }
    }

    /** A task is removed if and only if it has ended, is old enough and nobody waits for it;
        every other task keeps its status, event and flag. */
    method RemoveOld(aged: set<nat>) returns (removed: nat)
      modifies this
      ensures Value() == CleanupOld(old(Value()), aged)
      ensures Value() == old(Value()).(tasks := tasks, events := events, flags := flags)
      ensures forall id :: id in tasks <==>
                id in old(tasks) &&
                !(&& (old(tasks)[id] == Success || old(tasks)[id] == Failed || old(tasks)[id] == Cancelled)
                  && id in aged && !(id in old(waiters) && old(waiters)[id] > 0))
      ensures forall id :: id in events <==> id in old(events) && (id in old(tasks) ==> id in tasks)
      ensures forall id :: id in flags <==> id in old(flags) && (id in old(tasks) ==> id in tasks)
      ensures forall id :: id in tasks ==> tasks[id] == old(tasks)[id]
      ensures forall id :: id in events ==> events[id] == old(events)[id]
      ensures forall id :: id in flags ==> flags[id] == old(flags)[id]
      ensures removed == |old(tasks).Keys - tasks.Keys|
    {
      OldRemoved(Value(), aged);
      removed := RemoveListed(aged);
    }

    method RemoveListed(aged: set<nat>) returns (removed: nat)
      modifies this
      ensures Value() == CleanupOld(old(Value()), aged)
      ensures removed == |set id | id in old(tasks) && Removable(old(Value()), id, aged)|
    {
      var start := Value();
      var left, gone := tasks.Keys, {};
      while left != {}
        invariant left <= start.tasks.Keys && Value() == start
        invariant gone == set id | id in start.tasks && id !in left && Removable(start, id, aged)
        decreases left
      {
        var id :| id in left;
        left := left - {id};
        if Removable(start, id, aged) {
          gone := gone + {id};
        }
      }
      assert gone == set id | id in start.tasks && Removable(start, id, aged);
      tasks, events, flags := tasks - gone, events - gone, flags - gone;
      removed := |gone|;
    }

    // ---------------------------------------------------------- whole calls

    /** _execute_wrapper, as one call: `meanwhile` says that the task is cancelled while it
        runs, `succeeds` that its function returns. */
    method ExecuteTask(id: nat, meanwhile: bool, succeeds: bool) returns (ran: bool)
      requires InTables(Value(), id)
      modifies this
      ensures Executed(old(Value()), Value(), id, meanwhile, succeeds, ran)
    {
      ghost var start := Value();
      MarkTouches(start, id);
      ran := MarkRunning(id);
      if ran {
        RunTask(id, meanwhile, succeeds);
        TouchesTwice(start, TryMark(start, id).0, Value(), id);
      }
      ghost var middle := Value();
      ReleaseExact(middle, id, ran);
      FreeSlot(id);
      if ran && id in events {
        events := events[id := true];
      }
      ExecutedBy(start, middle, Value(), id, meanwhile, succeeds, ran);
    }

    method RunTask(id: nat, meanwhile: bool, succeeds: bool)
      requires exists event :: Row(Value(), id, Running, event, false)
      modifies this
      ensures Touches(old(Value()), Value(), id)
      ensures Row(Value(), id, if meanwhile then Cancelled else if succeeds then Success else Failed,
                  old(events[id]), meanwhile)
    {
      ghost var start, event := Value(), events[id];
      if meanwhile {
        CancelTouches(start, id, event);
        var _ := CancelTask(id);
      }
      ghost var middle := Value();
      EndTouches(middle, id, event, meanwhile, succeeds);
      if succeeds {
        CompleteTask(id);
      } else {
        FailTask(id);
      }
      TouchesTwice(start, middle, Value(), id);
    }

    /** The worker loop from its first item until the queue stays empty: the queued tasks
        are taken in order, each that is not cancelled runs once, all of them have ended
        afterwards, and every slot they had is back. `cancelled` are those that are
        cancelled while they run, `raising` those whose functions raise. */
    method RunWorker(cancelled: set<nat>, raising: set<nat>) returns (ran: seq<nat>)
      requires TablesMatch(Value()) && Distinct(queue) && forall id :: id in queue ==> Waits(Value(), id)
      modifies this
      ensures queue == [] && ran == Runnable(old(Value()), old(queue)) && workerCount == old(workerCount) - 1
      ensures forall id :: id in old(queue) ==> Ends(Value(), id) && id !in slotTasks
      ensures forall id :: id in old(queue) && id in tasks ==>
                tasks[id] == FinalStatus(old(Value()), id, cancelled, raising)
      ensures permits - old(permits) == |old(queue)| == old(activeCount) - activeCount
      ensures closed == old(closed) && tasks.Keys == old(tasks).Keys
    {
      ran := [];
      ghost var k, start := 0, Value();
      while queue != []
        invariant Progress(start, Value(), k) && Finals(start, Value(), k, cancelled, raising)
        invariant ran + Runnable(Value(), queue) == Runnable(start, start.queue)
        decreases |queue|
      {
        var more := RunNext(start, k, cancelled, raising);
        ran := ran + more;
        k := k + 1;
      }
      AllDone(start, Value(), cancelled, raising);
      workerCount := workerCount - 1;
    }

    method RunNext(ghost start: Runner, ghost k: nat, cancelled: set<nat>, raising: set<nat>) returns (ran: seq<nat>)
      requires Progress(start, Value(), k) && Finals(start, Value(), k, cancelled, raising)
      requires Distinct(start.queue) && queue != []
      modifies this
      ensures Progress(start, Value(), k + 1) && Finals(start, Value(), k + 1, cancelled, raising)
      ensures Runnable(old(Value()), old(queue)) == ran + Runnable(Value(), queue)
    {
      var id := queue[0];
      ghost var before := Value();
      assert Waits(before, start.queue[k]);
      queue := queue[1..];
      var runs := ExecuteTask(id, id in cancelled, id !in raising);
      ProgressStep(start, before, Value(), k, id in cancelled, id !in raising, runs);
      RunnableStep(start, before, Value(), k, id in cancelled, id !in raising, runs);
      FinalsStep(start, before, Value(), k, cancelled, raising, runs);
      ran := if runs then [id] else [];
    }

    method SubmitTask(id: nat, launches: nat, isException: bool) returns (scheduled: bool)
      requires id !in tasks && id !in slotTasks && activeCount >= 0 && workerCount >= 0 && max > 0
      modifies this
      ensures Submits(old(Value()), Value(), id, isException, scheduled)
      ensures scheduled <==>
                !old(closed) && old(permits) > 0 && |old(queue)| < max && (old(workerCount) > 0 || launches > 0)
    {
      scheduled := RegisterTask(id);
      if !scheduled {
        return;
      }
      if permits == 0 {
        tasks := tasks[id := if isException then Failed else Cancelled];
        events := events[id := true];
        submitterCount := submitterCount - 1;
        return false;
      }
      permits := permits - 1;
      PlaceExact(Value(), id, launches, isException);
      var placement := PlaceTask(id, launches, isException);
      scheduled := placement.Scheduled?;
      if !scheduled {
        FreeSlot(id);
      }
      submitterCount := submitterCount - 1;
    }

    /** wait_for, as one uninterrupted call: it leaves no trace, and gets the status of a
        task whose event is set. */
    method WaitForTask(id: nat) returns (found: bool, status: Option<Status>)
      requires forall k :: k in waiters ==> waiters[k] > 0
      modifies this
      ensures Value() == old(Value())
      ensures found <==> id in events
      ensures status == if EventSet(Value(), id) && id in tasks then Some(tasks[id]) else None
    {
      status := None;
      found := BeginWait(id);
      if found {
        if events[id] && id in tasks {
          status := Some(tasks[id]);
        }
        EndWait(id);
        assert waiters == old(waiters);
      }
    }
  }
}
