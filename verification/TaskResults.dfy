/** What the task runner promises, over every run. */
module TaskResults {
  import opened Counting
  import opened Options
  import opened Sequences
  import opened TaskRunner
  import opened TaskRuns
  import opened TaskFacts
  import opened TaskInvariant
  import opened TaskLedger

  /** Slots are conserved: free permits, tasks with a slot and submitters that have just
      taken a permit always add up to `max`; the active count is the number of tasks with
      a slot; each of those is queued or has one thread as its owner. */
  lemma SlotAccounting(max: nat, actions: seq<Action>)
    ensures var s := Exec(Initial(max), actions);
            && s.r.permits + |s.r.slotTasks| + Total(s.threads, Placer) == max
            && s.r.activeCount == |s.r.slotTasks| == |s.r.queue| + Total(s.threads, Owner)
            && s.r.submitterCount == Total(s.threads, Submitter)
            && s.r.workerCount == Total(s.threads, FreeWorker) + Total(s.threads, BusyWorker)
  {
    Reached(max, actions);
  }

  /** Each slot is released exactly once: a thread that reaches _release_slot still finds
      its task among those with a slot, and one that takes a slot never does; and when it
      queues its task the bounded queue has room. */
  lemma ReleasedOnce(max: nat, actions: seq<Action>, t: nat)
    ensures var s := Exec(Initial(max), actions);
            t < |s.threads| ==>
              var pc := s.threads[t];
              && (pc.GivingUp? || pc.Skipping? || pc.Releasing? ==> pc.task in s.r.slotTasks)
              && (pc.Placing? ==> pc.task !in s.r.slotTasks && |s.r.queue| < max)
  {
    Reached(max, actions);
    var s := Exec(Initial(max), actions);
    if t < |s.threads| {
      SlotViewOf(s, t);
      if s.threads[t].Placing? {
        QueueHasRoom(s, t);
      }
    }
  }

  lemma TaskFact(max: nat, actions: seq<Action>, id: nat)
    ensures var s := Exec(Initial(max), actions);
            Tables(s.r) && Facts(RowOf(s, id), Sum(s.threads, PartOf(id)))
  {
    Reached(max, actions);
    var s := Exec(Initial(max), actions);
    assert Facts(RowOf(s, id), Sum(s.threads, PartOf(id)));
  }

  function RunningTasks(r: Runner): set<nat> {
    set id | id in r.tasks && r.tasks[id].Running?
  }

  /** At most `max` tasks are RUNNING at any time. */
  lemma RunningAtMostMax(max: nat, actions: seq<Action>)
    ensures var s := Exec(Initial(max), actions);
            |RunningTasks(s.r)| <= max
  {
    var s := Exec(Initial(max), actions);
    SlotAccounting(max, actions);
    forall id | id in RunningTasks(s.r) ensures id in s.r.slotTasks {
      TaskFact(max, actions, id);
      RunningHasSlot(RowOf(s, id), Sum(s.threads, PartOf(id)));
    }
    SubsetSize(RunningTasks(s.r), s.r.slotTasks);
  }

  lemma RunningHasSlot(row: Row, n: Tally)
    requires Facts(row, n) && row.status == Some(Running)
    ensures row.slot
  {
  }

  /** Worker availability: while the runner is open and thread starts succeed, there is a
      worker without a task for every queued one, so no queued task waits behind a running
      one for lack of a worker. */
  lemma WorkerAvailability(max: nat, actions: seq<Action>)
    ensures var s := Exec(Initial(max), actions);
            !s.r.closed && !s.startFailed ==> |s.r.queue| <= Total(s.threads, FreeWorker)
  {
    Reached(max, actions);
  }

  /** Each task function is started at most once, and the cancel flag of a task that
      succeeded (or failed) is not set. */
  lemma RunsAtMostOnce(max: nat, actions: seq<Action>, id: nat)
    ensures var s := Exec(Initial(max), actions);
            && Count(s.ran, id) <= 1
            && (id in s.r.tasks && (s.r.tasks[id].Success? || s.r.tasks[id].Failed?) ==> !Flagged(s.r, id))
  {
    TaskFact(max, actions, id);
  }

  /** The queue holds each task at most once, and only tasks with a slot. */
  lemma QueuedOnce(max: nat, actions: seq<Action>, id: nat)
    ensures var s := Exec(Initial(max), actions);
            Count(s.r.queue, id) <= 1 && (Count(s.r.queue, id) == 1 ==> id in s.r.slotTasks)
  {
    TaskFact(max, actions, id);
  }

  /** Every attempt to start workers in the run can start as many as the runner may have. */
  ghost predicate StartsSucceed(actions: seq<Action>, max: nat) {
    forall i :: 0 <= i < |actions| && actions[i].On? && actions[i].move.Start? ==> actions[i].move.launches >= max
  }

  lemma StartSucceeds(s: System, a: Action)
    requires Ledger(s) && !s.startFailed
    requires a.On? && a.move.Start? ==> a.move.launches >= s.r.max
    ensures !Step(s, a).startFailed
  {
    if a.On? && a.t < |s.threads| && a.move.Start? && s.threads[a.t].Placing? {
      PlaceStarts(s, a.t, a.move.launches, a.move.isException);
    }
  }

  lemma PlaceStarts(s: System, t: nat, launches: nat, isException: bool)
    requires Ledger(s) && !s.startFailed && t < |s.threads| && s.threads[t].Placing? && launches >= s.r.max
    ensures !PlaceStep(s, t, launches, isException).startFailed
  {
  }

  lemma {:induction false} NoStartFails(s: System, actions: seq<Action>)
    requires AllFacts(s) && Ledger(s) && !s.startFailed && StartsSucceed(actions, s.r.max)
    ensures !Exec(s, actions).startFailed
    decreases |actions|
  {
    if actions != [] {
      var a := actions[0];
      StartSucceeds(s, a);
      StepAllFacts(s, a);
      StepLedger(s, a);
      forall i | 0 <= i < |actions| - 1 ensures actions[1..][i] == actions[i + 1] {
      }
      NoStartFails(Step(s, a), actions[1..]);
    }
  }

  /** The same in terms of the run: as long as the runner is open, a run in which threads
      can be started keeps a worker without a slot for every queued task. */
  lemma AvailableWhenStartsSucceed(max: nat, actions: seq<Action>)
    requires StartsSucceed(actions, max)
    ensures var s := Exec(Initial(max), actions);
            !s.startFailed && (!s.r.closed ==> |s.r.queue| <= Total(s.threads, FreeWorker))
  {
    Reached(max, []);
    Reached(max, actions);
    NoStartFails(Initial(max), actions);
  }
}
