/** wait_for: the task stays in the tables while somebody waits for it, and every wait
    ends with a final snapshot or a timeout. */
module TaskWaits {
  import opened TaskRunner
  import opened TaskRuns
  import opened TaskFacts
  import opened TaskInvariant
  import opened TaskLedger

  /** The task vanished under the waiter, or the waiter saw a task that has not ended. */
  predicate BadResult(result: WaitResult) {
    result.LostTask? || (result.Snapshot? && !Terminal(result.status))
  }

  predicate BadWait(pc: Pc) {
    (pc.LeavingWait? || pc.Waited?) && BadResult(pc.result)
  }

  ghost predicate GoodWaits(threads: seq<Pc>) {
    forall t :: 0 <= t < |threads| ==> !BadWait(threads[t])
  }

  lemma WokenSeesEnd(s: System, t: nat)
    requires AllFacts(s) && t < |s.threads| && s.threads[t].Woken?
    ensures s.threads[t].task in s.r.tasks && Terminal(s.r.tasks[s.threads[t].task])
  {
    WokeCounts(s.threads, t);
    WokenTask(s, s.threads[t].task);
  }

  lemma WokenTask(s: System, id: nat)
    requires AllFacts(s) && Sum(s.threads, PartOf(id)).woke > 0
    ensures id in s.r.tasks && Terminal(s.r.tasks[id])
  {
    WokenFact(RowOf(s, id), Sum(s.threads, PartOf(id)));
  }

  lemma WokenFact(row: Row, n: Tally)
    requires Facts(row, n)
    ensures n.woke > 0 ==> Finished(row.status)
  {
  }

  lemma MovedGood(s: System, t: nat, move: Move)
    requires t < |s.threads| && !BadWait(s.threads[t])
    requires s.threads[t].Woken? ==> s.threads[t].task in s.r.tasks && Terminal(s.r.tasks[s.threads[t].task])
    ensures |Moved(s, t, move).threads| >= |s.threads| && !BadWait(Moved(s, t, move).threads[t])
  {
    MovedShape(s, t, move);
    if move.Advance? {
      AdvanceGood(s, t);
    }
  }

  lemma AdvanceGood(s: System, t: nat)
    requires t < |s.threads| && !BadWait(s.threads[t])
    requires s.threads[t].Woken? ==> s.threads[t].task in s.r.tasks && Terminal(s.r.tasks[s.threads[t].task])
    ensures |Moved(s, t, Advance).threads| == |s.threads| && !BadWait(Moved(s, t, Advance).threads[t])
  {
    var pc := s.threads[t];
    if IsSubmitterPc(pc) || IsWorkerPc(pc) || IsFinishPc(pc) {
      assert !(Moved(s, t, Advance).threads[t].LeavingWait? || Moved(s, t, Advance).threads[t].Waited?);
    }
  }

  lemma StepGood(s: System, a: Action)
    requires AllFacts(s) && GoodWaits(s.threads)
    ensures GoodWaits(Step(s, a).threads)
  {
    if a.On? && a.t < |s.threads| {
      if s.threads[a.t].Woken? { WokenSeesEnd(s, a.t); }
      MovedGood(s, a.t, a.move);
      MovedShape(s, a.t, a.move);
    }
  }

  lemma {:induction false} ExecGood(s: System, actions: seq<Action>)
    requires AllFacts(s) && GoodWaits(s.threads)
    ensures GoodWaits(Exec(s, actions).threads)
    decreases |actions|
  {
    if actions != [] {
      StepAllFacts(s, actions[0]);
      StepGood(s, actions[0]);
      ExecGood(Step(s, actions[0]), actions[1..]);
    }
  }

  /** wait_for returns a snapshot of an ended task, times out, or finds no such task at
      the start; it never finds the task missing after it has waited. */
  lemma WaitResults(max: nat, actions: seq<Action>, t: nat)
    ensures var s := Exec(Initial(max), actions);
            t < |s.threads| && s.threads[t].Waited? ==>
              var result := s.threads[t].result;
              result.TimedOut? || result.NotFound? || (result.Snapshot? && Terminal(result.status))
  {
    Reached(max, []);
    ExecGood(Initial(max), actions);
  }

  predicate WillSignal(pc: Pc, id: nat) {
    (pc.Releasing? || pc.Signalling?) && pc.task == id
  }

  lemma {:induction false} SignallerExists(threads: seq<Pc>, id: nat)
    requires Sum(threads, PartOf(id)).signal > 0
    ensures exists t :: 0 <= t < |threads| && WillSignal(threads[t], id)
  {
    var n := |threads| - 1;
    if Sum(threads[..n], PartOf(id)).signal > 0 {
      SignallerExists(threads[..n], id);
      var t :| 0 <= t < n && WillSignal(threads[..n][t], id);
      assert WillSignal(threads[t], id);
    } else {
      assert WillSignal(threads[n], id);
    }
  }

  lemma WaitingFact(row: Row, n: Tally)
    requires Facts(row, n) && n.wait + n.woke > 0
    ensures row.status.Some? && (row.event || !Finished(row.status) || n.signal > 0)
  {
  }

  /** No lost wake-up, and cleanup_old cannot pull the task away: while a thread waits for
      a task, the task is in the tables, and its event is set, or it has not ended, or the
      worker that ended it is still on its way to set the event. */
  lemma WaitSafety(max: nat, actions: seq<Action>, t: nat)
    ensures var s := Exec(Initial(max), actions);
            t < |s.threads| && (s.threads[t].Waiting? || s.threads[t].Woken?) ==>
              var id := s.threads[t].task;
              && id in s.r.tasks
              && (EventSet(s.r, id) || !Terminal(s.r.tasks[id])
                  || exists w :: 0 <= w < |s.threads| && WillSignal(s.threads[w], id))
  {
    var s := Exec(Initial(max), actions);
    Reached(max, actions);
    if t < |s.threads| && (s.threads[t].Waiting? || s.threads[t].Woken?) {
      var id := s.threads[t].task;
      var o := SumSplit(s.threads, t, s.threads[t], PartOf(id));
      ViewTask(s, t, id, o);
      WaitingFact(RowOf(s, id), Plus(o, Part(s.threads[t], id)));
      if Sum(s.threads, PartOf(id)).signal > 0 {
        SignallerExists(s.threads, id);
      }
    }
  }

  /** The completion event is set only for tasks that have ended. */
  lemma EventMeansEnded(max: nat, actions: seq<Action>, id: nat)
    ensures var s := Exec(Initial(max), actions);
            EventSet(s.r, id) ==> id in s.r.tasks && Terminal(s.r.tasks[id])
  {
    Reached(max, actions);
    var s := Exec(Initial(max), actions);
    assert Facts(RowOf(s, id), Sum(s.threads, PartOf(id)));
  }

  /** What cleanup_old removes, in every state of every run: exactly the tasks that have
      ended, are old enough and are not waited for; nothing else about any task changes. */
  lemma CleanupExactly(s: System, aged: set<nat>, id: nat)
    ensures var s' := Step(s, CleanupOldTasks(aged));
            var gone := && id in s.r.tasks && (s.r.tasks[id] == Success || s.r.tasks[id] == Failed || s.r.tasks[id] == Cancelled)
                        && id in aged && !(id in s.r.waiters && s.r.waiters[id] > 0);
            && (id in s'.r.tasks <==> id in s.r.tasks && !gone)
            && (id in s'.r.tasks ==> s'.r.tasks[id] == s.r.tasks[id])
            && (id in s'.r.events <==> id in s.r.events && !gone) && (id in s'.r.flags <==> id in s.r.flags && !gone)
            && s'.threads == s.threads && s'.r.waiters == s.r.waiters && s'.r.queue == s.r.queue
  {
  }
}
