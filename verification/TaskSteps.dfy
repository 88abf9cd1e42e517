/** Every step keeps what holds of every task. First what each step means for the row of
    its own task, then that it leaves all other rows alone. */
module TaskSteps {
  import opened Options
  import opened Sequences
  import opened TaskRunner
  import opened TaskRuns
  import opened TaskFacts

  // --------------------------------------------------- the logic of one row

  lemma FreeKeeps(row: Row, o: Tally)
    requires Facts(row, Plus(o, Nobody.(hold := 1)))
    ensures Facts(row.(slot := false), Plus(o, Nobody))
  {
  }

  lemma FreeAndSignalKeeps(row: Row, o: Tally)
    requires Facts(row, Plus(o, Nobody.(hold := 1, signal := 1)))
    ensures Facts(row.(slot := false), Plus(o, Nobody.(signal := 1)))
  {
  }

  lemma SignalKeeps(row: Row, o: Tally)
    requires Facts(row, Plus(o, Nobody.(signal := 1)))
    ensures Facts(row.(event := row.status.Some? || row.event), Plus(o, Nobody))
  {
  }

  lemma PopKeeps(row: Row, o: Tally)
    requires Facts(row.(queued := row.queued + 1), Plus(o, Nobody))
    ensures Facts(row, Plus(o, Nobody.(hold := 1)))
  {
  }

  lemma MarkKeeps(row: Row, o: Tally)
    requires Facts(row, Plus(o, Nobody.(hold := 1))) && row.status == Some(Pending)
    ensures Facts(row.(status := Some(Running), ran := row.ran + 1), Plus(o, Nobody.(run := 1)))
  {
  }

  lemma MarkCancelledKeeps(row: Row, o: Tally)
    requires Facts(row, Plus(o, Nobody.(hold := 1))) && row.status.Some?
    requires row.status == Some(Cancelled) || row.flag
    ensures Facts(row.(status := Some(Cancelled), event := true), Plus(o, Nobody.(hold := 1)))
  {
  }

  lemma FinishRunKeeps(row: Row, o: Tally, st: Status)
    requires Facts(row, Plus(o, Nobody.(run := 1)))
    requires if row.flag then st.Cancelled? else st.Success? || st.Failed?
    ensures row.status == Some(Running)
    ensures Facts(row.(status := Some(st)), Plus(o, Nobody.(hold := 1, signal := 1)))
  {
  }

  lemma TakeSlotKeeps(row: Row, o: Tally)
    requires Facts(row, Plus(o, Nobody.(place := 1)))
    ensures Facts(row.(slot := true), Plus(o, Nobody.(hold := 1)))
    ensures Facts(row.(slot := true, queued := row.queued + 1), Plus(o, Nobody))
  {
  }

  lemma StartFailedKeeps(row: Row, o: Tally, st: Status)
    requires Facts(row, Plus(o, Nobody.(place := 1))) && (st.Failed? || st.Cancelled?)
    requires row.status.Some? && row.status != Some(Cancelled)
    ensures Facts(row.(slot := true, status := Some(st), event := true), Plus(o, Nobody.(hold := 1)))
  {
  }

  lemma AbortKeeps(row: Row, o: Tally, st: Status)
    requires Facts(row, Plus(o, Nobody.(place := 1))) && (st.Failed? || st.Cancelled?)
    ensures Facts(row, Plus(o, Nobody))
    ensures row.status == Some(Pending) ==> Facts(row.(status := Some(st), event := true), Plus(o, Nobody))
  {
  }

  lemma WakeKeeps(row: Row, o: Tally)
    requires Facts(row, Plus(o, Nobody.(wait := 1))) && row.event
    ensures Facts(row, Plus(o, Nobody.(woke := 1)))
  {
  }

  lemma SnapshotKeeps(row: Row, o: Tally)
    requires Facts(row, Plus(o, Nobody.(woke := 1)))
    ensures Facts(row, Plus(o, Nobody.(wait := 1)))
    ensures Finished(row.status)
  {
  }

  lemma LeaveWaitKeeps(row: Row, o: Tally)
    requires Facts(row, Plus(o, Nobody.(wait := 1)))
    ensures row.waiters > 0 && Facts(row.(waiters := row.waiters - 1), Plus(o, Nobody))
  {
  }

  // --------------------------------------------------- what each block does to a row

  lemma ReleaseSlotRow(r: Runner, k: nat, id: nat, ran: nat, confirmed: bool, known: bool)
    ensures RowIn(ReleaseSlot(r, k), id, ran, confirmed, known) ==
            var row := RowIn(r, id, ran, confirmed, known); if k == id then row.(slot := false) else row
    ensures Tables(r) ==> Tables(ReleaseSlot(r, k))
  {
  }

  lemma WithStatusRow(r: Runner, k: nat, st: Status, id: nat, ran: nat, confirmed: bool, known: bool)
    requires k in r.tasks
    ensures RowIn(WithStatus(r, k, st), id, ran, confirmed, known) ==
            var row := RowIn(r, id, ran, confirmed, known); if k == id then row.(status := Some(st)) else row
    ensures Tables(r) ==> Tables(WithStatus(r, k, st))
  {
    assert Tables(r) ==> WithStatus(r, k, st).tasks.Keys == r.tasks.Keys;
  }

  lemma WithEventRow(r: Runner, k: nat, id: nat, ran: nat, confirmed: bool, known: bool)
    requires Tables(r)
    ensures RowIn(WithEvent(r, k), id, ran, confirmed, known) ==
            var row := RowIn(r, id, ran, confirmed, known);
            if k == id then row.(event := row.status.Some? || row.event) else row
    ensures Tables(WithEvent(r, k))
  {
    assert WithEvent(r, k).events.Keys == r.events.Keys;
  }

  /** A status set together with the completion event. */
  lemma SettleRow(r: Runner, k: nat, st: Status, id: nat, ran: nat, confirmed: bool, known: bool)
    requires Tables(r) && k in r.tasks
    ensures RowIn(WithEvent(WithStatus(r, k, st), k), id, ran, confirmed, known) ==
            var row := RowIn(r, id, ran, confirmed, known);
            if k == id then row.(status := Some(st), event := true) else row
    ensures Tables(WithEvent(WithStatus(r, k, st), k))
  {
    WithStatusRow(r, k, st, id, ran, confirmed, known);
    WithEventRow(WithStatus(r, k, st), k, id, ran, confirmed, known);
  }

  lemma TakenRow(r: Runner, k: nat, workers: int, id: nat, ran: nat, confirmed: bool, known: bool)
    ensures RowIn(r.(activeCount := r.activeCount + 1, slotTasks := r.slotTasks + {k}, workerCount := workers),
                  id, ran, confirmed, known) ==
            var row := RowIn(r, id, ran, confirmed, known);
            if k == id then row.(slot := true) else row
  {
  }

  lemma PopRow(r: Runner, id: nat, ran: nat, confirmed: bool, known: bool)
    requires r.queue != []
    ensures RowIn(r, id, ran, confirmed, known) ==
            var row := RowIn(r.(queue := r.queue[1..]), id, ran, confirmed, known);
            if r.queue[0] == id then row.(queued := row.queued + 1) else row
  {
  }

  lemma PushRow(r: Runner, k: nat, id: nat, ran: nat, confirmed: bool, known: bool)
    ensures RowIn(r.(queue := r.queue + [k]), id, ran, confirmed, known) ==
            var row := RowIn(r, id, ran, confirmed, known);
            if k == id then row.(queued := row.queued + 1) else row
  {
    CountPush(r.queue, k, id);
  }

  lemma DropWaiterRow(r: Runner, k: nat, id: nat, ran: nat, confirmed: bool, known: bool)
    ensures RowIn(DropWaiter(r, k), id, ran, confirmed, known) ==
            var row := RowIn(r, id, ran, confirmed, known);
            if k == id then row.(waiters := if row.waiters > 0 then row.waiters - 1 else 0) else row
    ensures Tables(r) ==> Tables(DropWaiter(r, k))
  {
  }

  // ----------------------------------------------- one thread, one task at a time

  /** The facts of task `id` before and after thread `t` moves, the others' part being `o`. */
  ghost predicate Holds(s: System, t: nat, id: nat, o: Tally)
    requires t < |s.threads|
  {
    Tables(s.r) && Facts(RowOf(s, id), Plus(o, Part(s.threads[t], id)))
  }

  lemma StillHolds(s: System, s': System, t: nat, id: nat, o: Tally)
    requires t < |s.threads| && t < |s'.threads| && Holds(s, t, id, o)
    requires Tables(s'.r) && RowOf(s', id) == RowOf(s, id) && Part(s'.threads[t], id) == Part(s.threads[t], id)
    ensures Holds(s', t, id, o)
  {
  }

  /** A thread that does not run the function gives its slot back. */
  lemma FreeHolds(s: System, t: nat, pc: Pc, id: nat, o: Tally)
    requires t < |s.threads| && (s.threads[t].GivingUp? || s.threads[t].Skipping?) && Holds(s, t, id, o)
    requires pc.LeavingSubmit? || pc.Idle?
    ensures Holds(Go(s, t, ReleaseSlot(s.r, s.threads[t].task), pc), t, id, o)
  {
    var k, row := s.threads[t].task, RowOf(s, id);
    ReleaseSlotRow(s.r, k, id, row.ran, row.confirmed, row.known);
    if k != id {
      StillHolds(s, Go(s, t, ReleaseSlot(s.r, k), pc), t, id, o);
    } else {
      FreeKeeps(row, o);
    }
  }

  lemma ReleasedHolds(s: System, t: nat, id: nat, o: Tally)
    requires t < |s.threads| && s.threads[t].Releasing? && Holds(s, t, id, o)
    ensures Holds(Go(s, t, ReleaseSlot(s.r, s.threads[t].task), Signalling(s.threads[t].task)), t, id, o)
  {
    var k, row := s.threads[t].task, RowOf(s, id);
    ReleaseSlotRow(s.r, k, id, row.ran, row.confirmed, row.known);
    if k != id {
      StillHolds(s, Go(s, t, ReleaseSlot(s.r, k), Signalling(k)), t, id, o);
    } else {
      FreeAndSignalKeeps(row, o);
    }
  }

  lemma PopHolds(s: System, t: nat, id: nat, o: Tally)
    requires t < |s.threads| && s.threads[t].Idle? && s.r.queue != [] && Holds(s, t, id, o)
    ensures Holds(Go(s, t, s.r.(queue := s.r.queue[1..]), Marking(s.r.queue[0])), t, id, o)
  {
    var k, row := s.r.queue[0], RowOf(s, id);
    PopRow(s.r, id, row.ran, row.confirmed, row.known);
    if k == id {
      PopKeeps(RowOf(s.(r := s.r.(queue := s.r.queue[1..])), id), o);
    } else {
      StillHolds(s, Go(s, t, s.r.(queue := s.r.queue[1..]), Marking(k)), t, id, o);
    }
  }

  /** The task is marked RUNNING and its function starts. */
  lemma MarkedHolds(s: System, t: nat, id: nat, o: Tally)
    requires t < |s.threads| && s.threads[t].Marking? && Holds(s, t, id, o)
    requires TryMark(s.r, s.threads[t].task).1
    ensures var k := s.threads[t].task;
            Holds(Go(s, t, WithStatus(s.r, k, Running), Executing(k)).(ran := s.ran + [k]), t, id, o)
  {
    var k, row := s.threads[t].task, RowOf(s, id);
    CountPush(s.ran, k, id);
    WithStatusRow(s.r, k, Running, id, Count(s.ran + [k], id), row.confirmed, row.known);
    if k == id {
      MarkKeeps(row, o);
    } else {
      StillHolds(s, Go(s, t, WithStatus(s.r, k, Running), Executing(k)).(ran := s.ran + [k]), t, id, o);
    }
  }

  /** The task is found cancelled and not started. */
  lemma CancelSeenHolds(s: System, t: nat, id: nat, o: Tally)
    requires t < |s.threads| && s.threads[t].Marking? && Holds(s, t, id, o)
    requires var k := s.threads[t].task; k in s.r.tasks && (s.r.tasks[k].Cancelled? || Flagged(s.r, k))
    ensures var k := s.threads[t].task;
            Holds(Go(s, t, WithEvent(WithStatus(s.r, k, Cancelled), k), Skipping(k)), t, id, o)
  {
    var k, row := s.threads[t].task, RowOf(s, id);
    var r := WithEvent(WithStatus(s.r, k, Cancelled), k);
    SettleRow(s.r, k, Cancelled, id, row.ran, row.confirmed, row.known);
    if k == id {
      MarkCancelledKeeps(row, o);
      assert RowOf(Go(s, t, r, Skipping(k)), id) == row.(status := Some(Cancelled), event := true);
    } else {
      StillHolds(s, Go(s, t, r, Skipping(k)), t, id, o);
    }
  }

  /** The function has ended: its task gets its final status. */
  lemma EndedHolds(s: System, t: nat, id: nat, o: Tally)
    requires t < |s.threads| && (s.threads[t].Returned? || s.threads[t].RaisedIn?) && Holds(s, t, id, o)
    requires id != s.threads[t].task ==> s.threads[t].task in s.r.tasks && s.r.tasks[s.threads[t].task].Running?
    ensures var k := s.threads[t].task;
            Holds(Go(s, t, if s.threads[t].Returned? then Complete(s.r, k) else HandleException(s.r, k), Releasing(k)),
                  t, id, o)
  {
    var k, row := s.threads[t].task, RowOf(s, id);
    var st := if Flagged(s.r, k) then Cancelled else if s.threads[t].Returned? then Success else Failed;
    if k == id {
      FinishRunKeeps(row, o, st);
    }
    WithStatusRow(s.r, k, st, id, row.ran, row.confirmed, row.known);
    if k != id {
      StillHolds(s, Go(s, t, WithStatus(s.r, k, st), Releasing(k)), t, id, o);
    }
  }

  lemma SignalledHolds(s: System, t: nat, id: nat, o: Tally)
    requires t < |s.threads| && s.threads[t].Signalling? && Holds(s, t, id, o)
    ensures Holds(Go(s, t, WithEvent(s.r, s.threads[t].task), Idle), t, id, o)
  {
    var k, row := s.threads[t].task, RowOf(s, id);
    WithEventRow(s.r, k, id, row.ran, row.confirmed, row.known);
    if k == id {
      SignalKeeps(row, o);
    } else {
      StillHolds(s, Go(s, t, WithEvent(s.r, k), Idle), t, id, o);
    }
  }

  lemma WakeHolds(s: System, t: nat, id: nat, o: Tally)
    requires t < |s.threads| && s.threads[t].Waiting? && EventSet(s.r, s.threads[t].task) && Holds(s, t, id, o)
    ensures Holds(Go(s, t, s.r, Woken(s.threads[t].task)), t, id, o)
  {
    if s.threads[t].task == id {
      WakeKeeps(RowOf(s, id), o);
    } else {
      StillHolds(s, Go(s, t, s.r, Woken(s.threads[t].task)), t, id, o);
    }
  }

  lemma SnapshotHolds(s: System, t: nat, result: WaitResult, id: nat, o: Tally)
    requires t < |s.threads| && (s.threads[t].Woken? || s.threads[t].Waiting?) && Holds(s, t, id, o)
    ensures Holds(Go(s, t, s.r, LeavingWait(s.threads[t].task, result)), t, id, o)
  {
    if s.threads[t].task == id && s.threads[t].Woken? {
      SnapshotKeeps(RowOf(s, id), o);
    } else {
      StillHolds(s, Go(s, t, s.r, LeavingWait(s.threads[t].task, result)), t, id, o);
    }
  }

  lemma LeaveWaitHolds(s: System, t: nat, result: WaitResult, id: nat, o: Tally)
    requires t < |s.threads| && s.threads[t].LeavingWait? && Holds(s, t, id, o)
    ensures Holds(Go(s, t, DropWaiter(s.r, s.threads[t].task), Waited(result)), t, id, o)
  {
    var k := s.threads[t].task;
    LeftRow(s, t, result, id);
    if k == id {
      LeaveWaitKeeps(RowOf(s, id), o);
    } else {
      StillHolds(s, Go(s, t, DropWaiter(s.r, k), Waited(result)), t, id, o);
    }
  }

  lemma LeftRow(s: System, t: nat, result: WaitResult, id: nat)
    requires t < |s.threads| && s.threads[t].LeavingWait? && Tables(s.r)
    ensures var k := s.threads[t].task;
            var s' := Go(s, t, DropWaiter(s.r, k), Waited(result));
            && Tables(s'.r) && Part(s'.threads[t], id) == Nobody
            && RowOf(s', id) ==
               if k == id then RowOf(s, id).(waiters := if RowOf(s, id).waiters > 0 then RowOf(s, id).waiters - 1 else 0)
               else RowOf(s, id)
  {
    var row := RowOf(s, id);
    DropWaiterRow(s.r, s.threads[t].task, id, row.ran, row.confirmed, row.known);
  }

  /** The runner once submit has taken the slot and started workers. */
  function Taken(r: Runner, k: nat, workers: int): Runner {
    r.(activeCount := r.activeCount + 1, slotTasks := r.slotTasks + {k}, workerCount := workers)
  }

  /** submit has its slot: the task is queued, or given up, or its start has failed. */
  lemma PlaceCases(r: Runner, k: nat, launches: nat, isException: bool)
    ensures var (r', placement) := Place(r, k, launches, isException);
            var r1 := Taken(r, k, r'.workerCount);
            if placement.GivenUp? then r' == r1
            else if placement.Scheduled? then r' == r1.(queue := r1.queue + [k])
            else
              && k in r.tasks && !r.tasks[k].Cancelled?
              && r' == WithEvent(WithStatus(r1, k, if isException then Failed else Cancelled), k)
  {
  }

  lemma PlacedRow(r: Runner, k: nat, launches: nat, isException: bool, id: nat, ran: nat, confirmed: bool, known: bool)
    requires Tables(r)
    ensures var (r', placement) := Place(r, k, launches, isException);
            var row := RowIn(r, id, ran, confirmed, known);
            Tables(r') && RowIn(r', id, ran, confirmed, known) ==
              if k != id then row
              else if placement.GivenUp? then row.(slot := true)
              else if placement.Scheduled? then row.(slot := true, queued := row.queued + 1)
              else row.(slot := true, status := Some(if isException then Failed else Cancelled), event := true)
  {
    var (r', placement) := Place(r, k, launches, isException);
    var r1 := Taken(r, k, r'.workerCount);
    PlaceCases(r, k, launches, isException);
    TakenRow(r, k, r'.workerCount, id, ran, confirmed, known);
    PushRow(r1, k, id, ran, confirmed, known);
    if placement.StartFailed? {
      SettleRow(r1, k, if isException then Failed else Cancelled, id, ran, confirmed, known);
    }
  }

  lemma PlacedHolds(s: System, t: nat, launches: nat, isException: bool, id: nat, o: Tally)
    requires t < |s.threads| && s.threads[t].Placing? && Holds(s, t, id, o)
    ensures Holds(PlaceStep(s, t, launches, isException), t, id, o)
  {
    var k, row := s.threads[t].task, RowOf(s, id);
    PlacedRow(s.r, k, launches, isException, id, row.ran, row.confirmed, row.known);
    PlaceCases(s.r, k, launches, isException);
    var placement := Place(s.r, k, launches, isException).1;
    if k != id {
      StillHolds(s, PlaceStep(s, t, launches, isException), t, id, o);
    } else if placement.StartFailed? {
      StartFailedKeeps(row, o, if isException then Failed else Cancelled);
    } else {
      TakeSlotKeeps(row, o);
    }
  }

  lemma CountRow(r: Runner, n: int, id: nat, ran: nat, confirmed: bool, known: bool)
    ensures RowIn(r.(submitterCount := n), id, ran, confirmed, known) == RowIn(r, id, ran, confirmed, known)
    ensures Tables(r) ==> Tables(r.(submitterCount := n))
  {
  }

  lemma AbortedRow(r: Runner, k: nat, isException: bool, id: nat, ran: nat, confirmed: bool, known: bool)
    requires Tables(r) && k in r.tasks && r.tasks[k].Pending?
    ensures var r' := AbortSubmit(r, k, isException);
            var row := RowIn(r, id, ran, confirmed, known);
            Tables(r') && RowIn(r', id, ran, confirmed, known) ==
              if k == id then row.(status := Some(if isException then Failed else Cancelled), event := true) else row
  {
    var st := if isException then Failed else Cancelled;
    var r1 := WithEvent(WithStatus(r, k, st), k);
    SettleRow(r, k, st, id, ran, confirmed, known);
    CountRow(r1, r1.submitterCount - 1, id, ran, confirmed, known);
  }

  lemma AbortedHolds(s: System, t: nat, isException: bool, id: nat, o: Tally)
    requires t < |s.threads| && s.threads[t].AwaitingSlot? && Holds(s, t, id, o)
    ensures Holds(Go(s, t, AbortSubmit(s.r, s.threads[t].task, isException), Submitted), t, id, o)
  {
    var k, row := s.threads[t].task, RowOf(s, id);
    if k in s.r.tasks && s.r.tasks[k].Pending? {
      AbortedRow(s.r, k, isException, id, row.ran, row.confirmed, row.known);
    } else {
      CountRow(s.r, s.r.submitterCount - 1, id, row.ran, row.confirmed, row.known);
    }
    if k == id {
      AbortKeeps(row, o, if isException then Failed else Cancelled);
    } else {
      StillHolds(s, Go(s, t, AbortSubmit(s.r, k, isException), Submitted), t, id, o);
    }
  }
}
