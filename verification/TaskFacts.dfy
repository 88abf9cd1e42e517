/** What holds of every single task in every reachable state of the runner. The tables
    are read one task at a time: a `Row` is all the runner knows of a task, a `Tally`
    counts the threads that play a part for it. */
module TaskFacts {
  import opened Options
  import opened Sequences
  import opened TaskRunner
  import opened TaskRuns

  // ------------------------------------------------------------------ tallies

  /** The parts threads play for one task: a submitter before the slot is taken; a
      thread holding the slot that does not run the function, or that does; a worker
      between the final status and the completion event; waiters that have not seen the
      event or are leaving, and those that have just seen it. */
  datatype Tally = Tally(place: nat, hold: nat, run: nat, signal: nat, wait: nat, woke: nat)

  const Nobody := Tally(0, 0, 0, 0, 0, 0)

  function Plus(a: Tally, b: Tally): Tally {
    Tally(a.place + b.place, a.hold + b.hold, a.run + b.run, a.signal + b.signal, a.wait + b.wait, a.woke + b.woke)
  }

  function Sum<T>(items: seq<T>, part: T -> Tally): Tally {
    if items == [] then Nobody
    else Plus(Sum(items[..|items| - 1], part), part(items[|items| - 1]))
  }

  /** The part of all the others stays when one item is replaced. */
  lemma {:induction false} SumSplit<T>(items: seq<T>, t: nat, x: T, part: T -> Tally) returns (others: Tally)
    requires t < |items|
    ensures Sum(items, part) == Plus(others, part(items[t]))
    ensures Sum(items[t := x], part) == Plus(others, part(x))
  {
    var n := |items| - 1;
    if t == n {
      assert items[t := x][..n] == items[..n];
      others := Sum(items[..n], part);
    } else {
      assert items[t := x][..n] == items[..n][t := x];
      var o := SumSplit(items[..n], t, x, part);
      others := Plus(o, part(items[n]));
    }
  }

  lemma SumAppend<T>(items: seq<T>, x: T, part: T -> Tally)
    ensures Sum(items + [x], part) == Plus(Sum(items, part), part(x))
  {
    assert (items + [x])[..|items|] == items;
  }

  lemma {:induction false} SumAppendNobody<T>(items: seq<T>, more: seq<T>, part: T -> Tally)
    requires forall i :: 0 <= i < |more| ==> part(more[i]) == Nobody
    ensures Sum(items + more, part) == Sum(items, part)
  {
    if more == [] {
      assert items + more == items;
    } else {
      var n := |more| - 1;
      assert items + more == (items + more[..n]) + [more[n]];
      SumAppend(items + more[..n], more[n], part);
      SumAppendNobody(items, more[..n], part);
    }
  }

  /** The part of one thread for task `id`. */
  function Part(pc: Pc, id: nat): Tally {
    match pc
    case AwaitingSlot(k) => Nobody.(place := One(k == id))
    case Placing(k) => Nobody.(place := One(k == id))
    case GivingUp(k) => Nobody.(hold := One(k == id))
    case Marking(k) => Nobody.(hold := One(k == id))
    case Skipping(k) => Nobody.(hold := One(k == id))
    case Executing(k) => Nobody.(run := One(k == id))
    case Returned(k) => Nobody.(run := One(k == id))
    case RaisedIn(k) => Nobody.(run := One(k == id))
    case Releasing(k) => Nobody.(hold := One(k == id), signal := One(k == id))
    case Signalling(k) => Nobody.(signal := One(k == id))
    case Waiting(k) => Nobody.(wait := One(k == id))
    case Woken(k) => Nobody.(woke := One(k == id))
    case LeavingWait(k, _) => Nobody.(wait := One(k == id))
    case _ => Nobody
  }

  function PartOf(id: nat): Pc -> Tally {
    (pc: Pc) => Part(pc, id)
  }

  // ------------------------------------------------------------------ rows

  datatype Row = Row(
    status: Option<Status>,
    event: bool,
    flag: bool,
    waiters: nat,
    slot: bool,
    queued: nat,
    ran: nat,
    confirmed: bool,
    known: bool)

  ghost predicate Tables(r: Runner) {
    r.events.Keys == r.tasks.Keys && r.flags.Keys == r.tasks.Keys
  }

  function StatusOf(r: Runner, id: nat): Option<Status> {
    if id in r.tasks then Some(r.tasks[id]) else None
  }

  /** The row of task `id` in runner `r`; the last three are history. */
  function RowIn(r: Runner, id: nat, ran: nat, confirmed: bool, known: bool): Row {
    Row(StatusOf(r, id), EventSet(r, id), Flagged(r, id), WaiterCount(r, id), id in r.slotTasks,
        Count(r.queue, id), ran, confirmed, known)
  }

  function RowOf(s: System, id: nat): Row {
    RowIn(s.r, id, Count(s.ran, id), id in s.confirmed, id < s.submitted)
  }

  predicate Finished(status: Option<Status>) {
    status.Some? && Terminal(status.value)
  }

  /** A task's slot has exactly one owner; its function runs while it is RUNNING; status,
      event and cancel flag agree; a waiter keeps the task in the tables. */
  ghost predicate Facts(row: Row, n: Tally) {
    && row.queued + n.hold + n.run == One(row.slot)
    && n.place + One(row.slot) <= One(row.known)
    && (row.status.Some? ==> row.known)
    && (n.run > 0 <==> row.status == Some(Running))
    && (n.place > 0 ==> row.status == None || row.status == Some(Pending) || row.status == Some(Cancelled))
    && (n.place > 0 ==> n.signal == 0 && row.ran == 0)
    && (row.status == Some(Pending) ==> !row.flag)
    && (row.flag ==> row.status == Some(Running) || row.status == Some(Cancelled))
    && (row.event ==> Finished(row.status))
    && (Finished(row.status) && !row.event ==> n.signal > 0)
    && (n.signal > 0 ==> row.known && (row.status == None || Finished(row.status)))
    && row.ran <= One(row.known && row.status != Some(Pending))
    && (row.confirmed ==> row.known && (row.status.Some? ==> row.flag))
    && row.waiters == n.wait + n.woke
    && (row.waiters > 0 ==> row.status.Some?)
    && (n.woke > 0 ==> row.event)
  }

  ghost predicate AllFacts(s: System) {
    && Tables(s.r)
    && forall id :: Facts(RowOf(s, id), Sum(s.threads, PartOf(id)))
  }
}
