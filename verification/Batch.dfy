/** Batch execution (remote_cmd/service/batch_executor.py): the duplicate-free host list,
    the run that worker calls and the collector share, and the retry loop of one host.
    Hosts are numbered by their place in the duplicate-free list. */
module Batch {
  import opened Options
  import opened Sequences
  import opened SyncPool

  // ------------------------------------------------------------- the host list

  /** `x` occurs in `names` before the first occurrence of `y`. */
  ghost predicate Before(names: seq<string>, x: string, y: string) {
    exists k :: 0 <= k < |names| && names[k] == x && y !in names[..k + 1]
  }

  lemma BeforeExtends(names: seq<string>, name: string, x: string, y: string)
    requires Before(names, x, y) || (x in names && y !in names)
    ensures Before(names + [name], x, y)
  {
    var k :| 0 <= k < |names| && names[k] == x && y !in names[..k + 1];
    assert (names + [name])[k] == x && (names + [name])[..k + 1] == names[..k + 1];
  }

  /** list(dict.fromkeys(names)): every name once, in the order of its first occurrence. */
  method Deduplicate(names: seq<string>) returns (hosts: seq<string>)
    ensures Distinct(hosts)
    ensures forall name :: name in hosts <==> name in names
    ensures forall i, j :: 0 <= i < j < |hosts| ==> Before(names, hosts[i], hosts[j])
  {
    hosts := [];
    for n := 0 to |names|
      invariant Distinct(hosts)
      invariant forall name :: name in hosts <==> name in names[..n]
      invariant forall i, j :: 0 <= i < j < |hosts| ==> Before(names[..n], hosts[i], hosts[j])
    {
      ghost var before := hosts;
      if names[n] !in hosts {
        hosts := hosts + [names[n]];
      }
      assert names[..n + 1] == names[..n] + [names[n]];
      forall i, j | 0 <= i < j < |hosts| ensures Before(names[..n + 1], hosts[i], hosts[j]) {
        assert hosts[i] == before[i];
        BeforeExtends(names[..n], names[n], hosts[i], hosts[j]);
      }
    }
    assert names[..|names|] == names;
  }

  // ------------------------------------------------------- the shared state

  /** What a host's execution returns; the text it carries is abstracted to a number. */
  datatype HostResult = Ran(success: bool, output: nat) | UserInterrupted

  predicate Succeeded(result: HostResult) {
    result.Ran? && result.success
  }

  /** A worker reports a result, or the interrupt that ended it. */
  datatype Outcome = Result(result: HostResult) | Raised(keyboard: bool)

  datatype Item = Item(host: nat, outcome: Outcome)

  /** The locals of _execute_sync that the worker calls share with the collector;
      `callbacks` logs the (completed, host) pairs passed to the progress callback. */
  datatype Shared = Shared(
    total: nat,
    limit: nat,
    next: nat,
    queue: seq<Item>,
    stopped: bool,
    results: map<nat, HostResult>,
    completed: nat,
    callbacks: seq<(nat, nat)>)

  function NewShared(total: nat, limit: nat): Shared {
    Shared(total, limit, 0, [], false, map[], 0, [])
  }

  /** maxsize=max(1, max_concurrency) */
  function Capacity(limit: nat): nat {
    if limit < 1 then 1 else limit
  }

  function NextHost(b: Shared): (Shared, Option<nat>) {
    if b.next < b.total then (b.(next := b.next + 1), Some(b.next)) else (b, None)
  }

  /** One put of publish_completion; false when the queue is full. */
  function Publish(b: Shared, item: Item): (Shared, bool) {
    if |b.queue| < Capacity(b.limit) then (b.(queue := b.queue + [item]), true) else (b, false)
  }

  /** The collector takes note of a result and reports progress. */
  function Record(b: Shared, host: nat, result: HostResult): Shared {
    b.(results := b.results[host := result],
       completed := b.completed + 1,
       callbacks := b.callbacks + [(b.completed + 1, host)])
  }

  /** Each of the first `n` hosts that has no result is reported as interrupted. */
  function Filled(results: map<nat, HostResult>, n: nat): map<nat, HostResult> {
    if n == 0 then results
    else
      var filled := Filled(results, n - 1);
      if n - 1 in filled then filled else filled[n - 1 := UserInterrupted]
  }

  lemma {:induction false} FilledEach(results: map<nat, HostResult>, n: nat, h: nat)
    ensures h in Filled(results, n) <==> h in results || h < n
    ensures h in results ==> Filled(results, n)[h] == results[h]
    ensures h !in results && h < n ==> Filled(results, n)[h] == UserInterrupted
  {
    if n > 0 {
      FilledEach(results, n - 1, h);
    }
  }

  /** The collector leaves its loop early: workers are told to stop, and after a keyboard
      interrupt every host without a result is reported as interrupted. */
  function StopBatch(b: Shared, keyboard: bool): Shared {
    b.(stopped := true, results := if keyboard then Filled(b.results, b.total) else b.results)
  }

  /** The first `n` hosts have been collected in order, and counted. */
  ghost function AfterHosts(total: nat, limit: nat, n: nat, outcomes: nat -> HostResult): Shared {
    NewShared(total, limit).(
      next := n, completed := n,
      results := map h: nat | h < n :: outcomes(h),
      callbacks := seq(n, i requires 0 <= i < n => (i + 1, i)))
  }

  class BatchRun {
    const total: nat
    const limit: nat
    var next: nat
    var queue: seq<Item>
    var stopped: bool
    var results: map<nat, HostResult>
    var completed: nat
    var callbacks: seq<(nat, nat)>

    function Value(): Shared
      reads this
    {
      Shared(total, limit, next, queue, stopped, results, completed, callbacks)
    }

    constructor (total: nat, limit: nat)
      ensures Value() == NewShared(total, limit)
    {
      this.total, this.limit := total, limit;
      next, queue, stopped, results, completed, callbacks := 0, [], false, map[], 0, [];
    }

    method ClaimHost() returns (host: Option<nat>)
      modifies this
      ensures (Value(), host) == NextHost(old(Value()))
    {
      if next == total || next > total {
        return None;
      }
      host := Some(next);
      next := next + 1;
    }

    method PutCompletion(item: Item) returns (accepted: bool)
      modifies this
      ensures (Value(), accepted) == Publish(old(Value()), item)
    {
      accepted := |queue| < Capacity(limit);
      if accepted {
        queue := queue + [item];
      }
    }

    method RecordResult(host: nat, result: HostResult)
      modifies this
      ensures Value() == Record(old(Value()), host, result)
    {
      results := results[host := result];
      completed := completed + 1;
      callbacks := callbacks + [(completed, host)];
    }

    /** _handle_interrupt, after the workers have been told to stop. */
    method HandleInterrupt()
      modifies this
      ensures Value() == StopBatch(old(Value()), true)
      ensures Value() == old(Value()).(stopped := true, results := results)
      ensures forall h: nat :: h in results <==> h in old(results) || h < total
      ensures forall h :: h in results ==>
                results[h] == if h in old(results) then old(results)[h] else UserInterrupted
    {
      ghost var before := results;
      forall h: nat
        ensures h in Filled(before, total) <==> h in before || h < total
        ensures h in before ==> Filled(before, total)[h] == before[h]
        ensures h !in before && h < total ==> Filled(before, total)[h] == UserInterrupted
      {
        FilledEach(before, total, h);
      }
      stopped := true;
      for h := 0 to total
        invariant Value() == old(Value()).(stopped := true, results := Filled(old(results), h))
      {
        if h !in results {
          results := results[h := UserInterrupted];
        }
      }
    }

    /** A batch with one worker, which takes turns with the collector: every host is claimed
        in order, its result goes through the queue, and the callbacks count it. */
    method RunAlone(outcomes: nat -> HostResult)
      requires Value() == NewShared(total, limit)
      modifies this
      ensures next == completed == total && queue == [] && !stopped
      ensures forall h: nat :: h in results <==> h < total
      ensures forall h :: h in results ==> results[h] == outcomes(h)
      ensures |callbacks| == total && forall i :: 0 <= i < total ==> callbacks[i] == (i + 1, i)
    {
      while completed < total
        invariant completed <= total && Value() == AfterHosts(total, limit, completed, outcomes)
      {
        ghost var done := callbacks;
        var host := ClaimHost();
        var accepted := PutCompletion(Item(host.value, Result(outcomes(host.value))));
        var item := queue[0];
        queue := queue[1..];
        RecordResult(item.host, item.outcome.result);
        assert callbacks == done + [(completed, completed - 1)];
      }
      ghost var after := AfterHosts(total, limit, total, outcomes);
      assert results == after.results && callbacks == after.callbacks;
    }
  }

  // ---------------------------------------------------------------- the summary

  function SucceededHosts(results: map<nat, HostResult>): set<nat> {
    set h | h in results && Succeeded(results[h])
  }

  function FailedHosts(results: map<nat, HostResult>): set<nat> {
    set h | h in results && !Succeeded(results[h])
  }

  /** _build_result: `failed` is what is left of the total, so it is the number of failed
      hosts exactly when there is one result per host. */
  method Summarize(total: nat, results: map<nat, HostResult>) returns (success: nat, failed: int)
    ensures success == |set h | h in results && results[h].Ran? && results[h].success|
    ensures success + failed == total
    ensures failed == |set h | h in results && !(results[h].Ran? && results[h].success)| <==> |results| == total
  {
    var left, done := results.Keys, {};
    success := 0;
    while left != {}
      invariant left <= results.Keys && done == set h | h in results && h !in left && Succeeded(results[h])
      invariant success == |done|
      decreases left
    {
      var h :| h in left;
      left := left - {h};
      if Succeeded(results[h]) {
        done := done + {h};
        success := success + 1;
      }
    }
    failed := total - success;
    assert done == SucceededHosts(results);
    assert SucceededHosts(results) == set h | h in results && results[h].Ran? && results[h].success;
    assert FailedHosts(results) == set h | h in results && !(results[h].Ran? && results[h].success);
    assert SucceededHosts(results) + FailedHosts(results) == results.Keys;
    assert |SucceededHosts(results) + FailedHosts(results)| == success + |FailedHosts(results)|;
  }

  // ------------------------------------------------------------- one host

  /** How an attempt ends: with an answer; with an error that is worth a retry or not; or
      with something the retry loop does not catch, as a keyboard interrupt. Answers and
      errors are abstracted to a number. */
  datatype Ending = Answers(success: bool, output: nat) | Errs(error: nat, retryable: bool) | Breaks(keyboard: bool)

  /** What the outside does to one attempt: the health of idle connections, whether a new
      client gets connected, how the command ends, what release finds, what is raised when
      there is no connection or release raises, and whether the pause after it is broken. */
  datatype Attempt = Attempt(
    verdict: nat -> Verdict,
    connects: bool,
    command: Ending,
    returned: Verdict,
    failure: Ending,
    pauseBreaks: Option<bool>)

  /** acquire gets a connection out of the pool: it is open, a permit is free, and the first
      idle connection that is not unfit is fit, or there is none and a new client connects. */
  predicate Obtains(p: Pool, attempt: Attempt) {
    var k := Unfit(p.free, attempt.verdict);
    !p.closed && p.permits > 0 && if k < |p.free| then attempt.verdict(p.free[k]).Good? else attempt.connects
  }

  /** The pool after one attempt: acquire, and release if that got a connection. */
  function AfterAttempt(p: Pool, attempt: Attempt, client: nat): Pool {
    var (q, conn) := AcquireCall(p, attempt.verdict, attempt.connects, client);
    if conn.None? then q else ReleaseCall(q, conn.value, attempt.returned)
  }

  /** An attempt ends as its command if the pool gives a connection and the release does not
      raise, else with what that raises. */
  predicate EndsAs(p: Pool, attempt: Attempt, ending: Ending) {
    ending == if Obtains(p, attempt) && attempt.returned != Verdict.Raised then attempt.command else attempt.failure
  }

  /** How the attempts ended, one after the other, each from its state of the pool. */
  ghost predicate EndingsOver(states: seq<Pool>, attempts: seq<Attempt>, endings: seq<Ending>) {
    && |states| == |endings| <= |attempts|
    && forall j :: 0 <= j < |endings| ==> EndsAs(states[j], attempts[j], endings[j])
  }

  /** From `start` the attempts have led through `states` to `p`. */
  ghost predicate Leads(start: Pool, states: seq<Pool>, p: Pool, attempts: seq<Attempt>, client: nat)
    decreases |states|
  {
    && |states| <= |attempts|
    && if states == [] then p == start
       else
         var last := |states| - 1;
         && p == AfterAttempt(states[last], attempts[last], client + last)
         && Leads(start, states[..last], states[last], attempts, client)
  }

  /** Without a pool: as the command if the client connects. */
  ghost predicate EndingsWithout(attempts: seq<Attempt>, endings: seq<Ending>) {
    && |endings| <= |attempts|
    && forall j :: 0 <= j < |endings| ==>
         endings[j] == if attempts[j].connects then attempts[j].command else attempts[j].failure
  }

  /** Each attempt that was made but the last ended with an error worth a retry, and its
      pause was not broken; the last one ended otherwise, or was the last allowed one. */
  ghost predicate StopsRightly(attempts: seq<Attempt>, retries: nat, endings: seq<Ending>) {
    && 0 < |endings| <= retries + 1 && |endings| <= |attempts|
    && (forall j :: 0 <= j < |endings| - 1 ==>
          endings[j].Errs? && endings[j].retryable && attempts[j].pauseBreaks.None?)
    && var last := |endings| - 1;
       endings[last].Errs? && endings[last].retryable && last < retries ==> attempts[last].pauseBreaks.Some?
  }

  /** What comes of the host: the last answer, the last error, or the exception that nobody
      caught, be it the command's or that of the broken pause before a further attempt. */
  ghost predicate Decides(attempts: seq<Attempt>, retries: nat, endings: seq<Ending>, outcome: Outcome) {
    && 0 < |endings| <= |attempts|
    && var last := |endings| - 1;
       match endings[last]
       case Answers(success, output) => outcome == Result(Ran(success, output))
       case Breaks(keyboard) => outcome == Outcome.Raised(keyboard)
       case Errs(error, retryable) =>
         if retryable && last < retries
         then attempts[last].pauseBreaks.Some? && outcome == Outcome.Raised(attempts[last].pauseBreaks.value)
         else outcome == Result(Ran(false, error))
  }

  /** One attempt over a pool: with pool.acquire_context() as client. Whatever happens the
      connection is released, so nothing new is lent out afterwards. */
  method AttemptOver(pool: SyncConnectionPool, attempt: Attempt, client: nat) returns (ending: Ending)
    requires pool.Valid() && client !in pool.connections && client !in pool.closedLeases
    modifies pool
    ensures pool.Valid() && pool.closed == old(pool.closed)
    ensures pool.Value() == AfterAttempt(old(pool.Value()), attempt, client)
    ensures pool.leased == old(pool.leased) && pool.closedLeases == old(pool.closedLeases)
    ensures forall c :: c in pool.connections ==> c in old(pool.connections) || c == client
    ensures ending == if Obtains(old(pool.Value()), attempt) && attempt.returned != Verdict.Raised
                      then attempt.command else attempt.failure
  {
    var conn := pool.Acquire(attempt.verdict, attempt.connects, client);
    if conn.None? {
      return attempt.failure;
    }
    var raised := pool.Release(conn.value, attempt.returned);
    ending := if raised then attempt.failure else attempt.command;
  }

  /** The pool lends out what it did, and has no client that is still to be made. */
  ghost predicate PoolFine(start: Pool, p: Pool, next: nat) {
    && Balanced(p) && p.closed == start.closed && p.leased == start.leased && p.closedLeases == start.closedLeases
    && (forall c :: c in p.connections || c in p.closedLeases ==> c < next)
  }

  /** The next attempt over a pool. */
  method NextAttempt(pool: SyncConnectionPool, attempt: Attempt, client: nat, ghost start: Pool) returns (ending: Ending)
    requires PoolFine(start, pool.Value(), client)
    modifies pool
    ensures PoolFine(start, pool.Value(), client + 1)
    ensures pool.Value() == AfterAttempt(old(pool.Value()), attempt, client)
    ensures EndsAs(old(pool.Value()), attempt, ending)
  {
    ending := AttemptOver(pool, attempt, client);
  }

  ghost predicate LeadsOn(start: Pool, states: seq<Pool>, attempts: seq<Attempt>, client: nat) {
    exists p :: Leads(start, states, p, attempts, client)
  }

  lemma OneMoreEnding(states: seq<Pool>, attempts: seq<Attempt>, endings: seq<Ending>, p: Pool, ending: Ending)
    requires EndingsOver(states, attempts, endings) && |endings| < |attempts| && EndsAs(p, attempts[|endings|], ending)
    ensures EndingsOver(states + [p], attempts, endings + [ending])
  {
  }

  lemma LeadsFurther(start: Pool, states: seq<Pool>, p: Pool, q: Pool, attempts: seq<Attempt>, client: nat)
    requires Leads(start, states, p, attempts, client) && |states| < |attempts|
    requires q == AfterAttempt(p, attempts[|states|], client + |states|)
    ensures Leads(start, states + [p], q, attempts, client)
  {
    assert (states + [p])[..|states|] == states;
  }

  /** Everything about the attempts made over a pool so far. */
  ghost predicate OverPool(start: Pool, p: Pool, states: seq<Pool>, attempts: seq<Attempt>, endings: seq<Ending>, client: nat) {
    && EndingsOver(states, attempts, endings)
    && Leads(start, states, p, attempts, client)
    && PoolFine(start, p, client + |endings|)
  }

  /** One more attempt, over the pool if there is one. */
  method MakeAttempt(pool: SyncConnectionPool?, attempts: seq<Attempt>, client: nat, attempt: nat, ghost start: Pool,
                     ghost states: seq<Pool>, ghost endings: seq<Ending>)
      returns (ghost after: seq<Pool>, ending: Ending)
    requires attempt == |endings| < |attempts|
    requires if pool != null then OverPool(start, pool.Value(), states, attempts, endings, client)
             else EndingsWithout(attempts, endings)
    modifies pool
    ensures if pool != null then OverPool(start, pool.Value(), after, attempts, endings + [ending], client)
            else EndingsWithout(attempts, endings + [ending])
  {
    after := states;
    if pool != null {
      ghost var p := pool.Value();
      ending := NextAttempt(pool, attempts[attempt], client + attempt, start);
      OneMoreEnding(states, attempts, endings, p, ending);
      LeadsFurther(start, states, p, pool.Value(), attempts, client);
      after := states + [p];
    } else {
      ending := if attempts[attempt].connects then attempts[attempt].command else attempts[attempt].failure;
    }
  }

  /** What an ending makes the loop do: leave it with an outcome, or go on. */
  method JudgeEnding(ending: Ending, pauseBreaks: Option<bool>, isLast: bool) returns (outcome: Option<Outcome>)
    ensures ending.Answers? ==> outcome == Some(Result(Ran(ending.success, ending.output)))
    ensures ending.Breaks? ==> outcome == Some(Outcome.Raised(ending.keyboard))
    ensures ending.Errs? && (isLast || !ending.retryable) ==> outcome == Some(Result(Ran(false, ending.error)))
    ensures ending.Errs? && !isLast && ending.retryable ==>
              outcome == if pauseBreaks.Some? then Some(Outcome.Raised(pauseBreaks.value)) else None
  {
    match ending
    case Answers(success, output) =>
      outcome := Some(Result(Ran(success, output)));
    case Breaks(keyboard) =>
      outcome := Some(Outcome.Raised(keyboard));
    case Errs(error, retryable) =>
      if isLast || !retryable {
        return Some(Result(Ran(false, error)));
      }
      outcome := if pauseBreaks.Some? then Some(Outcome.Raised(pauseBreaks.value)) else None;
  }

  /** The attempts at a host, until one is final. */
  method Attempts(pool: SyncConnectionPool?, attempts: seq<Attempt>, retries: nat, client: nat)
      returns (ghost states: seq<Pool>, ghost endings: seq<Ending>, outcome: Outcome)
    requires |attempts| > retries
    requires pool != null ==> pool.Valid() && forall c :: c in pool.connections || c in pool.closedLeases ==> c < client
    modifies pool
    ensures StopsRightly(attempts, retries, endings) && Decides(attempts, retries, endings, outcome)
    ensures pool == null ==> EndingsWithout(attempts, endings)
    ensures pool != null ==> OverPool(old(pool.Value()), pool.Value(), states, attempts, endings, client)
  {
    states, endings := [], [];
    ghost var start := if pool != null then pool.Value() else NewPool(1);
    var attempt := 0;
    while true
      invariant attempt == |endings| <= retries
      invariant forall j :: 0 <= j < attempt ==>
                  endings[j].Errs? && endings[j].retryable && attempts[j].pauseBreaks.None?
      invariant if pool != null then OverPool(start, pool.Value(), states, attempts, endings, client)
                else EndingsWithout(attempts, endings)
      decreases retries - attempt
    {
      var ending;
      states, ending := MakeAttempt(pool, attempts, client, attempt, start, states, endings);
      endings := endings + [ending];
      var judged := JudgeEnding(ending, attempts[attempt].pauseBreaks, attempt >= retries);
      if judged.Some? {
        return states, endings, judged.value;
      }
      attempt := attempt + 1;
    }
  }

  /** _execute_on_host once the host is resolved. Without a pool of the caller, one of its
      own is made if pooling is wanted; it has been closed, and has lent out nothing, on
      every way out. A pool of the caller stays open and gets back what it lent. */
  method ExecuteOnHost(pool: SyncConnectionPool?, usePool: bool, attempts: seq<Attempt>, retries: nat, client: nat)
      returns (ghost states: seq<Pool>, ghost endings: seq<Ending>, outcome: Outcome, own: SyncConnectionPool?)
    requires |attempts| > retries
    requires pool != null ==> pool.Valid() && forall c :: c in pool.connections || c in pool.closedLeases ==> c < client
    modifies pool
    // which attempts are made, and how each of them ends
    ensures 0 < |endings| <= retries + 1
    ensures forall j :: 0 <= j < |endings| - 1 ==>
              endings[j].Errs? && endings[j].retryable && attempts[j].pauseBreaks.None?
    ensures pool == null && !usePool ==>
              forall j :: 0 <= j < |endings| ==>
                endings[j] == if attempts[j].connects then attempts[j].command else attempts[j].failure
    ensures pool != null || usePool ==>
              && |states| == |endings|
              && (forall j :: 0 <= j < |endings| ==>
                    endings[j] == if Obtains(states[j], attempts[j]) && attempts[j].returned != Verdict.Raised
                                  then attempts[j].command else attempts[j].failure)
              && (pool != null ==> Leads(old(pool.Value()), states, pool.Value(), attempts, client))
              && (pool == null ==> LeadsOn(NewPool(1), states, attempts, client))
    // what comes of the host
    ensures endings[|endings| - 1].Answers? ==>
              outcome == Result(Ran(endings[|endings| - 1].success, endings[|endings| - 1].output))
    ensures endings[|endings| - 1].Breaks? ==> outcome == Outcome.Raised(endings[|endings| - 1].keyboard)
    ensures endings[|endings| - 1].Errs? && (!endings[|endings| - 1].retryable || |endings| == retries + 1) ==>
              outcome == Result(Ran(false, endings[|endings| - 1].error))
    ensures endings[|endings| - 1].Errs? && endings[|endings| - 1].retryable && |endings| <= retries ==>
              && attempts[|endings| - 1].pauseBreaks.Some?
              && outcome == Outcome.Raised(attempts[|endings| - 1].pauseBreaks.value)
    // what becomes of the pools
    ensures own != null <==> pool == null && usePool
    ensures own != null ==>
              && fresh(own) && own.max == 1 && own.Valid() && own.closed
              && own.connections == {} && own.free == [] && own.leased == {} && own.closedLeases == {}
    ensures pool != null ==>
              && pool.Valid() && pool.closed == old(pool.closed)
              && pool.leased == old(pool.leased) && pool.closedLeases == old(pool.closedLeases)
  {
    own := null;
    if pool == null && usePool {
      own := new SyncConnectionPool(1);
      states, endings, outcome := Attempts(own, attempts, retries, client);
      assert Leads(NewPool(1), states, own.Value(), attempts, client);
      own.CloseConnections();
    } else {
      states, endings, outcome := Attempts(pool, attempts, retries, client);
    }
  }
}
