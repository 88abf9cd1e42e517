/** Several pools, synchronous and asynchronous, and callers that use the budget directly,
    sharing one budget. A pool step that frees a slot is the budget's release; a pool thread
    that needs a slot is a synchronous caller of the budget, a task an asynchronous one,
    whose cancel event is that of its pool. */
module SharedBudget {
  import opened Counting
  import opened Options
  import opened Sequences
  import opened PoolOwnership
  import opened PoolLedger
  import opened PoolCapacity
  import opened Budget
  import B = BudgetRuns
  import P = PoolRuns
  import A = AsyncRuns
  import AsyncFacts
  import AsyncLedger

  /** `direct` counts the slots held by callers that are not pools. */
  datatype World = World(budget: B.System, pools: seq<P.System>, asyncPools: seq<A.System>, direct: nat)

  datatype Action =
    | PoolStep(pool: nat, step: P.Action)
    | AskForSlot(pool: nat, t: nat)
    | WaitForSlot(pool: nat, t: nat, expired: bool, interrupted: bool)
    | AsyncStep(pool: nat, task: A.Action)
    | AsyncCall(pool: nat, act: B.Action)
    | AsyncGrant(pool: nat, task: A.Action, act: B.Action)
    | DirectStep(act: B.Action)
    | DirectRelease

  function Start(max: int, limits: seq<nat>, asyncLimits: seq<nat>): World
    requires max > 0
  {
    World(B.Start(max), seq(|limits|, i requires 0 <= i < |limits| => P.Start(limits[i])),
          seq(|asyncLimits|, i requires 0 <= i < |asyncLimits| => A.Start(asyncLimits[i])), 0)
  }

  predicate FreesSlot(s: P.System, a: P.Action) {
    a.On? && a.move.Advance? && a.t < |s.threads| && (s.threads[a.t].ReturnSlot? || s.threads[a.t].FreeSlot?)
  }

  /** Steps of a pool that do not wait for a slot. */
  predicate Plain(a: P.Action) {
    a.On? ==> !a.move.RequestSlot? && !a.move.SlotGranted? && !a.move.SlotRefused?
  }

  /** What the budget does in the same step. */
  function BudgetPart(b: B.System, pool: nat, s: P.System, a: P.Action): B.System {
    if FreesSlot(s, a) then B.Step(b, B.ReleaseSlot)
    else if a.CallCloseAll? then B.Step(b, B.SetToken(pool))
    else b
  }

  /** The pool thread goes on when its call to the budget has returned. */
  function Settle(s: P.System, t: nat, pc: B.Pc): P.System {
    match pc
    case Returned(o) => P.Step(s, P.On(t, if o.Acquired? then P.SlotGranted else P.SlotRefused))
    case _ => s
  }

  predicate Asking(s: P.System, t: nat) {
    t < |s.threads| && s.threads[t].NeedClient?
  }

  predicate Awaiting(s: P.System, t: nat, b: B.System) {
    && t < |s.threads| && s.threads[t].AwaitSlot?
    && B.At(b, s.threads[t].conn, B.Waiting)
  }

  function Ask(w: World, pool: nat, t: nat): World
    requires pool < |w.pools| && Asking(w.pools[pool], t)
  {
    var c := |w.budget.calls|;
    var asked := P.Step(w.pools[pool], P.On(t, P.RequestSlot(c)));
    var b := B.Step(w.budget, B.Acquire(Some(pool), false));
    w.(budget := b, pools := w.pools[pool := Settle(asked, t, b.calls[c].pc)])
  }

  function Wait(w: World, pool: nat, t: nat, expired: bool, interrupted: bool): World
    requires pool < |w.pools| && Awaiting(w.pools[pool], t, w.budget)
  {
    var c := w.pools[pool].threads[t].conn;
    var b := B.Step(w.budget, B.CheckWait(c, expired, interrupted));
    w.(budget := b, pools := w.pools[pool := Settle(w.pools[pool], t, b.calls[c].pc)])
  }

  /** The cancel event of an asynchronous pool. */
  function AsyncToken(w: World, pool: nat): nat {
    |w.pools| + pool
  }

  /** A budget step of one of the calls that the tasks of a pool have made. */
  predicate CallOf(b: B.System, token: nat, a: B.Action) {
    match a
    case Acquire(event, isAsync) => event == Some(token) && isAsync
    case NotifyAll => false
    case ReleaseSlot => false
    case SetToken(_) => false
    case _ => a.call < |b.calls| && b.calls[a.call].waiter.token == Some(token)
  }

  /** What the budget does in the same step of an asynchronous pool. */
  function AsyncPart(b: B.System, token: nat, s: A.System, a: A.Action): B.System {
    if A.Step(s, a).slots < s.slots then B.Step(b, B.ReleaseSlot)
    else if a.CallCloseAll? then B.Step(b, B.SetToken(token))
    else b
  }

  function StepAsync(w: World, i: nat, a: A.Action): World
    requires i < |w.asyncPools|
  {
    w.(budget := AsyncPart(w.budget, AsyncToken(w, i), w.asyncPools[i], a),
       asyncPools := w.asyncPools[i := A.Step(w.asyncPools[i], a)])
  }

  /** A call gets its slot, and with it a task that has asked for one goes on. Which of the
      pool's calls is which task's is left open. */
  function GrantAsync(w: World, i: nat, a: A.Action, act: B.Action): World
    requires i < |w.asyncPools|
  {
    w.(budget := B.Step(w.budget, act), asyncPools := w.asyncPools[i := A.Step(w.asyncPools[i], a)])
  }

  /** A direct caller passes no cancel event; it acts on its own calls only. */
  predicate DirectAllowed(b: B.System, a: B.Action) {
    match a
    case Acquire(token, _) => token == None
    case NotifyAll => true
    case ReleaseSlot => false
    case SetToken(_) => false
    case _ => a.call < |b.calls| && b.calls[a.call].waiter.token == None
  }

  function Direct(w: World, a: B.Action): World {
    var b := B.Step(w.budget, a);
    w.(budget := b, direct := w.direct + (if b.held > w.budget.held then b.held - w.budget.held else 0))
  }

  function Step(w: World, a: Action): World {
    match a
    case PoolStep(i, step) =>
      if i < |w.pools| && Plain(step) then
        w.(budget := BudgetPart(w.budget, i, w.pools[i], step), pools := w.pools[i := P.Step(w.pools[i], step)])
      else w
    case AskForSlot(i, t) => if i < |w.pools| && Asking(w.pools[i], t) then Ask(w, i, t) else w
    case WaitForSlot(i, t, expired, interrupted) =>
      if i < |w.pools| && Awaiting(w.pools[i], t, w.budget) then Wait(w, i, t, expired, interrupted) else w
    case AsyncStep(i, a) =>
      if i < |w.asyncPools| && A.Step(w.asyncPools[i], a).slots <= w.asyncPools[i].slots then StepAsync(w, i, a) else w
    case AsyncCall(i, act) =>
      if CallOf(w.budget, AsyncToken(w, i), act) && B.Step(w.budget, act).held == w.budget.held
      then w.(budget := B.Step(w.budget, act)) else w
    case AsyncGrant(i, a, act) =>
      if && i < |w.asyncPools| && CallOf(w.budget, AsyncToken(w, i), act)
         && A.Step(w.asyncPools[i], a).slots == w.asyncPools[i].slots + 1
         && B.Step(w.budget, act).held == w.budget.held + 1
      then GrantAsync(w, i, a, act) else w
    case DirectStep(act) => if DirectAllowed(w.budget, act) then Direct(w, act) else w
    case DirectRelease =>
      if w.direct > 0 then w.(budget := B.Step(w.budget, B.ReleaseSlot), direct := w.direct - 1) else w
  }

  function Exec(w: World, actions: seq<Action>): World
    decreases |actions|
  {
    if actions == [] then w else Exec(Step(w, actions[0]), actions[1..])
  }

  // ------------------------------------------------------------------ slots

  /** How a step of one pool changes the number of slots it accounts for. */
  function SlotChange(s: P.System, a: P.Action): int {
    if FreesSlot(s, a) then -1
    else if a.On? && a.move.SlotGranted? && a.t < |s.threads| && s.threads[a.t].AwaitSlot? then 1
    else 0
  }

  /** The slot arithmetic of one thread's step. */
  ghost predicate SlotMove(s: P.System, s': P.System, t: nat, change: int)
    requires t < |s.threads| == |s'.threads|
  {
    |s'.p.connections| + SlotOwner(s'.threads[t]) == |s.p.connections| + SlotOwner(s.threads[t]) + change
  }

  lemma AcquireSlots(s: P.System, t: nat)
    requires t < |s.threads| && !FreesSlot(s, P.On(t, P.Advance))
    requires !(s.threads[t].TrackNew? || s.threads[t].DropClient? || s.threads[t].Untracking?)
    ensures SlotMove(s, P.AcquireStep(s, t), t, 0)
  {
  }

  lemma CreateSlots(s: P.System, t: nat)
    requires t < |s.threads| && View(s, t, Subject(s.threads[t]))
    ensures SlotMove(s, P.CreateStep(s, t), t, if s.threads[t].ReturnSlot? then -1 else 0)
  {
  }

  lemma CloseSlots(s: P.System, t: nat)
    requires t < |s.threads|
    ensures SlotMove(s, P.CloseStep(s, t), t, if s.threads[t].FreeSlot? then -1 else 0)
  {
  }

  lemma SweepSlots(s: P.System, t: nat)
    requires t < |s.threads|
    ensures SlotMove(s, P.SweepStep(s, t), t, 0) && SlotMove(s, P.ReturnStep(s, t), t, 0)
  {
  }

  lemma MovedSlots(s: P.System, t: nat, move: P.Move)
    requires t < |s.threads| && View(s, t, Subject(s.threads[t]))
    ensures SlotMove(s, P.Moved(s, t, move), t, SlotChange(s, P.On(t, move)))
  {
    match move
    case Advance =>
      if !FreesSlot(s, P.On(t, P.Advance)) &&
         !(s.threads[t].TrackNew? || s.threads[t].DropClient? || s.threads[t].Untracking?) {
        AcquireSlots(s, t);
      }
      CreateSlots(s, t);
      CloseSlots(s, t);
      SweepSlots(s, t);
    case _ =>
  }

  lemma ThreadSlots(s: P.System, t: nat, move: P.Move)
    requires Own(s) && t < |s.threads|
    ensures Slots(P.Moved(s, t, move)) == Slots(s) + SlotChange(s, P.On(t, move))
  {
    var s' := P.Moved(s, t, move);
    ViewOf(s, t, Subject(s.threads[t]));
    MovedSlots(s, t, move);
    MovedOnly(s, t, move);
    TotalUpdate(s.threads, t, s'.threads[t], SlotOwner);
  }

  lemma StepSlots(s: P.System, a: P.Action)
    requires Own(s)
    ensures Slots(P.Step(s, a)) == Slots(s) + SlotChange(s, a)
    ensures FreesSlot(s, a) ==> Slots(s) > 0
  {
    if !a.On? {
      SpawnSlots(s, a);
    } else if a.t < |s.threads| {
      ThreadSlots(s, a.t, a.move);
      TotalAtLeast(s.threads, a.t, SlotOwner);
    }
  }

  lemma SpawnSlots(s: P.System, a: P.Action)
    requires !a.On?
    ensures Slots(P.Step(s, a)) == Slots(s)
  {
    var s' := P.Step(s, a);
    TotalAppend(s.threads, s'.threads[|s.threads|], SlotOwner);
  }

  // ------------------------------------------------------------------ invariant

  ghost predicate PoolOk(s: P.System, calls: nat) {
    && Own(s) && LiveOk(s)
    && (forall c :: c in s.known ==> c < calls)
  }

  ghost predicate AsyncOk(s: A.System) {
    AsyncFacts.Own(s) && AsyncLedger.Ledger(s)
  }

  /** The slots an asynchronous pool accounts for: of tracked connections, clients being
      connected or dropped, and connections being closed. */
  function AsyncSlots(s: A.System): nat {
    |s.a.p.connections| + Total(s.tasks, AsyncLedger.SlotOf)
  }

  ghost predicate Inv(w: World) {
    && B.Inv(w.budget)
    && (forall i :: 0 <= i < |w.pools| ==> PoolOk(w.pools[i], |w.budget.calls|))
    && (forall i :: 0 <= i < |w.asyncPools| ==> AsyncOk(w.asyncPools[i]))
    && w.budget.held == Total(w.pools, Slots) + Total(w.asyncPools, AsyncSlots) + w.direct
  }

  lemma StepKnown(s: P.System, a: P.Action)
    ensures var s' := P.Step(s, a);
            forall c :: c in s'.known ==> c in s.known || (a.On? && a.move == P.RequestSlot(c))
  {
  }

  lemma StepPoolOk(s: P.System, a: P.Action, calls: nat, calls': nat)
    requires PoolOk(s, calls) && calls <= calls'
    requires a.On? && a.move.RequestSlot? ==> a.move.client < calls'
    ensures PoolOk(P.Step(s, a), calls')
  {
    StepOwn(s, a);
    StepKnown(s, a);
    if !a.On? {
      SpawnLive(s, a);
    } else if a.t < |s.threads| {
      MovedLive(s, a.t, a.move);
    }
  }

  /** One pool and the budget change; the slots of all the others stay. */
  lemma Replace(w: World, i: nat, s: P.System, b: B.System)
    requires Inv(w) && i < |w.pools| && B.Inv(b) && |w.budget.calls| <= |b.calls|
    requires PoolOk(s, |b.calls|)
    requires b.held - w.budget.held == Slots(s) - Slots(w.pools[i])
    ensures Inv(w.(budget := b, pools := w.pools[i := s]))
  {
    TotalUpdate(w.pools, i, s, Slots);
  }

  lemma ReplaceAsync(w: World, i: nat, s: A.System, b: B.System)
    requires Inv(w) && i < |w.asyncPools| && B.Inv(b) && |w.budget.calls| <= |b.calls|
    requires AsyncOk(s) && b.held - w.budget.held == AsyncSlots(s) - AsyncSlots(w.asyncPools[i])
    ensures Inv(w.(budget := b, asyncPools := w.asyncPools[i := s]))
  {
    TotalUpdate(w.asyncPools, i, s, AsyncSlots);
  }

  lemma BudgetStep(b: B.System, a: B.Action)
    requires B.Inv(b)
    ensures B.Inv(B.Step(b, a)) && |b.calls| <= |B.Step(b, a).calls|
  {
    B.StepInv(b, a);
    B.StepGrows(b, a);
  }

  lemma BudgetPartOk(b: B.System, i: nat, s: P.System, a: P.Action)
    requires B.Inv(b) && (FreesSlot(s, a) ==> b.held > 0)
    ensures var b' := BudgetPart(b, i, s, a);
            B.Inv(b') && |b.calls| <= |b'.calls| && b'.held - b.held == if FreesSlot(s, a) then -1 else 0
  {
    if FreesSlot(s, a) {
      BudgetStep(b, B.ReleaseSlot);
    } else if a.CallCloseAll? {
      BudgetStep(b, B.SetToken(i));
    }
  }

  lemma PoolStepInv(w: World, i: nat, a: P.Action)
    requires Inv(w) && i < |w.pools| && Plain(a)
    ensures Inv(Step(w, PoolStep(i, a)))
  {
    var s := w.pools[i];
    StepSlots(s, a);
    TotalAtLeast(w.pools, i, Slots);
    BudgetPartOk(w.budget, i, s, a);
    var b := BudgetPart(w.budget, i, s, a);
    StepPoolOk(s, a, |w.budget.calls|, |b.calls|);
    Replace(w, i, P.Step(s, a), b);
  }

  lemma SettleOk(s: P.System, t: nat, pc: B.Pc, calls: nat)
    requires PoolOk(s, calls) && t < |s.threads| && s.threads[t].AwaitSlot?
    ensures PoolOk(Settle(s, t, pc), calls)
    ensures Slots(Settle(s, t, pc)) == Slots(s) + (if pc == B.Returned(Outcome.Acquired) then 1 else 0)
  {
    if pc.Returned? {
      var a := P.On(t, if pc.outcome.Acquired? then P.SlotGranted else P.SlotRefused);
      StepPoolOk(s, a, calls, calls);
      StepSlots(s, a);
    }
  }

  lemma AskInv(w: World, i: nat, t: nat)
    requires Inv(w) && i < |w.pools| && Asking(w.pools[i], t)
    ensures Inv(Ask(w, i, t))
  {
    var s, c := w.pools[i], |w.budget.calls|;
    var a := P.On(t, P.RequestSlot(c));
    BudgetStep(w.budget, B.Acquire(Some(i), false));
    var b := B.Step(w.budget, B.Acquire(Some(i), false));
    assert |b.calls| == c + 1 && b.held - w.budget.held == if b.calls[c].pc == B.Returned(Outcome.Acquired) then 1 else 0;
    StepPoolOk(s, a, c, c + 1);
    StepSlots(s, a);
    assert PoolOk(s, c);
    SettleOk(P.Step(s, a), t, b.calls[c].pc, c + 1);
    Replace(w, i, Settle(P.Step(s, a), t, b.calls[c].pc), b);
  }

  lemma WaitInv(w: World, i: nat, t: nat, expired: bool, interrupted: bool)
    requires Inv(w) && i < |w.pools| && Awaiting(w.pools[i], t, w.budget)
    ensures Inv(Wait(w, i, t, expired, interrupted))
  {
    var s := w.pools[i];
    var c := s.threads[t].conn;
    var a := B.CheckWait(c, expired, interrupted);
    BudgetStep(w.budget, a);
    var b := B.Step(w.budget, a);
    assert b.held - w.budget.held == if b.calls[c].pc == B.Returned(Outcome.Acquired) then 1 else 0;
    SettleOk(s, t, b.calls[c].pc, |b.calls|);
    Replace(w, i, Settle(s, t, b.calls[c].pc), b);
  }

  lemma StepAsyncOk(s: A.System, a: A.Action)
    requires AsyncOk(s)
    ensures AsyncOk(A.Step(s, a)) && AsyncSlots(A.Step(s, a)) == A.Step(s, a).slots && AsyncSlots(s) == s.slots
  {
    AsyncFacts.StepOwn(s, a);
    AsyncLedger.StepLedger(s, a);
  }

  lemma OneSlotAway(s: A.System, a: A.Action)
    ensures s.slots - 1 <= A.Step(s, a).slots <= s.slots + 1
  {
  }

  lemma AsyncPartOk(b: B.System, token: nat, s: A.System, a: A.Action)
    requires B.Inv(b) && (A.Step(s, a).slots < s.slots ==> b.held > 0)
    ensures var b' := AsyncPart(b, token, s, a);
            B.Inv(b') && |b.calls| <= |b'.calls| && b'.held - b.held == if A.Step(s, a).slots < s.slots then -1 else 0
  {
    BudgetStep(b, B.ReleaseSlot);
    BudgetStep(b, B.SetToken(token));
  }

  lemma AsyncStepInv(w: World, i: nat, a: A.Action)
    requires Inv(w) && i < |w.asyncPools| && A.Step(w.asyncPools[i], a).slots <= w.asyncPools[i].slots
    ensures Inv(StepAsync(w, i, a))
  {
    var s := w.asyncPools[i];
    StepAsyncOk(s, a);
    OneSlotAway(s, a);
    TotalAtLeast(w.asyncPools, i, AsyncSlots);
    AsyncPartOk(w.budget, AsyncToken(w, i), s, a);
    ReplaceAsync(w, i, A.Step(s, a), AsyncPart(w.budget, AsyncToken(w, i), s, a));
  }

  lemma AsyncGrantInv(w: World, i: nat, a: A.Action, act: B.Action)
    requires Inv(w) && i < |w.asyncPools| && A.Step(w.asyncPools[i], a).slots == w.asyncPools[i].slots + 1
    requires B.Step(w.budget, act).held == w.budget.held + 1
    ensures Inv(GrantAsync(w, i, a, act))
  {
    StepAsyncOk(w.asyncPools[i], a);
    BudgetStep(w.budget, act);
    ReplaceAsync(w, i, A.Step(w.asyncPools[i], a), B.Step(w.budget, act));
  }

  lemma DirectInv(w: World, a: B.Action)
    requires Inv(w) && DirectAllowed(w.budget, a)
    ensures Inv(Direct(w, a))
  {
    BudgetStep(w.budget, a);
    assert B.Step(w.budget, a).held >= w.budget.held;
  }

  predicate IsAsync(a: Action) {
    a.AsyncStep? || a.AsyncCall? || a.AsyncGrant?
  }

  lemma AsyncInv(w: World, a: Action)
    requires Inv(w) && IsAsync(a)
    ensures Inv(Step(w, a))
  {
    match a
    case AsyncStep(i, step) =>
      if i < |w.asyncPools| && A.Step(w.asyncPools[i], step).slots <= w.asyncPools[i].slots { AsyncStepInv(w, i, step); }
    case AsyncCall(i, act) => BudgetStep(w.budget, act);
    case AsyncGrant(i, step, act) =>
      if && i < |w.asyncPools| && A.Step(w.asyncPools[i], step).slots == w.asyncPools[i].slots + 1
         && B.Step(w.budget, act).held == w.budget.held + 1 { AsyncGrantInv(w, i, step, act); }
  }

  lemma StepInv(w: World, a: Action)
    requires Inv(w)
    ensures Inv(Step(w, a))
  {
    if IsAsync(a) {
      AsyncInv(w, a);
    } else {
      SyncInv(w, a);
    }
  }

  lemma SyncInv(w: World, a: Action)
    requires Inv(w) && !IsAsync(a)
    ensures Inv(Step(w, a))
  {
    match a
    case PoolStep(i, step) => PlainInv(w, i, step);
    case AskForSlot(i, t) => if i < |w.pools| && Asking(w.pools[i], t) { AskInv(w, i, t); }
    case WaitForSlot(i, t, expired, interrupted) =>
      if i < |w.pools| && Awaiting(w.pools[i], t, w.budget) { WaitInv(w, i, t, expired, interrupted); }
    case DirectStep(act) => if DirectAllowed(w.budget, act) { DirectInv(w, act); }
    case DirectRelease => DirectReleaseInv(w);
  }

  lemma DirectReleaseInv(w: World)
    requires Inv(w)
    ensures Inv(Step(w, DirectRelease))
  {
    BudgetStep(w.budget, B.ReleaseSlot);
  }

  /** A step of a synchronous pool, whether it frees a slot or not. */
  lemma PlainInv(w: World, i: nat, step: P.Action)
    requires Inv(w)
    ensures Inv(Step(w, PoolStep(i, step)))
  {
    if i < |w.pools| && Plain(step) { PoolStepInv(w, i, step); }
  }

  lemma {:induction false} StartTotal(pools: seq<P.System>)
    requires forall i :: 0 <= i < |pools| ==> Slots(pools[i]) == 0
    ensures Total(pools, Slots) == 0
  {
    if pools != [] {
      StartTotal(pools[..|pools| - 1]);
    }
  }

  lemma {:induction false} StartAsync(pools: seq<A.System>)
    requires forall i :: 0 <= i < |pools| ==> AsyncSlots(pools[i]) == 0
    ensures Total(pools, AsyncSlots) == 0
  {
    if pools != [] {
      StartAsync(pools[..|pools| - 1]);
    }
  }

  lemma StartInv(max: int, limits: seq<nat>, asyncLimits: seq<nat>)
    requires max > 0
    ensures Inv(Start(max, limits, asyncLimits))
  {
    var w := Start(max, limits, asyncLimits);
    forall i | 0 <= i < |w.asyncPools| ensures AsyncOk(w.asyncPools[i]) {
      AsyncLedger.StartHolds(asyncLimits[i]);
    }
    StartTotal(w.pools);
    StartAsync(w.asyncPools);
  }

  lemma {:induction false} ExecInv(w: World, actions: seq<Action>)
    requires Inv(w)
    ensures Inv(Exec(w, actions)) && Exec(w, actions).budget.b.max == w.budget.b.max
    decreases |actions|
  {
    if actions != [] {
      StepInv(w, actions[0]);
      StepMax(w, actions[0]);
      ExecInv(Step(w, actions[0]), actions[1..]);
    }
  }

  lemma AsyncMax(w: World, a: Action)
    requires Inv(w) && IsAsync(a)
    ensures Step(w, a).budget.b.max == w.budget.b.max
  {
    match a
    case AsyncStep(i, step) =>
      B.StepMax(w.budget, B.ReleaseSlot);
      B.StepMax(w.budget, B.SetToken(AsyncToken(w, i)));
    case AsyncCall(i, act) => B.StepMax(w.budget, act);
    case AsyncGrant(i, step, act) => B.StepMax(w.budget, act);
  }

  lemma StepMax(w: World, a: Action)
    requires Inv(w)
    ensures Step(w, a).budget.b.max == w.budget.b.max
  {
    match a
    case PoolStep(i, step) =>
      B.StepMax(w.budget, B.ReleaseSlot);
      B.StepMax(w.budget, B.SetToken(i));
    case AskForSlot(i, t) => B.StepMax(w.budget, B.Acquire(Some(i), false));
    case WaitForSlot(i, t, expired, interrupted) =>
      if i < |w.pools| && Awaiting(w.pools[i], t, w.budget) {
        B.StepMax(w.budget, B.CheckWait(w.pools[i].threads[t].conn, expired, interrupted));
      }
    case DirectStep(act) => B.StepMax(w.budget, act);
    case DirectRelease => B.StepMax(w.budget, B.ReleaseSlot);
    case _ => AsyncMax(w, a);
  }

  // ------------------------------------------------------------------ results

  function Tracked(s: P.System): nat {
    |s.p.connections|
  }

  /** A thread with a slot for a client it has not handed to the pool. */
  function Creating(pc: P.Pc): nat {
    One(pc.SlotHeld? || pc.Connecting? || pc.TrackNew? || (pc.DropClient? && pc.held) || pc.ReturnSlot?)
  }

  /** A thread between untracking a connection and freeing its slot. */
  function Freeing(pc: P.Pc): nat {
    One(pc.FreeSlot?)
  }

  function Creators(s: P.System): nat {
    Total(s.threads, Creating)
  }

  function Closers(s: P.System): nat {
    Total(s.threads, Freeing)
  }

  lemma {:induction false} ThreadSplit(threads: seq<P.Pc>)
    ensures Total(threads, SlotOwner) == Total(threads, Creating) + Total(threads, Freeing)
  {
    if threads != [] {
      ThreadSplit(threads[..|threads| - 1]);
    }
  }

  lemma {:induction false} PoolSplit(pools: seq<P.System>)
    ensures Total(pools, Slots) == Total(pools, Tracked) + Total(pools, Creators) + Total(pools, Closers)
  {
    if pools != [] {
      PoolSplit(pools[..|pools| - 1]);
      ThreadSplit(pools[|pools| - 1].threads);
    }
  }

  lemma {:induction false} OpenTotal(pools: seq<P.System>)
    requires forall i :: 0 <= i < |pools| ==> LiveOk(pools[i])
    ensures Total(pools, Open) <= Total(pools, Slots)
  {
    if pools != [] {
      OpenTotal(pools[..|pools| - 1]);
      OpenWithinSlots(pools[|pools| - 1]);
    }
  }

  function AsyncTracked(s: A.System): nat {
    |s.a.p.connections|
  }

  /** A task with a slot for a client that the pool does not track yet, or is dropping. */
  function AsyncCreating(pc: A.Pc): nat {
    One(pc.Connecting? || (pc.Dropping? && pc.held))
  }

  /** A task closing a connection that it has untracked. */
  function AsyncClosing(pc: A.Pc): nat {
    One(pc.Closing? && pc.tracked)
  }

  function AsyncCreators(s: A.System): nat {
    Total(s.tasks, AsyncCreating)
  }

  function AsyncClosers(s: A.System): nat {
    Total(s.tasks, AsyncClosing)
  }

  lemma {:induction false} TaskSplit(tasks: seq<A.Pc>)
    ensures Total(tasks, AsyncLedger.SlotOf) == Total(tasks, AsyncCreating) + Total(tasks, AsyncClosing)
  {
    if tasks != [] {
      TaskSplit(tasks[..|tasks| - 1]);
    }
  }

  lemma {:induction false} AsyncSplit(pools: seq<A.System>)
    ensures Total(pools, AsyncSlots)
         == Total(pools, AsyncTracked) + Total(pools, AsyncCreators) + Total(pools, AsyncClosers)
  {
    if pools != [] {
      AsyncSplit(pools[..|pools| - 1]);
      TaskSplit(pools[|pools| - 1].tasks);
    }
  }

  /** The global cap. For any number of pools of both kinds sharing one budget, in every
      interleaving, the budget's count is exactly: tracked connections, threads and tasks
      creating or dropping one, those that untracked one and have not freed its slot, direct
      holders, and reserved slots whose waiters are still on their way back. So the open
      connections of all pools together never exceed the budget, and no release is ever
      rejected. */
  lemma GlobalCap(max: int, limits: seq<nat>, asyncLimits: seq<nat>, actions: seq<Action>)
    requires max > 0
    ensures var w := Exec(Start(max, limits, asyncLimits), actions);
            && w.budget.b.inUse == Total(w.pools, Tracked) + Total(w.pools, Creators) + Total(w.pools, Closers)
                                   + Total(w.asyncPools, AsyncTracked) + Total(w.asyncPools, AsyncCreators)
                                   + Total(w.asyncPools, AsyncClosers) + w.direct + |w.budget.b.granted|
            && Total(w.pools, Open) + Total(w.asyncPools, AsyncSlots) + w.direct <= w.budget.b.inUse <= max
            && w.budget.rejected == 0
  {
    StartInv(max, limits, asyncLimits);
    ExecInv(Start(max, limits, asyncLimits), actions);
    var w := Exec(Start(max, limits, asyncLimits), actions);
    PoolSplit(w.pools);
    AsyncSplit(w.asyncPools);
    OpenTotal(w.pools);
  }
}
