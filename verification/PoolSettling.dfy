/** A closed pool comes to rest: every call that has not returned can go on, and each of
    its moves uses up a measure. */
module PoolSettling {
  import opened Counting
  import opened SyncPool
  import opened PoolRuns
  import opened PoolOwnership
  import opened PoolLedger
  import opened PoolClosing

  function LeftAfter(next: Then): nat {
    match next
    case TryNextFree => 3
    case FailAcquire => 2
    case Finish => 0
    case GivePermitBack => 1
    case ScanOn(rest, keep) => 5 * |rest| + 4 * |keep| + 3
    case CloseKeptOn(kept) => 4 * |kept| + 1
    case CloseEachOn(conns) => 4 * |conns| + 1
  }

  /** Bounds the moves a call still makes in a closed pool. */
  function Left(pc: Pc): nat {
    match pc
    case Done(_) => 0
    case WaitPermit => 3
    case Unregister(_) => 2
    case CheckOpen => 1
    case PopFree => 3
    case CheckHealth(_) => 7
    case LeaseFree(_) => 6
    case NeedClient => 9
    case AwaitSlot(_) => 8
    case SlotHeld(_) => 7
    case Connecting(_) => 6
    case TrackNew(_) => 5
    case DropClient(_, _, _) => 4
    case ReturnSlot => 3
    case LeaseNew(_) => 3
    case AcquireFailed => 2
    case GiveBack => 1
    case Inspect(_) => 5
    case PutBackFree(_) => 4
    case GiveBackIfOpen => 1
    case Disconnect(_, next) => 3 + LeftAfter(next)
    case Untracking(_, next) => 2 + LeftAfter(next)
    case FreeSlot(next) => 1 + LeftAfter(next)
    case Scan(rest, keep) => 5 * |rest| + 4 * |keep| + 3
    case RestoreKept(keep) => 4 * |keep| + 2
    case CloseKept(kept) => 4 * |kept| + 1
    case CloseEach(conns) => 4 * |conns| + 1
  }

  lemma {:induction false} MembersAtMost(xs: seq<nat>)
    ensures |Members(xs)| <= |xs|
  {
    if xs == [] {
      assert Members(xs) == {};
    } else {
      MembersAtMost(xs[1..]);
      assert Members(xs) == Members(xs[1..]) + {xs[0]};
    }
  }

  /** The state after a move of call `t` has less left for it to do. */
  ghost predicate Less(s: System, s': System, t: nat)
    requires t < |s.threads|
  {
    |s'.threads| == |s.threads| && Left(s'.threads[t]) < Left(s.threads[t])
  }

  lemma CreateDecreases(s: System, t: nat)
    requires s.p.closed && t < |s.threads| && CreateStep(s, t) != s
    ensures Less(s, CreateStep(s, t), t)
  {
  }

  lemma SweepDecreases(s: System, t: nat)
    requires s.p.closed && t < |s.threads| && SweepStep(s, t) != s
    ensures Less(s, SweepStep(s, t), t)
  {
    if s.threads[t].RestoreKept? {
      MembersAtMost(s.threads[t].keep);
      assert SweepStep(s, t).threads[t] == CloseKept(Members(s.threads[t].keep));
    }
  }

  lemma CloseDecreases(s: System, t: nat)
    requires s.p.closed && t < |s.threads|
    ensures CloseStep(s, t) != s ==> Less(s, CloseStep(s, t), t)
    ensures ReturnStep(s, t) != s ==> Less(s, ReturnStep(s, t), t)
    ensures AcquireStep(s, t) != s ==> Less(s, AcquireStep(s, t), t)
  {
  }

  lemma ContinueDecreases(s: System, t: nat)
    requires s.p.closed && t < |s.threads| && Continue(s, t) != s
    ensures Less(s, Continue(s, t), t)
  {
    CloseDecreases(s, t);
    if CreateStep(s, t) != s { CreateDecreases(s, t); }
    if SweepStep(s, t) != s { SweepDecreases(s, t); }
  }

  lemma JudgedDecreases(s: System, t: nat, verdict: Verdict)
    requires s.p.closed && t < |s.threads| && Judged(s, t, verdict) != s
    ensures Less(s, Judged(s, t, verdict), t)
  {
  }

  lemma CloseNextDecreases(s: System, t: nat, c: nat)
    requires t < |s.threads| && CloseNext(s, t, c) != s
    ensures Less(s, CloseNext(s, t, c), t)
  {
    var pc := s.threads[t];
    if pc.CloseKept? { assert |pc.kept - {c}| == |pc.kept| - 1; }
    if pc.CloseEach? { assert |pc.conns - {c}| == |pc.conns| - 1; }
  }

  lemma OutsideDecreases(s: System, t: nat, move: Move)
    requires t < |s.threads| && (move.Interrupt? || move.RequestSlot? || move.SlotGranted? || move.SlotRefused?)
    requires Moved(s, t, move) != s
    ensures Less(s, Moved(s, t, move), t)
  {
  }

  /** Every move a call makes in a closed pool uses up its measure. */
  lemma MoveDecreases(s: System, t: nat, move: Move)
    requires s.p.closed && t < |s.threads| && Moved(s, t, move) != s
    ensures Less(s, Moved(s, t, move), t)
  {
    match move
    case Advance => ContinueDecreases(s, t);
    case Judge(verdict) => JudgedDecreases(s, t, verdict);
    case CloseOne(c) => CloseNextDecreases(s, t, c);
    case _ => OutsideDecreases(s, t, move);
  }

  function AllLeft(s: System): nat {
    Total(s.threads, Left)
  }

  lemma TotalDecreases(s: System, t: nat, move: Move)
    requires s.p.closed && t < |s.threads| && Moved(s, t, move) != s
    ensures AllLeft(Moved(s, t, move)) < AllLeft(s)
  {
    var s' := Moved(s, t, move);
    MoveDecreases(s, t, move);
    MovedOnly(s, t, move);
    TotalUpdate(s.threads, t, s'.threads[t], Left);
  }

  lemma {:induction false} FreshClient(known: set<nat>) returns (c: nat)
    ensures forall k :: k in known ==> k < c
    decreases known
  {
    if known == {} {
      c := 0;
    } else {
      var k :| k in known;
      var d := FreshClient(known - {k});
      c := if k < d then d else k + 1;
      forall j | j in known ensures j < c {
        assert j == k || j in known - {k};
      }
    }
  }

  /** A move that a call can make, whatever it is doing. */
  ghost function Proposed(pc: Pc, client: nat): Move {
    match pc
    case CheckHealth(_) => Judge(Good)
    case Connecting(_) => Judge(Good)
    case Inspect(_) => Judge(Good)
    case Scan(rest, _) => if rest == [] then Advance else Judge(Good)
    case NeedClient => RequestSlot(client)
    case AwaitSlot(_) => SlotRefused
    case CloseKept(conns) => if conns == {} then Advance else CloseOne(Pick(conns))
    case CloseEach(conns) => if conns == {} then Advance else CloseOne(Pick(conns))
    case _ => Advance
  }

  ghost function Pick(conns: set<nat>): (c: nat)
    requires conns != {}
    ensures c in conns
  {
    var c :| c in conns; c
  }

  /** No call is stuck in a closed pool; one that waits for a permit finds one. */
  lemma NextMove(s: System, t: nat) returns (move: Move)
    requires s.p.closed && Ledger(s) && t < |s.threads| && !s.threads[t].Done?
    ensures !move.Interrupt? && Moved(s, t, move) != s
  {
    TotalAtLeast(s.threads, t, Blocked);
    var client := FreshClient(s.known);
    move := Proposed(s.threads[t], client);
    ProposedMoves(s, t, client);
  }

  lemma ProposedMoves(s: System, t: nat, client: nat)
    requires t < |s.threads| && !s.threads[t].Done? && client !in s.known
    requires s.threads[t].WaitPermit? ==> s.p.permits > 0
    ensures Moved(s, t, Proposed(s.threads[t], client)) != s
  {
    assert Moved(s, t, Proposed(s.threads[t], client)).threads[t] != s.threads[t];
  }

  /** Every call has returned, one of them from close_all. */
  ghost predicate Settled(s: System) {
    && (forall i :: 0 <= i < |s.threads| ==> s.threads[i].Done?)
    && (exists i :: 0 <= i < |s.threads| && s.threads[i] == Done(ClosedAll))
  }

  ghost predicate HasCloser(s: System) {
    exists i :: 0 <= i < |s.threads| && IsCloser(s.threads[i])
  }

  lemma CloserStays(s: System, t: nat, move: Move)
    requires t < |s.threads| && IsCloser(s.threads[t])
    ensures |Moved(s, t, move).threads| == |s.threads| && IsCloser(Moved(s, t, move).threads[t])
  {
  }

  lemma StillCloser(s: System, t: nat, move: Move)
    requires t < |s.threads| && HasCloser(s)
    ensures HasCloser(Moved(s, t, move))
  {
    var i :| 0 <= i < |s.threads| && IsCloser(s.threads[i]);
    MovedOnly(s, t, move);
    if i == t { CloserStays(s, t, move); }
    assert IsCloser(Moved(s, t, move).threads[i]);
  }

  lemma {:induction false} Settles(s: System) returns (actions: seq<Action>)
    requires s.p.closed && Own(s) && Ledger(s) && HasCloser(s)
    ensures Settled(Exec(s, actions))
    ensures forall i :: 0 <= i < |actions| ==> actions[i].On? && !actions[i].move.Interrupt?
    decreases AllLeft(s)
  {
    if t: nat :| t < |s.threads| && !s.threads[t].Done? {
      var move := NextMove(s, t);
      var a := On(t, move);
      TotalDecreases(s, t, move);
      StepOwn(s, a);
      StepLedger(s, a);
      StillCloser(s, t, move);
      ClosedStep(s, a);
      var rest := Settles(Step(s, a));
      actions := [a] + rest;
      assert actions[1..] == rest;
    } else {
      actions := [];
    }
  }

  /** From every reachable state of a pool, whoever is in the middle of a call: once
      close_all is called, every call returns without being interrupted, close_all among
      them; and no run of the calls goes on for longer than `AllLeft` moves. */
  lemma CloseSettles(max: nat, before: seq<Action>) returns (actions: seq<Action>)
    ensures Settled(Exec(Step(Exec(Start(max), before), CallCloseAll), actions))
    ensures forall i :: 0 <= i < |actions| ==> actions[i].On? && !actions[i].move.Interrupt?
  {
    var s := Exec(Start(max), before);
    ExecLedger(Start(max), before);
    StepOwn(s, CallCloseAll);
    StepLedger(s, CallCloseAll);
    var s' := Step(s, CallCloseAll);
    assert IsCloser(s'.threads[|s.threads|]);
    actions := Settles(s');
  }
}
