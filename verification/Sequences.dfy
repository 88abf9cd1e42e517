/** Counting in sequences, and small facts about sequences and finite sets. */
module Sequences {

  function One(b: bool): nat {
    if b then 1 else 0
  }

  function Count(xs: seq<nat>, c: nat): nat {
    if xs == [] then 0 else One(xs[0] == c) + Count(xs[1..], c)
  }

  lemma {:induction false} CountAppend(xs: seq<nat>, ys: seq<nat>, c: nat)
    ensures Count(xs + ys, c) == Count(xs, c) + Count(ys, c)
  {
    if xs == [] {
      assert xs + ys == ys;
    } else {
      assert (xs + ys)[1..] == xs[1..] + ys;
      CountAppend(xs[1..], ys, c);
    }
  }

  lemma CountPush(xs: seq<nat>, x: nat, c: nat)
    ensures Count(xs + [x], c) == Count(xs, c) + One(x == c)
  {
    CountAppend(xs, [x], c);
    assert Count([x], c) == One(x == c) + Count([], c);
  }

  ghost predicate Distinct<T(!new)>(xs: seq<T>) {
    forall i, j :: 0 <= i < j < |xs| ==> xs[i] != xs[j]
  }

  lemma Regroup<T>(x: seq<T>, y: seq<T>, z: seq<T>)
    ensures (x + y) + z == x + (y + z)
  {
  }

  lemma SubsetSize<T>(a: set<T>, b: set<T>)
    requires a <= b
    ensures |a| <= |b| && (|a| == |b| ==> a == b)
  {
    assert b == a + (b - a);
  }
}
