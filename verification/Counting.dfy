/** Weighted totals over sequences: the counting arguments of the state machines
    are stated with `Total(threads, weight)`, where a weight says how many slots,
    permits or connections one thread (or pool, or call) accounts for. */
module Counting {

  function Total<T>(items: seq<T>, weight: T -> nat): nat
  {
    if |items| == 0 then 0
    else Total(items[..|items| - 1], weight) + weight(items[|items| - 1])
  }

  lemma TotalAppend<T>(items: seq<T>, x: T, weight: T -> nat)
    ensures Total(items + [x], weight) == Total(items, weight) + weight(x)
  {
    assert (items + [x])[..|items|] == items;
  }

  lemma {:induction false} TotalPop<T>(items: seq<T>, weight: T -> nat)
    requires items != []
    ensures Total(items, weight) == weight(items[0]) + Total(items[1..], weight)
  {
    var n := |items| - 1;
    if n > 0 {
      TotalPop(items[..n], weight);
      assert items[1..][..n - 1] == items[..n][1..];
    }
  }

  lemma {:induction false} TotalUpdate<T>(items: seq<T>, i: nat, x: T, weight: T -> nat)
    requires i < |items|
    ensures Total(items[i := x], weight) == Total(items, weight) - weight(items[i]) + weight(x)
  {
    var n := |items| - 1;
    if i == n {
      assert items[i := x][..n] == items[..n];
    } else {
      assert items[i := x][..n] == items[..n][i := x];
      TotalUpdate(items[..n], i, x, weight);
    }
  }

  lemma {:induction false} TotalAtLeast<T>(items: seq<T>, i: nat, weight: T -> nat)
    requires i < |items|
    ensures weight(items[i]) <= Total(items, weight)
  {
    var n := |items| - 1;
    if i != n {
      TotalAtLeast(items[..n], i, weight);
    }
  }

  lemma {:induction false} TotalAtLeastTwo<T>(items: seq<T>, i: nat, j: nat, weight: T -> nat)
    requires i < j < |items|
    ensures weight(items[i]) + weight(items[j]) <= Total(items, weight)
  {
    var n := |items| - 1;
    if j == n {
      assert items[..n][i] == items[i];
      TotalAtLeast(items[..n], i, weight);
    } else {
      TotalAtLeastTwo(items[..n], i, j, weight);
    }
  }

  lemma {:induction false} TotalMonotone<T>(items: seq<T>, small: T -> nat, large: T -> nat)
    requires forall i :: 0 <= i < |items| ==> small(items[i]) <= large(items[i])
    ensures Total(items, small) <= Total(items, large)
  {
    if |items| > 0 {
      var front := items[..|items| - 1];
      forall i | 0 <= i < |front| ensures small(front[i]) <= large(front[i]) {
        assert front[i] == items[i];
      }
      TotalMonotone(front, small, large);
    }
  }

  /** A total is positive exactly when some item has a positive weight. */
  lemma {:induction false} TotalPositive<T>(items: seq<T>, weight: T -> nat)
    ensures Total(items, weight) > 0 <==> exists i :: 0 <= i < |items| && weight(items[i]) > 0
  {
    if |items| > 0 {
      var front := items[..|items| - 1];
      TotalPositive(front, weight);
      if Total(front, weight) > 0 {
        var i :| 0 <= i < |front| && weight(front[i]) > 0;
        assert weight(items[i]) > 0;
      } else {
        forall i | 0 <= i < |front| ensures weight(items[i]) == 0 {
          assert front[i] == items[i];
        }
      }
    }
  }
}
