/** Adding up sequences of numbers. */
module Sums {
  function Sum(items: seq<int>): int
  {
    if items == [] then 0 else Sum(items[..|items| - 1]) + items[|items| - 1]
  }

  lemma SumOfNothing()
    ensures Sum([]) == 0
  {
  }

  lemma SumOneMore(items: seq<int>, n: int)
    ensures Sum(items + [n]) == Sum(items) + n
  {
    assert (items + [n])[..|items|] == items;
  }

  lemma {:induction false} SumSplits(a: seq<int>, b: seq<int>)
    ensures Sum(a + b) == Sum(a) + Sum(b)
  {
    if b == [] {
      assert a + b == a;
    } else {
      var n := |b| - 1;
      SumSplits(a, b[..n]);
      assert (a + b)[..|a + b| - 1] == a + b[..n];
    }
  }

  lemma {:induction false} SumWithout(items: seq<int>, i: nat)
    requires i < |items|
    ensures Sum(items[i := 0]) + items[i] == Sum(items)
  {
    var n := |items| - 1;
    if i == n {
      assert items[i := 0][..n] == items[..n];
    } else {
      SumWithout(items[..n], i);
      assert items[i := 0][..n] == items[..n][i := 0];
    }
  }

  lemma {:induction false} SumOfPositives(items: seq<int>)
    requires forall i :: 0 <= i < |items| ==> items[i] > 0
    ensures Sum(items) >= 0 && (Sum(items) == 0 ==> items == [])
  {
    if items != [] {
      SumOfPositives(items[..|items| - 1]);
    }
  }

  lemma {:induction false} SumAtLeast(items: seq<nat>, i: nat)
    requires i < |items|
    ensures Sum(items) >= items[i]
  {
    var n := |items| - 1;
    SumOfNaturals(items[..n]);
    if i < n {
      SumAtLeast(items[..n], i);
    }
  }

  lemma {:induction false} SumOfNaturals(items: seq<nat>)
    ensures Sum(items) >= 0
  {
    if items != [] {
      SumOfNaturals(items[..|items| - 1]);
    }
  }
}
