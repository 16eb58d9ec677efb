/** Sums of naturals over finite sets of addresses. */
module Sums {
  import opened Types

  ghost function SumOver(f: Address -> nat, s: set<Address>): nat {
    if s == {} then 0
    else
      var x :| x in s;
      f(x) + SumOver(f, s - {x})
  }

  lemma {:induction false} SumSplits(f: Address -> nat, s: set<Address>, x: Address)
    requires x in s
    ensures SumOver(f, s) == f(x) + SumOver(f, s - {x})
    decreases s
  {
    var y :| y in s && SumOver(f, s) == f(y) + SumOver(f, s - {y});
    if y != x {
      SumSplits(f, s - {y}, x);
      SumSplits(f, s - {x}, y);
      assert s - {y} - {x} == s - {x} - {y};
    }
  }

  lemma {:induction false} SumMonotone(f: Address -> nat, g: Address -> nat, s: set<Address>)
    requires forall x :: x in s ==> f(x) <= g(x)
    ensures SumOver(f, s) <= SumOver(g, s)
    decreases s
  {
    if x :| x in s {
      SumSplits(f, s, x);
      SumSplits(g, s, x);
      SumMonotone(f, g, s - {x});
    }
  }

  lemma {:induction false} SumBounded(f: Address -> nat, s: set<Address>, bound: nat)
    requires forall x :: x in s ==> f(x) <= bound
    ensures SumOver(f, s) <= |s| * bound
    decreases s
  {
    if x :| x in s {
      SumSplits(f, s, x);
      SumBounded(f, s - {x}, bound);
      assert |s| == |s - {x}| + 1;
      OneMore(|s - {x}|, bound);
    }
  }

  lemma OneMore(n: nat, bound: nat)
    ensures (n + 1) * bound == n * bound + bound
  {
  }

  /** Changing one summand changes the sum by as much. */
  lemma SumMoves(f: Address -> nat, g: Address -> nat, s: set<Address>, x: Address)
    requires x in s && forall y :: y in s && y != x ==> g(y) == f(y)
    ensures SumOver(g, s) - g(x) == SumOver(f, s) - f(x)
  {
    SumSplits(f, s, x);
    SumSplits(g, s, x);
    SumMonotone(f, g, s - {x});
    SumMonotone(g, f, s - {x});
  }
}
