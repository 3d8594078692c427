/** Sums over sequences: what a scheduler's tasks hold in total, as a multiset or as a number. */
module Bags {

  /** The sum of what each item contributes. */
  ghost function Total<A(!new), T(!new)>(items: seq<A>, f: A -> multiset<T>): multiset<T> {
    if |items| == 0 then multiset{}
    else Total(items[..|items| - 1], f) + f(items[|items| - 1])
  }

  lemma AddToBoth<T(!new)>(a: multiset<T>, b: multiset<T>, c: multiset<T>, d: multiset<T>, e: multiset<T>)
    requires a + b == c + d
    ensures a + e + b == c + e + d
  {
    assert a + e + b == (a + b) + e;
    assert c + e + d == (c + d) + e;
  }

  lemma {:induction false} TotalUpdate<A(!new), T(!new)>(items: seq<A>, i: nat, a: A, f: A -> multiset<T>)
    requires i < |items|
    ensures Total(items[i := a], f) + f(items[i]) == Total(items, f) + f(a)
  {
    var n := |items| - 1;
    if i == n {
      assert items[i := a][..n] == items[..n];
    } else {
      assert items[i := a][..n] == items[..n][i := a] && items[i := a][n] == items[n];
      TotalUpdate(items[..n], i, a, f);
      AddToBoth(Total(items[..n][i := a], f), f(items[i]), Total(items[..n], f), f(a), f(items[n]));
    }
  }

  lemma TotalSame<A(!new), T(!new)>(items: seq<A>, i: nat, a: A, f: A -> multiset<T>)
    requires i < |items| && f(a) == f(items[i])
    ensures Total(items[i := a], f) == Total(items, f)
  {
    TotalUpdate(items, i, a, f);
    assert Total(items[i := a], f) + f(a) - f(a) == Total(items[i := a], f);
    assert Total(items, f) + f(a) - f(a) == Total(items, f);
  }

  lemma TotalAppend<A(!new), T(!new)>(items: seq<A>, a: A, f: A -> multiset<T>)
    ensures Total(items + [a], f) == Total(items, f) + f(a)
  {
    assert (items + [a])[..|items|] == items;
  }

  /** Appending an item that contributes nothing. */
  lemma TotalAppendNothing<A(!new), T(!new)>(items: seq<A>, a: A, f: A -> multiset<T>)
    requires f(a) == multiset{}
    ensures Total(items + [a], f) == Total(items, f)
  {
    TotalAppend(items, a, f);
  }

  /** What one item gives up goes to the pool: pool and shares together stay the same. */
  lemma HandBack<A(!new), T(!new)>(pool: seq<T>, pool': seq<T>, items: seq<A>, i: nat, a: A, f: A -> multiset<T>)
    requires i < |items|
    requires multiset(pool') + f(a) == multiset(pool) + f(items[i])
    ensures multiset(pool') + Total(items[i := a], f) == multiset(pool) + Total(items, f)
  {
    TotalUpdate(items, i, a, f);
    var x, y := Total(items[i := a], f), Total(items, f);
    var p, q := multiset(pool), multiset(pool');
    assert (q + x) + (f(a) + f(items[i])) == (p + y) + (f(a) + f(items[i])) by {
      assert (q + x) + (f(a) + f(items[i])) == (q + f(a)) + (x + f(items[i]));
      assert (p + y) + (f(a) + f(items[i])) == (p + f(items[i])) + (y + f(a));
    }
    Cancel(q + x, p + y, f(a) + f(items[i]));
  }

  lemma Cancel<T(!new)>(a: multiset<T>, b: multiset<T>, c: multiset<T>)
    requires a + c == b + c
    ensures a == b
  {
    forall x: T
      ensures a[x] == b[x]
    {
      assert (a + c)[x] == (b + c)[x];
    }
  }

  /** An item whose share grows makes the sum grow by as much. */
  lemma TotalGain<A(!new), T(!new)>(items: seq<A>, i: nat, a: A, f: A -> multiset<T>, gain: multiset<T>)
    requires i < |items| && f(a) == f(items[i]) + gain
    ensures Total(items[i := a], f) == Total(items, f) + gain
  {
    TotalUpdate(items, i, a, f);
    var x, y, was := Total(items[i := a], f), Total(items, f), f(items[i]);
    assert x + was == (y + gain) + was by { assert y + (was + gain) == (y + gain) + was; }
    Cancel(x, y + gain, was);
  }

  lemma {:induction false} TotalPointwise<A(!new), T(!new)>(a: seq<A>, b: seq<A>, f: A -> multiset<T>)
    requires |a| == |b| && forall i :: 0 <= i < |a| ==> f(a[i]) == f(b[i])
    ensures Total(a, f) == Total(b, f)
  {
    if |a| > 0 {
      TotalPointwise(a[..|a| - 1], b[..|b| - 1], f);
    }
  }

  lemma {:induction false} TotalHas<A(!new), T(!new)>(items: seq<A>, i: nat, f: A -> multiset<T>)
    requires i < |items|
    ensures f(items[i]) <= Total(items, f)
  {
    if i < |items| - 1 {
      TotalHas(items[..|items| - 1], i, f);
    }
  }

  lemma {:induction false} TotalHasBoth<A(!new), T(!new)>(items: seq<A>, i: nat, j: nat, f: A -> multiset<T>)
    requires i < j < |items|
    ensures f(items[i]) + f(items[j]) <= Total(items, f)
  {
    var n := |items| - 1;
    if j == n {
      TotalHas(items[..n], i, f);
    } else {
      TotalHasBoth(items[..n], i, j, f);
    }
  }

  /** Whatever occurs in the sum occurs in the share of some item. */
  lemma {:induction false} TotalFind<A(!new), T(!new)>(items: seq<A>, x: T, f: A -> multiset<T>) returns (i: nat)
    requires x in Total(items, f)
    ensures i < |items| && x in f(items[i])
  {
    var n := |items| - 1;
    if x in f(items[n]) {
      i := n;
    } else {
      i := TotalFind(items[..n], x, f);
    }
  }

  /** What no item holds is not in the sum. */
  lemma {:induction false} TotalZero<A(!new), T(!new)>(items: seq<A>, x: T, f: A -> multiset<T>)
    requires forall i :: 0 <= i < |items| ==> x !in f(items[i])
    ensures x !in Total(items, f)
  {
    if |items| > 0 {
      TotalZero(items[..|items| - 1], x, f);
    }
  }

  ghost function Sum<A(!new)>(items: seq<A>, f: A -> nat): nat {
    if |items| == 0 then 0
    else Sum(items[..|items| - 1], f) + f(items[|items| - 1])
  }

  lemma {:induction false} SumUpdate<A(!new)>(items: seq<A>, i: nat, a: A, f: A -> nat)
    requires i < |items|
    ensures Sum(items[i := a], f) + f(items[i]) == Sum(items, f) + f(a)
  {
    var n := |items| - 1;
    if i == n {
      assert items[i := a][..n] == items[..n];
    } else {
      assert items[i := a][..n] == items[..n][i := a];
      SumUpdate(items[..n], i, a, f);
    }
  }

  lemma SumAppend<A(!new)>(items: seq<A>, a: A, f: A -> nat)
    ensures Sum(items + [a], f) == Sum(items, f) + f(a)
  {
    assert (items + [a])[..|items|] == items;
  }

  lemma {:induction false} SumPointwise<A(!new)>(a: seq<A>, b: seq<A>, f: A -> nat)
    requires |a| == |b| && forall i :: 0 <= i < |a| ==> f(a[i]) == f(b[i])
    ensures Sum(a, f) == Sum(b, f)
  {
    if |a| > 0 {
      SumPointwise(a[..|a| - 1], b[..|b| - 1], f);
    }
  }

  /** The first item's share, and that of the others. */
  lemma {:induction false} SumTail<A(!new)>(items: seq<A>, f: A -> nat)
    requires |items| > 0
    ensures Sum(items, f) == f(items[0]) + Sum(items[1..], f)
  {
    var n := |items| - 1;
    if n > 0 {
      SumTail(items[..n], f);
      assert items[..n][1..] == items[1..][..n - 1];
    }
  }

  lemma {:induction false} TotalTail<A(!new), T(!new)>(items: seq<A>, f: A -> multiset<T>)
    requires |items| > 0
    ensures Total(items, f) == f(items[0]) + Total(items[1..], f)
  {
    var n := |items| - 1;
    if n > 0 {
      TotalTail(items[..n], f);
      assert items[..n][1..] == items[1..][..n - 1];
    } else {
      assert items[..0] == [] && items[1..] == [];
    }
  }

  lemma {:induction false} SumZero<A(!new)>(items: seq<A>, f: A -> nat)
    ensures Sum(items, f) == 0 <==> forall i :: 0 <= i < |items| ==> f(items[i]) == 0
  {
    if |items| > 0 {
      SumZero(items[..|items| - 1], f);
      assert forall i :: 0 <= i < |items| - 1 ==> items[i] == items[..|items| - 1][i];
    }
  }

  /** Every number below n exactly once, and nothing else. */
  ghost predicate EachOnce(m: multiset<nat>, n: nat) {
    forall x: nat :: m[x] == if x < n then 1 else 0
  }

  /** The pool a constructor fills by pushing 0, 1, ..., n - 1. */
  function Ids(n: nat): (ids: seq<nat>)
    ensures |ids| == n
  {
    seq(n, i => i)
  }

  lemma {:induction false} IdsEachOnce(n: nat)
    ensures EachOnce(multiset(Ids(n)), n)
  {
    if n > 0 {
      IdsEachOnce(n - 1);
      assert Ids(n) == Ids(n - 1) + [n - 1];
    } else {
      assert Ids(0) == [];
    }
  }

  lemma HeadCounted(s: seq<nat>)
    requires |s| > 0
    ensures exists x: nat :: multiset(s)[x] > 0
  {
    assert s[0] in multiset(s);
  }

  /** A list of distinct numbers below n has at most n entries. */
  lemma {:induction false} DistinctBound(s: seq<nat>, n: nat)
    requires forall x: nat :: multiset(s)[x] <= if x < n then 1 else 0
    ensures |s| <= n
  {
    if n == 0 {
      if |s| > 0 { HeadCounted(s); }
    } else if multiset(s)[n - 1] == 0 {
      DistinctBound(s, n - 1);
    } else {
      assert n - 1 in s;
      var last: nat := n - 1;
      var i :| 0 <= i < |s| && s[i] == last;
      var r: seq<nat> := s[..i] + s[i + 1..];
      assert s == s[..i] + [s[i]] + s[i + 1..];
      assert multiset(s) == multiset(r) + multiset{last};
      forall x: nat
        ensures multiset(r)[x] <= if x < n - 1 then 1 else 0
      {
        assert multiset(s)[x] <= if x < n then 1 else 0;
      }
      DistinctBound(r, n - 1);
    }
  }
}
