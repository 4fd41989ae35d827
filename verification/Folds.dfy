/** Sums over the threads of a transition system.

A thread table is a sequence of program counters. An invariant counts threads ("submitters
between the increment and the push") or weighs the jobs they carry; either way it is a sum that
changes only through the one entry that a step rewrites. */
module Folds {

  /** The weight of the first n entries. */
  ghost function Prefix<A>(s: seq<A>, n: nat, f: A -> int): int
    requires n <= |s|
  {
    if n == 0 then 0 else Prefix(s, n - 1, f) + f(s[n - 1])
  }

  /** The sum of a weight over a sequence. */
  ghost function Sum<A>(s: seq<A>, f: A -> int): int {
    Prefix(s, |s|, f)
  }

  /** Prefixes that agree on the first n weights agree on their sum. */
  lemma {:induction false} PrefixSame<A>(a: seq<A>, b: seq<A>, n: nat, f: A -> int)
    requires n <= |a| && n <= |b| && forall i :: 0 <= i < n ==> f(a[i]) == f(b[i])
    ensures Prefix(a, n, f) == Prefix(b, n, f)
  {
    if n != 0 { PrefixSame(a, b, n - 1, f); }
  }

  /** Two tables with the same weights have the same sum. */
  lemma SumSame<A>(a: seq<A>, b: seq<A>, f: A -> int)
    requires |a| == |b| && forall i :: 0 <= i < |a| ==> f(a[i]) == f(b[i])
    ensures Sum(a, f) == Sum(b, f)
  {
    PrefixSame(a, b, |a|, f);
  }

  lemma {:induction false} PrefixUpdate<A>(s: seq<A>, i: nat, x: A, n: nat, f: A -> int)
    requires i < n <= |s|
    ensures Prefix(s[i := x], n, f) == Prefix(s, n, f) - f(s[i]) + f(x)
  {
    if n == i + 1 {
      PrefixSame(s[i := x], s, i, f);
    } else {
      PrefixUpdate(s, i, x, n - 1, f);
    }
  }

  /** Rewriting entry i changes the sum by the difference of the two weights. */
  lemma SumUpdate<A>(s: seq<A>, i: nat, x: A, f: A -> int)
    requires i < |s|
    ensures Sum(s[i := x], f) == Sum(s, f) - f(s[i]) + f(x)
  {
    PrefixUpdate(s, i, x, |s|, f);
  }

  /** Appending an entry adds its weight. */
  lemma SumPush<A>(s: seq<A>, x: A, f: A -> int)
    ensures Sum(s + [x], f) == Sum(s, f) + f(x)
  {
    PrefixSame(s + [x], s, |s|, f);
  }

  lemma {:induction false} PrefixPop<A>(s: seq<A>, n: nat, f: A -> int)
    requires 0 < n <= |s|
    ensures Prefix(s, n, f) == f(s[0]) + Prefix(s[1..], n - 1, f)
  {
    if n == 1 {
      assert Prefix(s, 1, f) == Prefix(s, 0, f) + f(s[0]);
    } else {
      PrefixPop(s, n - 1, f);
    }
  }

  /** Removing the front entry removes its weight. */
  lemma SumPop<A>(s: seq<A>, f: A -> int)
    requires s != []
    ensures Sum(s, f) == f(s[0]) + Sum(s[1..], f)
  {
    PrefixPop(s, |s|, f);
  }

  /** A sum over a concatenation is the sum of the parts. */
  lemma {:induction false} SumConcat<A>(a: seq<A>, b: seq<A>, f: A -> int)
    ensures Sum(a + b, f) == Sum(a, f) + Sum(b, f)
  {
    if b == [] {
      assert a + b == a;
    } else {
      var n := |b| - 1;
      SumConcat(a, b[..n], f);
      assert a + b == (a + b[..n]) + [b[n]];
      assert b == b[..n] + [b[n]];
      SumPush(a + b[..n], b[n], f);
      SumPush(b[..n], b[n], f);
    }
  }

  /** A table whose entries all weigh nothing sums to nothing. */
  lemma {:induction false} PrefixZero<A>(s: seq<A>, n: nat, f: A -> int)
    requires n <= |s| && forall i :: 0 <= i < n ==> f(s[i]) == 0
    ensures Prefix(s, n, f) == 0
  {
    if n != 0 { PrefixZero(s, n - 1, f); }
  }

  lemma SumZero<A>(s: seq<A>, f: A -> int)
    requires forall i :: 0 <= i < |s| ==> f(s[i]) == 0
    ensures Sum(s, f) == 0
  {
    PrefixZero(s, |s|, f);
  }

  lemma {:induction false} PrefixBounds<A>(s: seq<A>, n: nat, f: A -> int)
    requires n <= |s| && forall i :: 0 <= i < n ==> 0 <= f(s[i]) <= 1
    ensures 0 <= Prefix(s, n, f) <= n
  {
    if n != 0 { PrefixBounds(s, n - 1, f); }
  }

  /** A count of threads lies between zero and the size of the table. */
  lemma CountBounds<A>(s: seq<A>, f: A -> int)
    requires forall i :: 0 <= i < |s| ==> 0 <= f(s[i]) <= 1
    ensures 0 <= Sum(s, f) <= |s|
  {
    PrefixBounds(s, |s|, f);
  }

  /** One uncounted thread keeps the count below the size of the table. */
  lemma {:induction false} PrefixBelow<A>(s: seq<A>, i: nat, n: nat, f: A -> int)
    requires i < n <= |s| && forall i :: 0 <= i < n ==> 0 <= f(s[i]) <= 1
    requires f(s[i]) == 0
    ensures 0 <= Prefix(s, n, f) < n
  {
    if n == i + 1 { PrefixBounds(s, i, f); } else { PrefixBelow(s, i, n - 1, f); }
  }

  lemma CountBelow<A>(s: seq<A>, i: nat, f: A -> int)
    requires forall i :: 0 <= i < |s| ==> 0 <= f(s[i]) <= 1
    requires i < |s| && f(s[i]) == 0
    ensures 0 <= Sum(s, f) < |s|
  {
    PrefixBelow(s, i, |s|, f);
  }

  /** One counted thread keeps the count positive. */
  lemma CountAbove<A>(s: seq<A>, i: nat, f: A -> int)
    requires forall i :: 0 <= i < |s| ==> 0 <= f(s[i]) <= 1
    requires i < |s| && f(s[i]) == 1
    ensures 1 <= Sum(s, f) <= |s|
  {
    PrefixAbove(s, i, |s|, f);
  }

  lemma {:induction false} PrefixAbove<A>(s: seq<A>, i: nat, n: nat, f: A -> int)
    requires i < n <= |s| && forall i :: 0 <= i < n ==> 0 <= f(s[i]) <= 1
    requires f(s[i]) == 1
    ensures 1 <= Prefix(s, n, f) <= n
  {
    if n == i + 1 { PrefixBounds(s, i, f); } else { PrefixAbove(s, i, n - 1, f); }
  }

  lemma {:induction false} PrefixPlus<A>(s: seq<A>, n: nat, f: A -> int, g: A -> int, h: A -> int)
    requires n <= |s| && forall i :: 0 <= i < n ==> h(s[i]) == f(s[i]) + g(s[i])
    ensures Prefix(s, n, h) == Prefix(s, n, f) + Prefix(s, n, g)
  {
    if n != 0 { PrefixPlus(s, n - 1, f, g, h); }
  }

  /** The sum of a sum of weights. */
  lemma SumPlus<A>(s: seq<A>, f: A -> int, g: A -> int, h: A -> int)
    requires forall i :: 0 <= i < |s| ==> h(s[i]) == f(s[i]) + g(s[i])
    ensures Sum(s, h) == Sum(s, f) + Sum(s, g)
  {
    PrefixPlus(s, |s|, f, g, h);
  }

  lemma {:induction false} PrefixAtMost<A>(s: seq<A>, n: nat, f: A -> int, g: A -> int)
    requires n <= |s| && forall i :: 0 <= i < n ==> f(s[i]) <= g(s[i])
    ensures Prefix(s, n, f) <= Prefix(s, n, g)
  {
    if n != 0 { PrefixAtMost(s, n - 1, f, g); }
  }

  /** A smaller weight has a smaller sum. */
  lemma SumAtMost<A>(s: seq<A>, f: A -> int, g: A -> int)
    requires forall i :: 0 <= i < |s| ==> f(s[i]) <= g(s[i])
    ensures Sum(s, f) <= Sum(s, g)
  {
    PrefixAtMost(s, |s|, f, g);
  }
}
