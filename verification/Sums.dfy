/** Finite sums over a sequence, and how they move when one element changes. */
module Sums {

  function Sum<T>(xs: seq<T>, f: T -> int): int {
    if xs == [] then 0 else Sum(xs[..|xs| - 1], f) + f(xs[|xs| - 1])
  }

  lemma SumAppend<T>(xs: seq<T>, x: T, f: T -> int)
    ensures Sum(xs + [x], f) == Sum(xs, f) + f(x)
  {
    assert (xs + [x])[..|xs|] == xs;
  }

  lemma {:induction false} SumUpdate<T>(xs: seq<T>, i: nat, x: T, f: T -> int)
    requires i < |xs|
    ensures Sum(xs[i := x], f) == Sum(xs, f) - f(xs[i]) + f(x)
  {
    var last := |xs| - 1;
    if i == last {
      assert xs[i := x][..last] == xs[..last];
    } else {
      SumUpdate(xs[..last], i, x, f);
      assert xs[i := x][..last] == xs[..last][i := x];
    }
  }

  lemma {:induction false} SumConcat<T>(xs: seq<T>, ys: seq<T>, f: T -> int)
    ensures Sum(xs + ys, f) == Sum(xs, f) + Sum(ys, f)
  {
    if ys == [] {
      assert xs + ys == xs;
    } else {
      var last := |ys| - 1;
      SumConcat(xs, ys[..last], f);
      assert (xs + ys)[..|xs + ys| - 1] == xs + ys[..last];
    }
  }

  /** Sums compare as their terms do. */
  lemma {:induction false} SumMono<T>(xs: seq<T>, f: T -> int, g: T -> int)
    requires forall x :: x in xs ==> f(x) <= g(x)
    ensures Sum(xs, f) <= Sum(xs, g)
  {
    if xs != [] {
      SumMono(xs[..|xs| - 1], f, g);
    }
  }

  lemma {:induction false} SumZero<T>(xs: seq<T>, f: T -> int)
    requires forall x :: x in xs ==> f(x) == 0
    ensures Sum(xs, f) == 0
  {
    if xs != [] {
      SumZero(xs[..|xs| - 1], f);
    }
  }

  /** With no negative terms, one term is at most the sum. */
  lemma {:induction false} SumAtLeast<T>(xs: seq<T>, i: nat, f: T -> int)
    requires i < |xs|
    requires forall x :: x in xs ==> 0 <= f(x)
    ensures f(xs[i]) <= Sum(xs, f)
  {
    var last := |xs| - 1;
    if i == last {
      SumMono(xs[..last], (x: T) => 0, f);
      SumZero(xs[..last], (x: T) => 0);
    } else {
      SumAtLeast(xs[..last], i, f);
    }
  }

  /** With no negative terms, two different terms are at most the sum together. */
  lemma {:induction false} SumAtLeastTwo<T>(xs: seq<T>, i: nat, j: nat, f: T -> int)
    requires i < j < |xs|
    requires forall x :: x in xs ==> 0 <= f(x)
    ensures f(xs[i]) + f(xs[j]) <= Sum(xs, f)
  {
    var last := |xs| - 1;
    if j == last {
      SumAtLeast(xs[..last], i, f);
    } else {
      SumAtLeastTwo(xs[..last], i, j, f);
    }
  }

  lemma {:induction false} SumAdd<T>(xs: seq<T>, f: T -> int, g: T -> int, h: T -> int)
    requires forall x :: x in xs ==> h(x) == f(x) + g(x)
    ensures Sum(xs, h) == Sum(xs, f) + Sum(xs, g)
  {
    if xs != [] {
      SumAdd(xs[..|xs| - 1], f, g, h);
    }
  }

  /** Two terms that differ at one place only. */
  lemma {:induction false} SumDiffersAt<T>(xs: seq<T>, i: nat, f: T -> int, g: T -> int)
    requires i < |xs|
    requires forall j: nat :: j < |xs| && j != i ==> f(xs[j]) == g(xs[j])
    ensures Sum(xs, f) - Sum(xs, g) == f(xs[i]) - g(xs[i])
  {
    var last := |xs| - 1;
    if i == last {
      SumMono(xs[..last], f, g);
      SumMono(xs[..last], g, f);
    } else {
      SumDiffersAt(xs[..last], i, f, g);
    }
  }

  /** Terms of 0 and 1 that sum to one: exactly one of them is 1. */
  lemma {:induction false} SumIsOne<T>(xs: seq<T>, f: T -> int) returns (i: nat)
    requires forall x :: x in xs ==> 0 <= f(x)
    requires Sum(xs, f) == 1
    ensures i < |xs| && f(xs[i]) == 1
    ensures forall j: nat :: j < |xs| && j != i ==> f(xs[j]) == 0
  {
    var last := |xs| - 1;
    if f(xs[last]) == 0 {
      i := SumIsOne(xs[..last], f);
    } else {
      SumMono(xs[..last], (x: T) => 0, f);
      SumZero(xs[..last], (x: T) => 0);
      i := last;
      forall j: nat | j < last ensures f(xs[j]) == 0 {
        SumAtLeast(xs[..last], j, f);
      }
    }
  }

  lemma Parts<T>(ys: seq<T>, i: nat)
    requires i < |ys|
    ensures ys == ys[..i] + ([ys[i]] + ys[i + 1..])
  {}

  lemma SumWithout<T>(ys: seq<T>, i: nat, f: T -> int)
    requires i < |ys|
    ensures Sum(ys, f) == Sum(ys[..i] + ys[i + 1..], f) + f(ys[i])
    ensures multiset(ys[..i] + ys[i + 1..]) == multiset(ys) - multiset{ys[i]}
  {
    Parts(ys, i);
    var a, x, b := ys[..i], ys[i], ys[i + 1..];
    SumAround(a, x, b, f);
    assert multiset(a + ([x] + b)) == multiset(a) + multiset{x} + multiset(b);
  }

  lemma SumAround<T>(a: seq<T>, x: T, b: seq<T>, f: T -> int)
    ensures Sum(a + ([x] + b), f) == Sum(a + b, f) + f(x)
  {
    SumConcat(a, [x] + b, f);
    SumConcat([x], b, f);
    SumConcat(a, b, f);
    assert [x] == [] + [x];
    SumAppend([], x, f);
  }

  /** A sum does not depend on the order of its terms. */
  lemma {:induction false} SumPermutation<T>(xs: seq<T>, ys: seq<T>, f: T -> int)
    requires multiset(xs) == multiset(ys)
    ensures Sum(xs, f) == Sum(ys, f)
  {
    if xs == [] {
      assert |multiset(ys)| == 0;
    } else {
      var last := |xs| - 1;
      SumWithout(xs, last, f);
      assert xs[..last] + xs[last + 1..] == xs[..last];
      assert xs[last] in multiset(ys);
      var i: nat :| i < |ys| && ys[i] == xs[last];
      SumWithout(ys, i, f);
      SumPermutation(xs[..last], ys[..i] + ys[i + 1..], f);
    }
  }
}
