/** Sums of multisets along a sequence: how the proofs count the tasks held by
    a queue, a log or a set of threads. */
module Bags {

  function Sum<T, U>(xs: seq<T>, bag: T -> multiset<U>): multiset<U> {
    if xs == [] then multiset{} else Sum(xs[..|xs| - 1], bag) + bag(xs[|xs| - 1])
  }

  lemma SumAppend<T, U>(xs: seq<T>, x: T, bag: T -> multiset<U>)
    ensures Sum(xs + [x], bag) == Sum(xs, bag) + bag(x)
  {
    assert (xs + [x])[..|xs|] == xs;
  }

  lemma {:induction false} SumConcat<T, U>(a: seq<T>, b: seq<T>, bag: T -> multiset<U>)
    ensures Sum(a + b, bag) == Sum(a, bag) + Sum(b, bag)
    decreases |b|
  {
    if b == [] {
      assert a + b == a;
    } else {
      var init, last := b[..|b| - 1], b[|b| - 1];
      SumConcat(a, init, bag);
      assert a + b == a + init + [last];
      SumAppend(a + init, last, bag);
    }
  }

  /** Replacing one element. */
  lemma {:induction false} SumUpdate<T, U>(xs: seq<T>, i: nat, x: T, bag: T -> multiset<U>)
    requires i < |xs|
    ensures Sum(xs[i := x], bag) + bag(xs[i]) == Sum(xs, bag) + bag(x)
    decreases |xs|
  {
    var n := |xs| - 1;
    var init := xs[..n];
    if i == n {
      assert xs[i := x][..n] == init;
    } else {
      SumUpdate(init, i, x, bag);
      var updated := xs[i := x];
      assert updated[..n] == init[i := x] && updated[n] == xs[n];
      var sum, last := Sum(init[i := x], bag), bag(xs[n]);
      assert sum + last + bag(xs[i]) == sum + bag(init[i]) + last;
      assert Sum(init, bag) + bag(x) + last == Sum(init, bag) + last + bag(x);
    }
  }

  lemma {:induction false} SumContains<T, U>(xs: seq<T>, i: nat, bag: T -> multiset<U>)
    requires i < |xs|
    ensures bag(xs[i]) <= Sum(xs, bag)
    decreases |xs|
  {
    if i < |xs| - 1 {
      SumContains(xs[..|xs| - 1], i, bag);
    }
  }

  lemma {:induction false} SumEmpty<T, U>(xs: seq<T>, bag: T -> multiset<U>)
    requires forall i :: 0 <= i < |xs| ==> bag(xs[i]) == multiset{}
    ensures Sum(xs, bag) == multiset{}
    decreases |xs|
  {
    if xs != [] {
      SumEmpty(xs[..|xs| - 1], bag);
    }
  }

  lemma Cancel<T>(a: multiset<T>, b: multiset<T>, x: multiset<T>)
    requires a + x == b + x
    ensures a == b
  {
    assert a == (a + x) - x;
    assert b == (b + x) - x;
  }

  /** One bag handed from one place to another. */
  lemma Hand<T>(from: multiset<T>, rest: multiset<T>, to: multiset<T>, x: multiset<T>)
    requires from == rest + x
    ensures from + to == rest + (to + x)
  {
  }

  /** The same within a sum of four places. */
  lemma HandInSum<T>(p: multiset<T>, l: multiset<T>, c: multiset<T>, a: multiset<T>, x: multiset<T>)
    ensures p + l + (c + x) + a == p + l + c + (a + x)
    ensures p + (l + x) + c + a == p + l + (c + x) + a
  {
  }

  lemma CancelSub<T>(a: multiset<T>, b: multiset<T>, x: multiset<T>)
    requires a + x <= b + x
    ensures a <= b
  {
    forall t | t in a
      ensures a[t] <= b[t]
    {
      assert (a + x)[t] <= (b + x)[t];
    }
  }

  // ----------------------------------------------------------------- numbers

  function Total<T>(xs: seq<T>, f: T -> nat): nat {
    if xs == [] then 0 else Total(xs[..|xs| - 1], f) + f(xs[|xs| - 1])
  }

  lemma TotalAppend<T>(xs: seq<T>, x: T, f: T -> nat)
    ensures Total(xs + [x], f) == Total(xs, f) + f(x)
  {
    assert (xs + [x])[..|xs|] == xs;
  }

  lemma {:induction false} TotalUpdate<T>(xs: seq<T>, i: nat, x: T, f: T -> nat)
    requires i < |xs|
    ensures Total(xs[i := x], f) + f(xs[i]) == Total(xs, f) + f(x)
    decreases |xs|
  {
    var n := |xs| - 1;
    if i == n {
      assert xs[i := x][..n] == xs[..n];
    } else {
      TotalUpdate(xs[..n], i, x, f);
      assert xs[i := x][..n] == xs[..n][i := x];
    }
  }
}
