/** Multisets gathered from the elements of a sequence: the tasks held by a row of threads,
    the entries held by a row of running jobs. */
module Bags {

  ghost function Gather<A, B>(xs: seq<A>, f: A -> multiset<B>): (bag: multiset<B>)
  {
    if xs == [] then multiset{} else Gather(xs[..|xs| - 1], f) + f(xs[|xs| - 1])
  }

  lemma {:induction false} GatherConcat<A, B>(xs: seq<A>, ys: seq<A>, f: A -> multiset<B>)
    ensures Gather(xs + ys, f) == Gather(xs, f) + Gather(ys, f)
  {
    if ys == [] {
      assert xs + ys == xs;
    } else {
      var init := ys[..|ys| - 1];
      assert (xs + ys)[..|xs + ys| - 1] == xs + init;
      GatherConcat(xs, init, f);
    }
  }

  lemma GatherOne<A, B>(x: A, f: A -> multiset<B>)
    ensures Gather([x], f) == f(x)
  {
    assert [x][..0] == [];
  }

  lemma GatherAppend<A, B>(xs: seq<A>, x: A, f: A -> multiset<B>)
    ensures Gather(xs + [x], f) == Gather(xs, f) + f(x)
  {
    GatherConcat(xs, [x], f);
    GatherOne(x, f);
  }

  lemma GatherFront<A, B>(xs: seq<A>, f: A -> multiset<B>)
    requires xs != []
    ensures Gather(xs, f) == f(xs[0]) + Gather(xs[1..], f)
  {
    assert xs == [xs[0]] + xs[1..];
    GatherConcat([xs[0]], xs[1..], f);
    GatherOne(xs[0], f);
  }

  /** Replacing one element replaces its share of the bag and nothing else. */
  lemma GatherUpdate<A, B>(xs: seq<A>, i: nat, x: A, f: A -> multiset<B>) returns (rest: multiset<B>)
    requires i < |xs|
    ensures Gather(xs, f) == rest + f(xs[i])
    ensures Gather(xs[i := x], f) == rest + f(x)
  {
    rest := Gather(xs[..i], f) + Gather(xs[i + 1..], f);
    forall y | y == xs[i] || y == x
      ensures Gather(xs[i := y], f) == rest + f(y)
    {
      assert xs[i := y] == xs[..i] + ([y] + xs[i + 1..]);
      GatherConcat(xs[..i], [y] + xs[i + 1..], f);
      GatherConcat([y], xs[i + 1..], f);
      GatherOne(y, f);
    }
    assert xs[i := xs[i]] == xs;
  }

  lemma {:induction false} GatherNothing<A, B>(xs: seq<A>, f: A -> multiset<B>)
    requires forall x :: x in xs ==> f(x) == multiset{}
    ensures Gather(xs, f) == multiset{}
  {
    if xs != [] {
      GatherNothing(xs[..|xs| - 1], f);
    }
  }

  /** No more can be gathered than one item from each element. */
  lemma {:induction false} GatherAtMostOneEach<A, B>(xs: seq<A>, f: A -> multiset<B>)
    requires forall x :: x in xs ==> |f(x)| <= 1
    ensures |Gather(xs, f)| <= |xs|
  {
    if xs != [] {
      GatherAtMostOneEach(xs[..|xs| - 1], f);
    }
  }

  /** If nothing is gathered, no element contributes. */
  lemma GatherEmptyMeansNone<A, B>(xs: seq<A>, f: A -> multiset<B>)
    requires Gather(xs, f) == multiset{}
    ensures forall i :: 0 <= i < |xs| ==> f(xs[i]) == multiset{}
  {
    forall i | 0 <= i < |xs|
      ensures f(xs[i]) == multiset{}
    {
      var rest := GatherUpdate(xs, i, xs[i], f);
      assert f(xs[i]) <= Gather(xs, f);
    }
  }

  /** The size of a gathered bag after one element is replaced. */
  lemma GatherUpdateSize<A, B>(xs: seq<A>, i: nat, x: A, f: A -> multiset<B>)
    requires i < |xs|
    ensures |Gather(xs[i := x], f)| == |Gather(xs, f)| - |f(xs[i])| + |f(x)|
    ensures |f(xs[i])| <= |Gather(xs, f)|
  {
    var rest := GatherUpdate(xs, i, x, f);
    assert |rest + f(xs[i])| == |rest| + |f(xs[i])|;
    assert |rest + f(x)| == |rest| + |f(x)|;
  }

  lemma MultisetAppend<B>(xs: seq<B>, x: B)
    ensures multiset(xs + [x]) == multiset(xs) + multiset{x}
  {
  }

  lemma MultisetFront<B>(xs: seq<B>)
    requires xs != []
    ensures multiset(xs) == multiset{xs[0]} + multiset(xs[1..])
  {
    assert xs == [xs[0]] + xs[1..];
  }

  // Moving `x` from one summand to another leaves a sum unchanged.

  lemma MoveToFourth<B>(a: multiset<B>, b: multiset<B>, c: multiset<B>, d: multiset<B>, x: multiset<B>)
    ensures a + b + (c + x) + d == a + b + c + (d + x)
  {
  }

  lemma MoveToThird<B>(a: multiset<B>, b: multiset<B>, c: multiset<B>, d: multiset<B>, x: multiset<B>)
    ensures a + (x + b) + c + d == a + b + (c + x) + d
  {
  }

  lemma MoveToSecond<B>(a: multiset<B>, b: multiset<B>, c: multiset<B>, d: multiset<B>, x: multiset<B>)
    ensures (a + x) + b + c + d == a + (b + x) + c + d
    ensures (a + x) + b == a + (b + x)
  {
  }

  lemma AddToFirst<B>(a: multiset<B>, b: multiset<B>, c: multiset<B>, d: multiset<B>, x: multiset<B>)
    ensures (a + x) + b + c + d == a + b + c + d + x
    ensures (a + x) + b == a + b + x
  {
  }

  /** If one summand already covers the whole, the others are empty. */
  lemma OthersEmpty<B>(whole: multiset<B>, a: multiset<B>, b: multiset<B>, c: multiset<B>, d: multiset<B>)
    requires whole == a + b + c + d && whole <= d
    ensures a == b == c == multiset{} && d == whole
  {
    forall x
      ensures a[x] == 0 && b[x] == 0 && c[x] == 0
    {
      assert whole[x] == a[x] + b[x] + c[x] + d[x];
      assert whole[x] <= d[x];
    }
  }
}
