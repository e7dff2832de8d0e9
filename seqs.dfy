/** Sequence helpers shared by the generators: a list built by `extend`-ing per-item lists. */
module Seqs {

  /** `[x] if b else []`: the list a guarded `append` contributes. */
  function Opt<T>(b: bool, x: T): (r: seq<T>)
    ensures |r| <= 1
  {
    if b then [x] else []
  }

  /**
   * Guarded appends of items whose ranks increase produce a list whose
   * ranks increase: the items keep the order of the appends.
   */
  lemma OptsInOrder<T>(rank: T -> nat, b0: bool, x0: T, b1: bool, x1: T, b2: bool, x2: T, b3: bool, x3: T)
    requires rank(x0) < rank(x1) < rank(x2) < rank(x3)
    ensures var r := Opt(b0, x0) + Opt(b1, x1) + Opt(b2, x2) + Opt(b3, x3);
      forall i, j :: 0 <= i < j < |r| ==> rank(r[i]) < rank(r[j])
  {
  }

  /** Appending four lists one after the other appends their concatenation. */
  lemma AppendFour<T>(s: seq<T>, a: seq<T>, b: seq<T>, c: seq<T>, d: seq<T>)
    ensures s + a + b + c + d == s + (a + b + c + d)
  {
  }

  /** The concatenation of `f(x)` over `xs`, item after item, as a loop of `extend`s builds it. */
  function FlatMap<A, B>(f: A -> seq<B>, xs: seq<A>): seq<B>
  {
    if xs == [] then [] else FlatMap(f, xs[..|xs| - 1]) + f(xs[|xs| - 1])
  }

  /** One more item extends the result by that item's list. */
  lemma FlatMapSnoc<A, B>(f: A -> seq<B>, xs: seq<A>, x: A)
    ensures FlatMap(f, xs + [x]) == FlatMap(f, xs) + f(x)
  {
    assert (xs + [x])[..|xs|] == xs;
  }

  /** The loop step: the result over the first `i + 1` items extends the one over the first `i`. */
  lemma FlatMapPrefix<A, B>(f: A -> seq<B>, xs: seq<A>, i: int)
    requires 0 <= i < |xs|
    ensures FlatMap(f, xs[..i + 1]) == FlatMap(f, xs[..i]) + f(xs[i])
  {
    assert xs[..i + 1][..i] == xs[..i];
  }

  /** Extending item by item keeps the items' order: FlatMap distributes over `+`. */
  lemma {:induction false} FlatMapAppend<A, B>(f: A -> seq<B>, xs: seq<A>, ys: seq<A>)
    ensures FlatMap(f, xs + ys) == FlatMap(f, xs) + FlatMap(f, ys)
    decreases |ys|
  {
    if ys == [] {
      assert xs + ys == xs;
    } else {
      var ys' := ys[..|ys| - 1];
      assert (xs + ys)[..|xs + ys| - 1] == xs + ys';
      FlatMapAppend(f, xs, ys');
    }
  }

  /** An item whose list is empty can be dropped wherever it stands. */
  lemma FlatMapSkip<A, B>(f: A -> seq<B>, xs: seq<A>, x: A, ys: seq<A>)
    requires f(x) == []
    ensures FlatMap(f, xs + [x] + ys) == FlatMap(f, xs + ys)
  {
    FlatMapAppend(f, xs + [x], ys);
    FlatMapSnoc(f, xs, x);
    FlatMapAppend(f, xs, ys);
  }

  /** Every element of the result comes from one item, and every item's elements are in it. */
  lemma {:induction false} FlatMapMember<A, B>(f: A -> seq<B>, xs: seq<A>, y: B)
    ensures y in FlatMap(f, xs) <==> exists i :: 0 <= i < |xs| && y in f(xs[i])
    decreases |xs|
  {
    if xs != [] {
      var n := |xs| - 1;
      var front := xs[..n];
      FlatMapMember(f, front, y);
      assert FlatMap(f, xs) == FlatMap(f, front) + f(xs[n]);
      if y in FlatMap(f, xs) {
        if y in f(xs[n]) {
          assert 0 <= n < |xs| && y in f(xs[n]);
        } else {
          var i :| 0 <= i < n && y in f(front[i]);
          assert front[i] == xs[i];
        }
      }
      if exists i :: 0 <= i < |xs| && y in f(xs[i]) {
        var i :| 0 <= i < |xs| && y in f(xs[i]);
        if i < n {
          assert front[i] == xs[i];
        }
      }
    }
  }

  /** `k * (n + 1) == k * n + k`, kept apart so that the length bound stays linear. */
  lemma MulSucc(k: nat, n: nat)
    ensures k * (n + 1) == k * n + k
  {
  }

  /** Bound on the result's length from a bound on each item's list. */
  lemma {:induction false} FlatMapLength<A, B>(f: A -> seq<B>, xs: seq<A>, k: nat)
    requires forall x :: x in xs ==> |f(x)| <= k
    ensures |FlatMap(f, xs)| <= k * |xs|
    decreases |xs|
  {
    if xs != [] {
      var n := |xs| - 1;
      var front := xs[..n];
      forall x | x in front
        ensures |f(x)| <= k
      {
        assert x in xs;
      }
      FlatMapLength(f, front, k);
      assert xs[n] in xs;
      assert |FlatMap(f, xs)| == |FlatMap(f, front)| + |f(xs[n])|;
      MulSucc(k, n);
    }
  }

  /** The items that satisfy `p`, in their original order. */
  function Filter<A>(p: A -> bool, xs: seq<A>): (r: seq<A>)
    ensures |r| <= |xs|
    ensures forall x :: x in r ==> x in xs && p(x)
  {
    if xs == [] then []
    else
      var n := |xs| - 1;
      Filter(p, xs[..n]) + Opt(p(xs[n]), xs[n])
  }

  /** Guarded appends of `g(x)` build the image of the items that pass the guard. */
  lemma {:induction false} FlatMapOptIsMapFilter<A, B>(f: A -> seq<B>, p: A -> bool, g: A -> B, xs: seq<A>)
    requires forall x :: f(x) == Opt(p(x), g(x))
    ensures |FlatMap(f, xs)| == |Filter(p, xs)|
    ensures forall i :: 0 <= i < |Filter(p, xs)| ==> FlatMap(f, xs)[i] == g(Filter(p, xs)[i])
    decreases |xs|
  {
    if xs != [] {
      var n := |xs| - 1;
      FlatMapOptIsMapFilter(f, p, g, xs[..n]);
      var front, kept := FlatMap(f, xs[..n]), Filter(p, xs[..n]);
      assert f(xs[n]) == Opt(p(xs[n]), g(xs[n]));
      assert FlatMap(f, xs) == front + Opt(p(xs[n]), g(xs[n]));
      assert Filter(p, xs) == kept + Opt(p(xs[n]), xs[n]);
      forall i | 0 <= i < |Filter(p, xs)|
        ensures FlatMap(f, xs)[i] == g(Filter(p, xs)[i])
      {
        if i < |kept| {
          assert FlatMap(f, xs)[i] == front[i];
          assert Filter(p, xs)[i] == kept[i];
        }
      }
    }
  }

  /** `[f(x) for x in xs]`. */
  function Map<A, B>(f: A -> B, xs: seq<A>): (r: seq<B>)
    ensures |r| == |xs|
    ensures forall i :: 0 <= i < |xs| ==> r[i] == f(xs[i])
    decreases |xs|
  {
    if xs == [] then []
    else
      var n := |xs| - 1;
      Map(f, xs[..n]) + [f(xs[n])]
  }

  /** Items that each contribute exactly `g(x)` build the image of the list under `g`. */
  lemma {:induction false} FlatMapSingletons<A, B>(f: A -> seq<B>, g: A -> B, xs: seq<A>)
    requires forall x :: f(x) == [g(x)]
    ensures FlatMap(f, xs) == Map(g, xs)
    decreases |xs|
  {
    if xs != [] {
      var n := |xs| - 1;
      FlatMapSingletons(f, g, xs[..n]);
      assert f(xs[n]) == [g(xs[n])];
    }
  }

  /** Items that each contribute nothing build nothing. */
  lemma {:induction false} FlatMapNothing<A, B>(f: A -> seq<B>, xs: seq<A>)
    requires forall x :: f(x) == []
    ensures FlatMap(f, xs) == []
    decreases |xs|
  {
    if xs != [] {
      FlatMapNothing(f, xs[..|xs| - 1]);
      assert f(xs[|xs| - 1]) == [];
    }
  }

  /** Appending keeps what came first in front. */
  lemma PrefixOfAppends<T>(h: seq<T>, a: seq<T>, b: seq<T>, c: seq<T>, d: seq<T>, e: seq<T>)
    ensures (h + a + b + c + d)[..|h|] == h
    ensures (h + a + b + c + d + e)[..|h|] == h
  {
  }
}
