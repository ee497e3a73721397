/** Sums, selections and permutations of sequences. */
module Sequences {

  function Sum<T>(f: T -> int, xs: seq<T>): int {
    if xs == [] then 0 else f(xs[0]) + Sum(f, xs[1..])
  }

  lemma {:induction false} SumConcat<T>(f: T -> int, xs: seq<T>, ys: seq<T>)
    ensures Sum(f, xs + ys) == Sum(f, xs) + Sum(f, ys)
  {
    if xs == [] {
      assert xs + ys == ys;
    } else {
      SumConcat(f, xs[1..], ys);
      assert (xs + ys)[1..] == xs[1..] + ys;
    }
  }

  function Without<T>(xs: seq<T>, k: nat): seq<T>
    requires k < |xs|
  {
    xs[..k] + xs[k+1..]
  }

  lemma WithoutIsRemoval<T>(xs: seq<T>, k: nat)
    requires k < |xs|
    ensures multiset(Without(xs, k)) == multiset(xs) - multiset{xs[k]}
  {
    assert xs == xs[..k] + [xs[k]] + xs[k+1..];
  }

  /** Two arrangements of the same elements stay such after dropping one element from both. */
  lemma MatchFirst<T>(xs: seq<T>, ys: seq<T>) returns (k: nat)
    requires xs != [] && multiset(xs) == multiset(ys)
    ensures k < |ys| && ys[k] == xs[0]
    ensures multiset(xs[1..]) == multiset(Without(ys, k))
  {
    assert xs[0] in multiset(ys);
    k :| 0 <= k < |ys| && ys[k] == xs[0];
    WithoutIsRemoval(xs, 0);
    WithoutIsRemoval(ys, k);
    assert Without(xs, 0) == xs[1..];
  }

  lemma SumWithout<T>(f: T -> int, xs: seq<T>, k: nat)
    requires k < |xs|
    ensures Sum(f, xs) == f(xs[k]) + Sum(f, Without(xs, k))
  {
    SumConcat(f, xs[..k], xs[k+1..]);
    SumConcat(f, xs[..k], xs[k..]);
    assert xs[..k] + xs[k..] == xs;
  }

  /** A sum does not see the order of its terms. */
  lemma {:induction false} SumIgnoresOrder<T>(f: T -> int, xs: seq<T>, ys: seq<T>)
    requires multiset(xs) == multiset(ys)
    ensures Sum(f, xs) == Sum(f, ys)
  {
    if xs == [] {
      assert |ys| == |multiset(ys)| == 0;
    } else {
      var k := MatchFirst(xs, ys);
      SumIgnoresOrder(f, xs[1..], Without(ys, k));
      SumWithout(f, ys, k);
    }
  }

  function Filter<T(!new)>(p: T -> bool, xs: seq<T>): (r: seq<T>)
    ensures forall x :: x in r <==> x in xs && p(x)
  {
    if xs == [] then []
    else
      var last := xs[|xs| - 1];
      var init := Filter(p, xs[..|xs| - 1]);
      assert xs == xs[..|xs| - 1] + [last];
      if p(last) then init + [last] else init
  }

  lemma FilterSnoc<T(!new)>(p: T -> bool, xs: seq<T>, x: T)
    ensures Filter(p, xs + [x]) == if p(x) then Filter(p, xs) + [x] else Filter(p, xs)
  {
    assert (xs + [x])[..|xs|] == xs;
  }

  lemma Associative<T>(a: seq<T>, b: seq<T>, c: seq<T>)
    ensures a + (b + c) == (a + b) + c
  {
  }

  lemma {:induction false} FilterConcat<T(!new)>(p: T -> bool, xs: seq<T>, ys: seq<T>)
    ensures Filter(p, xs + ys) == Filter(p, xs) + Filter(p, ys)
  {
    if ys == [] {
      assert xs + ys == xs;
    } else {
      var init, last := ys[..|ys| - 1], ys[|ys| - 1];
      FilterConcat(p, xs, init);
      Associative(xs, init, [last]);
      FilterSnoc(p, xs + init, last);
      FilterSnoc(p, init, last);
      Associative(Filter(p, xs), Filter(p, init), [last]);
      assert ys == init + [last];
    }
  }

  function Map<T, U>(f: T -> U, xs: seq<T>): (r: seq<U>)
    ensures |r| == |xs| && forall i :: 0 <= i < |xs| ==> r[i] == f(xs[i])
  {
    seq(|xs|, i requires 0 <= i < |xs| => f(xs[i]))
  }

  lemma MapSnoc<T, U>(f: T -> U, xs: seq<T>, x: T)
    ensures Map(f, xs + [x]) == Map(f, xs) + [f(x)]
  {
  }

  /** An element of one arrangement can be dropped from the other. */
  lemma MatchLast<T>(xs: seq<T>, ys: seq<T>) returns (k: nat)
    requires xs != [] && multiset(xs) == multiset(ys)
    ensures k < |ys| && ys[k] == xs[|xs| - 1]
    ensures multiset(xs[..|xs| - 1]) == multiset(Without(ys, k))
  {
    var n := |xs| - 1;
    assert xs[n] in multiset(ys);
    k :| 0 <= k < |ys| && ys[k] == xs[n];
    WithoutIsRemoval(xs, n);
    WithoutIsRemoval(ys, k);
    assert Without(xs, n) == xs[..n];
  }

  lemma {:induction false} FilterCounts<T(!new)>(p: T -> bool, xs: seq<T>, x: T)
    ensures multiset(Filter(p, xs))[x] == if p(x) then multiset(xs)[x] else 0
  {
    if xs == [] {
    } else {
      var init, last := xs[..|xs| - 1], xs[|xs| - 1];
      assert xs == init + [last];
      FilterCounts(p, init, x);
    }
  }

  /** Selecting keeps arrangements of the same elements such. */
  lemma FilterPermuted<T(!new)>(p: T -> bool, xs: seq<T>, ys: seq<T>)
    requires multiset(xs) == multiset(ys)
    ensures multiset(Filter(p, xs)) == multiset(Filter(p, ys))
  {
    forall x ensures multiset(Filter(p, xs))[x] == multiset(Filter(p, ys))[x] {
      FilterCounts(p, xs, x);
      FilterCounts(p, ys, x);
    }
  }

  lemma {:induction false} MapPermuted<T, U>(f: T -> U, xs: seq<T>, ys: seq<T>)
    requires multiset(xs) == multiset(ys)
    ensures multiset(Map(f, xs)) == multiset(Map(f, ys))
  {
    if xs == [] {
      assert |ys| == |multiset(ys)| == 0;
    } else {
      var init, last := xs[..|xs| - 1], xs[|xs| - 1];
      var k := MatchLast(xs, ys);
      MapPermuted(f, init, Without(ys, k));
      assert xs == init + [last];
      MapSnoc(f, init, last);
      assert Map(f, Without(ys, k)) == Without(Map(f, ys), k);
      WithoutIsRemoval(Map(f, ys), k);
    }
  }

  lemma PermutedMembers<T>(xs: seq<T>, ys: seq<T>, x: T)
    requires multiset(xs) == multiset(ys)
    ensures x in xs <==> x in ys
  {
    assert x in multiset(xs) <==> x in multiset(ys);
  }

  function Flatten<T>(xss: seq<seq<T>>): seq<T> {
    if xss == [] then [] else Flatten(xss[..|xss| - 1]) + xss[|xss| - 1]
  }

  lemma FlattenSnoc<T>(xss: seq<seq<T>>, xs: seq<T>)
    ensures Flatten(xss + [xs]) == Flatten(xss) + xs
  {
    assert (xss + [xs])[..|xss|] == xss;
  }

  /** The i-th batch holds the elements of the i-th piece of a sequence, in any order. */
  ghost predicate SamePieces<T>(batches: seq<seq<T>>, pieces: seq<seq<T>>) {
    |batches| == |pieces| && forall i :: 0 <= i < |batches| ==> multiset(batches[i]) == multiset(pieces[i])
  }

  lemma SamePiecesInit<T>(batches: seq<seq<T>>, pieces: seq<seq<T>>)
    requires SamePieces(batches, pieces) && batches != []
    ensures var n := |batches| - 1;
      SamePieces(batches[..n], pieces[..n]) && multiset(batches[n]) == multiset(pieces[n])
  {
  }

  lemma {:induction false} SamePiecesFlatten<T>(batches: seq<seq<T>>, pieces: seq<seq<T>>)
    requires SamePieces(batches, pieces)
    ensures multiset(Flatten(batches)) == multiset(Flatten(pieces))
  {
    if batches == [] {
    } else {
      var n := |batches| - 1;
      SamePiecesInit(batches, pieces);
      SamePiecesFlatten(batches[..n], pieces[..n]);
    }
  }
}
