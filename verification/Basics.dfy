/** Small shared vocabulary: optional values, results and facts about sequences. */
module Basics {

  datatype Option<+T> = None | Some(value: T)

  datatype Result<+T, +E> = Success(value: T) | Failure(error: E)

  function Min(a: nat, b: nat): nat { if a < b then a else b }

  /** No element occurs twice. */
  ghost predicate Distinct<T>(xs: seq<T>) {
    forall i, j :: 0 <= i < j < |xs| ==> xs[i] != xs[j]
  }

  ghost function Elements<T>(xs: seq<T>): set<T> {
    set x | x in xs
  }

  function Reverse<T>(xs: seq<T>): (r: seq<T>)
    ensures |r| == |xs|
    ensures forall i :: 0 <= i < |xs| ==> r[i] == xs[|xs| - 1 - i]
  {
    if xs == [] then [] else Reverse(xs[1..]) + [xs[0]]
  }

  lemma {:induction false} ReverseKeepsElements<T>(xs: seq<T>)
    ensures multiset(Reverse(xs)) == multiset(xs)
  {
    if xs != [] {
      ReverseKeepsElements(xs[1..]);
      assert xs == [xs[0]] + xs[1..];
    }
  }

  lemma {:induction false} ReverseSnoc<T>(xs: seq<T>, x: T)
    ensures Reverse(xs + [x]) == [x] + Reverse(xs)
  {
    if xs == [] {
      assert [] + [x] == [x] && Reverse([x]) == [x];
    } else {
      ReverseSnoc(xs[1..], x);
      assert (xs + [x])[1..] == xs[1..] + [x];
    }
  }

  lemma {:induction false} DistinctSize<T>(xs: seq<T>)
    requires Distinct(xs)
    ensures |Elements(xs)| == |xs|
  {
    if xs == [] {
      assert Elements(xs) == {};
    } else {
      var last := xs[|xs| - 1];
      var rest := xs[..|xs| - 1];
      DistinctSize(rest);
      assert xs == rest + [last] && last !in rest;
      assert Elements(xs) == Elements(rest) + {last};
    }
  }

  lemma SubsetSize<T>(a: set<T>, b: set<T>)
    requires a <= b
    ensures |a| <= |b|
  {
    assert b == a + (b - a);
  }

  /** Distinct elements drawn from a set are no more than the set holds. */
  lemma Pigeonhole<T>(xs: seq<T>, pool: set<T>)
    requires Distinct(xs)
    requires forall x <- xs :: x in pool
    ensures |xs| <= |pool|
  {
    DistinctSize(xs);
    SubsetSize(Elements(xs), pool);
  }

  lemma SplitPrefix<T>(xs: seq<T>, k: nat)
    requires k <= |xs|
    ensures multiset(xs) == multiset(xs[..k]) + multiset(xs[k..])
  {
    assert xs == xs[..k] + xs[k..];
  }

  lemma SubSlice<T>(xs: seq<T>, i: nat, n: nat, lo: nat, hi: nat)
    requires i <= n <= |xs| && lo <= hi <= n - i
    ensures xs[i..n][lo..hi] == xs[i + lo..i + hi]
  {
    var ys := xs[i..n];
    forall j | 0 <= j < hi - lo
      ensures ys[lo..hi][j] == xs[i + lo..i + hi][j]
    {
      assert ys[lo + j] == xs[i + (lo + j)];
    }
  }
}
