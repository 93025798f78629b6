/** Generic sequence helpers: dropping absent values and concatenating per-element outputs. */
module Sequences {
  import opened Wrappers

  /** The present values of `xs`, in order. */
  function Somes<T>(xs: seq<Option<T>>): seq<T> {
    if xs == [] then []
    else (if xs[0].Some? then [xs[0].value] else []) + Somes(xs[1..])
  }

  /** The outputs of `f` on each element of `xs`, concatenated in order. */
  function FlatMap<T, U>(f: T -> seq<U>, xs: seq<T>): seq<U> {
    if xs == [] then [] else f(xs[0]) + FlatMap(f, xs[1..])
  }

  lemma {:induction false} SomesAppend<T>(xs: seq<Option<T>>, ys: seq<Option<T>>)
    ensures Somes(xs + ys) == Somes(xs) + Somes(ys)
  {
    if xs == [] {
      assert xs + ys == ys;
    } else {
      assert (xs + ys)[1..] == xs[1..] + ys;
      SomesAppend(xs[1..], ys);
    }
  }

  /** Appending one slot appends its value, if it has one. */
  lemma SomesSnoc<T>(xs: seq<Option<T>>, x: Option<T>)
    ensures Somes(xs + [x]) == Somes(xs) + (if x.Some? then [x.value] else [])
  {
    SomesAppend(xs, [x]);
    assert [x][1..] == [];
  }

  /** When every slot holds a value, Somes keeps them all, position by position. */
  lemma {:induction false} SomesAllPresent<T>(xs: seq<Option<T>>)
    requires forall i :: 0 <= i < |xs| ==> xs[i].Some?
    ensures |Somes(xs)| == |xs|
    ensures forall i :: 0 <= i < |xs| ==> Somes(xs)[i] == xs[i].value
  {
    if xs != [] {
      SomesAllPresent(xs[1..]);
    }
  }

  lemma {:induction false} FlatMapAppend<T, U>(f: T -> seq<U>, xs: seq<T>, ys: seq<T>)
    ensures FlatMap(f, xs + ys) == FlatMap(f, xs) + FlatMap(f, ys)
  {
    if xs == [] {
      assert xs + ys == ys;
    } else {
      assert (xs + ys)[1..] == xs[1..] + ys;
      FlatMapAppend(f, xs[1..], ys);
    }
  }

  /** Flat-mapping over the present values of a list that gains one more slot. */
  lemma FlatMapSomesSnoc<T, U>(f: T -> seq<U>, xs: seq<Option<T>>, x: Option<T>)
    ensures FlatMap(f, Somes(xs + [x])) == FlatMap(f, Somes(xs)) + (if x.Some? then f(x.value) else [])
  {
    SomesSnoc(xs, x);
    var tail := if x.Some? then [x.value] else [];
    FlatMapAppend(f, Somes(xs), tail);
    if x.Some? {
      assert tail[1..] == [];
    }
  }

  /** A value is kept by Somes exactly when some slot holds it. */
  lemma {:induction false} SomesMembership<T>(xs: seq<Option<T>>, x: T)
    ensures x in Somes(xs) <==> Some(x) in xs
  {
    if xs != [] {
      SomesMembership(xs[1..], x);
      assert xs == [xs[0]] + xs[1..];
    }
  }

  /** The indices 0, 1, ..., n - 1. */
  function Indices(n: nat): seq<int> {
    seq(n, i => i)
  }

  /** `order` lists each index below n exactly once. */
  predicate IsPermutation(order: seq<int>, n: nat) {
    multiset(order) == multiset(Indices(n))
  }

  /** The elements of `xs` in the order given by `order`. */
  function Reorder<T>(xs: seq<T>, order: seq<int>): seq<T>
    requires forall i :: 0 <= i < |order| ==> 0 <= order[i] < |xs|
  {
    seq(|order|, i requires 0 <= i < |order| => xs[order[i]])
  }

  /** A permutation only holds valid indices, and reordering by it keeps exactly the same elements. */
  lemma PermutationKeepsElements<T>(xs: seq<T>, order: seq<int>)
    requires IsPermutation(order, |xs|)
    ensures forall i :: 0 <= i < |order| ==> 0 <= order[i] < |xs|
    ensures forall x :: x in Reorder(xs, order) <==> x in xs
  {
    forall i | 0 <= i < |order| ensures 0 <= order[i] < |xs| {
      assert order[i] in multiset(order);
    }
    forall x | x in xs ensures x in Reorder(xs, order) {
      var k :| 0 <= k < |xs| && xs[k] == x;
      assert Indices(|xs|)[k] == k;
      assert k in multiset(order);
      var i :| 0 <= i < |order| && order[i] == k;
      assert Reorder(xs, order)[i] == x;
    }
  }
}
