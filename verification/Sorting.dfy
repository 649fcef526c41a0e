/** Sorted views of finite integer sets: the meaning of Python's `sorted` on a set or on dictionary keys. */
module Sorting {

  ghost predicate Increasing(xs: seq<int>) {
    forall i, j :: 0 <= i < j < |xs| ==> xs[i] < xs[j]
  }

  ghost predicate Lists(xs: seq<int>, s: set<int>) {
    Increasing(xs) && forall x :: x in xs <==> x in s
  }

  method Insert(xs: seq<int>, x: int) returns (r: seq<int>)
    requires Increasing(xs) && x !in xs
    ensures Increasing(r)
    ensures forall y :: y in r <==> y == x || y in xs
  {
    var i := 0;
    while i < |xs| && xs[i] < x
      invariant 0 <= i <= |xs|
      invariant forall k :: 0 <= k < i ==> xs[k] < x
    {
      i := i + 1;
    }
    r := xs[..i] + [x] + xs[i..];
    assert forall k :: i <= k < |xs| ==> x < xs[k] by {
      if i < |xs| {
        assert xs[i] != x;
      }
    }
    assert r[i] == x;
    forall y ensures y in r <==> y == x || y in xs {
      assert xs == xs[..i] + xs[i..];
    }
  }

  lemma HasElement(s: set<int>)
    ensures s == {} || exists x :: x in s
  {
    assert (forall x :: x !in s) ==> s == {};
  }

  method Sort(s: set<int>) returns (r: seq<int>)
    ensures Lists(r, s)
  {
    r := [];
    var rest := s;
    while rest != {}
      invariant Increasing(r)
      invariant forall x :: x in r <==> x in s && x !in rest
      decreases rest
    {
      HasElement(rest);
      var x :| x in rest;
      r := Insert(r, x);
      rest := rest - {x};
    }
  }

  /** A finite set has only one sorted listing, so a value computed from `sorted(s)` is determined by `s`. */
  lemma {:induction false} ListingUnique(xs: seq<int>, ys: seq<int>, s: set<int>)
    requires Lists(xs, s) && Lists(ys, s)
    ensures xs == ys
    decreases |xs|
  {
    EmptyListing(xs, s);
    EmptyListing(ys, s);
    if s != {} {
      var x, y := xs[|xs| - 1], ys[|ys| - 1];
      assert x in xs && y in ys;
      assert x in ys && y in xs;
      assert x == y;
      ListingInit(xs, s);
      ListingInit(ys, s);
      ListingUnique(xs[..|xs| - 1], ys[..|ys| - 1], s - {x});
    }
  }

  lemma EmptyListing(xs: seq<int>, s: set<int>)
    requires Lists(xs, s)
    ensures xs == [] <==> s == {}
  {
    if xs == [] {
      HasElement(s);
    } else {
      assert xs[0] in xs;
    }
  }

  lemma ListingInit(xs: seq<int>, s: set<int>)
    requires Lists(xs, s) && |xs| > 0
    ensures Lists(xs[..|xs| - 1], s - {xs[|xs| - 1]})
  {
    var init, last := xs[..|xs| - 1], xs[|xs| - 1];
    forall x ensures x in init <==> x in s - {last} {
      if x in s - {last} {
        var k :| 0 <= k < |xs| && xs[k] == x;
        assert init[k] == x;
      }
    }
  }

  /** Between two neighbours of a sorted listing there is no element of the set. */
  lemma NoneBetween(xs: seq<int>, s: set<int>, i: nat, x: int)
    requires Lists(xs, s) && i + 1 < |xs| && x in s
    ensures x <= xs[i] || xs[i + 1] <= x
  {
    assert x in xs;
    var k :| 0 <= k < |xs| && xs[k] == x;
  }
}
