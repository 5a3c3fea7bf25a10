/** `sort_values(column, ascending=…)` on a table: a stable insertion sort
    by a real-valued sort key. */
module Sorting {

  /** `a` may come before `b` in the requested direction. */
  predicate Ordered(a: real, b: real, descending: bool) {
    if descending then a >= b else a <= b
  }

  /** The rows are in order of the sort key. */
  ghost predicate SortedBy<T>(s: seq<T>, f: T -> real, descending: bool) {
    forall i, j :: 0 <= i < j < |s| ==> Ordered(f(s[i]), f(s[j]), descending)
  }

  /** Inserts `x` into a sorted table before the first row it may precede. */
  function Insert<T>(x: T, s: seq<T>, f: T -> real, descending: bool): (r: seq<T>)
    requires SortedBy(s, f, descending)
    ensures SortedBy(r, f, descending)
    ensures multiset(r) == multiset(s) + multiset{x}
  {
    if s == [] then [x]
    else if Ordered(f(x), f(s[0]), descending) then
      assert forall j :: 0 <= j < |s| ==> Ordered(f(s[0]), f(s[j]), descending);
      assert s == [s[0]] + s[1..];
      [x] + s
    else
      var rest := Insert(x, s[1..], f, descending);
      assert s == [s[0]] + s[1..];
      InsertBehind(x, s, rest, f, descending);
      [s[0]] + rest
  }

  /** A row that may not precede the head of a sorted table goes behind
      it, and the table stays sorted. */
  lemma InsertBehind<T>(x: T, s: seq<T>, rest: seq<T>, f: T -> real, descending: bool)
    requires s != [] && SortedBy(s, f, descending)
    requires !Ordered(f(x), f(s[0]), descending)
    requires SortedBy(rest, f, descending)
    requires multiset(rest) == multiset(s[1..]) + multiset{x}
    ensures SortedBy([s[0]] + rest, f, descending)
  {
    assert forall y :: y in rest ==> y == x || y in s[1..] by {
      forall y | y in rest ensures y == x || y in s[1..] {
        assert y in multiset(rest);
      }
    }
    assert forall j :: 1 <= j < |s| ==> Ordered(f(s[0]), f(s[j]), descending);
    assert forall y :: y in s[1..] ==> Ordered(f(s[0]), f(y), descending);
    var r := [s[0]] + rest;
    assert forall j :: 0 < j < |r| ==> r[j] in rest;
  }

  /** The rows of `s` ordered by `f`; rows with equal keys keep their
      relative order. */
  function SortBy<T>(s: seq<T>, f: T -> real, descending: bool): (r: seq<T>)
    ensures SortedBy(r, f, descending)
    ensures multiset(r) == multiset(s)
  {
    if s == [] then []
    else
      assert s == [s[0]] + s[1..];
      Insert(s[0], SortBy(s[1..], f, descending), f, descending)
  }

  /** Sorting keeps exactly the rows it was given. */
  lemma SortByKeepsRows<T>(s: seq<T>, f: T -> real, descending: bool)
    ensures |SortBy(s, f, descending)| == |s|
    ensures forall x :: x in SortBy(s, f, descending) <==> x in s
  {
    var r := SortBy(s, f, descending);
    assert |r| == |multiset(r)| == |multiset(s)| == |s|;
    forall x ensures x in r <==> x in s {
      assert x in r <==> x in multiset(r);
      assert x in s <==> x in multiset(s);
    }
  }
}
