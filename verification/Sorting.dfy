/** Sorting the items of a hash map. What matters is that the result does not
    depend on the order in which the map yields its items: a list of them, once
    sorted, is the one that repeatedly taking the least of their set gives. */
module Sorting {

  ghost predicate TotalOrder<T(!new)>(leq: (T, T) -> bool) {
    && (forall a :: leq(a, a))
    && (forall a, b :: leq(a, b) || leq(b, a))
    && (forall a, b :: leq(a, b) && leq(b, a) ==> a == b)
    && (forall a, b, c :: leq(a, b) && leq(b, c) ==> leq(a, c))
  }

  ghost predicate IsLeast<T>(s: set<T>, leq: (T, T) -> bool, x: T) {
    x in s && forall y :: y in s ==> leq(x, y)
  }

  lemma LeastExists<T(!new)>(s: set<T>, leq: (T, T) -> bool) returns (least: T)
    requires TotalOrder(leq) && s != {}
    ensures IsLeast(s, leq, least)
    decreases s
  {
    var x :| x in s;
    if s == {x} {
      least := x;
    } else {
      var rest := LeastExists(s - {x}, leq);
      least := if leq(x, rest) then x else rest;
      assert forall y :: y in s ==> y == x || y in s - {x};
    }
  }

  function Least<T(==, !new)>(s: set<T>, leq: (T, T) -> bool): (x: T)
    requires TotalOrder(leq) && s != {}
    ensures IsLeast(s, leq, x)
  {
    assert exists x :: IsLeast(s, leq, x) by { var least := LeastExists(s, leq); }
    var x :| x in s && forall y :: y in s ==> leq(x, y);
    x
  }

  function Sorted<T(==, !new)>(s: set<T>, leq: (T, T) -> bool): (r: seq<T>)
    requires TotalOrder(leq)
    ensures forall x :: x in r <==> x in s
  {
    if s == {} then [] else
      var x := Least(s, leq);
      [x] + Sorted(s - {x}, leq)
  }

  // No item twice, and each one below the ones that follow.
  ghost predicate Ascending<T(!new)>(items: seq<T>, leq: (T, T) -> bool) {
    forall i, j :: 0 <= i < j < |items| ==> items[i] != items[j] && leq(items[i], items[j])
  }

  lemma {:induction false} SortedAscends<T(!new)>(s: set<T>, leq: (T, T) -> bool)
    requires TotalOrder(leq)
    ensures Ascending(Sorted(s, leq), leq)
    decreases s
  {
    if s != {} {
      var x := Least(s, leq);
      var rest := Sorted(s - {x}, leq);
      SortedAscends(s - {x}, leq);
      forall y | y in rest ensures y != x && leq(x, y) { assert y in s - {x}; }
    }
  }

  /** Sorting a list, whatever order its items are in: each item takes its
      place among the ones before it. */
  method Sort<T(==, !new)>(items: seq<T>, leq: (T, T) -> bool) returns (r: seq<T>)
    requires TotalOrder(leq)
    requires forall i, j :: 0 <= i < j < |items| ==> items[i] != items[j]
    ensures Ascending(r, leq) && forall x :: x in r <==> x in items
  {
    r := [];
    for i := 0 to |items|
      invariant Ascending(r, leq) && forall x :: x in r <==> x in items[..i]
    {
      assert items[..i + 1] == items[..i] + [items[i]];
      assert items[i] !in items[..i];
      r := Insert(r, items[i], leq);
    }
    assert items[..|items|] == items;
  }

  method Insert<T(==, !new)>(sorted: seq<T>, x: T, leq: (T, T) -> bool) returns (r: seq<T>)
    requires TotalOrder(leq) && Ascending(sorted, leq) && x !in sorted
    ensures Ascending(r, leq) && forall y :: y in r <==> y in sorted || y == x
  {
    var i := 0;
    while i < |sorted| && leq(sorted[i], x)
      invariant i <= |sorted| && forall j :: 0 <= j < i ==> leq(sorted[j], x)
    {
      i := i + 1;
    }
    Inserted(sorted, i, x, leq);
    r := sorted[..i] + [x] + sorted[i..];
  }

  lemma Inserted<T(!new)>(sorted: seq<T>, i: nat, x: T, leq: (T, T) -> bool)
    requires TotalOrder(leq) && Ascending(sorted, leq) && x !in sorted && i <= |sorted|
    requires forall j :: 0 <= j < i ==> leq(sorted[j], x)
    requires i < |sorted| ==> leq(x, sorted[i])
    ensures Ascending(sorted[..i] + [x] + sorted[i..], leq)
    ensures forall y :: y in sorted[..i] + [x] + sorted[i..] <==> y in sorted || y == x
  {
    assert sorted == sorted[..i] + sorted[i..];
    forall j | i <= j < |sorted| ensures leq(x, sorted[j]) {
      if j > i { assert leq(x, sorted[i]) && leq(sorted[i], sorted[j]); }
    }
    var r := sorted[..i] + [x] + sorted[i..];
    forall a, b | 0 <= a < b < |r| ensures r[a] != r[b] && leq(r[a], r[b]) {
      assert r[a] == if a < i then sorted[a] else if a == i then x else sorted[a - 1];
      assert r[b] == if b < i then sorted[b] else if b == i then x else sorted[b - 1];
    }
  }

  /** A sorted list of the items of a set, without repetitions, is the sorted
      list of the set. */
  lemma SortedOnceIsSorted<T(!new)>(s: set<T>, items: seq<T>, leq: (T, T) -> bool)
    requires TotalOrder(leq) && Ascending(items, leq) && forall x :: x in items <==> x in s
    ensures items == Sorted(s, leq)
  {
    SortedAscends(s, leq);
    SortedIsCanonical(items, Sorted(s, leq), leq);
  }

  // Two duplicate-free sorted lists of the same items are the same list.
  lemma {:induction false} SortedIsCanonical<T(!new)>(a: seq<T>, b: seq<T>, leq: (T, T) -> bool)
    requires TotalOrder(leq)
    requires forall x :: x in a <==> x in b
    requires Ascending(a, leq) && Ascending(b, leq)
    ensures a == b
  {
    assert b != [] ==> b[0] in b;
    if a == [] {
    } else {
      assert a[0] in a && b != [];
      assert b[0] in b;
      var i :| 0 <= i < |b| && b[i] == a[0];
      var j :| 0 <= j < |a| && a[j] == b[0];
      assert leq(a[0], b[0]) && leq(b[0], a[0]);
      forall x ensures x in a[1..] <==> x in b[1..] {
        assert x in a <==> x == a[0] || x in a[1..];
        assert x in b <==> x == b[0] || x in b[1..];
      }
      SortedIsCanonical(a[1..], b[1..], leq);
      assert a == [a[0]] + a[1..] && b == [b[0]] + b[1..];
    }
  }

  predicate StringLeq(a: string, b: string) {
    a == [] || (b != [] && (a[0] < b[0] || (a[0] == b[0] && StringLeq(a[1..], b[1..]))))
  }

  lemma StringLeqTotal(a: string, b: string)
    ensures StringLeq(a, b) || StringLeq(b, a)
    ensures StringLeq(a, a)
  {
  }

  lemma StringLeqAntisymmetric(a: string, b: string)
    requires StringLeq(a, b) && StringLeq(b, a)
    ensures a == b
  {
    if a != [] {
      StringLeqAntisymmetric(a[1..], b[1..]);
      assert a == [a[0]] + a[1..] && b == [b[0]] + b[1..];
    }
  }

  lemma StringLeqTransitive(a: string, b: string, c: string)
    requires StringLeq(a, b) && StringLeq(b, c)
    ensures StringLeq(a, c)
  {
    if a != [] && a[0] == b[0] == c[0] {
      StringLeqTransitive(a[1..], b[1..], c[1..]);
    }
  }

  lemma StringOrder()
    ensures TotalOrder(StringLeq)
  {
    forall a, b ensures StringLeq(a, a) && (StringLeq(a, b) || StringLeq(b, a)) { StringLeqTotal(a, b); }
    forall a, b | StringLeq(a, b) && StringLeq(b, a) ensures a == b { StringLeqAntisymmetric(a, b); }
    forall a, b, c | StringLeq(a, b) && StringLeq(b, c) ensures StringLeq(a, c) { StringLeqTransitive(a, b, c); }
  }

  // Tuples compare component by component.
  predicate PairLeq(a: (string, string), b: (string, string)) {
    StringLeq(a.0, b.0) && (a.0 == b.0 ==> StringLeq(a.1, b.1))
  }

  lemma PairOrder()
    ensures TotalOrder(PairLeq)
  {
    StringOrder();
  }

  predicate InputLeq(a: (string, nat, bool), b: (string, nat, bool)) {
    StringLeq(a.0, b.0) && (a.0 == b.0 ==> a.1 < b.1 || (a.1 == b.1 && (a.2 ==> b.2)))
  }

  lemma InputOrder()
    ensures TotalOrder(InputLeq)
  {
    StringOrder();
  }
}
