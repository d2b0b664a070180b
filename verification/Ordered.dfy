/** Strict total orders, the sorted traversal of a finite set (the iteration order of
    `std::set` and `std::map`), and the pigeonhole principle. */
module Ordered {

  ghost predicate StrictTotalOrder<T(!new)>(less: (T, T) -> bool) {
    && (forall x :: !less(x, x))
    && (forall x, y, z :: less(x, y) && less(y, z) ==> less(x, z))
    && (forall x, y :: x == y || less(x, y) || less(y, x))
  }

  ghost predicate StrictlySorted<T(!new)>(s: seq<T>, less: (T, T) -> bool) {
    forall i, j :: 0 <= i < j < |s| ==> less(s[i], s[j])
  }

  ghost predicate Lists<T(!new)>(s: seq<T>, elements: set<T>, less: (T, T) -> bool) {
    && StrictlySorted(s, less)
    && (forall x :: x in s <==> x in elements)
  }

  lemma {:induction false} LeastExists<T(!new)>(s: set<T>, less: (T, T) -> bool)
    requires StrictTotalOrder(less) && s != {}
    ensures exists x :: x in s && forall y :: y in s ==> y == x || less(x, y)
    decreases |s|
  {
    var x :| x in s;
    var rest := s - {x};
    if rest == {} {
      assert s == {x};
    } else {
      LeastExists(rest, less);
      var m :| m in rest && forall y :: y in rest ==> y == m || less(m, y);
      var least := if less(x, m) then x else m;
      assert forall y :: y in s ==> y == x || y in rest;
      assert forall y :: y in s ==> y == least || less(least, y);
    }
  }

  /** A sorted listing of a set is unique: every traversal in this order is the same sequence. */
  lemma {:induction false} ListingIsUnique<T(!new)>(a: seq<T>, b: seq<T>, elements: set<T>, less: (T, T) -> bool)
    requires StrictTotalOrder(less)
    requires Lists(a, elements, less) && Lists(b, elements, less)
    ensures a == b
    decreases |a|
  {
    assert b == [] || b[0] in elements;
    if a == [] {
    } else {
      assert a[0] in elements && a[0] in b;
      assert b[0] in elements && b[0] in a;
      assert a[0] == b[0];
      var rest := elements - {a[0]};
      TailLists(a, elements, less);
      TailLists(b, elements, less);
      ListingIsUnique(a[1..], b[1..], rest, less);
      assert a == [a[0]] + a[1..] && b == [b[0]] + b[1..];
    }
  }

  lemma TailLists<T(!new)>(a: seq<T>, elements: set<T>, less: (T, T) -> bool)
    requires StrictTotalOrder(less)
    requires Lists(a, elements, less) && a != []
    ensures Lists(a[1..], elements - {a[0]}, less)
  {
    assert a == [a[0]] + a[1..];
    forall x ensures x in a[1..] <==> x in elements - {a[0]} {
      if x in a[1..] {
        var i :| 0 <= i < |a| - 1 && a[1..][i] == x;
        assert a[i + 1] == x && less(a[0], a[i + 1]);
        assert x in a;
      }
      if x in elements - {a[0]} { assert x in a; }
    }
  }

  /** Visits a set in increasing order, as iterating a `std::set` does. */
  method SortedElements<T(==,!new)>(s: set<T>, less: (T, T) -> bool) returns (sorted: seq<T>)
    requires StrictTotalOrder(less)
    ensures Lists(sorted, s, less)
  {
    sorted := [];
    var rest := s;
    while rest != {}
      invariant rest <= s
      invariant StrictlySorted(sorted, less)
      invariant forall x :: x in sorted <==> x in s - rest
      invariant forall x, y :: x in sorted && y in rest ==> less(x, y)
      decreases |rest|
    {
      LeastExists(rest, less);
      var x :| x in rest && forall y :: y in rest ==> y == x || less(x, y);
      ghost var before := sorted;
      sorted := sorted + [x];
      rest := rest - {x};
      assert forall y :: y in sorted <==> y in before || y == x;
    }
  }

  // ----- cardinality

  function Elements<T>(s: seq<T>): set<T> {
    set x | x in s
  }

  ghost predicate Distinct<T>(s: seq<T>) {
    forall i, j :: 0 <= i < j < |s| ==> s[i] != s[j]
  }

  /** Taking one more item of a list without repetitions adds a new element. */
  lemma NextElement<T>(s: seq<T>, k: nat)
    requires Distinct(s) && k < |s|
    ensures s[k] !in Elements(s[..k]) && s[k] in Elements(s)
    ensures Elements(s[..k + 1]) == Elements(s[..k]) + {s[k]}
  {
    forall i | 0 <= i < k ensures s[..k][i] != s[k] {}
    assert s[..k + 1] == s[..k] + [s[k]];
  }

  lemma {:induction false} DistinctLength<T>(s: seq<T>)
    requires Distinct(s)
    ensures |Elements(s)| == |s|
    decreases |s|
  {
    if s == [] {
    } else {
      var last := |s| - 1;
      DistinctLength(s[..last]);
      assert s == s[..last] + [s[last]];
      assert Elements(s) == Elements(s[..last]) + {s[last]};
      assert s[last] !in s[..last];
    }
  }

  lemma SubsetSize<T>(a: set<T>, b: set<T>)
    requires a <= b
    ensures |a| <= |b|
    ensures |a| == |b| ==> a == b
  {
    assert b == a + (b - a);
    assert |b| == |a| + |b - a|;
  }

  /** More items than boxes: two positions hold the same value. */
  lemma Pigeonhole<T>(s: seq<T>, boxes: set<T>) returns (i: nat, j: nat)
    requires forall k :: 0 <= k < |s| ==> s[k] in boxes
    requires |s| > |boxes|
    ensures i < j < |s| && s[i] == s[j]
  {
    if Distinct(s) {
      DistinctLength(s);
      SubsetSize(Elements(s), boxes);
      assert false;
    }
    i, j :| 0 <= i < j < |s| && s[i] == s[j];
  }
}
