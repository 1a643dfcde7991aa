/**
 * `std::sort` with a comparator. The library fixes neither the algorithm
 * nor the relative order of elements the comparator leaves unordered, so
 * the model is one particular sort (insertion) whose contract only says
 * what every conforming `std::sort` delivers: a permutation of the input in
 * which no element is preceded by one that is `less` than it.
 */
module Sorting {

  /** The comparator can be applied to any two elements of `s`. */
  ghost predicate Defined<T>(s: seq<T>, less: (T, T) --> bool)
  {
    forall x, y :: x in s && y in s ==> less.requires(x, y)
  }

  /** On the elements of `s` the comparator is irreflexive and transitive. */
  ghost predicate StrictOn<T>(s: seq<T>, less: (T, T) --> bool)
    requires Defined(s, less)
  {
    (forall x :: x in s ==> !less(x, x)) &&
    (forall x, y, z :: x in s && y in s && z in s && less(x, y) && less(y, z) ==> less(x, z))
  }

  ghost predicate SortedBy<T>(s: seq<T>, less: (T, T) --> bool)
    requires Defined(s, less)
  {
    forall i, j :: 0 <= i < j < |s| ==> !less(s[j], s[i])
  }

  /** Puts `x` in front of the first element of `r` that it is less than. */
  function Insert<T>(x: T, r: seq<T>, less: (T, T) --> bool): (res: seq<T>)
    requires Defined(r + [x], less) && StrictOn(r + [x], less)
    requires Defined(r, less) && SortedBy(r, less)
    ensures multiset(res) == multiset(r) + multiset{x}
    ensures Defined(res, less) && SortedBy(res, less)
    decreases |r|
  {
    if |r| == 0 then [x]
    else if less(x, r[0]) then
      InsertInFront(x, r, less);
      [x] + r
    else
      InsertIntoTail(x, r, less);
      var t := Insert(x, r[1..], less);
      InsertAfterHead(x, r, t, less);
      [r[0]] + t
  }

  lemma InsertInFront<T>(x: T, r: seq<T>, less: (T, T) --> bool)
    requires Defined(r + [x], less) && StrictOn(r + [x], less)
    requires Defined(r, less) && SortedBy(r, less)
    requires |r| > 0 && less(x, r[0])
    ensures Defined([x] + r, less) && SortedBy([x] + r, less)
  {
    var res := [x] + r;
    assert forall y :: y in res ==> y in r + [x];
    forall j | 0 < j < |res|
      ensures !less(res[j], x)
    {
      assert r[0] in r + [x] && res[j] in r + [x] && x in r + [x];
      if j > 1 {
        assert !less(r[j - 1], r[0]);
      }
    }
  }

  lemma InsertIntoTail<T>(x: T, r: seq<T>, less: (T, T) --> bool)
    requires Defined(r + [x], less) && StrictOn(r + [x], less)
    requires Defined(r, less) && SortedBy(r, less) && |r| > 0
    ensures Defined(r[1..] + [x], less) && StrictOn(r[1..] + [x], less)
    ensures Defined(r[1..], less) && SortedBy(r[1..], less)
  {
    assert r == [r[0]] + r[1..];
    assert forall y :: y in r[1..] + [x] ==> y in r + [x];
  }

  lemma InsertAfterHead<T>(x: T, r: seq<T>, t: seq<T>, less: (T, T) --> bool)
    requires Defined(r + [x], less) && StrictOn(r + [x], less)
    requires Defined(r, less) && SortedBy(r, less) && |r| > 0 && !less(x, r[0])
    requires multiset(t) == multiset(r[1..]) + multiset{x} && Defined(t, less) && SortedBy(t, less)
    ensures multiset([r[0]] + t) == multiset(r) + multiset{x}
    ensures Defined([r[0]] + t, less) && SortedBy([r[0]] + t, less)
  {
    var tail := r[1..];
    assert r == [r[0]] + tail;
    var res := [r[0]] + t;
    forall y | y in res
      ensures y in r + [x]
    {
      if y != r[0] {
        assert y in multiset(t);
      }
    }
    forall y | y in t
      ensures !less(y, r[0])
    {
      assert y in multiset(tail) + multiset{x};
      if y != x {
        assert y in tail;
        var k :| 0 <= k < |tail| && tail[k] == y;
        assert r[k + 1] == y;
      }
    }
    ConsSorted(r[0], t, less);
  }

  /** A sorted list stays sorted behind a head that no element is less than. */
  lemma ConsSorted<T>(h: T, t: seq<T>, less: (T, T) --> bool)
    requires Defined([h] + t, less) && Defined(t, less) && SortedBy(t, less)
    requires forall y :: y in t ==> !less(y, h)
    ensures SortedBy([h] + t, less)
  {
    var res := [h] + t;
    forall i, j | 0 <= i < j < |res|
      ensures !less(res[j], res[i])
    {
      assert res[j] == t[j - 1];
      if i > 0 {
        assert res[i] == t[i - 1];
      } else {
        assert t[j - 1] in t;
      }
    }
  }

  /** `std::sort(s.begin(), s.end(), less)`, as an insertion sort. */
  function SortBy<T>(s: seq<T>, less: (T, T) --> bool): (r: seq<T>)
    requires Defined(s, less) && StrictOn(s, less)
    ensures multiset(r) == multiset(s)
    ensures Defined(r, less) && SortedBy(r, less)
    decreases |s|
  {
    if |s| == 0 then []
    else
      var tail := s[1..];
      assert s == [s[0]] + tail;
      assert forall y :: y in tail ==> y in s;
      var sorted := SortBy(tail, less);
      assert forall y :: y in sorted + [s[0]] ==> y in s by {
        forall y | y in sorted + [s[0]]
          ensures y in s
        {
          if y != s[0] {
            assert y in multiset(sorted);
          }
        }
      }
      Insert(s[0], sorted, less)
  }

  /** A sorted permutation has exactly the elements of the input. */
  lemma {:induction false} SortByKeepsElements<T>(s: seq<T>, less: (T, T) --> bool, x: T)
    requires Defined(s, less) && StrictOn(s, less)
    ensures x in SortBy(s, less) <==> x in s
  {
    var r := SortBy(s, less);
    assert x in r <==> x in multiset(r);
    assert x in s <==> x in multiset(s);
  }
}
