/**
 * `Array.prototype.sort` with a comparator, as the pages use it on a copy
 * of a list. The language requires the sort to be stable, so for a
 * consistent comparator its result is the one stable insertion sort
 * gives: an element goes before the first element it does not compare
 * greater than.
 */
module Sorting {

  /** `x` inserted before the first `y` with `cmp(x, y) <= 0`. */
  function Insert<T>(x: T, s: seq<T>, cmp: (T, T) -> int): seq<T>
  {
    if s == [] then [x]
    else if cmp(x, s[0]) <= 0 then [x] + s
    else [s[0]] + Insert(x, s[1..], cmp)
  }

  /** The sorted copy, built by inserting from the back so that ties keep their order. */
  function Sort<T>(s: seq<T>, cmp: (T, T) -> int): seq<T>
  {
    if s == [] then [] else Insert(s[0], Sort(s[1..], cmp), cmp)
  }

  /** Non-decreasing in `key`. */
  predicate SortedByKey<T>(s: seq<T>, key: T -> int)
  {
    forall i, j :: 0 <= i < j < |s| ==> key(s[i]) <= key(s[j])
  }

  lemma {:induction false} InsertPermutation<T>(x: T, s: seq<T>, cmp: (T, T) -> int)
    ensures multiset(Insert(x, s, cmp)) == multiset(s) + multiset{x}
    ensures |Insert(x, s, cmp)| == |s| + 1
  {
    if s != [] && cmp(x, s[0]) > 0 {
      InsertPermutation(x, s[1..], cmp);
      assert s == [s[0]] + s[1..];
    }
  }

  /** The sort only reorders: the result holds the same elements, as often. */
  lemma {:induction false} SortPermutation<T>(s: seq<T>, cmp: (T, T) -> int)
    ensures multiset(Sort(s, cmp)) == multiset(s)
    ensures |Sort(s, cmp)| == |s|
  {
    if s != [] {
      SortPermutation(s[1..], cmp);
      InsertPermutation(s[0], Sort(s[1..], cmp), cmp);
      assert s == [s[0]] + s[1..];
    }
  }

  lemma {:induction false} InsertSortedByKey<T>(x: T, s: seq<T>, cmp: (T, T) -> int, key: T -> int)
    requires forall a, b :: cmp(a, b) == key(a) - key(b)
    requires SortedByKey(s, key)
    ensures SortedByKey(Insert(x, s, cmp), key)
  {
    if s != [] && cmp(x, s[0]) > 0 {
      var rest := Insert(x, s[1..], cmp);
      assert SortedByKey(s[1..], key) by {
        forall i, j | 0 <= i < j < |s[1..]|
          ensures key(s[1..][i]) <= key(s[1..][j])
        {
          assert s[1..][i] == s[i + 1] && s[1..][j] == s[j + 1];
        }
      }
      InsertSortedByKey(x, s[1..], cmp, key);
      InsertPermutation(x, s[1..], cmp);
      forall e | e in rest
        ensures key(s[0]) <= key(e)
      {
        assert e in multiset(s[1..]) + multiset{x};
        if e != x {
          var k :| 0 <= k < |s[1..]| && s[1..][k] == e;
          assert s[k + 1] == e;
        }
      }
    }
  }

  /**
   * Sorting with the comparator `key(a) - key(b)` gives a list that is
   * non-decreasing in `key`.
   */
  lemma {:induction false} SortSortedByKey<T>(s: seq<T>, cmp: (T, T) -> int, key: T -> int)
    requires forall a, b :: cmp(a, b) == key(a) - key(b)
    ensures SortedByKey(Sort(s, cmp), key)
  {
    if s != [] {
      SortSortedByKey(s[1..], cmp, key);
      InsertSortedByKey(s[0], Sort(s[1..], cmp), cmp, key);
    }
  }

  /** A comparator that calls every pair equal leaves the order as it was. */
  lemma {:induction false} SortAllEqual<T>(s: seq<T>, cmp: (T, T) -> int)
    requires forall a, b :: cmp(a, b) == 0
    ensures Sort(s, cmp) == s
  {
    if s != [] {
      SortAllEqual(s[1..], cmp);
      assert s == [s[0]] + s[1..];
    }
  }
}
