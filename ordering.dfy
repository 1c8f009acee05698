/**
 * Ordering by an integer key, for the `ORDER BY created_at` of the store's
 * queries. Rows with equal keys may come out in any order as far as the
 * queries promise; the insertion used here happens to keep earlier rows
 * first.
 */
module Ordering {

  /** `s` is ordered by non-decreasing `key`. */
  predicate SortedBy<T>(s: seq<T>, key: T -> int)
  {
    forall i, j :: 0 <= i < j < |s| ==> key(s[i]) <= key(s[j])
  }

  /** Puts `x` into a sorted `s` after every element whose key is not larger. */
  function InsertBy<T>(s: seq<T>, x: T, key: T -> int): (r: seq<T>)
    requires SortedBy(s, key)
    ensures SortedBy(r, key)
    ensures multiset(r) == multiset(s) + multiset{x}
    ensures |r| == |s| + 1
    ensures r[0] == x || (s != [] && r[0] == s[0])
  {
    if s == [] then [x]
    else if key(x) < key(s[0]) then [x] + s
    else
      var t := InsertBy(s[1..], x, key);
      assert s == [s[0]] + s[1..];
      SortedCons(s[0], t, key);
      [s[0]] + t
  }

  /** An element no larger than the head of a sorted sequence can go in front. */
  lemma SortedCons<T>(y: T, t: seq<T>, key: T -> int)
    requires SortedBy(t, key) && t != [] && key(y) <= key(t[0])
    ensures SortedBy([y] + t, key)
  {
    var r := [y] + t;
    forall i, j | 0 <= i < j < |r| ensures key(r[i]) <= key(r[j]) {
      assert r[j] == t[j - 1];
      if i > 0 {
        assert r[i] == t[i - 1];
      }
    }
  }
}
