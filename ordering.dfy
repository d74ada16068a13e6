/**
 * The meaning of `ORDER BY key` over an in-memory table: an insertion sort
 * by an integer key, proved to return a sorted permutation of its input.
 * Rows with equal keys keep their table order, which is one of the orders
 * a database may return.
 */
module Ordering {

  /** Non-decreasing by `key`. */
  predicate SortedBy<T>(s: seq<T>, key: T -> int)
  {
    forall i, j :: 0 <= i < j < |s| ==> key(s[i]) <= key(s[j])
  }

  /** Put `x` in front of the first element with a larger key. */
  function Insert<T>(x: T, s: seq<T>, key: T -> int): (r: seq<T>)
    requires SortedBy(s, key)
    ensures multiset(r) == multiset(s) + multiset{x}
    ensures |r| == |s| + 1
    ensures forall k :: 0 <= k < |r| ==> r[k] == x || r[k] in s
    ensures SortedBy(r, key)
  {
    if |s| == 0 then [x]
    else if key(x) <= key(s[0]) then
      ConsSorted(x, s, key);
      [x] + s
    else
      assert SortedBy(s[1..], key);
      var t := Insert(x, s[1..], key);
      assert s == [s[0]] + s[1..];
      InsertStep(x, s, t, key);
      [s[0]] + t
  }

  /** An element no larger than the first of a sorted sequence can go in front. */
  lemma {:induction false} ConsSorted<T>(x: T, s: seq<T>, key: T -> int)
    requires SortedBy(s, key) && (|s| > 0 ==> key(x) <= key(s[0]))
    ensures SortedBy([x] + s, key)
  {
    var r := [x] + s;
    forall i, j | 0 <= i < j < |r| ensures key(r[i]) <= key(r[j]) {
      assert r[j] == s[j - 1];
      if i > 0 {
        assert r[i] == s[i - 1];
      }
    }
  }

  /** The recursive case of `Insert`: the first element stays in front of the insertion into the rest. */
  lemma {:induction false} InsertStep<T>(x: T, s: seq<T>, t: seq<T>, key: T -> int)
    requires |s| > 0 && SortedBy(s, key) && key(s[0]) < key(x)
    requires SortedBy(t, key) && forall k :: 0 <= k < |t| ==> t[k] == x || t[k] in s[1..]
    ensures SortedBy([s[0]] + t, key)
  {
    forall k | 0 <= k < |t| ensures key(s[0]) <= key(t[k]) {
      if t[k] != x {
        var m :| 0 <= m < |s[1..]| && s[1..][m] == t[k];
        assert t[k] == s[m + 1];
      }
    }
    ConsSorted(s[0], t, key);
  }

  /** `ORDER BY key ASC`. */
  function SortBy<T>(s: seq<T>, key: T -> int): (r: seq<T>)
    ensures multiset(r) == multiset(s)
    ensures |r| == |s|
    ensures SortedBy(r, key)
  {
    if |s| == 0 then []
    else
      assert s == [s[0]] + s[1..];
      Insert(s[0], SortBy(s[1..], key), key)
  }

  /** Sorting sorted data changes nothing. */
  lemma {:induction false} SortSorted<T>(s: seq<T>, key: T -> int)
    requires SortedBy(s, key)
    ensures SortBy(s, key) == s
  {
    if |s| > 0 {
      assert SortedBy(s[1..], key);
      SortSorted(s[1..], key);
    }
  }

  /** `LIMIT n`. */
  function Take<T>(s: seq<T>, n: nat): (r: seq<T>)
    ensures |r| == if |s| < n then |s| else n
    ensures r == s[..|r|]
  {
    if |s| <= n then s else s[..n]
  }

  /**
   * `LIMIT` on sorted rows keeps part of them, and every row it cuts off
   * sorts no earlier than every row it keeps.
   */
  lemma {:induction false} TakeKeepsFirst<T>(s: seq<T>, key: T -> int, n: nat)
    requires SortedBy(s, key)
    ensures multiset(Take(s, n)) <= multiset(s)
    ensures forall x :: x in multiset(s) - multiset(Take(s, n)) ==>
      forall i :: 0 <= i < |Take(s, n)| ==> key(Take(s, n)[i]) <= key(x)
  {
    var r := Take(s, n);
    var rest := s[|r|..];
    assert s == r + rest;
    assert multiset(s) == multiset(r) + multiset(rest);
    forall x | x in multiset(s) - multiset(r)
      ensures forall i :: 0 <= i < |r| ==> key(r[i]) <= key(x)
    {
      assert x in multiset(rest);
      var k :| 0 <= k < |rest| && rest[k] == x;
      assert s[|r| + k] == x;
    }
  }

  /** A prefix of a sorted sequence is sorted. */
  lemma {:induction false} TakeSorted<T>(s: seq<T>, key: T -> int, n: nat)
    requires SortedBy(s, key)
    ensures SortedBy(Take(s, n), key)
  {
  }

  /** The elements of `s` satisfying `p`, in order (`WHERE p`). */
  function Filter<T>(s: seq<T>, p: T -> bool): (r: seq<T>)
    ensures |r| <= |s|
    ensures forall k :: 0 <= k < |r| ==> p(r[k]) && r[k] in s
    ensures forall x :: x in s && p(x) ==> x in r
  {
    if |s| == 0 then []
    else
      var t := Filter(s[1..], p);
      if p(s[0]) then [s[0]] + t else t
  }

  /** Every row of a sorted selection is a table row meeting the condition. */
  lemma {:induction false} SelectedMember<T>(s: seq<T>, p: T -> bool, key: T -> int, k: int)
    requires 0 <= k < |SortBy(Filter(s, p), key)|
    ensures SortBy(Filter(s, p), key)[k] in s && p(SortBy(Filter(s, p), key)[k])
  {
    var r := SortBy(Filter(s, p), key);
    assert r[k] in multiset(r);
  }

  /** Every table row meeting the condition is in the sorted selection. */
  lemma {:induction false} SelectedComplete<T>(s: seq<T>, p: T -> bool, key: T -> int, x: T)
    requires x in s && p(x)
    ensures x in SortBy(Filter(s, p), key)
  {
    assert x in multiset(Filter(s, p));
  }
}
