/** The `.sort({ createdAt: -1 })` that both ticket listings ask of the
    database: a newest-first ordering by a timestamp key. */
module Ordering {

  /** Timestamps never increase from left to right. */
  predicate NewestFirst<T>(s: seq<T>, key: T -> int)
  {
    forall i, j :: 0 <= i < j < |s| ==> key(s[i]) >= key(s[j])
  }

  /** No timestamp in `s` is later than `k`. */
  predicate AtMost<T>(s: seq<T>, key: T -> int, k: int)
  {
    forall i :: 0 <= i < |s| ==> key(s[i]) <= k
  }

  /** A newest-first sequence is bounded by its first timestamp. */
  lemma HeadBounds<T>(s: seq<T>, key: T -> int)
    requires NewestFirst(s, key)
    ensures s != [] ==> AtMost(s, key, key(s[0]))
  {
    if s != [] {
      forall i | 0 < i < |s| ensures key(s[i]) <= key(s[0]) { }
    }
  }

  /** Putting an element in front of what it bounds keeps the order. */
  lemma ConsNewestFirst<T>(h: T, s: seq<T>, key: T -> int)
    requires NewestFirst(s, key) && AtMost(s, key, key(h))
    ensures NewestFirst([h] + s, key)
  {
    var r := [h] + s;
    forall i, j | 0 <= i < j < |r| ensures key(r[i]) >= key(r[j]) {
      assert r[j] == s[j - 1];
      if i > 0 { assert r[i] == s[i - 1]; }
    }
  }

  /** A bound depends only on the multiset of the elements. */
  lemma AtMostByMultiset<T>(s: seq<T>, u: seq<T>, key: T -> int, k: int)
    requires multiset(s) == multiset(u) && AtMost(u, key, k)
    ensures AtMost(s, key, k)
  {
    forall i | 0 <= i < |s| ensures key(s[i]) <= k {
      assert s[i] in multiset(u);
      var j :| 0 <= j < |u| && u[j] == s[i];
    }
  }

  /** Places `x` in front of the first element that is not newer than it. */
  function Insert<T>(x: T, s: seq<T>, key: T -> int): (r: seq<T>)
    requires NewestFirst(s, key)
    ensures NewestFirst(r, key)
    ensures multiset(r) == multiset(s) + multiset{x}
  {
    if s == [] || key(x) >= key(s[0]) then
      HeadBounds(s, key);
      ConsNewestFirst(x, s, key);
      [x] + s
    else
      assert s == [s[0]] + s[1..];
      var tail := Insert(x, s[1..], key);
      HeadBounds(s, key);
      assert AtMost(s[1..] + [x], key, key(s[0])) by {
        forall i | 0 <= i < |s[1..] + [x]| ensures key((s[1..] + [x])[i]) <= key(s[0]) {
          if i < |s[1..]| { assert (s[1..] + [x])[i] == s[i + 1]; }
        }
      }
      AtMostByMultiset(tail, s[1..] + [x], key, key(s[0]));
      ConsNewestFirst(s[0], tail, key);
      [s[0]] + tail
  }

  /** The listing order: the same records, newest first. */
  function SortNewestFirst<T>(s: seq<T>, key: T -> int): (r: seq<T>)
    ensures NewestFirst(r, key)
    ensures multiset(r) == multiset(s)
    ensures |r| == |s|
  {
    if s == [] then []
    else
      assert s == [s[0]] + s[1..];
      Insert(s[0], SortNewestFirst(s[1..], key), key)
  }

  /** Sorting keeps exactly the records it was given. */
  lemma SortMembership<T>(s: seq<T>, key: T -> int)
    ensures forall x :: x in SortNewestFirst(s, key) <==> x in s
  {
    forall x ensures x in SortNewestFirst(s, key) <==> x in s {
      assert x in SortNewestFirst(s, key) <==> x in multiset(SortNewestFirst(s, key));
      assert x in s <==> x in multiset(s);
    }
  }
}
