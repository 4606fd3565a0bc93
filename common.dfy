/** Shared vocabulary of the model: optional values, identifiers, HTTP
    responses as the route handlers build them, JavaScript truthiness of an
    optional string, and the order-preserving `filter` that the server and the
    client both use on lists. */
module Common {

  datatype Option<T> = None | Some(value: T)

  /** A server-assigned document identifier (an ObjectId in the database). */
  type Id = nat

  /** The role that every admin gate compares against. */
  const AdminRole: string := "admin"

  /** The JSON bodies the handlers send on their error paths. */
  datatype Body =
    | ErrorJson(error: string)         // { error: "..." }
    | MsgJson(msg: string)             // { msg: "..." }
    | ErrorsJson(errors: seq<string>)  // { errors: [...] }, one message per failed validator
    | Text(text: string)               // res.send("...")

  /** What a handler answers: a status code and either the JSON value of a
      success or an error body. */
  datatype Response<T> = Ok(status: nat, value: T) | Err(status: nat, body: Body)

  /** JavaScript truthiness of a string that may be absent: `undefined` and
      `""` are falsy, every other string is truthy. */
  predicate Truthy(s: Option<string>)
  {
    s.Some? && s.value != ""
  }

  /** `s || fallback` for an optional string. */
  function OrElse(s: Option<string>, fallback: string): (r: string)
    ensures Truthy(s) ==> r == s.value
    ensures !Truthy(s) ==> r == fallback
  {
    if Truthy(s) then s.value else fallback
  }

  /** `Array.prototype.filter`: the elements of `s` that satisfy `p`, in order. */
  function Filter<T>(s: seq<T>, p: T -> bool): (r: seq<T>)
    ensures |r| <= |s|
    ensures forall x :: x in r ==> x in s && p(x)
  {
    if s == [] then []
    else if p(s[0]) then [s[0]] + Filter(s[1..], p)
    else Filter(s[1..], p)
  }

  /** `a` is obtained from `b` by deleting elements, keeping the order of the rest. */
  predicate IsSubsequence<T(==)>(a: seq<T>, b: seq<T>)
    decreases |b|
  {
    if a == [] then true
    else if b == [] then false
    else (a[0] == b[0] && IsSubsequence(a[1..], b[1..])) || IsSubsequence(a, b[1..])
  }

  /** Keeping or dropping each of three elements, in order, gives a
      subsequence of the three. */
  lemma {:induction false} PickedInOrder<T>(x: T, y: T, z: T, keepX: bool, keepY: bool, keepZ: bool)
    ensures IsSubsequence((if keepX then [x] else []) + (if keepY then [y] else []) + (if keepZ then [z] else []),
                          [x, y, z])
  {
    var tail := if keepZ then [z] else [];
    assert IsSubsequence(tail, [z]);
    var mid := (if keepY then [y] else []) + tail;
    assert [y, z][1..] == [z];
    assert IsSubsequence(mid, [y, z]) by {
      if keepY { assert mid[1..] == tail; }
    }
    var all := (if keepX then [x] else []) + mid;
    assert [x, y, z][1..] == [y, z];
    assert IsSubsequence(all, [x, y, z]) by {
      if keepX { assert all[1..] == mid; } else { assert all == mid; }
    }
  }

  /** Every element of `s` that satisfies `p` survives the filter. */
  lemma {:induction false} FilterKeeps<T>(s: seq<T>, p: T -> bool, x: T)
    requires x in s && p(x)
    ensures x in Filter(s, p)
  {
    if s[0] != x {
      FilterKeeps(s[1..], p, x);
    }
  }

  /** Membership in a filtered list, both directions. */
  lemma FilterMembership<T>(s: seq<T>, p: T -> bool)
    ensures forall x :: x in Filter(s, p) <==> x in s && p(x)
  {
    forall x | x in s && p(x) ensures x in Filter(s, p) {
      FilterKeeps(s, p, x);
    }
  }

  /** The filter keeps the relative order of what it keeps. */
  lemma {:induction false} FilterIsSubsequence<T>(s: seq<T>, p: T -> bool)
    ensures IsSubsequence(Filter(s, p), s)
  {
    if s != [] {
      FilterIsSubsequence(s[1..], p);
      if p(s[0]) {
        assert Filter(s, p)[1..] == Filter(s[1..], p);
      } else {
        var r := Filter(s, p);
        if r != [] {
          assert IsSubsequence(r, s[1..]);
        }
      }
    }
  }

  /** A filter whose predicate holds everywhere returns the list unchanged. */
  lemma {:induction false} FilterAll<T>(s: seq<T>, p: T -> bool)
    requires forall x :: x in s ==> p(x)
    ensures Filter(s, p) == s
  {
    if s != [] {
      FilterAll(s[1..], p);
    }
  }

  /** Filtering twice by the same predicate is filtering once. */
  lemma {:induction false} FilterIdempotent<T>(s: seq<T>, p: T -> bool)
    ensures Filter(Filter(s, p), p) == Filter(s, p)
  {
    FilterAll(Filter(s, p), p);
  }

  /** Two predicates that never hold together select at most |s| elements
      between them. */
  lemma {:induction false} FilterDisjointCounts<T>(s: seq<T>, p: T -> bool, q: T -> bool)
    requires forall x :: x in s ==> !(p(x) && q(x))
    ensures |Filter(s, p)| + |Filter(s, q)| <= |s|
  {
    if s != [] {
      FilterDisjointCounts(s[1..], p, q);
    }
  }

  /** The position of the first element whose key is `k`, when there is one. */
  function IndexOf<T>(s: seq<T>, key: T -> Id, k: Id): (r: Option<nat>)
    ensures r.Some? ==> r.value < |s| && key(s[r.value]) == k
    ensures r.None? <==> forall x :: x in s ==> key(x) != k
  {
    if s == [] then None
    else if key(s[0]) == k then Some(0)
    else match IndexOf(s[1..], key, k)
      case None => None
      case Some(i) => Some(i + 1)
  }

  /** The first element whose key is `k` (a `findById`), when there is one. */
  function Find<T>(s: seq<T>, key: T -> Id, k: Id): (r: Option<T>)
    ensures r.Some? ==> r.value in s && key(r.value) == k
    ensures r.None? <==> forall x :: x in s ==> key(x) != k
  {
    match IndexOf(s, key, k)
    case None => None
    case Some(i) => Some(s[i])
  }

  /** No two elements of `s` carry the same key. */
  predicate UniqueKeys<T>(s: seq<T>, key: T -> Id)
  {
    forall i, j :: 0 <= i < j < |s| ==> key(s[i]) != key(s[j])
  }

  /** With unique keys, the element at a position is the only one with its
      key, so it is the one found by that key. */
  lemma KeyOnlyAt<T>(s: seq<T>, key: T -> Id, i: nat)
    requires UniqueKeys(s, key) && i < |s|
    ensures forall j :: 0 <= j < |s| && j != i ==> key(s[j]) != key(s[i])
    ensures IndexOf(s, key, key(s[i])) == Some(i)
    ensures Find(s, key, key(s[i])) == Some(s[i])
  {
    forall j | 0 <= j < |s| && j != i ensures key(s[j]) != key(s[i]) {
      if j < i { assert key(s[j]) != key(s[i]); }
      else { assert key(s[i]) != key(s[j]); }
    }
  }

  /** A filter keeps keys unique. */
  lemma {:induction false} FilterUniqueKeys<T>(s: seq<T>, p: T -> bool, key: T -> Id)
    requires UniqueKeys(s, key)
    ensures UniqueKeys(Filter(s, p), key)
  {
    if s != [] {
      FilterUniqueKeys(s[1..], p, key);
      if p(s[0]) {
        var r := Filter(s, p);
        assert r == [s[0]] + Filter(s[1..], p);
        forall j | 1 <= j < |r| ensures key(r[0]) != key(r[j]) {
          assert r[j] in Filter(s[1..], p);
          var k :| 0 <= k < |s[1..]| && s[1..][k] == r[j];
          assert s[k + 1] == r[j];
        }
      }
    }
  }

  /** Removing the elements whose key is `k` from a list with unique keys
      removes exactly one element when `k` occurs, and none otherwise. */
  lemma {:induction false} FilterRemovesKey<T>(s: seq<T>, key: T -> Id, k: Id, p: T -> bool)
    requires UniqueKeys(s, key)
    requires forall x :: p(x) <==> key(x) != k
    ensures (exists i :: 0 <= i < |s| && key(s[i]) == k) ==> |Filter(s, p)| == |s| - 1
    ensures (forall i :: 0 <= i < |s| ==> key(s[i]) != k) ==> Filter(s, p) == s
  {
    if s != [] {
      FilterRemovesKey(s[1..], key, k, p);
      if key(s[0]) == k {
        forall i | 0 <= i < |s[1..]| ensures key(s[1..][i]) != k {
          assert key(s[0]) != key(s[i + 1]);
        }
      } else {
        if exists i :: 0 <= i < |s| && key(s[i]) == k {
          var i :| 0 <= i < |s| && key(s[i]) == k;
          assert key(s[1..][i - 1]) == k;
        }
      }
    }
  }

  /** The filter keeps no more copies of anything than the list had. */
  lemma {:induction false} FilterSubMultiset<T>(s: seq<T>, p: T -> bool)
    ensures multiset(Filter(s, p)) <= multiset(s)
  {
    if s != [] {
      FilterSubMultiset(s[1..], p);
      assert s == [s[0]] + s[1..];
    }
  }

  /** The filter keeps every copy of what satisfies `p` and no copy of
      anything else. */
  lemma {:induction false} FilterCount<T>(s: seq<T>, p: T -> bool)
    ensures forall x :: multiset(Filter(s, p))[x] == if p(x) then multiset(s)[x] else 0
  {
    if s != [] {
      FilterCount(s[1..], p);
      assert s == [s[0]] + s[1..];
    }
  }

  /** Predicates that agree on the list select the same elements. */
  lemma {:induction false} FilterAgrees<T>(s: seq<T>, p: T -> bool, q: T -> bool)
    requires forall x :: x in s ==> p(x) == q(x)
    ensures Filter(s, p) == Filter(s, q)
  {
    if s != [] {
      FilterAgrees(s[1..], p, q);
    }
  }
}
