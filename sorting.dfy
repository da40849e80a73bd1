/**
  A stable sort by an integer key. Both the transcript merge (JavaScript's stable
  Array.prototype.sort, ascending) and the search ranking (Python's stable list.sort
  with reverse=True, i.e. ascending on the negated score) are instances of it.
 */
module Sorting {

  /** Keys never decrease from left to right. */
  ghost predicate SortedBy<T>(s: seq<T>, key: T -> int) {
    forall i, j :: 0 <= i < j < |s| ==> key(s[i]) <= key(s[j])
  }

  /** Every element of `s` has a key of at least `b`. */
  ghost predicate KeysAtLeast<T>(s: seq<T>, key: T -> int, b: int) {
    forall i :: 0 <= i < |s| ==> b <= key(s[i])
  }

  /** `[y]` when `y` has key `k`, otherwise `[]`. */
  function Pick<T>(y: T, key: T -> int, k: int): seq<T> {
    if key(y) == k then [y] else []
  }

  /** The subsequence of `s` whose elements have key `k`, in their order in `s`. */
  function WithKey<T>(s: seq<T>, key: T -> int, k: int): seq<T>
  {
    if s == [] then [] else Pick(s[0], key, k) + WithKey(s[1..], key, k)
  }

  /** Puts `x` in front of the first element of `s` whose key is at least `key(x)`. */
  function InsertBy<T>(x: T, s: seq<T>, key: T -> int): (r: seq<T>)
    ensures multiset(r) == multiset(s) + multiset{x}
    ensures |r| == |s| + 1
  {
    if s == [] || key(x) <= key(s[0]) then [x] + s
    else
      assert s == [s[0]] + s[1..];
      [s[0]] + InsertBy(x, s[1..], key)
  }

  lemma {:induction false} InsertKeysAtLeast<T>(x: T, s: seq<T>, key: T -> int, b: int)
    requires KeysAtLeast(s, key, b) && b <= key(x)
    ensures KeysAtLeast(InsertBy(x, s, key), key, b)
  {
    if s == [] || key(x) <= key(s[0]) {
    } else {
      InsertKeysAtLeast(x, s[1..], key, b);
    }
  }

  lemma {:induction false} InsertSorted<T>(x: T, s: seq<T>, key: T -> int)
    requires SortedBy(s, key)
    ensures SortedBy(InsertBy(x, s, key), key)
  {
    if s == [] || key(x) <= key(s[0]) {
    } else {
      var rest := InsertBy(x, s[1..], key);
      InsertSorted(x, s[1..], key);
      InsertKeysAtLeast(x, s[1..], key, key(s[0]));
      var r := [s[0]] + rest;
      forall i, j | 0 <= i < j < |r| ensures key(r[i]) <= key(r[j]) {
        if i == 0 { assert r[j] == rest[j - 1]; }
        else { assert r[i] == rest[i - 1] && r[j] == rest[j - 1]; }
      }
    }
  }

  /**
    Insertion sort: the head is inserted into the sorted tail. Since the head goes in
    front of every element with an equal key, elements with equal keys keep their order.
   */
  function SortBy<T>(s: seq<T>, key: T -> int): (r: seq<T>)
    ensures multiset(r) == multiset(s)
    ensures |r| == |s|
    ensures SortedBy(r, key)
  {
    if s == [] then []
    else
      assert s == [s[0]] + s[1..];
      var tail := SortBy(s[1..], key);
      InsertSorted(s[0], tail, key);
      InsertBy(s[0], tail, key)
  }

  lemma {:induction false} WithKeyAppend<T>(a: seq<T>, b: seq<T>, key: T -> int, k: int)
    ensures WithKey(a + b, key, k) == WithKey(a, key, k) + WithKey(b, key, k)
  {
    if a == [] {
      assert a + b == b;
    } else {
      assert (a + b)[1..] == a[1..] + b;
      WithKeyAppend(a[1..], b, key, k);
    }
  }

  lemma {:induction false} WithKeyCons<T>(y: T, s: seq<T>, key: T -> int, k: int)
    ensures WithKey([y] + s, key, k) == Pick(y, key, k) + WithKey(s, key, k)
  {
    assert ([y] + s)[1..] == s;
  }

  lemma {:induction false} WithKeyInsert<T>(x: T, s: seq<T>, key: T -> int, k: int)
    ensures WithKey(InsertBy(x, s, key), key, k) == WithKey([x] + s, key, k)
  {
    if s == [] || key(x) <= key(s[0]) {
    } else {
      var s0, tl := s[0], s[1..];
      assert s == [s0] + tl;
      WithKeyInsert(x, tl, key, k);
      WithKeyCons(s0, InsertBy(x, tl, key), key, k);
      WithKeyCons(x, tl, key, k);
      WithKeyCons(x, s, key, k);
      WithKeyCons(s0, tl, key, k);
      // key(s0) < key(x): at most one of the two is picked, so their order does not matter
      assert Pick(s0, key, k) + Pick(x, key, k) == Pick(x, key, k) + Pick(s0, key, k);
    }
  }

  /** Stability: for every key, the elements with that key come out in their input order. */
  lemma {:induction false} SortStable<T>(s: seq<T>, key: T -> int, k: int)
    ensures WithKey(SortBy(s, key), key, k) == WithKey(s, key, k)
  {
    if s != [] {
      var tail := SortBy(s[1..], key);
      SortStable(s[1..], key, k);
      WithKeyInsert(s[0], tail, key, k);
      WithKeyCons(s[0], tail, key, k);
      WithKeyCons(s[0], s[1..], key, k);
      assert s == [s[0]] + s[1..];
    }
  }

  /** Sorting an already sorted sequence returns it unchanged. */
  lemma {:induction false} SortSortedIsIdentity<T>(s: seq<T>, key: T -> int)
    requires SortedBy(s, key)
    ensures SortBy(s, key) == s
  {
    if s != [] {
      assert SortedBy(s[1..], key);
      SortSortedIsIdentity(s[1..], key);
      assert s == [s[0]] + s[1..];
    }
  }
}
