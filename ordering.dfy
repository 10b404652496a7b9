/**
 * `Array.prototype.sort` with a numeric comparator `(a, b) => key(a) - key(b)`,
 * the way the bot engine orders automations by `created_at` and nodes by
 * `order_index`. The sort is stable, as ECMAScript requires since 2019: rows
 * with equal keys keep their relative order. The model sorts values; the
 * source sorts the fetched array in place.
 */
module Ordering {

  predicate SortedBy<T>(s: seq<T>, key: T -> int) {
    forall i, j :: 0 <= i < j < |s| ==> key(s[i]) <= key(s[j])
  }

  /** `x` placed into the sorted `ys` in front of every element whose key is not smaller. */
  function Insert<T>(x: T, ys: seq<T>, key: T -> int): (r: seq<T>)
    requires SortedBy(ys, key)
    ensures SortedBy(r, key)
    ensures multiset(r) == multiset(ys) + multiset{x}
  {
    if ys == [] || key(x) <= key(ys[0]) then
      ConsSorted(x, ys, key);
      [x] + ys
    else
      var h, t := ys[0], ys[1..];
      var rest := Insert(x, t, key);
      LowerBound(x, t, rest, key, key(h));
      ConsSorted(h, rest, key);
      assert ys == [h] + t;
      [h] + rest
  }

  /** Helper: an element no greater than the head of a sorted sequence, put in front. */
  lemma ConsSorted<T>(h: T, rest: seq<T>, key: T -> int)
    requires SortedBy(rest, key)
    requires forall z :: z in rest ==> key(h) <= key(z)
    ensures SortedBy([h] + rest, key)
  {
    var r := [h] + rest;
    forall i, j | 0 <= i < j < |r| ensures key(r[i]) <= key(r[j]) {
      assert r[j] == rest[j - 1];
      if i > 0 {
        assert r[i] == rest[i - 1];
      } else {
        assert rest[j - 1] in rest;
      }
    }
  }

  /** Helper: a bound below `x` and the elements of `t` is below every element of their permutation. */
  lemma LowerBound<T>(x: T, t: seq<T>, rest: seq<T>, key: T -> int, b: int)
    requires multiset(rest) == multiset(t) + multiset{x}
    requires b <= key(x) && SortedBy(t, key) && (t != [] ==> b <= key(t[0]))
    ensures forall z :: z in rest ==> b <= key(z)
  {
    forall z | z in rest ensures b <= key(z) {
      assert z in multiset(rest);
      if z != x {
        assert z in multiset(t);
        var k :| 0 <= k < |t| && t[k] == z;
        assert key(t[0]) <= key(t[k]);
      }
    }
  }

  /** The sorted array: each element inserted, last to first, into the sorted rest. */
  function SortBy<T>(s: seq<T>, key: T -> int): (r: seq<T>)
    ensures SortedBy(r, key)
    ensures multiset(r) == multiset(s) && |r| == |s|
  {
    if s == [] then []
    else
      assert s == [s[0]] + s[1..];
      Insert(s[0], SortBy(s[1..], key), key)
  }

  /** The sorted array holds the same elements. */
  lemma SortKeepsMembers<T>(s: seq<T>, key: T -> int)
    ensures forall x :: x in SortBy(s, key) <==> x in s
  {
    var r := SortBy(s, key);
    forall x ensures x in r <==> x in s {
      assert x in r <==> x in multiset(r);
      assert x in s <==> x in multiset(s);
    }
  }

  /** The elements of `s` whose key is `v`, in their order in `s`. */
  function WithKey<T>(s: seq<T>, key: T -> int, v: int): seq<T> {
    if s == [] then [] else (if key(s[0]) == v then [s[0]] else []) + WithKey(s[1..], key, v)
  }

  /** Helper: `WithKey` of a sequence with one element put in front. */
  lemma WithKeyCons<T>(h: T, rest: seq<T>, key: T -> int, v: int)
    ensures WithKey([h] + rest, key, v) == (if key(h) == v then [h] else []) + WithKey(rest, key, v)
  {
    assert ([h] + rest)[1..] == rest;
  }

  /** Inserting `x` puts it in front of the elements with its own key. */
  lemma {:induction false} InsertWithKey<T>(x: T, ys: seq<T>, key: T -> int, v: int)
    requires SortedBy(ys, key)
    ensures WithKey(Insert(x, ys, key), key, v) == (if key(x) == v then [x] else []) + WithKey(ys, key, v)
  {
    if ys == [] || key(x) <= key(ys[0]) {
      WithKeyCons(x, ys, key, v);
    } else {
      var h, t := ys[0], ys[1..];
      var rest := Insert(x, t, key);
      assert Insert(x, ys, key) == [h] + rest;
      WithKeyCons(h, rest, key, v);
      InsertWithKey(x, t, key, v);
      WithKeyCons(h, t, key, v);
      assert ys == [h] + t;
      var xs: seq<T> := if key(x) == v then [x] else [];
      var hs: seq<T> := if key(h) == v then [h] else [];
      assert hs + xs == xs + hs;
      assert hs + (xs + WithKey(t, key, v)) == xs + (hs + WithKey(t, key, v));
    }
  }

  /** Stability: among the elements with any one key, the sort keeps the input order. */
  lemma {:induction false} SortStable<T>(s: seq<T>, key: T -> int, v: int)
    ensures WithKey(SortBy(s, key), key, v) == WithKey(s, key, v)
  {
    if s != [] {
      SortStable(s[1..], key, v);
      InsertWithKey(s[0], SortBy(s[1..], key), key, v);
    }
  }

  /** Sorting an array that is already sorted leaves it as it is. */
  lemma {:induction false} SortSorted<T>(s: seq<T>, key: T -> int)
    requires SortedBy(s, key)
    ensures SortBy(s, key) == s
  {
    if s != [] {
      assert SortedBy(s[1..], key);
      SortSorted(s[1..], key);
      assert s == [s[0]] + s[1..];
    }
  }

  /** Sorting twice is sorting once: the second sort of the same nodes changes nothing. */
  lemma SortIdempotent<T>(s: seq<T>, key: T -> int)
    ensures SortBy(SortBy(s, key), key) == SortBy(s, key)
  {
    SortSorted(SortBy(s, key), key);
  }
}
