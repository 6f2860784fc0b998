/** Sequence operations the source takes from `Vec`: `retain` and the
    stable `sort_by_key`. */
module Seqs {

  /** `Vec::retain(keep)`: the elements satisfying `keep`, in their order. */
  function Retain<T>(s: seq<T>, keep: T -> bool): (r: seq<T>)
    ensures |r| <= |s|
    ensures forall k :: 0 <= k < |r| ==> r[k] in s && keep(r[k])
    ensures forall k :: 0 <= k < |s| && keep(s[k]) ==> s[k] in r
  {
    if s == [] then [] else (if keep(s[0]) then [s[0]] else []) + Retain(s[1..], keep)
  }

  /** Retain works piecewise, so the kept elements keep their relative order. */
  lemma {:induction false} RetainAppend<T>(a: seq<T>, b: seq<T>, keep: T -> bool)
    ensures Retain(a + b, keep) == Retain(a, keep) + Retain(b, keep)
  {
    if a == [] {
      assert a + b == b;
    } else {
      assert (a + b)[1..] == a[1..] + b;
      RetainAppend(a[1..], b, keep);
    }
  }

  /** Nothing is removed when every element is kept. */
  lemma {:induction false} RetainAll<T>(s: seq<T>, keep: T -> bool)
    requires forall k :: 0 <= k < |s| ==> keep(s[k])
    ensures Retain(s, keep) == s
  {
    if s != [] {
      RetainAll(s[1..], keep);
    }
  }

  ghost predicate SortedBy<T>(s: seq<T>, key: T -> int)
  {
    forall i, j :: 0 <= i < j < |s| ==> key(s[i]) <= key(s[j])
  }

  lemma SortedCons<T>(h: T, s: seq<T>, key: T -> int)
    requires SortedBy(s, key)
    requires forall k :: 0 <= k < |s| ==> key(h) <= key(s[k])
    ensures SortedBy([h] + s, key)
  {
    var r := [h] + s;
    forall i, j | 0 <= i < j < |r| ensures key(r[i]) <= key(r[j]) {
      assert r[j] == s[j - 1];
      if i > 0 { assert r[i] == s[i - 1]; }
    }
  }

  /** A lower bound on the keys of a sequence holds for any rearrangement of it. */
  lemma BoundThroughPermutation<T>(lo: int, r: seq<T>, pool: seq<T>, key: T -> int)
    requires multiset(r) == multiset(pool)
    requires forall k :: 0 <= k < |pool| ==> lo <= key(pool[k])
    ensures forall k :: 0 <= k < |r| ==> lo <= key(r[k])
  {
    forall k | 0 <= k < |r| ensures lo <= key(r[k]) {
      assert r[k] in multiset(r);
      var i :| 0 <= i < |pool| && pool[i] == r[k];
    }
  }

  /** Inserts `x` before the first element whose key is not smaller. */
  function InsertByKey<T>(x: T, s: seq<T>, key: T -> int): (r: seq<T>)
    ensures multiset(r) == multiset(s) + multiset{x}
    ensures |r| == |s| + 1
  {
    if s == [] || key(x) <= key(s[0]) then [x] + s
    else
      assert s == [s[0]] + s[1..];
      [s[0]] + InsertByKey(x, s[1..], key)
  }

  /** Inserting into a sorted sequence keeps it sorted. */
  lemma {:induction false} InsertByKeySorted<T>(x: T, s: seq<T>, key: T -> int)
    requires SortedBy(s, key)
    ensures SortedBy(InsertByKey(x, s, key), key)
  {
    if s == [] || key(x) <= key(s[0]) {
      SortedCons(x, s, key);
    } else {
      var tail := InsertByKey(x, s[1..], key);
      InsertByKeySorted(x, s[1..], key);
      assert multiset(tail) == multiset(s[1..] + [x]);
      BoundThroughPermutation(key(s[0]), tail, s[1..] + [x], key);
      SortedCons(s[0], tail, key);
    }
  }

  /** `slice::sort_by_key`: a stable insertion sort. */
  function SortByKey<T>(s: seq<T>, key: T -> int): (r: seq<T>)
    ensures multiset(r) == multiset(s)
    ensures SortedBy(r, key)
  {
    if s == [] then []
    else
      assert s == [s[0]] + s[1..];
      InsertByKeySorted(s[0], SortByKey(s[1..], key), key);
      InsertByKey(s[0], SortByKey(s[1..], key), key)
  }

  /** The test "has key `v`". */
  function HasKey<T>(key: T -> int, v: int): T -> bool
  {
    x => key(x) == v
  }

  /** Insertion puts `x` ahead of every element with its key, and moves
      no other element. */
  lemma {:induction false} InsertByKeyKeepsOrder<T>(x: T, s: seq<T>, key: T -> int, v: int)
    ensures Retain(InsertByKey(x, s, key), HasKey(key, v)) ==
              (if key(x) == v then [x] else []) + Retain(s, HasKey(key, v))
  {
    if s == [] || key(x) <= key(s[0]) {
      assert ([x] + s)[1..] == s;
    } else {
      InsertByKeyKeepsOrder(x, s[1..], key, v);
      var r := [s[0]] + InsertByKey(x, s[1..], key);
      assert r[1..] == InsertByKey(x, s[1..], key);
    }
  }

  /** `sort_by_key` is stable: the elements with any one key come out in
      the order they went in. */
  lemma {:induction false} SortByKeyStable<T>(s: seq<T>, key: T -> int, v: int)
    ensures Retain(SortByKey(s, key), HasKey(key, v)) == Retain(s, HasKey(key, v))
  {
    if s != [] {
      SortByKeyStable(s[1..], key, v);
      InsertByKeyKeepsOrder(s[0], SortByKey(s[1..], key), key, v);
    }
  }
}
