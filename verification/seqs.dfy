/**
 * Sequence operations that the stores and pages apply to their lists:
 * `Array.prototype.filter`, `Array.prototype.map`, and removal of the
 * records that carry a given key.
 */
module Seqs {

  /** How many elements of `s` satisfy `keep`, counting repeated elements each time. */
  function Count<T>(s: seq<T>, keep: T -> bool): (n: nat)
    ensures n <= |s|
  {
    if s == [] then 0 else (if keep(s[0]) then 1 else 0) + Count(s[1..], keep)
  }

  /** Appending one element adds one to the count exactly when it satisfies `keep`. */
  lemma {:induction false} CountAppend<T>(s: seq<T>, x: T, keep: T -> bool)
    ensures Count(s + [x], keep) == Count(s, keep) + (if keep(x) then 1 else 0)
  {
    if s != [] {
      assert (s + [x])[1..] == s[1..] + [x];
      CountAppend(s[1..], x, keep);
    }
  }

  /** The elements of `s` that satisfy `keep`, in their original order. With
    * `IsSubsequence(Filter(s, keep), s)` (below), the length clause makes every kept
    * element appear as often as in `s`. */
  function Filter<T>(s: seq<T>, keep: T -> bool): (r: seq<T>)
    ensures |r| == Count(s, keep)
    ensures forall i :: 0 <= i < |r| ==> r[i] in s && keep(r[i])
    ensures forall i :: 0 <= i < |s| && keep(s[i]) ==> s[i] in r
  {
    if s == [] then []
    else
      assert s == [s[0]] + s[1..];
      if keep(s[0]) then [s[0]] + Filter(s[1..], keep) else Filter(s[1..], keep)
  }

  /** `f` applied to every element of `s`, in order. */
  function Map<T, U>(s: seq<T>, f: T -> U): (r: seq<U>)
    ensures |r| == |s|
    ensures forall i :: 0 <= i < |s| ==> r[i] == f(s[i])
  {
    if s == [] then [] else [f(s[0])] + Map(s[1..], f)
  }

  /** `a` can be obtained from `b` by deleting elements: every element of `a`
    * occurs in `b`, and in the same relative order. */
  predicate IsSubsequence<T(==)>(a: seq<T>, b: seq<T>)
    decreases |b|
  {
    a == [] || (b != [] && ((a[0] == b[0] && IsSubsequence(a[1..], b[1..])) || IsSubsequence(a, b[1..])))
  }

  /** No two elements of `s` have the same key. */
  ghost predicate DistinctBy<T, K>(s: seq<T>, key: T -> K) {
    forall i, j :: 0 <= i < j < |s| ==> key(s[i]) != key(s[j])
  }

  /** No element of `s` has key `k`. */
  ghost predicate KeyAbsent<T, K>(s: seq<T>, key: T -> K, k: K) {
    forall i :: 0 <= i < |s| ==> key(s[i]) != k
  }

  lemma {:induction false} FilterIsSubsequence<T>(s: seq<T>, keep: T -> bool)
    ensures IsSubsequence(Filter(s, keep), s)
  {
    if s != [] {
      FilterIsSubsequence(s[1..], keep);
      if keep(s[0]) {
        assert ([s[0]] + Filter(s[1..], keep))[1..] == Filter(s[1..], keep);
      }
    }
  }

  /** Filtering with a predicate that every element satisfies changes nothing. */
  lemma {:induction false} FilterAllKept<T>(s: seq<T>, keep: T -> bool)
    requires forall j :: 0 <= j < |s| ==> keep(s[j])
    ensures Filter(s, keep) == s
  {
    if s != [] {
      assert s == [s[0]] + s[1..];
      FilterAllKept(s[1..], keep);
    }
  }

  lemma FilterIdempotent<T>(s: seq<T>, keep: T -> bool)
    ensures Filter(Filter(s, keep), keep) == Filter(s, keep)
  {
    var r := Filter(s, keep);
    forall j | 0 <= j < |r| ensures keep(r[j]) { }
    FilterAllKept(r, keep);
  }

  /** Two predicates that agree on every element of `s` filter it alike. */
  lemma {:induction false} FilterExtensional<T>(s: seq<T>, keep1: T -> bool, keep2: T -> bool)
    requires forall j :: 0 <= j < |s| ==> keep1(s[j]) == keep2(s[j])
    ensures Filter(s, keep1) == Filter(s, keep2)
  {
    if s != [] {
      assert s == [s[0]] + s[1..];
      FilterExtensional(s[1..], keep1, keep2);
    }
  }

  /** When only the element at `i` fails `keep`, filtering removes exactly that element. */
  lemma {:induction false} FilterDropsOne<T>(s: seq<T>, keep: T -> bool, i: nat)
    requires i < |s| && !keep(s[i])
    requires forall j :: 0 <= j < |s| && j != i ==> keep(s[j])
    ensures Filter(s, keep) == s[..i] + s[i + 1..]
  {
    var rest := s[1..];
    if i == 0 {
      forall j | 0 <= j < |rest| ensures keep(rest[j]) {
        assert rest[j] == s[j + 1];
      }
      FilterAllKept(rest, keep);
      assert s[..0] + s[1..] == rest;
    } else {
      assert keep(s[0]);
      assert rest[i - 1] == s[i];
      forall j | 0 <= j < |rest| && j != i - 1 ensures keep(rest[j]) {
        assert rest[j] == s[j + 1];
      }
      FilterDropsOne(rest, keep, i - 1);
      ConsSlices(s, i);
    }
  }

  /** Splitting around position `i` commutes with taking off the head. */
  lemma ConsSlices<T>(s: seq<T>, i: nat)
    requires 0 < i < |s|
    ensures s[..i] + s[i + 1..] == [s[0]] + (s[1..][..i - 1] + s[1..][i..])
  {
    assert s[..i] == [s[0]] + s[1..][..i - 1];
    assert s[i + 1..] == s[1..][i..];
  }

  /** Filtering cannot introduce two elements with the same key. */
  lemma {:induction false} FilterKeepsDistinct<T, K>(s: seq<T>, keep: T -> bool, key: T -> K)
    requires DistinctBy(s, key)
    ensures DistinctBy(Filter(s, keep), key)
  {
    if s != [] {
      var rest := Filter(s[1..], keep);
      FilterKeepsDistinct(s[1..], keep, key);
      if keep(s[0]) {
        forall y | y in rest ensures key(y) != key(s[0]) {
          var j :| 0 <= j < |s[1..]| && s[1..][j] == y;
          assert s[j + 1] == y;
        }
        var r := [s[0]] + rest;
        forall i, j | 0 <= i < j < |r| ensures key(r[i]) != key(r[j]) {
          if i > 0 {
            assert r[i] == rest[i - 1] && r[j] == rest[j - 1];
          } else {
            assert r[j] in rest;
          }
        }
      }
    }
  }

  /** Appending an element whose key is new keeps the keys distinct. */
  lemma AppendFreshKeepsDistinct<T, K>(s: seq<T>, x: T, key: T -> K)
    requires DistinctBy(s, key) && KeyAbsent(s, key, key(x))
    ensures DistinctBy(s + [x], key)
  {
    var r := s + [x];
    forall i, j | 0 <= i < j < |r| ensures key(r[i]) != key(r[j]) {
      if j == |s| {
        assert r[i] in s;
      }
    }
  }

  /** Prepending an element whose key is new keeps the keys distinct. */
  lemma PrependFreshKeepsDistinct<T, K>(x: T, s: seq<T>, key: T -> K)
    requires DistinctBy(s, key) && KeyAbsent(s, key, key(x))
    ensures DistinctBy([x] + s, key)
  {
    var r := [x] + s;
    forall i, j | 0 <= i < j < |r| ensures key(r[i]) != key(r[j]) {
      if i == 0 {
        assert r[j] in s;
      } else {
        assert r[i] == s[i - 1] && r[j] == s[j - 1];
      }
    }
  }

  /** The predicate "the key of this element is not `k`". */
  function KeyIsNot<T, K(==)>(key: T -> K, k: K): T -> bool {
    x => key(x) != k
  }

  /** `s.filter(x => key(x) !== k)`: every element with key `k` removed, the others kept in order. */
  function RemoveKey<T, K(==)>(s: seq<T>, key: T -> K, k: K): (r: seq<T>)
    ensures |r| == Count(s, KeyIsNot(key, k))
    ensures forall i :: 0 <= i < |r| ==> r[i] in s && key(r[i]) != k
    ensures forall i :: 0 <= i < |s| && key(s[i]) != k ==> s[i] in r
    ensures IsSubsequence(r, s)
  {
    FilterIsSubsequence(s, KeyIsNot(key, k));
    Filter(s, KeyIsNot(key, k))
  }

  lemma RemoveAbsentKey<T, K>(s: seq<T>, key: T -> K, k: K)
    requires KeyAbsent(s, key, k)
    ensures RemoveKey(s, key, k) == s
  {
    FilterAllKept(s, KeyIsNot(key, k));
  }

  /** With distinct keys, removing a present key removes exactly one element: the one at `i`. */
  lemma RemoveUniqueKey<T, K>(s: seq<T>, key: T -> K, i: nat)
    requires DistinctBy(s, key) && i < |s|
    ensures RemoveKey(s, key, key(s[i])) == s[..i] + s[i + 1..]
    ensures |RemoveKey(s, key, key(s[i]))| == |s| - 1
  {
    FilterDropsOne(s, KeyIsNot(key, key(s[i])), i);
  }

  lemma RemoveKeyIdempotent<T, K>(s: seq<T>, key: T -> K, k: K)
    ensures RemoveKey(RemoveKey(s, key, k), key, k) == RemoveKey(s, key, k)
  {
    FilterIdempotent(s, KeyIsNot(key, k));
  }

  lemma RemoveKeyKeepsDistinct<T, K>(s: seq<T>, key: T -> K, k: K)
    requires DistinctBy(s, key)
    ensures DistinctBy(RemoveKey(s, key, k), key)
  {
    FilterKeepsDistinct(s, KeyIsNot(key, k), key);
  }
}
