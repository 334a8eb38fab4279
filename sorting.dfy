/**
 * `Array.prototype.sort` with a comparator of the form `(a, b) => key(b) - key(a)`, which
 * orders newest first: modelled as insertion sort, which puts each element after every
 * element whose key is at least its own (as JavaScript's stable sort does).
 */
module Sorting {

  predicate SortedDesc<T>(s: seq<T>, key: T -> int)
  {
    forall i, j :: 0 <= i < j < |s| ==> key(s[i]) >= key(s[j])
  }

  function Insert<T>(x: T, s: seq<T>, key: T -> int): (r: seq<T>)
    ensures multiset(r) == multiset(s) + multiset{x}
    ensures |r| == |s| + 1
  {
    if s == [] then [x]
    else if key(s[0]) < key(x) then [x] + s
    else
      assert s == [s[0]] + s[1..];
      [s[0]] + Insert(x, s[1..], key)
  }

  lemma {:induction false} InsertBounded<T>(x: T, s: seq<T>, key: T -> int, b: int)
    requires key(x) <= b
    requires forall i :: 0 <= i < |s| ==> key(s[i]) <= b
    ensures forall i :: 0 <= i < |s| + 1 ==> key(Insert(x, s, key)[i]) <= b
  {
    if s != [] && key(s[0]) >= key(x) {
      InsertBounded(x, s[1..], key, b);
    }
  }

  lemma {:induction false} InsertSorted<T>(x: T, s: seq<T>, key: T -> int)
    requires SortedDesc(s, key)
    ensures SortedDesc(Insert(x, s, key), key)
  {
    if s != [] && key(s[0]) >= key(x) {
      var rest := Insert(x, s[1..], key);
      InsertSorted(x, s[1..], key);
      InsertBounded(x, s[1..], key, key(s[0]));
      var r := [s[0]] + rest;
      forall i, j | 0 <= i < j < |r| ensures key(r[i]) >= key(r[j]) {
        if i > 0 {
          assert r[i] == rest[i - 1] && r[j] == rest[j - 1];
        } else {
          assert r[j] == rest[j - 1];
        }
      }
    }
  }

  /** The sorted copy (`sort` returns the array it reordered). */
  function SortDesc<T>(s: seq<T>, key: T -> int): (r: seq<T>)
    ensures SortedDesc(r, key)
    ensures multiset(r) == multiset(s)
    ensures |r| == |s|
  {
    if s == [] then []
    else
      assert s == s[..|s| - 1] + [s[|s| - 1]];
      var sorted := SortDesc(s[..|s| - 1], key);
      InsertSorted(s[|s| - 1], sorted, key);
      Insert(s[|s| - 1], sorted, key)
  }

  /** In a sequence sorted newest first, every element past position m is no newer than those before it. */
  lemma PrefixDominates<T>(t: seq<T>, key: T -> int, m: nat)
    requires SortedDesc(t, key) && m <= |t|
    ensures forall x, i :: x in multiset(t[m..]) && 0 <= i < m ==> key(x) <= key(t[i])
  {
    forall x, i | x in multiset(t[m..]) && 0 <= i < m
      ensures key(x) <= key(t[i])
    {
      assert x in t[m..];
      var j :| 0 <= j < |t[m..]| && t[m..][j] == x;
      assert t[m + j] == x;
    }
  }

  /** `sort(...).slice(0, n)`. */
  function Newest<T>(s: seq<T>, key: T -> int, n: nat): seq<T>
  {
    SortDesc(s, key)[..if n < |s| then n else |s|]
  }

  /**
   * `sort(...).slice(0, n)` keeps the n newest, newest first: every element left out has a key
   * no greater than that of any element kept.
   */
  lemma NewestAreNewest<T>(s: seq<T>, key: T -> int, n: nat)
    ensures |Newest(s, key, n)| == if n < |s| then n else |s|
    ensures SortedDesc(Newest(s, key, n), key)
    ensures multiset(Newest(s, key, n)) <= multiset(s)
    ensures forall x, i :: x in multiset(s) - multiset(Newest(s, key, n)) && 0 <= i < |Newest(s, key, n)| ==>
              key(x) <= key(Newest(s, key, n)[i])
  {
    var t := SortDesc(s, key);
    var m := if n < |s| then n else |s|;
    var r := t[..m];
    assert r == Newest(s, key, n) && |r| == m;
    assert t == r + t[m..];
    assert multiset(t) == multiset(r) + multiset(t[m..]);
    PrefixDominates(t, key, m);
    forall x, i | x in multiset(s) - multiset(r) && 0 <= i < |r|
      ensures key(x) <= key(r[i])
    {
      assert multiset(s)[x] == multiset(r)[x] + multiset(t[m..])[x];
      assert x in multiset(t[m..]);
      assert r[i] == t[i];
    }
  }
}
