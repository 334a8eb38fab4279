/**
 * JavaScript's `Map`: entries in insertion order, at most one per key. `set` on a present key
 * replaces its value in place; on a new key it appends an entry.
 */
module OrderedMap {
  import opened Wrappers
  import opened Seqs

  type Entries<K, V> = seq<(K, V)>

  predicate DistinctKeys<K(==), V>(m: Entries<K, V>)
  {
    forall i, j :: 0 <= i < j < |m| ==> m[i].0 != m[j].0
  }

  predicate HasKey<K(==), V>(m: Entries<K, V>, k: K)
  {
    exists i :: 0 <= i < |m| && m[i].0 == k
  }

  /** The position of the first entry at or after i whose key is k. */
  function FindFrom<K(==), V>(m: Entries<K, V>, k: K, i: nat): (r: Option<nat>)
    requires i <= |m|
    decreases |m| - i
    ensures r.Some? ==> i <= r.value < |m| && m[r.value].0 == k
    ensures r.Some? ==> forall j :: i <= j < r.value ==> m[j].0 != k
    ensures r.None? ==> forall j :: i <= j < |m| ==> m[j].0 != k
  {
    if i == |m| then None else if m[i].0 == k then Some(i) else FindFrom(m, k, i + 1)
  }

  /** The position of the first entry whose key is k: where `get` and `set` look. */
  function Find<K(==), V>(m: Entries<K, V>, k: K): (r: Option<nat>)
    ensures r.Some? ==> r.value < |m| && m[r.value].0 == k
    ensures r.Some? ==> forall j :: 0 <= j < r.value ==> m[j].0 != k
    ensures r.None? <==> !HasKey(m, k)
  {
    FindFrom(m, k, 0)
  }

  /** `m.get(k)`: the value of the first entry with key k, or undefined. */
  function Get<K(==), V>(m: Entries<K, V>, k: K): (r: Option<V>)
    ensures r.Some? <==> HasKey(m, k)
  {
    match Find(m, k)
    case Some(i) => Some(m[i].1)
    case None => None
  }

  /** `m.set(k, v)`. */
  function Set<K(==), V>(m: Entries<K, V>, k: K, v: V): (r: Entries<K, V>)
    ensures HasKey(m, k) ==> |r| == |m|
    ensures !HasKey(m, k) ==> r == m + [(k, v)]
    ensures forall i :: 0 <= i < |m| ==> r[i].0 == m[i].0
    ensures forall i :: 0 <= i < |m| && m[i].0 != k ==> r[i] == m[i]
  {
    match Find(m, k)
    case Some(i) => m[i := (k, v)]
    case None => m + [(k, v)]
  }

  /** Two maps that agree on the keys of m's positions, and where r has no k past them, find k at the same place. */
  lemma FindAgree<K, V>(m: Entries<K, V>, r: Entries<K, V>, k: K)
    requires |m| <= |r|
    requires forall i :: 0 <= i < |m| ==> r[i].0 == m[i].0
    requires forall i :: |m| <= i < |r| ==> r[i].0 != k
    ensures Find(r, k) == Find(m, k)
  {
    var a, b := Find(m, k), Find(r, k);
    if a.Some? {
      assert r[a.value].0 == k;
      assert HasKey(r, k);
    }
  }

  /** In a map with distinct keys, get returns the value stored at the key's one position. */
  lemma GetAt<K, V>(m: Entries<K, V>, i: int)
    requires DistinctKeys(m) && 0 <= i < |m|
    ensures Get(m, m[i].0) == Some(m[i].1)
  {
    assert HasKey(m, m[i].0);
    var j := Find(m, m[i].0).value;
    assert m[j].0 == m[i].0;
  }

  /** Reordering the entries keeps the keys distinct. */
  lemma DistinctKeysPermutation<K, V>(m: Entries<K, V>, r: Entries<K, V>)
    requires DistinctKeys(m) && multiset(r) == multiset(m)
    ensures DistinctKeys(r)
  {
    forall i, j | 0 <= i < j < |r| ensures r[i].0 != r[j].0 {
      assert r[i] in multiset(m) && r[j] in multiset(m);
      var p :| 0 <= p < |m| && m[p] == r[i];
      var q :| 0 <= q < |m| && m[q] == r[j];
      if p == q {
        CountTwo(r, i, j);
        TwoPositions(m, r[i]);
      }
    }
  }

  /** Whatever `get` returns is the value of an entry for that key. */
  lemma GetIsEntry<K, V>(m: Entries<K, V>, k: K)
    requires HasKey(m, k)
    ensures exists i :: 0 <= i < |m| && m[i] == (k, Get(m, k).value)
  {
    var i := Find(m, k).value;
    assert m[i] == (k, Get(m, k).value);
  }

  /** After `set(k, v)` the entry for k holds v, and keys stay distinct. */
  lemma SetAt<K, V>(m: Entries<K, V>, k: K, v: V)
    requires DistinctKeys(m)
    ensures DistinctKeys(Set(m, k, v))
    ensures forall i :: 0 <= i < |m| && m[i].0 == k ==> Set(m, k, v)[i] == (k, v)
    ensures Get(Set(m, k, v), k) == Some(v)
  {
    var r := Set(m, k, v);
    SetDistinct(m, k, v);
    GetSetSame(m, k, v);
    forall i | 0 <= i < |m| && m[i].0 == k ensures r[i] == (k, v) {
      GetAt(m, i);
    }
  }

  lemma SetDistinct<K, V>(m: Entries<K, V>, k: K, v: V)
    requires DistinctKeys(m)
    ensures DistinctKeys(Set(m, k, v))
  {
    var r := Set(m, k, v);
    forall i, j | 0 <= i < j < |r| ensures r[i].0 != r[j].0 {
      if j >= |m| {
        assert r[j].0 == k && r[i].0 == m[i].0;
      } else {
        assert r[i].0 == m[i].0 && r[j].0 == m[j].0;
      }
    }
  }

  /** `get(k)` right after `set(k, v)` gives v. */
  lemma GetSetSame<K, V>(m: Entries<K, V>, k: K, v: V)
    ensures Get(Set(m, k, v), k) == Some(v)
  {
    var r := Set(m, k, v);
    if Find(m, k).Some? {
      FindAgree(m, r, k);
    } else {
      assert r[|m|] == (k, v);
      assert HasKey(r, k);
      assert Find(r, k).value == |m|;
    }
  }

  /** `set` leaves every other key's value alone. */
  lemma GetSetOther<K, V>(m: Entries<K, V>, k: K, v: V, k': K)
    requires k' != k
    ensures Get(Set(m, k, v), k') == Get(m, k')
  {
    var r := Set(m, k, v);
    FindAgree(m, r, k');
    if Find(m, k').Some? {
      var j := Find(m, k').value;
      assert r[j] == m[j];
    }
  }

  /** The sum of f over the values. */
  function ValueSum<K, V>(m: Entries<K, V>, f: V -> int): int
  {
    SumOf(m, (e: (K, V)) => f(e.1))
  }

  /** A sequence whose summands match the values one for one has their sum. */
  lemma ValueSumPointwise<A, K, V>(a: seq<A>, g: A -> int, m: Entries<K, V>, f: V -> int)
    requires |a| == |m|
    requires forall i :: 0 <= i < |a| ==> g(a[i]) == f(m[i].1)
    ensures SumOf(a, g) == ValueSum(m, f)
  {
    var h := (e: (K, V)) => f(e.1);
    assert forall i :: 0 <= i < |a| ==> g(a[i]) == h(m[i]);
    SumPointwise(a, g, m, h);
  }

  /** `set(k, v)` changes the sum of the values by f(v) minus f of the value it replaces. */
  lemma ValueSumSet<K, V>(m: Entries<K, V>, k: K, v: V, f: V -> int)
    ensures ValueSum(Set(m, k, v), f) == ValueSum(m, f) + f(v) - (match Get(m, k) case Some(w) => f(w) case None => 0)
  {
    var g := (e: (K, V)) => f(e.1);
    match Find(m, k)
    case Some(i) =>
      SumUpdate(m, i, (k, v), g);
    case None =>
      SumSnoc(m, (k, v), g);
  }
}
