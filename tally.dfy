/**
 * The counting idiom of the report and invoice hooks: `m.set(k, (m.get(k) || 0) + w)` for each
 * element in turn, on a JavaScript `Map` (see OrderedMap). `Tally` is the map after a whole
 * sequence; the lemmas say which keys it holds, what each value is and what the values sum to.
 */
module Tally {
  import opened Wrappers
  import opened Seqs
  import opened OrderedMap

  /** A count read as itself, for summing the values of a map of counts. */
  function Itself(v: int): int { v }

  /** `m.set(k, (m.get(k) || 0) + w)`. */
  function AddTo<K(==)>(m: Entries<K, int>, k: K, w: int): Entries<K, int>
  {
    Set(m, k, Get(m, k).GetOr(0) + w)
  }

  /** The map after adding `w(x)` under `key(x)` for every x of s, left to right. */
  function Tally<T, K(==)>(m: Entries<K, int>, s: seq<T>, key: T -> K, w: T -> int): Entries<K, int>
  {
    if s == [] then m
    else
      var last := s[|s| - 1];
      AddTo(Tally(m, s[..|s| - 1], key, w), key(last), w(last))
  }

  /** The elements of s filed under k. */
  function Under<T, K(==)>(s: seq<T>, key: T -> K, k: K): seq<T>
  {
    Filter(s, (x: T) => key(x) == k)
  }

  lemma {:induction false} UnderSnoc<T, K>(s: seq<T>, x: T, key: T -> K, k: K)
    ensures Under(s + [x], key, k) == Under(s, key, k) + (if key(x) == k then [x] else [])
  {
    FilterSnoc(s, x, (y: T) => key(y) == k);
  }

  /** Tallying keeps the keys distinct and keeps every key already present at its position. */
  lemma {:induction false} TallyShape<T, K>(m: Entries<K, int>, s: seq<T>, key: T -> K, w: T -> int)
    requires DistinctKeys(m)
    ensures DistinctKeys(Tally(m, s, key, w))
    ensures |Tally(m, s, key, w)| >= |m|
    ensures forall i :: 0 <= i < |m| ==> Tally(m, s, key, w)[i].0 == m[i].0
  {
    if s != [] {
      var init := s[..|s| - 1];
      var last := s[|s| - 1];
      TallyShape(m, init, key, w);
      var prev := Tally(m, init, key, w);
      SetAt(prev, key(last), Get(prev, key(last)).GetOr(0) + w(last));
    }
  }

  /** `get(k)` after one `set(k, (get(k) || 0) + w)`. */
  lemma {:induction false} AddToGetSame<K>(m: Entries<K, int>, k: K, w: int)
    requires DistinctKeys(m)
    ensures Get(AddTo(m, k, w), k) == Some(Get(m, k).GetOr(0) + w)
  {
    var v := Get(m, k).GetOr(0) + w;
    var r := Set(m, k, v);
    SetAt(m, k, v);
    assert Get(r, k) == Some(v);
    assert AddTo(m, k, w) == r;
  }

  /** `get(k')` for any other key is left alone. */
  lemma {:induction false} AddToGetOther<K>(m: Entries<K, int>, k: K, w: int, k': K)
    requires k' != k
    ensures Get(AddTo(m, k, w), k') == Get(m, k')
  {
    var v := Get(m, k).GetOr(0) + w;
    var r := Set(m, k, v);
    GetSetOther(m, k, v, k');
    assert Get(r, k') == Get(m, k');
    assert AddTo(m, k, w) == r;
  }

  /**
   * After tallying, a key is present exactly when it was before or some element is filed under
   * it, and its value is its old value (0 when new) plus the weights of the elements under it.
   */
  lemma {:induction false} TallyValue<T, K>(m: Entries<K, int>, s: seq<T>, key: T -> K, w: T -> int, k: K)
    requires DistinctKeys(m)
    ensures HasKey(Tally(m, s, key, w), k) <==> HasKey(m, k) || |Under(s, key, k)| > 0
    ensures Get(Tally(m, s, key, w), k).GetOr(0) == Get(m, k).GetOr(0) + SumOf(Under(s, key, k), w)
  {
    if s != [] {
      var init := s[..|s| - 1];
      var last := s[|s| - 1];
      assert s == init + [last];
      TallyValue(m, init, key, w, k);
      TallyShape(m, init, key, w);
      var prev := Tally(m, init, key, w);
      var r := AddTo(prev, key(last), w(last));
      assert Tally(m, s, key, w) == r;
      UnderSnoc(init, last, key, k);
      if key(last) == k {
        AddToGetSame(prev, k, w(last));
        SumSnoc(Under(init, key, k), last, w);
        assert Get(r, k).GetOr(0) == Get(prev, k).GetOr(0) + w(last);
      } else {
        AddToGetOther(prev, key(last), w(last), k);
        assert Under(s, key, k) == Under(init, key, k);
      }
    }
  }

  /** One `set(k, (get(k) || 0) + w)` adds w to the sum of the values. */
  lemma {:induction false} AddToSum<K>(m: Entries<K, int>, k: K, w: int)
    requires DistinctKeys(m)
    ensures ValueSum(AddTo(m, k, w), Itself) == ValueSum(m, Itself) + w
  {
    var before := Get(m, k).GetOr(0);
    var r := Set(m, k, before + w);
    assert AddTo(m, k, w) == r;
    ValueSumSet(m, k, before + w, Itself);
    assert (match Get(m, k) case Some(x) => Itself(x) case None => 0) == before;
  }

  /** The values of a tally sum to the old values plus all the weights. */
  lemma {:induction false} TallySum<T, K>(m: Entries<K, int>, s: seq<T>, key: T -> K, w: T -> int)
    requires DistinctKeys(m)
    ensures ValueSum(Tally(m, s, key, w), Itself) == ValueSum(m, Itself) + SumOf(s, w)
  {
    if s != [] {
      var init := s[..|s| - 1];
      var last := s[|s| - 1];
      TallySum(m, init, key, w);
      TallyShape(m, init, key, w);
      var prev := Tally(m, init, key, w);
      assert Tally(m, s, key, w) == AddTo(prev, key(last), w(last));
      AddToSum(prev, key(last), w(last));
    }
  }

  /** With non-negative weights, a tally of non-negative values stays non-negative. */
  lemma {:induction false} TallyNonNegative<T, K>(m: Entries<K, int>, s: seq<T>, key: T -> K, w: T -> int)
    requires forall i :: 0 <= i < |m| ==> m[i].1 >= 0
    requires forall i :: 0 <= i < |s| ==> w(s[i]) >= 0
    ensures forall i :: 0 <= i < |Tally(m, s, key, w)| ==> Tally(m, s, key, w)[i].1 >= 0
  {
    if s != [] {
      var init := s[..|s| - 1];
      var last := s[|s| - 1];
      assert forall i :: 0 <= i < |init| ==> w(init[i]) >= 0 by {
        assert forall i :: 0 <= i < |init| ==> init[i] == s[i];
      }
      TallyNonNegative(m, init, key, w);
      var prev := Tally(m, init, key, w);
      GetNonNegative(prev, key(last));
      var v := Get(prev, key(last)).GetOr(0) + w(last);
      SetNonNegative(prev, key(last), v);
      assert Tally(m, s, key, w) == Set(prev, key(last), v);
    }
  }

  lemma GetNonNegative<K>(m: Entries<K, int>, k: K)
    requires forall i :: 0 <= i < |m| ==> m[i].1 >= 0
    ensures Get(m, k).GetOr(0) >= 0
  {
    if HasKey(m, k) {
      assert m[Find(m, k).value].1 >= 0;
    }
  }

  /** Setting a non-negative value keeps every value of the map non-negative. */
  lemma SetNonNegative<K>(m: Entries<K, int>, k: K, v: int)
    requires forall i :: 0 <= i < |m| ==> m[i].1 >= 0
    requires v >= 0
    ensures forall i :: 0 <= i < |Set(m, k, v)| ==> Set(m, k, v)[i].1 >= 0
  {
  }
}
