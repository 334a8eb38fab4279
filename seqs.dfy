/**
 * Folds and filters over sequences in the order JavaScript's `reduce` and `filter` use:
 * left to right, so each is defined by peeling off the LAST element.
 */
module Seqs {
  import opened Wrappers

  /** `s.reduce((acc, x) => acc + f(x), 0)`. */
  function SumOf<T>(s: seq<T>, f: T -> int): int
  {
    if s == [] then 0 else SumOf(s[..|s| - 1], f) + f(s[|s| - 1])
  }

  /** `s.filter(p)`. */
  function Filter<T>(s: seq<T>, p: T -> bool): (r: seq<T>)
    ensures |r| <= |s|
    ensures forall i :: 0 <= i < |r| ==> r[i] in s && p(r[i])
    ensures forall i :: 0 <= i < |s| && p(s[i]) ==> s[i] in r
  {
    if s == [] then [] else Filter(s[..|s| - 1], p) + (if p(s[|s| - 1]) then [s[|s| - 1]] else [])
  }

  /** `s.map(f)`, or a `forEach` loop pushing `f(x)` for every `x`. */
  function MapOf<A, B>(s: seq<A>, f: A -> B): (r: seq<B>)
    ensures |r| == |s|
    ensures forall i :: 0 <= i < |s| ==> r[i] == f(s[i])
  {
    if s == [] then [] else MapOf(s[..|s| - 1], f) + [f(s[|s| - 1])]
  }

  /** Pushing onto a concatenation pushes onto its second part. */
  lemma {:induction false} PushOntoAppend<T>(a: seq<T>, b: seq<T>, x: T)
    ensures (a + b) + [x] == a + (b + [x])
  {
  }

  /** One more step of a `forEach` loop that pushes `f(x)`. */
  lemma {:induction false} MapPrefixSnoc<A, B>(s: seq<A>, k: int, f: A -> B)
    requires 0 <= k < |s|
    ensures MapOf(s[..k + 1], f) == MapOf(s[..k], f) + [f(s[k])]
  {
    assert s[..k + 1][..k] == s[..k];
  }

  /** Concatenating two mapped sequences: the first one's images, then the second one's. */
  lemma {:induction false} MapAppendAt<A, B, C>(a: seq<A>, f: A -> C, b: seq<B>, g: B -> C)
    ensures |MapOf(a, f) + MapOf(b, g)| == |a| + |b|
    ensures forall i :: 0 <= i < |a| ==> (MapOf(a, f) + MapOf(b, g))[i] == f(a[i])
    ensures forall i :: 0 <= i < |b| ==> (MapOf(a, f) + MapOf(b, g))[|a| + i] == g(b[i])
  {
    var x, y := MapOf(a, f), MapOf(b, g);
    forall i | 0 <= i < |b| ensures (x + y)[|a| + i] == g(b[i]) {
      assert (x + y)[|x| + i] == y[i];
    }
  }

  /** A filter every element passes keeps the whole sequence. */
  lemma {:induction false} FilterAll<T>(s: seq<T>, p: T -> bool)
    requires forall i :: 0 <= i < |s| ==> p(s[i])
    ensures Filter(s, p) == s
  {
    if s != [] {
      var init := s[..|s| - 1];
      forall i | 0 <= i < |init| ensures p(init[i]) {
        assert init[i] == s[i];
      }
      FilterAll(init, p);
      assert s == init + [s[|s| - 1]];
      FilterSnoc(init, s[|s| - 1], p);
    }
  }

  /** The first index at or after k whose element satisfies p. */
  function FirstIndexFrom<T>(s: seq<T>, p: T -> bool, k: nat): (r: Option<nat>)
    requires k <= |s|
    ensures r.Some? ==> k <= r.value < |s| && p(s[r.value]) && forall j :: k <= j < r.value ==> !p(s[j])
    ensures r.None? ==> forall j :: k <= j < |s| ==> !p(s[j])
    decreases |s| - k
  {
    if k == |s| then None else if p(s[k]) then Some(k) else FirstIndexFrom(s, p, k + 1)
  }

  /** `s.findIndex(p)`, with None for -1. */
  function FirstIndex<T>(s: seq<T>, p: T -> bool): (r: Option<nat>)
    ensures r.Some? ==> r.value < |s| && p(s[r.value]) && forall j :: 0 <= j < r.value ==> !p(s[j])
    ensures r.None? <==> forall j :: 0 <= j < |s| ==> !p(s[j])
  {
    FirstIndexFrom(s, p, 0)
  }

  /** `s.find(p)`, with None for `undefined`: the element at the first index that satisfies p. */
  function FirstOf<T>(s: seq<T>, p: T -> bool): (r: Option<T>)
    ensures r.None? <==> forall j :: 0 <= j < |s| ==> !p(s[j])
    ensures r.Some? ==> exists i :: 0 <= i < |s| && s[i] == r.value && p(s[i]) && forall j :: 0 <= j < i ==> !p(s[j])
  {
    match FirstIndex(s, p)
    case None => None
    case Some(i) => Some(s[i])
  }

  /** An element satisfying p with no earlier one satisfying it is what `find` returns. */
  lemma {:induction false} FirstOfAt<T>(s: seq<T>, p: T -> bool, i: int)
    requires 0 <= i < |s| && p(s[i])
    requires forall j :: 0 <= j < i ==> !p(s[j])
    ensures FirstOf(s, p) == Some(s[i])
  {
    var k := FirstIndex(s, p);
    assert k.Some?;
  }

  /** `find` on a concatenation looks in the second part only when the first has no match. */
  lemma {:induction false} FirstOfAppend<T>(a: seq<T>, b: seq<T>, p: T -> bool)
    ensures FirstOf(a + b, p) == if FirstOf(a, p).Some? then FirstOf(a, p) else FirstOf(b, p)
  {
    var c := a + b;
    if FirstOf(a, p).Some? {
      var i :| 0 <= i < |a| && a[i] == FirstOf(a, p).value && p(a[i]) && forall j :: 0 <= j < i ==> !p(a[j]);
      assert c[i] == a[i];
      forall j | 0 <= j < i ensures !p(c[j]) {
        assert c[j] == a[j];
      }
      FirstOfAt(c, p, i);
    } else if FirstOf(b, p).Some? {
      var i :| 0 <= i < |b| && b[i] == FirstOf(b, p).value && p(b[i]) && forall j :: 0 <= j < i ==> !p(b[j]);
      assert c[|a| + i] == b[i];
      forall j | 0 <= j < |a| + i ensures !p(c[j]) {
        if j < |a| {
          assert c[j] == a[j];
        } else {
          assert c[j] == b[j - |a|];
        }
      }
      FirstOfAt(c, p, |a| + i);
    } else {
      forall j | 0 <= j < |c| ensures !p(c[j]) {
        if j < |a| {
          assert c[j] == a[j];
        } else {
          assert c[j] == b[j - |a|];
        }
      }
    }
  }

  /** The predicate of a search within a filter: passing the filter and matching. */
  function Both<T>(p: T -> bool, q: T -> bool): T -> bool
  {
    (x: T) => p(x) && q(x)
  }

  /** `s.filter(p).find(q)` finds the first element of s that passes both. */
  lemma {:induction false} FirstOfFilter<T>(s: seq<T>, p: T -> bool, q: T -> bool)
    ensures FirstOf(Filter(s, p), q) == FirstOf(s, Both(p, q))
  {
    if s != [] {
      var init, x := s[..|s| - 1], s[|s| - 1];
      FirstOfFilter(init, p, q);
      assert s == init + [x];
      var e := if p(x) then [x] else [];
      assert Filter(s, p) == Filter(init, p) + e;
      FirstOfAppend(Filter(init, p), e, q);
      FirstOfAppend(init, [x], Both(p, q));
      if p(x) && q(x) {
        FirstOfAt(e, q, 0);
        FirstOfAt([x], Both(p, q), 0);
      }
    }
  }

  /** `s.filter(p).length`. */
  function Count<T>(s: seq<T>, p: T -> bool): nat
  {
    |Filter(s, p)|
  }

  lemma {:induction false} SumSnoc<T>(s: seq<T>, x: T, f: T -> int)
    ensures SumOf(s + [x], f) == SumOf(s, f) + f(x)
  {
    assert (s + [x])[..|s + [x]| - 1] == s;
  }

  lemma {:induction false} FilterSnoc<T>(s: seq<T>, x: T, p: T -> bool)
    ensures Filter(s + [x], p) == Filter(s, p) + (if p(x) then [x] else [])
  {
    assert (s + [x])[..|s + [x]| - 1] == s;
  }

  lemma {:induction false} SumAppend<T>(a: seq<T>, b: seq<T>, f: T -> int)
    ensures SumOf(a + b, f) == SumOf(a, f) + SumOf(b, f)
  {
    if b == [] {
      assert a + b == a;
    } else {
      var b' := b[..|b| - 1];
      assert a + b == (a + b') + [b[|b| - 1]];
      assert b == b' + [b[|b| - 1]];
      SumAppend(a, b', f);
      SumSnoc(a + b', b[|b| - 1], f);
      SumSnoc(b', b[|b| - 1], f);
    }
  }

  lemma {:induction false} FilterAppend<T>(a: seq<T>, b: seq<T>, p: T -> bool)
    ensures Filter(a + b, p) == Filter(a, p) + Filter(b, p)
  {
    if b == [] {
      assert a + b == a;
    } else {
      var b' := b[..|b| - 1];
      assert a + b == (a + b') + [b[|b| - 1]];
      assert b == b' + [b[|b| - 1]];
      FilterAppend(a, b', p);
      FilterSnoc(a + b', b[|b| - 1], p);
      FilterSnoc(b', b[|b| - 1], p);
    }
  }

  /** The first element can be peeled off as well. */
  lemma {:induction false} SumCons<T>(x: T, s: seq<T>, f: T -> int)
    ensures SumOf([x] + s, f) == f(x) + SumOf(s, f)
  {
    SumAppend([x], s, f);
    assert [x][..0] == [];
  }

  /** Taking one summand out of the middle. */
  lemma {:induction false} SumRemove<T>(b: seq<T>, j: int, f: T -> int)
    requires 0 <= j < |b|
    ensures SumOf(b, f) == f(b[j]) + SumOf(b[..j] + b[j + 1..], f)
  {
    var left, right := b[..j], b[j + 1..];
    assert b == (left + [b[j]]) + right;
    SumAppend(left + [b[j]], right, f);
    SumSnoc(left, b[j], f);
    SumAppend(left, right, f);
  }

  /** Replacing one summand changes the sum by the difference. */
  lemma {:induction false} SumUpdate<T>(s: seq<T>, i: int, x: T, f: T -> int)
    requires 0 <= i < |s|
    ensures SumOf(s[i := x], f) == SumOf(s, f) - f(s[i]) + f(x)
  {
    var t := s[i := x];
    SumRemove(s, i, f);
    SumRemove(t, i, f);
    assert t[..i] == s[..i] && t[i + 1..] == s[i + 1..];
  }

  /** A sum does not depend on the order of the summands. */
  lemma {:induction false} SumPermutation<T>(a: seq<T>, b: seq<T>, f: T -> int)
    requires multiset(a) == multiset(b)
    ensures SumOf(a, f) == SumOf(b, f)
  {
    if a == [] {
      assert |b| == |multiset(b)| == 0;
    } else {
      var x := a[0];
      assert x in multiset(b);
      var j :| 0 <= j < |b| && b[j] == x;
      var b' := b[..j] + b[j + 1..];
      assert b == b[..j] + [x] + b[j + 1..];
      assert multiset(b') == multiset(b) - multiset{x};
      assert a == [x] + a[1..];
      assert multiset(a[1..]) == multiset(a) - multiset{x};
      SumPermutation(a[1..], b', f);
      SumCons(x, a[1..], f);
      SumRemove(b, j, f);
    }
  }

  /** Summing a function that is zero outside p is summing over the filtered sequence. */
  lemma {:induction false} SumFilter<T>(s: seq<T>, p: T -> bool, f: T -> int)
    requires forall i :: 0 <= i < |s| && !p(s[i]) ==> f(s[i]) == 0
    ensures SumOf(Filter(s, p), f) == SumOf(s, f)
  {
    if s != [] {
      var s' := s[..|s| - 1];
      var x := s[|s| - 1];
      assert s == s' + [x];
      assert forall i :: 0 <= i < |s'| ==> s'[i] == s[i];
      SumFilter(s', p, f);
      if p(x) {
        SumSnoc(Filter(s', p), x, f);
      } else {
        assert Filter(s, p) == Filter(s', p);
        assert f(s[|s| - 1]) == 0;
        assert SumOf(s, f) == SumOf(s', f) + f(x);
      }
    }
  }

  /** Two sequences whose summands agree position by position have the same sum. */
  lemma {:induction false} SumPointwise<A, B>(a: seq<A>, f: A -> int, b: seq<B>, g: B -> int)
    requires |a| == |b|
    requires forall i :: 0 <= i < |a| ==> f(a[i]) == g(b[i])
    ensures SumOf(a, f) == SumOf(b, g)
  {
    if a != [] {
      SumPointwise(a[..|a| - 1], f, b[..|b| - 1], g);
    }
  }

  /** An element at two positions occurs at least twice. */
  lemma {:induction false} CountTwo<T>(s: seq<T>, i: int, j: int)
    requires 0 <= i < j < |s| && s[i] == s[j]
    ensures multiset(s)[s[i]] >= 2
  {
    assert s == s[..j] + [s[j]] + s[j + 1..];
    assert s[i] in s[..j];
  }

  /** An element that occurs at least twice sits at two positions. */
  lemma {:induction false} TwoPositions<T>(s: seq<T>, x: T)
    requires multiset(s)[x] >= 2
    ensures exists p, q :: 0 <= p < q < |s| && s[p] == x && s[q] == x
  {
    assert s == [s[0]] + s[1..];
    if s[0] == x {
      assert multiset(s[1..])[x] >= 1;
      assert x in s[1..];
      var q :| 0 <= q < |s[1..]| && s[1..][q] == x;
      assert s[0] == x && s[q + 1] == x;
    } else {
      assert multiset(s[1..])[x] >= 2;
      TwoPositions(s[1..], x);
      var p, q :| 0 <= p < q < |s[1..]| && s[1..][p] == x && s[1..][q] == x;
      assert s[p + 1] == x && s[q + 1] == x;
    }
  }
}
