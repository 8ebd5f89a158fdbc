/**
 * Generic sequence operations behind JavaScript's `Array.prototype.filter`
 * and `slice(0, n)`, with the facts the component proofs rely on.
 */
module Sequences {

  function Min(a: int, b: int): int
  {
    if a <= b then a else b
  }

  /** `a` is `b` with some elements deleted: an order-preserving subsequence. */
  predicate IsSubseq<T(==)>(a: seq<T>, b: seq<T>)
    decreases |b|
  {
    if a == [] then true
    else if b == [] then false
    else (a[0] == b[0] && IsSubseq(a[1..], b[1..])) || IsSubseq(a, b[1..])
  }

  /** `s.filter(p)`: the elements of `s` satisfying `p`, in their order. */
  function Filter<T(==)>(p: T -> bool, s: seq<T>): (r: seq<T>)
    ensures |r| <= |s|
    ensures forall i :: 0 <= i < |r| ==> p(r[i]) && r[i] in s
    ensures forall i :: 0 <= i < |s| && p(s[i]) ==> s[i] in r
    ensures forall i :: 0 <= i < |s| ==> multiset(r)[s[i]] == if p(s[i]) then multiset(s)[s[i]] else 0
    ensures IsSubseq(r, s)
  {
    if s == [] then []
    else
      assert s == [s[0]] + s[1..];
      if p(s[0]) then
        var rest := Filter(p, s[1..]);
        assert ([s[0]] + rest)[1..] == rest;
        [s[0]] + rest
      else Filter(p, s[1..])
  }

  /** `s.slice(0, n)`: the first `n` elements, or all of them if there are fewer. */
  function Take<T>(s: seq<T>, n: nat): (r: seq<T>)
    ensures |r| == Min(n, |s|)
    ensures r <= s
  {
    if |s| <= n then s else s[..n]
  }

  /** Filtering distributes over concatenation. */
  lemma {:induction false} FilterConcat<T>(p: T -> bool, a: seq<T>, b: seq<T>)
    ensures Filter(p, a + b) == Filter(p, a) + Filter(p, b)
  {
    if a == [] {
      assert a + b == b;
    } else {
      assert (a + b)[0] == a[0];
      assert (a + b)[1..] == a[1..] + b;
      FilterConcat(p, a[1..], b);
    }
  }

  /** A filter that keeps everything is the identity. */
  lemma {:induction false} FilterKeepsAll<T>(p: T -> bool, s: seq<T>)
    requires forall i :: 0 <= i < |s| ==> p(s[i])
    ensures Filter(p, s) == s
  {
    if s != [] {
      FilterKeepsAll(p, s[1..]);
    }
  }

  /** A filter that keeps nothing yields the empty sequence. */
  lemma {:induction false} FilterDropsAll<T>(p: T -> bool, s: seq<T>)
    requires forall i :: 0 <= i < |s| ==> !p(s[i])
    ensures Filter(p, s) == []
  {
    if s != [] {
      FilterDropsAll(p, s[1..]);
    }
  }

  /** Two predicates that agree on the elements of `s` filter it alike. */
  lemma {:induction false} FilterCongruent<T>(p: T -> bool, q: T -> bool, s: seq<T>)
    requires forall i :: 0 <= i < |s| ==> p(s[i]) == q(s[i])
    ensures Filter(p, s) == Filter(q, s)
  {
    if s != [] {
      FilterCongruent(p, q, s[1..]);
    }
  }

  /**
   * Filtering the first `k` elements gives a prefix of filtering all of them,
   * and that prefix is no longer than `k`.
   */
  lemma FilterOfPrefix<T>(p: T -> bool, s: seq<T>, k: nat)
    requires k <= |s|
    ensures Filter(p, s[..k]) <= Filter(p, s)
    ensures |Filter(p, s[..k])| <= k
  {
    assert s == s[..k] + s[k..];
    FilterConcat(p, s[..k], s[k..]);
  }
}
