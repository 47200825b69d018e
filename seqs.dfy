/** The two array operations the source chains: `Array.prototype.filter` and
    `Array.prototype.map`, with the facts about them that the rest of the
    model relies on. */
module Seqs {

  /** The elements of `s` that satisfy `p`, in their original order. */
  function Filter<T>(s: seq<T>, p: T -> bool): (r: seq<T>)
    ensures |r| <= |s|
    ensures forall i :: 0 <= i < |r| ==> r[i] in s && p(r[i])
    ensures forall i :: 0 <= i < |s| && p(s[i]) ==> s[i] in r
  {
    if s == [] then []
    else (if p(s[0]) then [s[0]] else []) + Filter(s[1..], p)
  }

  /** `f` applied to every element of `s`, in order. */
  function Map<T, U>(s: seq<T>, f: T -> U): (r: seq<U>)
    ensures |r| == |s|
    ensures forall i :: 0 <= i < |s| ==> r[i] == f(s[i])
  {
    if s == [] then [] else [f(s[0])] + Map(s[1..], f)
  }

  /** Filtering works piecewise, which is what keeps the relative order of
      the kept elements. */
  lemma {:induction false} FilterAppend<T>(a: seq<T>, b: seq<T>, p: T -> bool)
    ensures Filter(a + b, p) == Filter(a, p) + Filter(b, p)
  {
    if a == [] {
      assert a + b == b;
    } else {
      assert (a + b)[1..] == a[1..] + b;
      FilterAppend(a[1..], b, p);
    }
  }

  /** A filter that rejects nothing changes nothing. */
  lemma {:induction false} FilterKeepsAll<T>(s: seq<T>, p: T -> bool)
    requires forall x :: x in s ==> p(x)
    ensures Filter(s, p) == s
  {
    if s != [] {
      FilterKeepsAll(s[1..], p);
    }
  }

  /** Two filters in a row are one filter by the conjunction `pq`. */
  lemma {:induction false} FilterFilter<T>(s: seq<T>, p: T -> bool, q: T -> bool, pq: T -> bool)
    requires forall x :: pq(x) == (p(x) && q(x))
    ensures Filter(Filter(s, p), q) == Filter(s, pq)
  {
    if s != [] {
      FilterFilter(s[1..], p, q, pq);
      if p(s[0]) {
        assert Filter(s, p) == [s[0]] + Filter(s[1..], p);
        assert Filter(s, p)[1..] == Filter(s[1..], p);
        if q(s[0]) {
          assert Filter(s, pq) == [s[0]] + Filter(s[1..], pq);
        } else {
          assert Filter(s, pq) == Filter(s[1..], pq);
        }
      } else {
        assert Filter(s, p) == Filter(s[1..], p);
        assert Filter(s, pq) == Filter(s[1..], pq);
      }
    }
  }

  /** Filtering after mapping is mapping after filtering by the composed test `pf`. */
  lemma {:induction false} FilterMap<T, U>(s: seq<T>, f: T -> U, p: U -> bool, pf: T -> bool)
    requires forall x :: pf(x) == p(f(x))
    ensures Filter(Map(s, f), p) == Map(Filter(s, pf), f)
  {
    if s != [] {
      FilterMap(s[1..], f, p, pf);
      assert Map(s, f) == [f(s[0])] + Map(s[1..], f);
      assert Map(s, f)[1..] == Map(s[1..], f);
      if pf(s[0]) {
        assert Filter(s, pf) == [s[0]] + Filter(s[1..], pf);
        assert Map(Filter(s, pf), f) == [f(s[0])] + Map(Filter(s[1..], pf), f);
      } else {
        assert Filter(s, pf) == Filter(s[1..], pf);
      }
    }
  }

  /** `s` is ordered by `key`, largest first. */
  predicate Descending<T>(s: seq<T>, key: T -> int) {
    forall i, j :: 0 <= i < j < |s| ==> key(s[i]) >= key(s[j])
  }

  /** A filter keeps a descending order descending. */
  lemma {:induction false} FilterDescending<T>(s: seq<T>, p: T -> bool, key: T -> int)
    requires Descending(s, key)
    ensures Descending(Filter(s, p), key)
  {
    if s != [] {
      FilterDescending(s[1..], p, key);
      var rest := Filter(s[1..], p);
      if p(s[0]) {
        forall j | 0 <= j < |rest| ensures key(s[0]) >= key(rest[j]) {
          assert rest[j] in s[1..];
        }
        assert Filter(s, p) == [s[0]] + rest;
      }
    }
  }

  /** Mapping keeps a descending order when the new key agrees with the old. */
  lemma MapDescending<T, U>(s: seq<T>, f: T -> U, key: T -> int, key': U -> int)
    requires Descending(s, key)
    requires forall x :: key'(f(x)) == key(x)
    ensures Descending(Map(s, f), key')
  {
  }
}
