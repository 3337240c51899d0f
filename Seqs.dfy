/** Sequence operations that the components use through JavaScript's
    `Array.prototype.filter`, `map`, `slice(0, k)` and `reduce`. */
module Seqs {

  /** `s.filter(keep)`: the elements that pass, in their original order. */
  function Filter<T>(keep: T -> bool, s: seq<T>): (r: seq<T>)
    ensures |r| <= |s|
    ensures forall i :: 0 <= i < |r| ==> r[i] in s && keep(r[i])
    ensures forall i :: 0 <= i < |s| && keep(s[i]) ==> s[i] in r
  {
    if s == [] then []
    else if keep(s[0]) then [s[0]] + Filter(keep, s[1..])
    else Filter(keep, s[1..])
  }

  /** `s.map(f)`. */
  function Map<T, U>(f: T -> U, s: seq<T>): (r: seq<U>)
    ensures |r| == |s|
    ensures forall i :: 0 <= i < |s| ==> r[i] == f(s[i])
  {
    if s == [] then [] else [f(s[0])] + Map(f, s[1..])
  }

  /** `s.slice(0, k)`: the first `k` elements, or all of them when there are fewer. */
  function Take<T>(k: nat, s: seq<T>): (r: seq<T>)
    ensures |r| == if k <= |s| then k else |s|
    ensures r <= s
  {
    if k <= |s| then s[..k] else s
  }

  /** `r` is an order-preserving subsequence of `s`: `r` is `s` with some elements left out. */
  predicate IsSubseq<T(==)>(r: seq<T>, s: seq<T>)
    decreases |s|
  {
    if r == [] then true
    else if s == [] then false
    else (r[0] == s[0] && IsSubseq(r[1..], s[1..])) || IsSubseq(r, s[1..])
  }

  /** `s.reduce((sum, x) => sum + f(x), 0)`: a left fold, so the last element is added last. */
  function Sum<T>(f: T -> real, s: seq<T>): real
  {
    if s == [] then 0.0 else Sum(f, s[..|s| - 1]) + f(s[|s| - 1])
  }

  /** Filtering distributes over concatenation. */
  lemma {:induction false} FilterAppend<T>(keep: T -> bool, a: seq<T>, b: seq<T>)
    ensures Filter(keep, a + b) == Filter(keep, a) + Filter(keep, b)
  {
    if a == [] {
      assert a + b == b;
    } else {
      assert (a + b)[0] == a[0] && (a + b)[1..] == a[1..] + b;
      FilterAppend(keep, a[1..], b);
      if keep(a[0]) {
        assert Filter(keep, a + b) == [a[0]] + (Filter(keep, a[1..]) + Filter(keep, b));
      }
    }
  }

  /** A filter that every element passes is the identity. */
  lemma {:induction false} FilterAll<T>(keep: T -> bool, s: seq<T>)
    requires forall x :: x in s ==> keep(x)
    ensures Filter(keep, s) == s
  {
    if s != [] {
      assert forall x :: x in s[1..] ==> x in s;
      FilterAll(keep, s[1..]);
    }
  }

  /** A filter that no element passes yields the empty sequence. */
  lemma FilterNone<T>(keep: T -> bool, s: seq<T>)
    requires forall x :: x in s ==> !keep(x)
    ensures Filter(keep, s) == []
  {
  }

  /** Every copy of a passing element survives, and every copy of a failing one is dropped:
      together with `FilterIsSubseq` this pins the result down exactly. */
  lemma {:induction false} FilterCount<T>(keep: T -> bool, s: seq<T>, x: T)
    ensures multiset(Filter(keep, s))[x] == if keep(x) then multiset(s)[x] else 0
  {
    if s != [] {
      FilterCount(keep, s[1..], x);
      assert s == [s[0]] + s[1..];
      assert multiset(s) == multiset([s[0]]) + multiset(s[1..]);
      if keep(s[0]) {
        assert multiset(Filter(keep, s)) == multiset([s[0]]) + multiset(Filter(keep, s[1..]));
      }
    }
  }

  /** Two tests that agree on every element filter alike. */
  lemma {:induction false} FilterCongruence<T>(a: T -> bool, b: T -> bool, s: seq<T>)
    requires forall i :: 0 <= i < |s| ==> a(s[i]) == b(s[i])
    ensures Filter(a, s) == Filter(b, s)
  {
    if s != [] {
      FilterCongruence(a, b, s[1..]);
    }
  }

  /** Filtering by `inner` and then by `outer` is filtering once by `both`, a test that passes
      exactly what passes them both. */
  lemma {:induction false} FilterFilter<T>(outer: T -> bool, inner: T -> bool, both: T -> bool, s: seq<T>)
    requires forall i :: 0 <= i < |s| ==> both(s[i]) == (inner(s[i]) && outer(s[i]))
    ensures Filter(outer, Filter(inner, s)) == Filter(both, s)
  {
    if s != [] {
      FilterFilter(outer, inner, both, s[1..]);
    }
  }

  lemma {:induction false} SubseqEmpty<T>(s: seq<T>)
    ensures IsSubseq([], s)
  {
  }

  lemma {:induction false} SubseqRefl<T>(s: seq<T>)
    ensures IsSubseq(s, s)
  {
    if s != [] {
      SubseqRefl(s[1..]);
    }
  }

  /** The result of a filter is an order-preserving subsequence of its input. */
  lemma {:induction false} FilterIsSubseq<T>(keep: T -> bool, s: seq<T>)
    ensures IsSubseq(Filter(keep, s), s)
  {
    if s != [] {
      FilterIsSubseq(keep, s[1..]);
      var r := Filter(keep, s[1..]);
      if keep(s[0]) {
        assert Filter(keep, s) == [s[0]] + r;
        assert ([s[0]] + r)[1..] == r;
      } else if r != [] {
        assert IsSubseq(r, s[1..]);
      }
    }
  }

  /** A prefix of a subsequence is still a subsequence. */
  lemma {:induction false} SubseqPrefix<T>(r: seq<T>, s: seq<T>, k: nat)
    requires IsSubseq(r, s)
    requires k <= |r|
    ensures IsSubseq(r[..k], s)
    decreases |s|
  {
    if k == 0 {
      assert r[..k] == [];
    } else {
      assert r != [] && s != [];
      if r[0] == s[0] && IsSubseq(r[1..], s[1..]) {
        SubseqPrefix(r[1..], s[1..], k - 1);
        assert r[..k][1..] == r[1..][..k - 1];
      } else {
        SubseqPrefix(r, s[1..], k);
      }
    }
  }

  /** Mapping both sides keeps a subsequence a subsequence. */
  lemma {:induction false} SubseqMap<T, U>(f: T -> U, r: seq<T>, s: seq<T>)
    requires IsSubseq(r, s)
    ensures IsSubseq(Map(f, r), Map(f, s))
    decreases |s|
  {
    if r != [] {
      assert s != [];
      assert Map(f, s)[1..] == Map(f, s[1..]);
      if r[0] == s[0] && IsSubseq(r[1..], s[1..]) {
        SubseqMap(f, r[1..], s[1..]);
        assert Map(f, r)[1..] == Map(f, r[1..]);
      } else {
        SubseqMap(f, r, s[1..]);
      }
    }
  }

  /** Every element of a subsequence is an element of the sequence. */
  lemma {:induction false} SubseqMembers<T>(r: seq<T>, s: seq<T>, x: T)
    requires IsSubseq(r, s)
    requires x in r
    ensures x in s
    decreases |s|
  {
    assert s != [];
    if r[0] == s[0] && IsSubseq(r[1..], s[1..]) {
      if x != r[0] {
        assert x in r[1..];
        SubseqMembers(r[1..], s[1..], x);
      }
    } else {
      SubseqMembers(r, s[1..], x);
    }
  }

  /** The sum over a concatenation is the sum of the sums. */
  lemma {:induction false} SumAppend<T>(f: T -> real, a: seq<T>, b: seq<T>)
    ensures Sum(f, a + b) == Sum(f, a) + Sum(f, b)
    decreases |b|
  {
    if b == [] {
      assert a + b == a;
    } else {
      var b' := b[..|b| - 1];
      assert (a + b)[..|a + b| - 1] == a + b';
      assert (a + b)[|a + b| - 1] == b[|b| - 1];
      SumAppend(f, a, b');
    }
  }

  /** Summing over the passing elements is summing `masked`, which is `f` on passing elements
      and 0 on the others, over all of them. */
  lemma {:induction false} SumFilter<T>(f: T -> real, keep: T -> bool, masked: T -> real, s: seq<T>)
    requires forall i :: 0 <= i < |s| ==> masked(s[i]) == if keep(s[i]) then f(s[i]) else 0.0
    ensures Sum(f, Filter(keep, s)) == Sum(masked, s)
    decreases |s|
  {
    if s != [] {
      var init, last := s[..|s| - 1], s[|s| - 1];
      assert s == init + [last];
      SumFilter(f, keep, masked, init);
      FilterAppend(keep, init, [last]);
      SumAppend(f, Filter(keep, init), Filter(keep, [last]));
      assert Sum(f, []) == 0.0;
      if keep(last) {
        assert Filter(keep, [last]) == [last];
        assert Sum(f, [last]) == Sum(f, [last][..0]) + f(last);
      }
    }
  }
}
