/** Order-preserving selection over sequences: the `Array.prototype.filter`
    that the feed uses for deletion and for its "saved"/"liked" views. */
module Seqs {

  /** `a` can be obtained from `b` by dropping elements, keeping the order. */
  ghost predicate IsSubseq<T>(a: seq<T>, b: seq<T>)
    decreases |b|
  {
    if a == [] then true
    else if b == [] then false
    else (a[0] == b[0] && IsSubseq(a[1..], b[1..])) || IsSubseq(a, b[1..])
  }

  lemma {:induction false} SubseqRefl<T>(s: seq<T>)
    ensures IsSubseq(s, s)
  {
    if s != [] {
      SubseqRefl(s[1..]);
    }
  }

  /** The elements of `s` for which `keep` holds, in their original order. */
  function Filter<T(==,!new)>(s: seq<T>, keep: T -> bool): (r: seq<T>)
    ensures |r| <= |s|
    ensures IsSubseq(r, s)
    ensures forall x :: x in r ==> keep(x)
    ensures forall x :: multiset(r)[x] == if keep(x) then multiset(s)[x] else 0
  {
    if s == [] then []
    else
      assert s == [s[0]] + s[1..];
      if keep(s[0]) then [s[0]] + Filter(s[1..], keep) else Filter(s[1..], keep)
  }

  /** A subsequence never holds an element more often than the sequence. */
  lemma {:induction false} SubseqCounts<T(!new)>(a: seq<T>, b: seq<T>, x: T)
    requires IsSubseq(a, b)
    ensures multiset(a)[x] <= multiset(b)[x]
    decreases |b|
  {
    if a != [] {
      assert b == [b[0]] + b[1..];
      if a[0] == b[0] && IsSubseq(a[1..], b[1..]) {
        assert a == [a[0]] + a[1..];
        SubseqCounts(a[1..], b[1..], x);
      } else {
        SubseqCounts(a, b[1..], x);
      }
    }
  }

  /** The three properties in `Filter`'s contract determine its result:
      any order-preserving selection of `s` that holds only kept elements,
      each as often as `s` does, is `Filter(s, keep)`. */
  lemma {:induction false} FilterUnique<T(!new)>(s: seq<T>, keep: T -> bool, r: seq<T>)
    requires IsSubseq(r, s)
    requires forall x :: x in r ==> keep(x)
    requires forall x :: keep(x) ==> multiset(r)[x] == multiset(s)[x]
    ensures r == Filter(s, keep)
    decreases |s|
  {
    if s != [] {
      var x, t := s[0], s[1..];
      assert s == [x] + t;
      if r == [] {
        assert multiset(s)[x] >= 1;
        assert !keep(x);
        FilterUnique(t, keep, r);
      } else if keep(x) {
        if r[0] == x && IsSubseq(r[1..], t) {
          assert r == [x] + r[1..];
          FilterUnique(t, keep, r[1..]);
        } else {
          assert IsSubseq(r, t);
          SubseqCounts(r, t, x);
          assert false;
        }
      } else {
        assert r[0] in r;
        assert IsSubseq(r, t);
        forall y | keep(y) ensures multiset(r)[y] == multiset(t)[y] {
          assert y != x;
        }
        FilterUnique(t, keep, r);
      }
    }
  }

  /** Filtering keeps the whole sequence when every element is kept. */
  lemma {:induction false} FilterAll<T(!new)>(s: seq<T>, keep: T -> bool)
    requires forall x :: x in s ==> keep(x)
    ensures Filter(s, keep) == s
  {
    if s != [] {
      assert forall x :: x in s[1..] ==> x in s;
      FilterAll(s[1..], keep);
    }
  }

  /** Filtering yields nothing exactly when no element is kept. */
  lemma FilterEmpty<T(!new)>(s: seq<T>, keep: T -> bool)
    ensures Filter(s, keep) == [] <==> forall x :: x in s ==> !keep(x)
  {
    var r := Filter(s, keep);
    if r != [] {
      assert r[0] in r;
      assert multiset(s)[r[0]] == multiset(r)[r[0]] > 0;
    }
    if r == [] {
      forall x | x in s ensures !keep(x) {
        assert multiset(s)[x] > 0;
      }
    }
  }
}
