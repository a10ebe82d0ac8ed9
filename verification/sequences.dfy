/**
 * Order-preserving selection from a sequence: the shape of a Python list
 * comprehension `[x for x in s if keep(x)]`.
 */
module Sequences {

  /** `a` is obtained from `b` by deleting elements, keeping the order of the rest. */
  ghost predicate IsSubseq<T>(a: seq<T>, b: seq<T>)
    decreases |b|
  {
    a == [] || (b != [] && (IsSubseq(a, b[1..]) || (a[0] == b[0] && IsSubseq(a[1..], b[1..]))))
  }

  /** `[x for x in s if keep(x)]`. */
  function Filter<T(!new)>(s: seq<T>, keep: T -> bool): (r: seq<T>)
    ensures |r| <= |s|
    ensures IsSubseq(r, s)
    ensures forall x :: x in r <==> x in s && keep(x)
    ensures forall x :: multiset(r)[x] == if keep(x) then multiset(s)[x] else 0
  {
    if s == [] then []
    else
      var rest := Filter(s[1..], keep);
      assert s == [s[0]] + s[1..];
      if keep(s[0]) then [s[0]] + rest else rest
  }

  /** A subsequence never holds more copies of an element than the sequence. */
  lemma {:induction false} SubseqMultiset<T>(a: seq<T>, b: seq<T>)
    requires IsSubseq(a, b)
    ensures multiset(a) <= multiset(b)
    decreases |b|
  {
    if a != [] {
      assert b == [b[0]] + b[1..];
      if IsSubseq(a, b[1..]) {
        SubseqMultiset(a, b[1..]);
      } else {
        SubseqMultiset(a[1..], b[1..]);
        assert a == [a[0]] + a[1..];
      }
    }
  }

  /**
   * The contract of Filter determines its result: an order-preserving
   * subsequence of `s` that keeps every copy of each selected element and no
   * copy of any other element is exactly Filter(s, keep).
   */
  lemma {:induction false} FilterUnique<T(!new)>(s: seq<T>, keep: T -> bool, r: seq<T>)
    requires IsSubseq(r, s)
    requires forall x :: multiset(r)[x] == if keep(x) then multiset(s)[x] else 0
    ensures r == Filter(s, keep)
    decreases |s|
  {
    if s != [] {
      var h, t := s[0], s[1..];
      assert s == [h] + t;
      if IsSubseq(r, t) {
        SubseqMultiset(r, t);
        assert multiset(r)[h] <= multiset(t)[h] < multiset(s)[h];
        assert !keep(h);
        assert forall x :: keep(x) ==> multiset(s)[x] == multiset(t)[x];
        FilterUnique(t, keep, r);
      } else {
        assert r != [] && r[0] == h && IsSubseq(r[1..], t);
        assert r == [h] + r[1..];
        assert keep(h);
        FilterUnique(t, keep, r[1..]);
      }
    }
  }

  /** Filtering by a weaker condition keeps everything a stronger one keeps, in order. */
  lemma {:induction false} FilterWeaker<T(!new)>(s: seq<T>, strong: T -> bool, weak: T -> bool)
    requires forall x :: strong(x) ==> weak(x)
    ensures IsSubseq(Filter(s, strong), Filter(s, weak))
    decreases |s|
  {
    if s != [] {
      FilterWeaker(s[1..], strong, weak);
      var a, b := Filter(s[1..], strong), Filter(s[1..], weak);
      if strong(s[0]) {
        assert ([s[0]] + a)[1..] == a && ([s[0]] + b)[1..] == b;
      } else if weak(s[0]) {
        assert ([s[0]] + b)[1..] == b;
      }
    }
  }

  /** A condition every element meets keeps the whole sequence. */
  lemma {:induction false} FilterAll<T(!new)>(s: seq<T>, keep: T -> bool)
    requires forall i :: 0 <= i < |s| ==> keep(s[i])
    ensures Filter(s, keep) == s
    decreases |s|
  {
    if s != [] {
      FilterAll(s[1..], keep);
      assert s == [s[0]] + s[1..];
    }
  }

  /** The first element kept is the first element of `s` that meets the condition. */
  lemma {:induction false} FilterFirst<T(!new)>(s: seq<T>, keep: T -> bool, i: nat)
    requires i < |s| && keep(s[i])
    requires forall j :: 0 <= j < i ==> !keep(s[j])
    ensures Filter(s, keep) != [] && Filter(s, keep)[0] == s[i]
    decreases i
  {
    if i > 0 {
      assert !keep(s[0]);
      FilterFirst(s[1..], keep, i - 1);
    }
  }
}
