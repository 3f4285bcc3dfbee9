/** Order-preserving filtering and the subsequence relation, used by every list-shaped operation. */
module Seqs {

  /** `a` is obtained from `b` by deleting elements, keeping the order of the rest. */
  predicate IsSubsequence<T(==)>(a: seq<T>, b: seq<T>)
    decreases |b|
  {
    |a| == 0 ||
    (|b| > 0 && ((a[0] == b[0] && IsSubsequence(a[1..], b[1..])) || IsSubsequence(a, b[1..])))
  }

  /** The elements of `s` that satisfy `p`, in their original order (JavaScript's `Array.filter`). */
  function Filter<T(==)>(p: T -> bool, s: seq<T>): (r: seq<T>)
    ensures |r| <= |s|
    ensures forall i :: 0 <= i < |r| ==> p(r[i])
    ensures forall i :: 0 <= i < |r| ==> r[i] in s
    ensures forall i :: 0 <= i < |s| && p(s[i]) ==> s[i] in r
    ensures IsSubsequence(r, s)
    decreases |s|
  {
    if |s| == 0 then []
    else
      var rest := Filter(p, s[1..]);
      if p(s[0]) then
        assert ([s[0]] + rest)[1..] == rest;
        [s[0]] + rest
      else
        rest
  }

  /** Filtering distributes over concatenation. */
  lemma {:induction false} FilterAppend<T>(p: T -> bool, s: seq<T>, t: seq<T>)
    ensures Filter(p, s + t) == Filter(p, s) + Filter(p, t)
    decreases |s|
  {
    if |s| == 0 {
      assert s + t == t;
    } else {
      assert (s + t)[0] == s[0];
      assert (s + t)[1..] == s[1..] + t;
      FilterAppend(p, s[1..], t);
    }
  }

  /** A subsequence is never longer than the sequence it is taken from. */
  lemma {:induction false} SubsequenceLength<T>(a: seq<T>, b: seq<T>)
    requires IsSubsequence(a, b)
    ensures |a| <= |b|
    decreases |b|
  {
    if |a| > 0 {
      if a[0] == b[0] && IsSubsequence(a[1..], b[1..]) {
        SubsequenceLength(a[1..], b[1..]);
      } else {
        SubsequenceLength(a, b[1..]);
      }
    }
  }

  /** Prepending an element to `b` keeps `a` a subsequence of it. */
  lemma SubsequenceCons<T>(a: seq<T>, x: T, b: seq<T>)
    requires IsSubsequence(a, b)
    ensures IsSubsequence(a, [x] + b)
  {
    assert ([x] + b)[1..] == b;
  }

  /** Filtering by a stronger predicate yields a subsequence of filtering by a weaker one. */
  lemma {:induction false} FilterStronger<T>(p: T -> bool, q: T -> bool, s: seq<T>)
    requires forall x :: p(x) ==> q(x)
    ensures IsSubsequence(Filter(p, s), Filter(q, s))
    decreases |s|
  {
    if |s| > 0 {
      FilterStronger(p, q, s[1..]);
      var fp, fq := Filter(p, s[1..]), Filter(q, s[1..]);
      if p(s[0]) {
        assert Filter(p, s) == [s[0]] + fp;
        assert Filter(q, s) == [s[0]] + fq;
        assert ([s[0]] + fp)[1..] == fp;
        assert ([s[0]] + fq)[1..] == fq;
      } else if q(s[0]) {
        assert Filter(p, s) == fp;
        assert Filter(q, s) == [s[0]] + fq;
        SubsequenceCons(fp, s[0], fq);
      }
    }
  }

  /** Filtering by two predicates that agree on every element of `s` gives the same result. */
  lemma {:induction false} FilterAgreeing<T>(p: T -> bool, q: T -> bool, s: seq<T>)
    requires forall i :: 0 <= i < |s| ==> p(s[i]) == q(s[i])
    ensures Filter(p, s) == Filter(q, s)
    decreases |s|
  {
    if |s| > 0 {
      FilterAgreeing(p, q, s[1..]);
    }
  }

  /** Filtering by a predicate every element satisfies changes nothing. */
  lemma {:induction false} FilterKeepsAll<T>(p: T -> bool, s: seq<T>)
    requires forall i :: 0 <= i < |s| ==> p(s[i])
    ensures Filter(p, s) == s
    decreases |s|
  {
    if |s| > 0 {
      FilterKeepsAll(p, s[1..]);
      assert [s[0]] + s[1..] == s;
    }
  }

  /** Filtering by a predicate no element satisfies leaves nothing. */
  lemma {:induction false} FilterDropsAll<T>(p: T -> bool, s: seq<T>)
    requires forall i :: 0 <= i < |s| ==> !p(s[i])
    ensures Filter(p, s) == []
    decreases |s|
  {
    if |s| > 0 {
      FilterDropsAll(p, s[1..]);
    }
  }

  /** The index of the first occurrence of `x` in `s`. */
  function IndexOf<T(==)>(s: seq<T>, x: T): (i: nat)
    requires x in s
    ensures i < |s| && s[i] == x
    ensures forall j :: 0 <= j < i ==> s[j] != x
    decreases |s|
  {
    if s[0] == x then 0 else 1 + IndexOf(s[1..], x)
  }

  /** An element of a prefix first occurs in the whole sequence where it first occurs in the prefix. */
  lemma IndexOfPrefix<T>(s: seq<T>, n: nat, x: T)
    requires n <= |s| && x in s[..n]
    ensures IndexOf(s, x) == IndexOf(s[..n], x)
  {
    var b := IndexOf(s[..n], x);
    assert s[b] == x;
    var a := IndexOf(s, x);
    assert a <= b;
    assert s[..n][a] == x;
  }

  /** `r` lists each element of `s` exactly once, in order of first occurrence in `s`. */
  predicate FirstOccurrences<T(==)>(s: seq<T>, r: seq<T>) {
    && (forall i :: 0 <= i < |r| ==> r[i] in s)
    && (forall i :: 0 <= i < |s| ==> s[i] in r)
    && (forall i, j :: 0 <= i < j < |r| ==> r[i] != r[j])
    && (forall i, j :: 0 <= i < j < |r| ==> IndexOf(s, r[i]) < IndexOf(s, r[j]))
  }

  /** Appending to `s` leaves the first occurrence of every listed element where it was. */
  lemma IndexOfSnoc<T>(s: seq<T>, x: T, r: seq<T>)
    requires forall i :: 0 <= i < |r| ==> r[i] in s
    ensures forall i :: 0 <= i < |r| ==> IndexOf(s + [x], r[i]) == IndexOf(s, r[i])
  {
    assert (s + [x])[..|s|] == s;
    forall i | 0 <= i < |r| ensures IndexOf(s + [x], r[i]) == IndexOf(s, r[i]) {
      IndexOfPrefix(s + [x], |s|, r[i]);
    }
  }

  /** Extending `s` by an element already listed changes nothing. */
  lemma FirstOccurrencesSnocOld<T>(s: seq<T>, x: T, r: seq<T>)
    requires FirstOccurrences(s, r) && x in r
    ensures FirstOccurrences(s + [x], r)
  {
    IndexOfSnoc(s, x, r);
  }

  /** Extending `s` by a new element lists it last. */
  lemma FirstOccurrencesSnocNew<T>(s: seq<T>, x: T, r: seq<T>)
    requires FirstOccurrences(s, r) && x !in r
    ensures FirstOccurrences(s + [x], r + [x])
  {
    var s', r' := s + [x], r + [x];
    IndexOfSnoc(s, x, r);
    assert x !in s;
    assert IndexOf(s', x) == |s|;
    assert forall i :: 0 <= i < |r| ==> r'[i] == r[i];
    forall i, j | 0 <= i < j < |r'| ensures IndexOf(s', r'[i]) < IndexOf(s', r'[j]) {
      if j == |r| {
        assert IndexOf(s, r[i]) < |s|;
      }
    }
  }

  /**
   * The elements of `s` with later repetitions removed, in order of first occurrence
   * (JavaScript's `[...new Set(s)]`, which inserts left to right and keeps insertion order).
   */
  function Distinct<T(==)>(s: seq<T>): (r: seq<T>)
    ensures forall i :: 0 <= i < |r| ==> r[i] in s
    ensures forall i :: 0 <= i < |s| ==> s[i] in r
    ensures forall i, j :: 0 <= i < j < |r| ==> r[i] != r[j]
    ensures forall i, j :: 0 <= i < j < |r| ==> IndexOf(s, r[i]) < IndexOf(s, r[j])
    ensures |s| > 0 ==> |r| > 0 && r[0] == s[0]
    decreases |s|
  {
    if |s| == 0 then []
    else
      var n := |s| - 1;
      var r := Distinct(s[..n]);
      assert s == s[..n] + [s[n]];
      if s[n] in r then
        FirstOccurrencesSnocOld(s[..n], s[n], r);
        r
      else
        FirstOccurrencesSnocNew(s[..n], s[n], r);
        r + [s[n]]
  }
}
