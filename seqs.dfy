/** Order-preserving filtering, subsequences and duplicate-freedom over sequences. */
module Seqs {

  /** `s.filter(p)`: the elements of `s` that satisfy `p`, in their original order. */
  function Filter<T>(s: seq<T>, p: T -> bool): (r: seq<T>)
    ensures |r| <= |s|
    ensures forall x :: x in r ==> x in s && p(x)
  {
    if s == [] then []
    else if p(s[0]) then [s[0]] + Filter(s[1..], p)
    else Filter(s[1..], p)
  }

  /** `a` can be obtained from `b` by deleting elements: it keeps their relative order. */
  predicate IsSubsequence<T(==)>(a: seq<T>, b: seq<T>)
  {
    if a == [] then true
    else if b == [] then false
    else if a[0] == b[0] then IsSubsequence(a[1..], b[1..])
    else IsSubsequence(a, b[1..])
  }

  predicate NoDuplicates<T(==)>(s: seq<T>)
  {
    forall i, j :: 0 <= i < j < |s| ==> s[i] != s[j]
  }

  /** A sequence with a new head is duplicate-free exactly when its tail is and lacks the head. */
  lemma NoDuplicatesCons<T>(x: T, s: seq<T>)
    ensures NoDuplicates([x] + s) <==> x !in s && NoDuplicates(s)
  {
    var xs := [x] + s;
    assert forall k :: 0 <= k < |s| ==> xs[k + 1] == s[k];
    if NoDuplicates(xs) {
      forall i, j | 0 <= i < j < |s| ensures s[i] != s[j] {
        assert xs[i + 1] != xs[j + 1];
      }
      forall k | 0 <= k < |s| ensures s[k] != x {
        assert xs[0] != xs[k + 1];
      }
    }
  }

  lemma {:induction false} FilterMembership<T>(s: seq<T>, p: T -> bool, x: T)
    ensures x in Filter(s, p) <==> x in s && p(x)
  {
    if s != [] {
      FilterMembership(s[1..], p, x);
    }
  }

  lemma {:induction false} FilterIsSubsequence<T>(s: seq<T>, p: T -> bool)
    ensures IsSubsequence(Filter(s, p), s)
  {
    if s != [] {
      FilterIsSubsequence(s[1..], p);
      if !p(s[0]) {
        SubsequenceOfTail(Filter(s[1..], p), s);
      }
    }
  }

  /** Dropping the head of the longer sequence keeps a subsequence a subsequence. */
  lemma {:induction false} SubsequenceOfTail<T>(a: seq<T>, b: seq<T>)
    requires b != [] && IsSubsequence(a, b[1..])
    ensures IsSubsequence(a, b)
  {
    if a != [] && a[0] == b[0] {
      SubsequenceDropHead(a, b[1..]);
    }
  }

  /** Appending to the longer sequence keeps a subsequence a subsequence. */
  lemma {:induction false} SubsequenceAppend<T>(a: seq<T>, b: seq<T>, c: seq<T>)
    requires IsSubsequence(a, b)
    ensures IsSubsequence(a, b + c)
  {
    if a != [] {
      assert (b + c)[0] == b[0] && (b + c)[1..] == b[1..] + c;
      if a[0] == b[0] {
        SubsequenceAppend(a[1..], b[1..], c);
      } else {
        SubsequenceAppend(a, b[1..], c);
      }
    }
  }

  lemma {:induction false} SubsequenceDropHead<T>(a: seq<T>, b: seq<T>)
    requires a != [] && IsSubsequence(a, b)
    ensures IsSubsequence(a[1..], b)
  {
    if b != [] {
      if a[0] == b[0] {
        if a[1..] != [] {
          SubsequenceOfTail(a[1..], b);
        }
      } else {
        SubsequenceDropHead(a, b[1..]);
        if a[1..] != [] {
          SubsequenceOfTail(a[1..], b);
        }
      }
    }
  }

  lemma {:induction false} FilterNoDuplicates<T>(s: seq<T>, p: T -> bool)
    requires NoDuplicates(s)
    ensures NoDuplicates(Filter(s, p))
  {
    if s != [] {
      FilterNoDuplicates(s[1..], p);
      if p(s[0]) {
        FilterMembership(s[1..], p, s[0]);
      }
    }
  }

  lemma {:induction false} FilterAppend<T>(a: seq<T>, b: seq<T>, p: T -> bool)
    ensures Filter(a + b, p) == Filter(a, p) + Filter(b, p)
  {
    if a == [] {
      assert a + b == b;
    } else {
      var ab := a + b;
      assert ab[0] == a[0] && ab[1..] == a[1..] + b;
      FilterAppend(a[1..], b, p);
      if p(a[0]) {
        calc {
          Filter(ab, p);
          [a[0]] + Filter(a[1..] + b, p);
          [a[0]] + (Filter(a[1..], p) + Filter(b, p));
          ([a[0]] + Filter(a[1..], p)) + Filter(b, p);
        }
      }
    }
  }

  /** Filtering keeps every copy of a kept element and no copy of a dropped one. */
  lemma {:induction false} FilterMultiplicity<T>(s: seq<T>, p: T -> bool, x: T)
    ensures multiset(Filter(s, p))[x] == if p(x) then multiset(s)[x] else 0
  {
    if s != [] {
      assert s == [s[0]] + s[1..];
      FilterMultiplicity(s[1..], p, x);
      if p(s[0]) {
        assert Filter(s, p) == [s[0]] + Filter(s[1..], p);
      }
    }
  }

  /** `FilterMultiplicity` for every element at once. */
  lemma FilterMultiplicities<T>(s: seq<T>, p: T -> bool)
    ensures forall x :: multiset(Filter(s, p))[x] == if p(x) then multiset(s)[x] else 0
  {
    forall x ensures multiset(Filter(s, p))[x] == if p(x) then multiset(s)[x] else 0 {
      FilterMultiplicity(s, p, x);
    }
  }

  /** Filtering twice by the same predicate filters once. */
  lemma {:induction false} FilterIdempotent<T>(s: seq<T>, p: T -> bool)
    ensures Filter(Filter(s, p), p) == Filter(s, p)
  {
    if s != [] {
      FilterIdempotent(s[1..], p);
    }
  }

  /** Filtering keeps everything exactly when everything satisfies the predicate. */
  lemma {:induction false} FilterKeepsAll<T>(s: seq<T>, p: T -> bool)
    requires forall x :: x in s ==> p(x)
    ensures Filter(s, p) == s
  {
    if s != [] {
      FilterKeepsAll(s[1..], p);
    }
  }

  /**
   * The position `Array.prototype.slice` and `splice` use for an index
   * argument `x` on a length-`n` array: a negative one counts from the end,
   * and the result is clamped to `[0, n]`.
   */
  function JsIndex(n: nat, x: int): (r: nat)
    ensures r <= n
  {
    if x < 0 then (if n + x < 0 then 0 else n + x) else if x > n then n else x
  }
}
