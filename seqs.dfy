/** Order-preserving selections over sequences, used for array `filter`/`slice`. */
module Seqs {

  function Min(a: int, b: int): int
  {
    if a <= b then a else b
  }

  /** `s.filter(p)`: the elements of `s` that satisfy `p`, in their original order. */
  function Filter<T(!new)>(s: seq<T>, p: T -> bool): (r: seq<T>)
    ensures |r| <= |s|
    ensures forall i :: 0 <= i < |r| ==> p(r[i])
    ensures forall x :: x in r <==> x in s && p(x)
  {
    if s == [] then []
    else if p(s[0]) then [s[0]] + Filter(s[1..], p)
    else Filter(s[1..], p)
  }

  /** `r` can be obtained from `s` by deleting elements (order is kept). */
  predicate IsSubsequence<T(==)>(r: seq<T>, s: seq<T>)
  {
    if r == [] then true
    else if s == [] then false
    else if r[0] == s[0] then IsSubsequence(r[1..], s[1..])
    else IsSubsequence(r, s[1..])
  }

  lemma {:induction false} FilterIsSubsequence<T(!new)>(s: seq<T>, p: T -> bool)
    ensures IsSubsequence(Filter(s, p), s)
  {
    if s != [] {
      FilterIsSubsequence(s[1..], p);
      if !p(s[0]) {
        SubsequenceDropHead(Filter(s[1..], p), s);
      }
    }
  }

  /** Skipping an extra leading element of the longer sequence keeps a subsequence. */
  lemma {:induction false} SubsequenceDropHead<T>(r: seq<T>, s: seq<T>)
    requires s != [] && IsSubsequence(r, s[1..])
    ensures IsSubsequence(r, s)
    decreases |s|, 0
  {
    if r != [] && r[0] == s[0] {
      SubsequenceTail(r, s[1..]);
    }
  }

  /** A subsequence stays a subsequence when its first element is removed. */
  lemma {:induction false} SubsequenceTail<T>(r: seq<T>, s: seq<T>)
    requires r != [] && IsSubsequence(r, s)
    ensures IsSubsequence(r[1..], s)
    decreases |s|, 1
  {
    if s != [] {
      if r[0] == s[0] {
        if r[1..] != [] {
          SubsequenceTail(r[1..], s[1..]);
        }
        if r[1..] != [] && r[1..][0] != s[0] {
          SubsequenceDropHead(r[1..], s);
        }
      } else {
        SubsequenceTail(r, s[1..]);
        SubsequenceDropHead(r[1..], s);
      }
    }
  }

  /** Cutting a subsequence short keeps it a subsequence. */
  lemma {:induction false} SubsequencePrefix<T>(r: seq<T>, s: seq<T>, k: nat)
    requires IsSubsequence(r, s) && k <= |r|
    ensures IsSubsequence(r[..k], s)
  {
    if k > 0 {
      if r[0] == s[0] {
        SubsequencePrefix(r[1..], s[1..], k - 1);
        assert r[..k][1..] == r[1..][..k - 1];
      } else {
        SubsequencePrefix(r, s[1..], k);
      }
    }
  }

  lemma {:induction false} FilterAppend<T(!new)>(a: seq<T>, b: seq<T>, p: T -> bool)
    ensures Filter(a + b, p) == Filter(a, p) + Filter(b, p)
  {
    if a == [] {
      assert a + b == b;
    } else {
      var h, t, fh := a[0], a[1..], if p(a[0]) then [a[0]] else [];
      calc {
        Filter(a + b, p);
        { assert a + b == [h] + (t + b); FilterCons(h, t + b, p); }
        fh + Filter(t + b, p);
        { FilterAppend(t, b, p); }
        fh + (Filter(t, p) + Filter(b, p));
        (fh + Filter(t, p)) + Filter(b, p);
        { assert a == [h] + t; FilterCons(h, t, p); }
        Filter(a, p) + Filter(b, p);
      }
    }
  }

  /** Filtering a list with a first element. */
  lemma FilterCons<T(!new)>(x: T, s: seq<T>, p: T -> bool)
    ensures Filter([x] + s, p) == (if p(x) then [x] else []) + Filter(s, p)
    ensures Filter([x] + s, p) == if p(x) then [x] + Filter(s, p) else Filter(s, p)
  {
    assert ([x] + s)[1..] == s;
    if !p(x) {
      assert [] + Filter(s, p) == Filter(s, p);
    }
  }

  /** The elements of a one-element sequence that pass `p`. */
  function KeepIf<T>(x: T, p: T -> bool): (r: seq<T>)
    ensures r == [x] <==> p(x)
    ensures r == [] <==> !p(x)
  {
    if p(x) then [x] else []
  }

  /** Filtering five values, unrolled: each one is kept in its place exactly when it passes. */
  lemma FilterFive<T(!new)>(x0: T, x1: T, x2: T, x3: T, x4: T, p: T -> bool)
    ensures Filter([x0, x1, x2, x3, x4], p) == KeepIf(x0, p) + KeepIf(x1, p) + KeepIf(x2, p) + KeepIf(x3, p) + KeepIf(x4, p)
  {
    var s1 := [x0];
    var s2 := s1 + [x1];
    var s3 := s2 + [x2];
    var s4 := s3 + [x3];
    assert s4 + [x4] == [x0, x1, x2, x3, x4];
    FilterSingle(x0, p);
    FilterSingle(x1, p);
    FilterSingle(x2, p);
    FilterSingle(x3, p);
    FilterSingle(x4, p);
    FilterAppend(s1, [x1], p);
    FilterAppend(s2, [x2], p);
    FilterAppend(s3, [x3], p);
    FilterAppend(s4, [x4], p);
  }

  /** Filtering one value keeps it exactly when it passes. */
  lemma FilterSingle<T(!new)>(x: T, p: T -> bool)
    ensures Filter([x], p) == KeepIf(x, p)
  {
    FilterCons(x, [], p);
    assert [x] + [] == [x];
  }


  /** Filtering keeps every element that passes as often as it occurs, and drops the rest. */
  lemma {:induction false} FilterMultiset<T(!new)>(s: seq<T>, p: T -> bool)
    ensures forall x :: multiset(Filter(s, p))[x] == if p(x) then multiset(s)[x] else 0
  {
    if s != [] {
      FilterMultiset(s[1..], p);
      FilterCons(s[0], s[1..], p);
      assert s == [s[0]] + s[1..];
    }
  }

  /** Two tests that agree on every element select the same elements. */
  lemma {:induction false} FilterSameTest<T(!new)>(s: seq<T>, p: T -> bool, q: T -> bool)
    requires forall x :: p(x) == q(x)
    ensures Filter(s, p) == Filter(s, q)
  {
    if s != [] {
      FilterSameTest(s[1..], p, q);
    }
  }

  /** No element occurs twice. */
  predicate Distinct<T(==)>(s: seq<T>)
  {
    forall i, j :: 0 <= i < j < |s| ==> s[i] != s[j]
  }

  /**
   * The distinct elements of `s` in order of first occurrence (the key order
   * of a JavaScript object filled by walking `s`).
   */
  function Dedup<T(==,!new)>(s: seq<T>): (r: seq<T>)
    ensures Distinct(r)
    ensures forall x :: x in r <==> x in s
  {
    if s == [] then []
    else
      var d := Dedup(s[..|s| - 1]);
      if s[|s| - 1] in d then d else d + [s[|s| - 1]]
  }

  /** One more element adds a name exactly when it is new. */
  lemma DedupSnoc<T(!new)>(s: seq<T>, x: T)
    ensures Dedup(s + [x]) == if x in Dedup(s) then Dedup(s) else Dedup(s) + [x]
  {
    assert (s + [x])[..|s|] == s;
  }
}
