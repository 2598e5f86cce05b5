/**
 * Ranking of crop records by yield, as done by
 * `[...crops].sort((a, b) => b.yield_kg_per_ha - a.yield_kg_per_ha)`:
 * a stable sort (ECMAScript 2019 and later require `Array.prototype.sort`
 * to be stable) on a copy, highest yield first, equal yields in their
 * original order.
 */
module Ranking {
  import opened Seqs
  import opened Types

  /** Yields never increase from left to right. */
  predicate SortedByYield(s: seq<CropData>)
  {
    forall i, j :: 0 <= i < j < |s| ==> s[i].yieldKgPerHa >= s[j].yieldKgPerHa
  }

  function YieldIs(y: int): CropData -> bool
  {
    (c: CropData) => c.yieldKgPerHa == y
  }

  /** Every record of `s` yields at most `v`. */
  predicate AllAtMost(s: seq<CropData>, v: int)
  {
    forall i :: 0 <= i < |s| ==> s[i].yieldKgPerHa <= v
  }

  /**
   * Puts `x` after every element of `s` whose yield is strictly higher and
   * before all others, which is where the comparator `b - a` stops moving it.
   */
  function Insert(x: CropData, s: seq<CropData>): (r: seq<CropData>)
    ensures |r| == |s| + 1
    ensures multiset(r) == multiset(s) + multiset{x}
  {
    if s == [] || s[0].yieldKgPerHa <= x.yieldKgPerHa then [x] + s
    else
      assert s == [s[0]] + s[1..];
      [s[0]] + Insert(x, s[1..])
  }

  lemma {:induction false} InsertAtMost(x: CropData, s: seq<CropData>, v: int)
    requires AllAtMost(s, v) && x.yieldKgPerHa <= v
    ensures AllAtMost(Insert(x, s), v)
  {
    if s != [] && s[0].yieldKgPerHa > x.yieldKgPerHa {
      InsertAtMost(x, s[1..], v);
    }
  }

  lemma {:induction false} InsertSorted(x: CropData, s: seq<CropData>)
    requires SortedByYield(s)
    ensures SortedByYield(Insert(x, s))
  {
    if s != [] && s[0].yieldKgPerHa > x.yieldKgPerHa {
      InsertSorted(x, s[1..]);
      InsertAtMost(x, s[1..], s[0].yieldKgPerHa);
    }
  }

  /** The stably sorted copy of `s`, highest yield first. */
  function SortByYield(s: seq<CropData>): (r: seq<CropData>)
    ensures |r| == |s|
    ensures multiset(r) == multiset(s)
    ensures SortedByYield(r)
  {
    if s == [] then []
    else
      assert s == [s[0]] + s[1..];
      InsertSorted(s[0], SortByYield(s[1..]));
      Insert(s[0], SortByYield(s[1..]))
  }

  lemma {:induction false} InsertByYield(x: CropData, t: seq<CropData>, y: int)
    ensures Filter(Insert(x, t), YieldIs(y))
         == if x.yieldKgPerHa == y then [x] + Filter(t, YieldIs(y)) else Filter(t, YieldIs(y))
  {
    if t != [] && t[0].yieldKgPerHa > x.yieldKgPerHa {
      InsertByYield(x, t[1..], y);
      assert ([t[0]] + Insert(x, t[1..]))[1..] == Insert(x, t[1..]);
    } else {
      assert ([x] + t)[1..] == t;
    }
  }

  /**
   * Stability: the records of any one yield appear in the sorted copy in
   * exactly the order they have in `s`.
   */
  lemma {:induction false} SortByYieldIsStable(s: seq<CropData>, y: int)
    ensures Filter(SortByYield(s), YieldIs(y)) == Filter(s, YieldIs(y))
  {
    if s != [] {
      SortByYieldIsStable(s[1..], y);
      InsertByYield(s[0], SortByYield(s[1..]), y);
    }
  }

  lemma {:induction false} FilterInsert(x: CropData, t: seq<CropData>, p: CropData -> bool)
    requires SortedByYield(t)
    ensures Filter(Insert(x, t), p) == if p(x) then Insert(x, Filter(t, p)) else Filter(t, p)
  {
    if t == [] {
      assert Insert(x, t) == [x] + t;
      FilterCons(x, t, p);
    } else if t[0].yieldKgPerHa <= x.yieldKgPerHa {
      assert Insert(x, t) == [x] + t;
      FilterCons(x, t, p);
      var ft := Filter(t, p);
      if ft != [] {
        assert ft[0] in t;
      }
    } else {
      var h, rest := t[0], t[1..];
      assert t == [h] + rest;
      FilterInsert(x, rest, p);
      InsertPast(x, h, rest);
      FilterCons(h, Insert(x, rest), p);
      FilterCons(h, rest, p);
      if p(x) && p(h) {
        InsertPast(x, h, Filter(rest, p));
      }
    }
  }

  /** A record yielding more than `x` stays in front of it. */
  lemma InsertPast(x: CropData, h: CropData, s: seq<CropData>)
    requires h.yieldKgPerHa > x.yieldKgPerHa
    ensures Insert(x, [h] + s) == [h] + Insert(x, s)
  {
    assert ([h] + s)[1..] == s;
  }

  /** Filtering the ranking equals ranking the filtered records. */
  lemma {:induction false} SortFilterCommute(s: seq<CropData>, p: CropData -> bool)
    ensures Filter(SortByYield(s), p) == SortByYield(Filter(s, p))
  {
    if s != [] {
      SortFilterCommute(s[1..], p);
      FilterInsert(s[0], SortByYield(s[1..]), p);
    }
  }

  /** Ranking a selection keeps exactly the selected records; it is empty only when nothing is selected. */
  lemma RankedSelection(s: seq<CropData>, p: CropData -> bool)
    ensures forall c :: c in SortByYield(Filter(s, p)) <==> c in s && p(c)
    ensures SortByYield(Filter(s, p)) == [] <==> forall c :: c in s ==> !p(c)
  {
    var selected := Filter(s, p);
    assert forall c :: c in SortByYield(selected) <==> c in multiset(selected);
    if selected != [] {
      assert selected[0] in s && p(selected[0]);
    }
  }

  /** The `k` highest-yielding records: `[...s].sort(byYieldDesc).slice(0, k)`. */
  function Top(s: seq<CropData>, k: nat): (r: seq<CropData>)
  {
    SortByYield(s)[..Min(k, |s|)]
  }

  /** In a ranking, everything before position `n` yields at least as much as everything after it. */
  lemma SortedSplit(sorted: seq<CropData>, n: nat)
    requires SortedByYield(sorted) && n <= |sorted|
    ensures forall t, x :: t in sorted[..n] && x in sorted[n..] ==> t.yieldKgPerHa >= x.yieldKgPerHa
  {
    forall t, x | t in sorted[..n] && x in sorted[n..]
      ensures t.yieldKgPerHa >= x.yieldKgPerHa
    {
      var i :| 0 <= i < n && sorted[..n][i] == t;
      var j :| 0 <= j < |sorted| - n && sorted[n..][j] == x;
      assert sorted[i] == t && sorted[n + j] == x;
    }
  }

  /**
   * `Top` keeps `min(k, |s|)` records of `s`, in ranking order, and none of
   * the records it leaves out has a higher yield than one it keeps.
   */
  lemma TopIsTop(s: seq<CropData>, k: nat)
    ensures |Top(s, k)| == Min(k, |s|)
    ensures SortedByYield(Top(s, k))
    ensures multiset(Top(s, k)) <= multiset(s)
    ensures forall t, x :: t in Top(s, k) && x in multiset(s) - multiset(Top(s, k)) ==> t.yieldKgPerHa >= x.yieldKgPerHa
  {
    var sorted, n := SortByYield(s), Min(k, |s|);
    var top := Top(s, k);
    assert top == sorted[..n];
    MultisetOfSplit(sorted, n);
    SortedSplit(sorted, n);
  }

  lemma MultisetOfSplit<T>(a: seq<T>, n: nat)
    requires n <= |a|
    ensures multiset(a[..n]) <= multiset(a)
    ensures multiset(a) - multiset(a[..n]) == multiset(a[n..])
  {
    assert a == a[..n] + a[n..];
  }
}
