/**
 * The dataset aggregates charted by `Insights.tsx`: the seven
 * highest-yielding records and the number of records per category.
 */
module Insights {
  import opened Seqs
  import opened Types
  import opened Ranking

  /** How many bars the yield chart shows. */
  const TopYieldCount: nat := 7

  /**
   * `[...allCrops].sort(byYieldDesc).slice(0, 7)`: the first `min(7, n)`
   * records of the ranking, highest yield first, drawn from the dataset,
   * and no record left out yields more than one kept.
   */
  function TopCropsByYield(allCrops: seq<CropData>): (r: seq<CropData>)
    ensures |r| == Min(TopYieldCount, |allCrops|)
    ensures SortedByYield(r)
    ensures multiset(r) <= multiset(allCrops)
    ensures forall t, x :: t in r && x in multiset(allCrops) - multiset(r) ==> t.yieldKgPerHa >= x.yieldKgPerHa
  {
    TopIsTop(allCrops, TopYieldCount);
    Top(allCrops, TopYieldCount)
  }

  /** `crop.category || 'Uncategorized'` */
  function CategoryOf(c: CropData): (name: string)
    ensures name != ""
    ensures c.category == "" ==> name == "Uncategorized"
    ensures c.category != "" ==> name == c.category
  {
    if c.category == "" then "Uncategorized" else c.category
  }

  /** The category each record is counted under, in dataset order. */
  function Categories(crops: seq<CropData>): (cats: seq<string>)
    ensures |cats| == |crops|
    ensures forall i :: 0 <= i < |crops| ==> cats[i] == CategoryOf(crops[i])
  {
    seq(|crops|, i requires 0 <= i < |crops| => CategoryOf(crops[i]))
  }

  /** One `{ name, value }` entry of the pie chart. */
  datatype Slice = Slice(name: string, value: nat)

  /**
   * The pie-chart entries for `crops`: one per category, in the order the
   * categories first occur, each with the number of records counted under it.
   */
  predicate IsDistribution(crops: seq<CropData>, dist: seq<Slice>)
  {
    var cats := Categories(crops);
    var names := Dedup(cats);
    |dist| == |names| &&
    forall j :: 0 <= j < |dist| ==> dist[j] == Slice(names[j], multiset(cats)[names[j]])
  }

  /**
   * The accumulator after the categories `seen` have been counted: its keys,
   * in insertion order, are the distinct categories of `seen`, and each
   * key maps to the number of times it occurs there.
   */
  ghost predicate Tally(acc: map<string, nat>, keys: seq<string>, seen: seq<string>)
  {
    keys == Dedup(seen) &&
    (forall k :: k in acc <==> k in keys) &&
    forall k :: k in acc ==> acc[k] == multiset(seen)[k]
  }

  /**
   * `cropCategoryDistribution`: the `reduce` that bumps `acc[category]` for
   * each record, then `Object.entries` of the counts, in key insertion order.
   */
  method CategoryDistribution(allCrops: seq<CropData>) returns (dist: seq<Slice>)
    ensures IsDistribution(allCrops, dist)
  {
    var acc: map<string, nat> := map[];
    var keys: seq<string> := [];
    var i := 0;
    while i < |allCrops|
      invariant 0 <= i <= |allCrops|
      invariant Tally(acc, keys, Categories(allCrops[..i]))
    {
      var category := CategoryOf(allCrops[i]);
      var count := if category in acc then acc[category] + 1 else 1;
      var nextKeys := if category in keys then keys else keys + [category];
      TallyNext(acc, keys, allCrops, i, count, nextKeys);
      acc, keys, i := acc[category := count], nextKeys, i + 1;
    }
    assert allCrops[..i] == allCrops;
    dist := Entries(acc, keys);
    EntriesOfTally(allCrops, acc, keys);
  }

  /** `Object.entries(acc)` for an object whose keys were inserted in the order `keys`. */
  function Entries(acc: map<string, nat>, keys: seq<string>): (dist: seq<Slice>)
    requires forall k :: k in keys ==> k in acc
    ensures |dist| == |keys|
    ensures forall j :: 0 <= j < |keys| ==> dist[j] == Slice(keys[j], acc[keys[j]])
  {
    seq(|keys|, j requires 0 <= j < |keys| => Slice(keys[j], acc[keys[j]]))
  }

  /** The entries of a tally of every record's category are that dataset's distribution. */
  lemma EntriesOfTally(crops: seq<CropData>, acc: map<string, nat>, keys: seq<string>)
    requires Tally(acc, keys, Categories(crops))
    ensures IsDistribution(crops, Entries(acc, keys))
  {
  }

  /** Counting one more record keeps the accumulator a tally of the longer prefix. */
  lemma TallyNext(acc: map<string, nat>, keys: seq<string>, crops: seq<CropData>, i: nat, count: nat, nextKeys: seq<string>)
    requires i < |crops| && Tally(acc, keys, Categories(crops[..i]))
    requires var x := CategoryOf(crops[i]);
      count == (if x in acc then acc[x] + 1 else 1) && nextKeys == if x in keys then keys else keys + [x]
    ensures Tally(acc[CategoryOf(crops[i]) := count], nextKeys, Categories(crops[..i + 1]))
  {
    var seen, x := Categories(crops[..i]), CategoryOf(crops[i]);
    assert Categories(crops[..i + 1]) == seen + [x];
    TallyStep(acc, keys, seen, x, count, nextKeys);
  }

  /** Counting one more category keeps the accumulator a tally of the longer list. */
  lemma TallyStep(acc: map<string, nat>, keys: seq<string>, seen: seq<string>, x: string, count: nat, nextKeys: seq<string>)
    requires Tally(acc, keys, seen)
    requires count == (if x in acc then acc[x] + 1 else 1) && nextKeys == if x in keys then keys else keys + [x]
    ensures Tally(acc[x := count], nextKeys, seen + [x])
  {
    DedupSnoc(seen, x);
    assert multiset(seen + [x]) == multiset(seen) + multiset{x};
  }

  /** The sum of the entries' counts. */
  function Total(dist: seq<Slice>): nat
  {
    if dist == [] then 0 else Total(dist[..|dist| - 1]) + dist[|dist| - 1].value
  }

  /** The sum, over `names`, of how often each occurs in `m`. */
  function CountSum(names: seq<string>, m: multiset<string>): nat
  {
    if names == [] then 0 else CountSum(names[..|names| - 1], m) + m[names[|names| - 1]]
  }

  /**
   * The distribution names every category exactly once, never the empty
   * name (an empty category is counted as `'Uncategorized'`), gives each
   * a count of at least one, and its counts add up to the number of records.
   */
  lemma DistributionFacts(crops: seq<CropData>, dist: seq<Slice>)
    requires IsDistribution(crops, dist)
    ensures forall i, j :: 0 <= i < j < |dist| ==> dist[i].name != dist[j].name
    ensures forall j :: 0 <= j < |dist| ==> dist[j].name != "" && dist[j].value >= 1
    ensures forall c :: c in crops ==> exists j :: 0 <= j < |dist| && dist[j].name == CategoryOf(c)
    ensures forall c :: c in crops && c.category == "" ==> exists j :: 0 <= j < |dist| && dist[j].name == "Uncategorized"
    ensures Total(dist) == |crops|
  {
    var cats := Categories(crops);
    var names := Dedup(cats);
    forall c | c in crops
      ensures exists j :: 0 <= j < |dist| && dist[j].name == CategoryOf(c)
    {
      var i :| 0 <= i < |crops| && crops[i] == c;
      assert cats[i] in names;
      var j :| 0 <= j < |names| && names[j] == cats[i];
      assert dist[j].name == CategoryOf(c);
    }
    forall j | 0 <= j < |dist|
      ensures dist[j].name != "" && dist[j].value >= 1
    {
      assert names[j] in cats;
      var i :| 0 <= i < |cats| && cats[i] == names[j];
    }
    TotalIsCountSum(dist, names, multiset(cats));
    CountSumOfDedup(cats);
  }

  lemma {:induction false} TotalIsCountSum(dist: seq<Slice>, names: seq<string>, m: multiset<string>)
    requires |dist| == |names|
    requires forall j :: 0 <= j < |dist| ==> dist[j].value == m[names[j]]
    ensures Total(dist) == CountSum(names, m)
  {
    if dist != [] {
      TotalIsCountSum(dist[..|dist| - 1], names[..|names| - 1], m);
    }
  }

  /** Each element of `s`, counted once under its distinct name, adds up to the length of `s`. */
  lemma {:induction false} CountSumOfDedup(s: seq<string>)
    ensures CountSum(Dedup(s), multiset(s)) == |s|
  {
    if s != [] {
      var t, x := s[..|s| - 1], s[|s| - 1];
      assert s == t + [x];
      var d := Dedup(t);
      CountSumOfDedup(t);
      CountSumAddOne(d, multiset(t), x);
      if x !in d {
        assert x !in t;
        assert (d + [x])[..|d|] == d;
      }
    }
  }

  /** Adding one occurrence of `x` raises the sum over distinct names by one exactly when `x` is named. */
  lemma {:induction false} CountSumAddOne(names: seq<string>, m: multiset<string>, x: string)
    requires Distinct(names)
    ensures CountSum(names, m + multiset{x}) == CountSum(names, m) + if x in names then 1 else 0
  {
    if names != [] {
      var front := names[..|names| - 1];
      assert Distinct(front);
      assert x in names <==> x in front || x == names[|names| - 1];
      CountSumAddOne(front, m, x);
    }
  }
}
