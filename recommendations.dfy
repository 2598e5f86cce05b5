/**
 * The crop recommendation list of `CropRecommendations.tsx` and the numbered
 * top-ten section of its PDF export.
 */
module Recommendations {
  import opened Seqs
  import opened Strings
  import opened Types
  import opened Ranking

  /** The filter buttons, `'all'` first. */
  const CropCategories: seq<string> := ["all", "cereals", "vegetables", "fruits", "pulses", "cash"]

  /** How many records the `'all'` view shows. */
  const AllViewCap: nat := 12

  /** How many records the export lists. */
  const ExportCap: nat := 10

  /** The user's state as it is compared: lower-cased, then trimmed. */
  function NormalizeState(state: string): string
  {
    Trim(ToLower(state))
  }

  /**
   * The guard `if (lowerCaseUserState)` passes exactly for a user state that
   * is not blank, and the text compared holds no upper-case letter.
   */
  lemma NormalizeStateFacts(state: string)
    ensures NormalizeState(state) == "" <==> IsBlank(state)
    ensures forall k :: 0 <= k < |NormalizeState(state)| ==> !('A' <= NormalizeState(state)[k] <= 'Z')
  {
    BlankIgnoresCase(state);
    var lower := ToLower(state);
    var i, j :| 0 <= i <= j <= |lower| && Trim(lower) == lower[i..j];
    SliceHasNoUpper(lower, i, j);
  }

  /** A record's state, only lower-cased, equals `u`. */
  function InState(u: string): CropData -> bool
  {
    (c: CropData) => ToLower(c.state) == u
  }

  /** A record's category, lower-cased, equals the filter. */
  function InCategory(filter: string): CropData -> bool
  {
    (c: CropData) => ToLower(c.category) == filter
  }

  /**
   * The records recommendations are drawn from: those of the user's state,
   * or the whole dataset when the state is blank or matches no record.
   */
  function StateCandidates(userState: string, allCrops: seq<CropData>): (r: seq<CropData>)
    ensures NormalizeState(userState) == "" ==> r == allCrops
    ensures (forall c :: c in allCrops ==> ToLower(c.state) != NormalizeState(userState)) ==> r == allCrops
    ensures NormalizeState(userState) != "" && (exists c :: c in allCrops && ToLower(c.state) == NormalizeState(userState)) ==>
      && r != []
      && (forall c :: c in r <==> c in allCrops && ToLower(c.state) == NormalizeState(userState))
      && IsSubsequence(r, allCrops)
      && forall c :: multiset(r)[c] == if ToLower(c.state) == NormalizeState(userState) then multiset(allCrops)[c] else 0
  {
    var u := NormalizeState(userState);
    if u == "" then allCrops
    else
      var inState := Filter(allCrops, InState(u));
      StateSelection(allCrops, u);
      if |inState| > 0 then inState else allCrops
  }

  /** The records selected for state `u` are those whose lower-cased state is `u`, each as often as in the dataset, in dataset order. */
  lemma StateSelection(allCrops: seq<CropData>, u: string)
    ensures IsSubsequence(Filter(allCrops, InState(u)), allCrops)
    ensures forall c :: c in Filter(allCrops, InState(u)) <==> c in allCrops && ToLower(c.state) == u
    ensures forall c :: multiset(Filter(allCrops, InState(u)))[c] == if ToLower(c.state) == u then multiset(allCrops)[c] else 0
  {
    FilterIsSubsequence(allCrops, InState(u));
    FilterMultiset(allCrops, InState(u));
  }

  /**
   * The state match ignores case on both sides: user states that differ only
   * in the case of letters give the same candidates, and two records whose
   * states differ only in case are both matched or both not.
   */
  lemma StateMatchIgnoresCase(userState: string, other: string, allCrops: seq<CropData>, c: CropData, d: CropData)
    requires EqualIgnoringCase(userState, other)
    requires EqualIgnoringCase(c.state, d.state)
    ensures StateCandidates(userState, allCrops) == StateCandidates(other, allCrops)
    ensures InState(NormalizeState(userState))(c) == InState(NormalizeState(userState))(d)
  {
    ToLowerEqual(userState, other);
    ToLowerEqual(c.state, d.state);
  }

  /**
   * The ranked view of a candidate list under a filter: the first twelve by
   * yield under `'all'`, otherwise every ranked candidate of the category.
   */
  function View(cands: seq<CropData>, activeFilter: string): (r: seq<CropData>)
    ensures SortedByYield(r)
    ensures activeFilter == "all" ==> |r| == Min(AllViewCap, |cands|) && r == SortByYield(cands)[..|r|]
    ensures activeFilter != "all" ==> r == SortByYield(Filter(cands, InCategory(activeFilter)))
  {
    var sorted := SortByYield(cands);
    if activeFilter == "all" then
      sorted[..Min(AllViewCap, |sorted|)]
    else
      SortFilterCommute(cands, InCategory(activeFilter));
      Filter(sorted, InCategory(activeFilter))
  }

  /**
   * A category view holds exactly the candidates of that category, with no
   * cap, as many times as they occur, and is empty only when none matches.
   */
  lemma CategoryViewContents(cands: seq<CropData>, activeFilter: string)
    requires activeFilter != "all"
    ensures forall c :: c in View(cands, activeFilter) <==> c in cands && ToLower(c.category) == activeFilter
    ensures multiset(View(cands, activeFilter)) == multiset(Filter(cands, InCategory(activeFilter)))
    ensures View(cands, activeFilter) == [] <==> forall c :: c in cands ==> ToLower(c.category) != activeFilter
  {
    RankedSelection(cands, InCategory(activeFilter));
  }

  /**
   * Among records of equal yield, the `'all'` view keeps the candidates'
   * order: its records of any one yield are the first ones of that yield
   * in the candidate list.
   */
  lemma AllViewIsStable(cands: seq<CropData>, y: int)
    ensures Filter(View(cands, "all"), YieldIs(y)) <= Filter(cands, YieldIs(y))
  {
    var sorted := SortByYield(cands);
    var n := Min(AllViewCap, |cands|);
    assert sorted == sorted[..n] + sorted[n..];
    FilterAppend(sorted[..n], sorted[n..], YieldIs(y));
    SortByYieldIsStable(cands, y);
  }

  /** With at most twelve candidates the `'all'` view is the whole ranking. */
  lemma AllViewOfFew(cands: seq<CropData>)
    requires |cands| <= AllViewCap
    ensures View(cands, "all") == SortByYield(cands)
  {
    assert SortByYield(cands)[..|cands|] == SortByYield(cands);
  }

  /**
   * Among records of equal yield, a category view keeps the candidates'
   * order: they appear exactly as they do in the candidate list.
   */
  lemma CategoryViewIsStable(cands: seq<CropData>, activeFilter: string, y: int)
    requires activeFilter != "all"
    ensures Filter(View(cands, activeFilter), YieldIs(y)) == Filter(Filter(cands, InCategory(activeFilter)), YieldIs(y))
  {
    SortByYieldIsStable(Filter(cands, InCategory(activeFilter)), y);
  }

  /**
   * `recommendedCrops` for the user's state, the dataset and the active
   * filter button: dataset records, highest yield first, at most twelve under
   * `'all'`, all of the category otherwise.
   */
  function Recommend(userState: string, allCrops: seq<CropData>, activeFilter: string): (r: seq<CropData>)
    ensures SortedByYield(r)
    ensures forall c :: c in r ==> c in allCrops
    ensures activeFilter == "all" ==> |r| <= AllViewCap
    ensures activeFilter != "all" ==> forall c :: c in r ==> ToLower(c.category) == activeFilter
  {
    var cands := StateCandidates(userState, allCrops);
    CandidatesAreRecords(userState, allCrops);
    ViewDrawsFromCandidates(cands, activeFilter);
    View(cands, activeFilter)
  }

  /** Every candidate is a dataset record. */
  lemma CandidatesAreRecords(userState: string, allCrops: seq<CropData>)
    ensures forall c :: c in StateCandidates(userState, allCrops) ==> c in allCrops
  {
  }

  /** A view shows only candidates, and a category view only that category's. */
  lemma ViewDrawsFromCandidates(cands: seq<CropData>, activeFilter: string)
    ensures forall c :: c in View(cands, activeFilter) ==> c in cands
    ensures activeFilter != "all" ==> forall c :: c in View(cands, activeFilter) ==> ToLower(c.category) == activeFilter
  {
    var r := View(cands, activeFilter);
    assert forall c :: c in SortByYield(cands) ==> c in multiset(cands);
    assert forall c :: c in r ==> c in SortByYield(cands) by {
      if activeFilter != "all" {
        SortFilterCommute(cands, InCategory(activeFilter));
      }
    }
  }

  /** Every filter button is already lower-case, so it can equal a lower-cased category. */
  lemma CategoryButtonsAreLowerCase()
    ensures forall f :: f in CropCategories ==> ToLower(f) == f
  {
    forall f | f in CropCategories
      ensures ToLower(f) == f
    {
      assert forall i :: 0 <= i < |f| ==> 'a' <= f[i] <= 'z';
    }
  }

  /** `${index + 1}. ${crop.crop} (Yield: ${crop.yield_kg_per_ha} kg/ha)` */
  function ExportLine(rank: nat, c: CropData): string
  {
    NatToString(rank) + ". " + c.crop + " (Yield: " + IntToString(c.yieldKgPerHa) + " kg/ha)"
  }

  /** The text lines of the export's "Top Crop Recommendations" section. */
  function ExportListing(recommended: seq<CropData>): (lines: seq<string>)
  {
    seq(Min(ExportCap, |recommended|), i requires 0 <= i < Min(ExportCap, |recommended|) => ExportLine(i + 1, recommended[i]))
  }

  /** The number at the head of an export line reads back as its rank, and the crop name follows it. */
  lemma ExportLineIsNumbered(rank: nat, c: CropData)
    requires rank >= 1
    ensures StartsWith(ExportLine(rank, c), NatToString(rank) + ". " + c.crop)
    ensures DigitsValue(LeadingDigits(ExportLine(rank, c))) == rank
  {
    var head := NatToString(rank);
    var rest := ". " + c.crop + " (Yield: " + IntToString(c.yieldKgPerHa) + " kg/ha)";
    assert ExportLine(rank, c) == head + rest;
    assert (head + rest)[..|head + ". " + c.crop|] == head + ". " + c.crop;
    LeadingDigitsOfPrefix(head, rest);
    NatToStringRoundTrip(rank);
  }

  /**
   * The export lists at most ten crops, in recommendation order, and the
   * number at the head of the line for the i-th crop reads back as i + 1.
   */
  lemma ExportListingIsNumbered(recommended: seq<CropData>)
    ensures |ExportListing(recommended)| == Min(ExportCap, |recommended|)
    ensures forall i :: 0 <= i < |ExportListing(recommended)| ==>
      && StartsWith(ExportListing(recommended)[i], NatToString(i + 1) + ". " + recommended[i].crop)
      && DigitsValue(LeadingDigits(ExportListing(recommended)[i])) == i + 1
  {
    forall i | 0 <= i < |ExportListing(recommended)|
      ensures StartsWith(ExportListing(recommended)[i], NatToString(i + 1) + ". " + recommended[i].crop)
      ensures DigitsValue(LeadingDigits(ExportListing(recommended)[i])) == i + 1
    {
      ExportLineIsNumbered(i + 1, recommended[i]);
    }
  }
}

/** The recommendation scenario with Maharashtra records, worked out on concrete data. */
module RecommendationScenario {
  import opened Seqs
  import opened Strings
  import opened Types
  import opened Ranking
  import opened Recommendations

  lemma LowerMaharashtra()
    ensures ToLower("Maharashtra") == "maharashtra"
  {
    var s, l := "Maharashtra", "maharashtra";
    assert forall i :: 0 <= i < |s| ==> ToLower(s)[i] == l[i];
  }

  lemma NormalizeMaharashtra()
    ensures NormalizeState("Maharashtra") == "maharashtra"
  {
    LowerMaharashtra();
    var l := "maharashtra";
    assert !IsJsWhitespace(l[0]) && !IsJsWhitespace(l[|l| - 1]);
    assert Trim(l) == l;
  }

  /**
   * Three Maharashtra records (yields 100, 500, 300) among a Punjab and a
   * Kerala record: under `'all'` the list is the Maharashtra records by
   * yield, 500, 300, 100, whatever the other records yield.
   */
  lemma MaharashtraScenario(a: CropData, p: CropData, b: CropData, k: CropData, c: CropData)
    requires a.state == "Maharashtra" && b.state == "Maharashtra" && c.state == "Maharashtra"
    requires p.state == "Punjab" && k.state == "Kerala"
    requires a.yieldKgPerHa == 100 && b.yieldKgPerHa == 500 && c.yieldKgPerHa == 300
    ensures Recommend("Maharashtra", [a, p, b, k, c], "all") == [b, c, a]
  {
    MaharashtraCandidates(a, p, b, k, c);
    AllViewOfFew([a, b, c]);
    RankMaharashtra(a, b, c);
  }

  /** Only the three Maharashtra records are candidates. */
  lemma MaharashtraCandidates(a: CropData, p: CropData, b: CropData, k: CropData, c: CropData)
    requires a.state == "Maharashtra" && b.state == "Maharashtra" && c.state == "Maharashtra"
    requires p.state == "Punjab" && k.state == "Kerala"
    ensures StateCandidates("Maharashtra", [a, p, b, k, c]) == [a, b, c]
  {
    NormalizeMaharashtra();
    LowerMaharashtra();
    assert |ToLower(p.state)| == 6 && |ToLower(k.state)| == 6;
    var keep := InState("maharashtra");
    assert keep(a) && keep(b) && keep(c) && !keep(p) && !keep(k);
    KeepOddPlaces(a, p, b, k, c, keep);
  }

  /** Of five records, those in the first, third and fifth places pass the test and the others fail. */
  lemma KeepOddPlaces(a: CropData, p: CropData, b: CropData, k: CropData, c: CropData, keep: CropData -> bool)
    requires keep(a) && keep(b) && keep(c) && !keep(p) && !keep(k)
    ensures Filter([a, p, b, k, c], keep) == [a, b, c]
  {
    FilterFive(a, p, b, k, c, keep);
    assert [a] + [] + [b] + [] + [c] == [a, b, c];
  }

  lemma RankMaharashtra(a: CropData, b: CropData, c: CropData)
    requires a.yieldKgPerHa == 100 && b.yieldKgPerHa == 500 && c.yieldKgPerHa == 300
    ensures SortByYield([a, b, c]) == [b, c, a]
  {
    SortPair(b, c);
    SortCons(a, [b, c]);
    assert [a] + [b, c] == [a, b, c];
    InsertBelowTwo(a, b, c);
  }

  /** Two records already in yield order stay as they are. */
  lemma SortPair(b: CropData, c: CropData)
    requires c.yieldKgPerHa <= b.yieldKgPerHa
    ensures SortByYield([b, c]) == [b, c]
  {
    SortCons(c, []);
    SortCons(b, [c]);
    assert [c] + [] == [c] && [b] + [c] == [b, c];
  }

  /** Sorting a list with a first element inserts it into the sorted rest. */
  lemma SortCons(x: CropData, s: seq<CropData>)
    ensures SortByYield([x] + s) == Insert(x, SortByYield(s))
  {
    assert ([x] + s)[1..] == s;
  }

  /** A record yielding less than both of two records goes after them. */
  lemma InsertBelowTwo(x: CropData, b: CropData, c: CropData)
    requires x.yieldKgPerHa < c.yieldKgPerHa && x.yieldKgPerHa < b.yieldKgPerHa
    ensures Insert(x, [b, c]) == [b, c, x]
  {
    assert [b, c][1..] == [c];
    assert Insert(x, [c]) == [c, x];
  }
}
