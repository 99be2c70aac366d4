/**
 * The filter engine of the campus map: the list of POIs shown in the
 * sidebar and painted as markers is the POI list restricted to those that
 * match the search term, the selected category and the two flags.
 */
module PoiFilter {
  import opened Places
  import opened Text

  /** The POI's lower-cased name contains the lower-cased search term. */
  predicate MatchesSearch(poi: POI, searchTerm: string)
  {
    Includes(LowerStr(poi.name), LowerStr(searchTerm))
  }

  /** The selector is "all" or names the POI's category. */
  predicate MatchesCategory(poi: POI, category: CategoryFilter)
  {
    category == AllCategories || category == OnlyCategory(poi.category)
  }

  /** The conjunction of the four conditions a POI must meet to be shown. */
  predicate Matches(poi: POI, searchTerm: string, category: CategoryFilter,
                    essentialsOnly: bool, accessibleOnly: bool)
  {
    && MatchesSearch(poi, searchTerm)
    && MatchesCategory(poi, category)
    && (!essentialsOnly || poi.isEssential)
    && (!accessibleOnly || poi.isAccessible)
  }

  /** `a` is obtained from `b` by deleting elements, keeping the order of the rest. */
  predicate IsSubsequence<T(==)>(a: seq<T>, b: seq<T>)
    decreases |b|
  {
    || a == []
    || (b != [] && ((a[0] == b[0] && IsSubsequence(a[1..], b[1..])) || IsSubsequence(a, b[1..])))
  }

  /**
   * `pois.filter(...)`: keeps the matching POIs in their original order.
   * The result is an order-preserving subsequence of the input, and each
   * POI in it meets all four conditions.
   */
  function Filter(pois: seq<POI>, searchTerm: string, category: CategoryFilter,
                  essentialsOnly: bool, accessibleOnly: bool): (r: seq<POI>)
    ensures IsSubsequence(r, pois)
    ensures forall k :: 0 <= k < |r| ==> Matches(r[k], searchTerm, category, essentialsOnly, accessibleOnly)
  {
    if pois == [] then []
    else
      var rest := Filter(pois[1..], searchTerm, category, essentialsOnly, accessibleOnly);
      assert pois == [pois[0]] + pois[1..];
      if Matches(pois[0], searchTerm, category, essentialsOnly, accessibleOnly) then
        assert ([pois[0]] + rest)[1..] == rest;
        [pois[0]] + rest
      else
        rest
  }

  /**
   * Sound and complete: a POI is in the filtered list exactly when it is in
   * the input list and meets all four conditions.
   */
  lemma {:induction false} FilterMembership(pois: seq<POI>, poi: POI, searchTerm: string, category: CategoryFilter,
                                            essentialsOnly: bool, accessibleOnly: bool)
    ensures poi in Filter(pois, searchTerm, category, essentialsOnly, accessibleOnly)
            <==> poi in pois && Matches(poi, searchTerm, category, essentialsOnly, accessibleOnly)
  {
    if pois != [] {
      FilterMembership(pois[1..], poi, searchTerm, category, essentialsOnly, accessibleOnly);
      assert pois == [pois[0]] + pois[1..];
    }
  }

  /** When every POI matches, the filter returns the list unchanged. */
  lemma {:induction false} FilterKeepsAllMatching(pois: seq<POI>, searchTerm: string, category: CategoryFilter,
                                                  essentialsOnly: bool, accessibleOnly: bool)
    requires forall p :: p in pois ==> Matches(p, searchTerm, category, essentialsOnly, accessibleOnly)
    ensures Filter(pois, searchTerm, category, essentialsOnly, accessibleOnly) == pois
  {
    if pois != [] {
      assert pois[0] in pois;
      FilterKeepsAllMatching(pois[1..], searchTerm, category, essentialsOnly, accessibleOnly);
    }
  }

  /** The initial sidebar settings (empty search, all categories, no flags) show every POI. */
  lemma {:induction false} FilterWithoutCriteria(pois: seq<POI>)
    ensures Filter(pois, "", AllCategories, false, false) == pois
  {
    forall p | p in pois
      ensures Matches(p, "", AllCategories, false, false)
    {
      IncludesEmpty(LowerStr(p.name));
    }
    FilterKeepsAllMatching(pois, "", AllCategories, false, false);
  }

  /** The search ignores letter case in the search term. */
  lemma SearchIgnoresCase(poi: POI, searchTerm: string)
    ensures MatchesSearch(poi, searchTerm) == MatchesSearch(poi, LowerStr(searchTerm))
  {
    LowerStrIdempotent(searchTerm);
  }

  /**
   * Narrowing the criteria (a category instead of "all", or switching on
   * the essentials or accessible flag) can only drop POIs from the result,
   * keeping the order of the rest; every POI left then has the flagged property.
   */
  lemma {:induction false} FilterNarrowing(pois: seq<POI>, searchTerm: string,
                                           category: CategoryFilter, essentialsOnly: bool, accessibleOnly: bool,
                                           category': CategoryFilter, essentialsOnly': bool, accessibleOnly': bool)
    requires category == AllCategories || category' == category
    requires essentialsOnly ==> essentialsOnly'
    requires accessibleOnly ==> accessibleOnly'
    ensures IsSubsequence(Filter(pois, searchTerm, category', essentialsOnly', accessibleOnly'),
                          Filter(pois, searchTerm, category, essentialsOnly, accessibleOnly))
    ensures essentialsOnly' ==>
      forall p :: p in Filter(pois, searchTerm, category', essentialsOnly', accessibleOnly') ==> p.isEssential
    ensures accessibleOnly' ==>
      forall p :: p in Filter(pois, searchTerm, category', essentialsOnly', accessibleOnly') ==> p.isAccessible
    ensures category'.OnlyCategory? ==>
      forall p :: p in Filter(pois, searchTerm, category', essentialsOnly', accessibleOnly') ==> p.category == category'.category
  {
    if pois != [] {
      var narrow := Filter(pois, searchTerm, category', essentialsOnly', accessibleOnly');
      var wide := Filter(pois, searchTerm, category, essentialsOnly, accessibleOnly);
      var narrowRest := Filter(pois[1..], searchTerm, category', essentialsOnly', accessibleOnly');
      var wideRest := Filter(pois[1..], searchTerm, category, essentialsOnly, accessibleOnly);
      FilterNarrowing(pois[1..], searchTerm, category, essentialsOnly, accessibleOnly,
                      category', essentialsOnly', accessibleOnly');
      if Matches(pois[0], searchTerm, category', essentialsOnly', accessibleOnly') {
        assert narrow == [pois[0]] + narrowRest && wide == [pois[0]] + wideRest;
        assert narrow[1..] == narrowRest && wide[1..] == wideRest;
      } else if Matches(pois[0], searchTerm, category, essentialsOnly, accessibleOnly) {
        assert narrow == narrowRest && wide == [pois[0]] + wideRest;
        assert wide[1..] == wideRest;
      }
    }
  }

  /** Filtering an already filtered list with the same criteria changes nothing. */
  lemma {:induction false} FilterIdempotent(pois: seq<POI>, searchTerm: string, category: CategoryFilter,
                                            essentialsOnly: bool, accessibleOnly: bool)
    ensures var once := Filter(pois, searchTerm, category, essentialsOnly, accessibleOnly);
            Filter(once, searchTerm, category, essentialsOnly, accessibleOnly) == once
  {
    var once := Filter(pois, searchTerm, category, essentialsOnly, accessibleOnly);
    FilterKeepsAllMatching(once, searchTerm, category, essentialsOnly, accessibleOnly);
  }

  /**
   * Appending a POI to the list appends it to the filtered list when it
   * matches, and leaves the filtered list as it was otherwise.
   */
  lemma {:induction false} FilterAppend(pois: seq<POI>, poi: POI, searchTerm: string, category: CategoryFilter,
                                        essentialsOnly: bool, accessibleOnly: bool)
    ensures Filter(pois + [poi], searchTerm, category, essentialsOnly, accessibleOnly)
         == Filter(pois, searchTerm, category, essentialsOnly, accessibleOnly)
            + (if Matches(poi, searchTerm, category, essentialsOnly, accessibleOnly) then [poi] else [])
  {
    if pois == [] {
      assert [] + [poi] == [poi];
      assert [poi][1..] == [];
    } else {
      assert (pois + [poi])[0] == pois[0];
      assert (pois + [poi])[1..] == pois[1..] + [poi];
      FilterAppend(pois[1..], poi, searchTerm, category, essentialsOnly, accessibleOnly);
    }
  }
}
