/**
 * The opportunity list of the main page: the search/category/attribute filter, the
 * per-category counts for the category tabs, and the page state that "Clear all
 * filters" resets. The catalogue is a parameter (the page's static data set).
 */
module Catalog {
  import opened Wrappers
  import opened Text
  import opened Seqs
  import opened OpportunityTypes

  /** An empty query passes; otherwise the lower-cased query must occur in the title, description or a tag. */
  predicate MatchesSearch(o: Opportunity, query: string) {
    query == "" ||
    var q := Lower(query);
    Contains(Lower(o.title), q) || Contains(Lower(o.description), q) ||
    exists i :: 0 <= i < |o.tags| && Contains(Lower(o.tags[i]), q)
  }

  /** `activeCategory` is the category tab's id: `'all'` or a category name. */
  predicate MatchesCategory(o: Opportunity, activeCategory: string) {
    activeCategory == "all" || o.category.Name() == activeCategory
  }

  /** Source, difficulty and location each constrain only when set to a non-empty string. */
  predicate MatchesAttributes(o: Opportunity, filters: OpportunityFilters) {
    (!Truthy(filters.source) || o.source.Name() == filters.source.value) &&
    (!Truthy(filters.difficulty) || o.difficulty.Name() == filters.difficulty.value) &&
    (!Truthy(filters.location) || o.location == filters.location.value)
  }

  /**
   * The conjunction that the list's filter callback evaluates: with nothing selected
   * every opportunity passes, and a selected tab or a set attribute must match exactly.
   */
  predicate Passes(o: Opportunity, query: string, activeCategory: string, filters: OpportunityFilters)
    ensures (query == "" && activeCategory == "all" && !Truthy(filters.source) &&
             !Truthy(filters.difficulty) && !Truthy(filters.location)) ==> Passes(o, query, activeCategory, filters)
    ensures Passes(o, query, activeCategory, filters) && activeCategory != "all" ==>
            o.category.Name() == activeCategory
    ensures Passes(o, query, activeCategory, filters) && Truthy(filters.source) ==>
            o.source.Name() == filters.source.value
    ensures Passes(o, query, activeCategory, filters) && Truthy(filters.difficulty) ==>
            o.difficulty.Name() == filters.difficulty.value
    ensures Passes(o, query, activeCategory, filters) && Truthy(filters.location) ==>
            o.location == filters.location.value
  {
    MatchesSearch(o, query) && MatchesCategory(o, activeCategory) && MatchesAttributes(o, filters)
  }

  /** The opportunities shown: those that pass, in catalogue order. */
  function FilterOpportunities(catalog: seq<Opportunity>, query: string, activeCategory: string,
                               filters: OpportunityFilters): (r: seq<Opportunity>)
    ensures IsSubsequence(r, catalog)
    ensures forall o :: o in r <==> o in catalog && Passes(o, query, activeCategory, filters)
  {
    var p := o => Passes(o, query, activeCategory, filters);
    FilterIsSubsequence(catalog, p);
    forall o | o in catalog && p(o) ensures o in Filter(catalog, p) {
      FilterKeeps(catalog, p, o);
    }
    Filter(catalog, p)
  }

  /** No query, the `'all'` tab and `{}` show the whole catalogue, unchanged. */
  lemma UnfilteredIsCatalog(catalog: seq<Opportunity>)
    ensures FilterOpportunities(catalog, "", "all", EmptyFilters) == catalog
  {
    FilterAllPass(catalog, o => Passes(o, "", "all", EmptyFilters));
  }

  /** A selected category tab admits only opportunities of that category; a tab naming no category admits none. */
  lemma ActiveCategoryRestricts(catalog: seq<Opportunity>, query: string, activeCategory: string,
                                filters: OpportunityFilters)
    requires activeCategory != "all"
    ensures forall o :: o in FilterOpportunities(catalog, query, activeCategory, filters) ==>
                          o.category.Name() == activeCategory
    ensures ParseCategory(activeCategory).None? ==> FilterOpportunities(catalog, query, activeCategory, filters) == []
  {
    var r := FilterOpportunities(catalog, query, activeCategory, filters);
    if ParseCategory(activeCategory).None? && r != [] {
      assert r[0] in r;
    }
  }

  /** A set source, difficulty or location is matched exactly. */
  lemma SetAttributesRequireEquality(catalog: seq<Opportunity>, query: string, activeCategory: string,
                                     filters: OpportunityFilters, o: Opportunity)
    requires o in FilterOpportunities(catalog, query, activeCategory, filters)
    ensures Truthy(filters.source) ==> o.source.Name() == filters.source.value
    ensures Truthy(filters.difficulty) ==> o.difficulty.Name() == filters.difficulty.value
    ensures Truthy(filters.location) ==> o.location == filters.location.value
  {
  }

  /**
   * The filter record's `category`, `deadline` and `search` keys are never read, and an
   * unset or empty source, difficulty or location is the same as an absent one.
   */
  lemma {:induction false} IgnoredFilterKeys(catalog: seq<Opportunity>, query: string, activeCategory: string,
                                              filters: OpportunityFilters, category: Option<string>,
                                              deadline: Option<string>, search: Option<string>)
    ensures
      var normalized := OpportunityFilters(category, OrNull(filters.source), OrNull(filters.location),
                                           OrNull(filters.difficulty), deadline, search);
      FilterOpportunities(catalog, query, activeCategory, filters) ==
      FilterOpportunities(catalog, query, activeCategory, normalized)
  {
    var normalized := OpportunityFilters(category, OrNull(filters.source), OrNull(filters.location),
                                         OrNull(filters.difficulty), deadline, search);
    FilterCongruent(catalog, o => Passes(o, query, activeCategory, filters),
                    o => Passes(o, query, activeCategory, normalized));
  }

  /** The search is case-insensitive in the query. */
  lemma SearchIgnoresQueryCase(o: Opportunity, query: string)
    ensures MatchesSearch(o, query) == MatchesSearch(o, Lower(query))
  {
    LowerIdempotent(query);
  }

  /** The search matches a title exactly when the lower-cased query occurs somewhere in the lower-cased title. */
  lemma SearchFindsTitle(o: Opportunity, query: string, i: int)
    requires OccursAt(Lower(o.title), Lower(query), i)
    ensures MatchesSearch(o, query)
  {
    ContainsIff(Lower(o.title), Lower(query));
  }

  /** `mockOpportunities.filter(o => o.category === c).length`. */
  function CountInCategory(catalog: seq<Opportunity>, c: Category): nat {
    |Filter(catalog, (o: Opportunity) => o.category == c)|
  }

  /** Every opportunity belongs to exactly one of the four categories. */
  lemma {:induction false} CategoryCountsSum(catalog: seq<Opportunity>)
    ensures CountInCategory(catalog, Internship) + CountInCategory(catalog, Hackathon) +
            CountInCategory(catalog, Contest) + CountInCategory(catalog, Scholarship) == |catalog|
  {
    if catalog != [] {
      CategoryCountsSum(catalog[1..]);
    }
  }

  /** The category tab badges: `all` is the catalogue size, each category its number of opportunities. */
  method CategoryCounts(catalog: seq<Opportunity>) returns (counts: map<string, nat>)
    ensures counts.Keys == {"all", "internship", "hackathon", "contest", "scholarship"}
    ensures counts["all"] == |catalog|
    ensures forall c: Category :: c.Name() in counts && counts[c.Name()] == CountInCategory(catalog, c)
  {
    counts := map["all" := |catalog|, "internship" := 0, "hackathon" := 0, "contest" := 0, "scholarship" := 0];
    for i := 0 to |catalog|
      invariant counts.Keys == {"all", "internship", "hackathon", "contest", "scholarship"}
      invariant counts["all"] == |catalog|
      invariant forall c: Category :: counts[c.Name()] == CountInCategory(catalog[..i], c)
    {
      var o := catalog[i];
      counts := counts[o.category.Name() := counts[o.category.Name()] + 1];
      assert catalog[..i + 1] == catalog[..i] + [o];
      forall c: Category ensures CountInCategory(catalog[..i + 1], c) ==
                                 CountInCategory(catalog[..i], c) + (if o.category == c then 1 else 0) {
        FilterConcat(catalog[..i], [o], (x: Opportunity) => x.category == c);
      }
    }
    assert catalog[..|catalog|] == catalog;
  }

  /** The main page's state: the catalogue and the three inputs of the filter. */
  class AppContent {
    const catalog: seq<Opportunity>
    var searchQuery: string
    var activeCategory: string
    var filters: OpportunityFilters

    constructor (catalog: seq<Opportunity>)
      ensures this.catalog == catalog
      ensures searchQuery == "" && activeCategory == "all" && filters == EmptyFilters
    {
      this.catalog := catalog;
      searchQuery := "";
      activeCategory := "all";
      filters := EmptyFilters;
    }

    function FilteredOpportunities(): seq<Opportunity>
      reads this
    {
      FilterOpportunities(catalog, searchQuery, activeCategory, filters)
    }

    /** The header's search box. */
    method SetSearchQuery(query: string)
      modifies this
      ensures searchQuery == query && activeCategory == old(activeCategory) && filters == old(filters)
    {
      searchQuery := query;
    }

    /** The category tabs. */
    method SetActiveCategory(category: string)
      modifies this
      ensures activeCategory == category && searchQuery == old(searchQuery) && filters == old(filters)
    {
      activeCategory := category;
    }

    /** The sidebar's `onFiltersChange`. */
    method SetFilters(f: OpportunityFilters)
      modifies this
      ensures filters == f && searchQuery == old(searchQuery) && activeCategory == old(activeCategory)
    {
      filters := f;
    }

    /** The "Clear all filters" button: resets all three inputs, so the whole catalogue is shown. */
    method ClearAllFilters()
      modifies this
      ensures filters == EmptyFilters && searchQuery == "" && activeCategory == "all"
      ensures FilteredOpportunities() == catalog
    {
      filters := EmptyFilters;
      searchQuery := "";
      activeCategory := "all";
      UnfilteredIsCatalog(catalog);
    }
  }
}
