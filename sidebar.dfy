/** The filter sidebar: a record update per select, `'all'` meaning "unset", and "Clear All". */
module Sidebar {
  import opened Wrappers
  import opened Text
  import opened OpportunityTypes

  /** `keyof OpportunityFilters`. */
  datatype FilterKey = CategoryKey | SourceKey | LocationKey | DifficultyKey | DeadlineKey | SearchKey

  /** `filters[key]`. */
  function Get(f: OpportunityFilters, key: FilterKey): Option<string> {
    match key
    case CategoryKey => f.category
    case SourceKey => f.source
    case LocationKey => f.location
    case DifficultyKey => f.difficulty
    case DeadlineKey => f.deadline
    case SearchKey => f.search
  }

  /** `{ ...filters, [key]: value }`: key `key` now holds `value`, every other key keeps its value. */
  function UpdateFilter(f: OpportunityFilters, key: FilterKey, value: Option<string>): (r: OpportunityFilters)
    ensures Get(r, key) == value
    ensures forall k :: k != key ==> Get(r, k) == Get(f, k)
  {
    match key
    case CategoryKey => f.(category := value)
    case SourceKey => f.(source := value)
    case LocationKey => f.(location := value)
    case DifficultyKey => f.(difficulty := value)
    case DeadlineKey => f.(deadline := value)
    case SearchKey => f.(search := value)
  }

  /** Two filter records that agree on every key are the same record. */
  lemma {:induction false} FiltersExtensional(f: OpportunityFilters, g: OpportunityFilters)
    requires forall k :: Get(f, k) == Get(g, k)
    ensures f == g
  {
    assert Get(f, CategoryKey) == Get(g, CategoryKey);
    assert Get(f, SourceKey) == Get(g, SourceKey);
    assert Get(f, LocationKey) == Get(g, LocationKey);
    assert Get(f, DifficultyKey) == Get(g, DifficultyKey);
    assert Get(f, DeadlineKey) == Get(g, DeadlineKey);
    assert Get(f, SearchKey) == Get(g, SearchKey);
  }

  /** Setting the same key to the same value twice is setting it once. */
  lemma {:induction false} UpdateFilterIdempotent(f: OpportunityFilters, key: FilterKey, value: Option<string>)
    ensures UpdateFilter(UpdateFilter(f, key, value), key, value) == UpdateFilter(f, key, value)
  {
    FiltersExtensional(UpdateFilter(UpdateFilter(f, key, value), key, value), UpdateFilter(f, key, value));
  }

  /** A select's `onValueChange`: `value === 'all' ? undefined : value`. */
  function SelectedValue(value: string): (r: Option<string>)
    ensures r.None? <==> value == "all"
    ensures r.Some? ==> r.value == value
  {
    if value == "all" then None else Some(value)
  }

  function OnSelect(f: OpportunityFilters, key: FilterKey, value: string): OpportunityFilters {
    UpdateFilter(f, key, SelectedValue(value))
  }

  /** A select's displayed value: `filters[key] || 'all'`. */
  function DisplayedValue(f: OpportunityFilters, key: FilterKey): (r: string)
    ensures r != ""
    ensures Truthy(Get(f, key)) ==> r == Get(f, key).value
    ensures !Truthy(Get(f, key)) ==> r == "all"
  {
    if Truthy(Get(f, key)) then Get(f, key).value else "all"
  }

  /** Choosing an option and reading the select back shows that option; choosing `'all'` unsets the key. */
  lemma SelectRoundTrip(f: OpportunityFilters, key: FilterKey, value: string)
    requires value != ""
    ensures DisplayedValue(OnSelect(f, key, value), key) == value
    ensures value == "all" <==> Get(OnSelect(f, key, value), key).None?
  {
  }

  /** "Clear All": `onFiltersChange({})`. */
  function ClearFilters(): (r: OpportunityFilters)
    ensures forall k :: Get(r, k).None?
  {
    EmptyFilters
  }

  /** After clearing, every select shows `'all'`. */
  lemma ClearedShowsAll(key: FilterKey)
    ensures DisplayedValue(ClearFilters(), key) == "all"
  {
  }
}
