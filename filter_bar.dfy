/**
 * The dashboard's filter bar: the filter state it edits, the new state each
 * control emits, and the local search input that is synchronised with the
 * filters once the debounced text settles.
 */
module FilterBar {
  import opened Base
  import opened Select

  datatype FilterState = FilterState(
    keywordIds: seq<string>,
    startDate: string,
    endDate: string,
    search: string,
    newOnly: bool)

  /** No keyword, no dates, no search, not only new matches. */
  const DefaultFilters: FilterState := FilterState([], "", "", "", false)

  /** Some filter differs from its default. */
  function HasActiveFilters(f: FilterState): (active: bool)
    ensures active <==> f != DefaultFilters
  {
    |f.keywordIds| > 0 || f.startDate != "" || f.endDate != "" || f.search != "" || f.newOnly
  }

  /** The keyword chip's toggle: the keyword ids toggled as in the multi-select, every other filter kept. */
  function KeywordToggled(f: FilterState, keywordId: string): (r: FilterState)
    ensures keywordId in f.keywordIds ==> r.keywordIds == Without(f.keywordIds, keywordId) && keywordId !in r.keywordIds
    ensures keywordId !in f.keywordIds ==> r.keywordIds == f.keywordIds + [keywordId]
    ensures forall id :: id != keywordId ==> (id in r.keywordIds <==> id in f.keywordIds)
    ensures r.startDate == f.startDate && r.endDate == f.endDate && r.search == f.search && r.newOnly == f.newOnly
  {
    f.(keywordIds := ToggleOption(f.keywordIds, keywordId))
  }

  /** Toggling a keyword twice selects the same keywords again, and changes no other filter. */
  lemma KeywordToggledTwice(f: FilterState, keywordId: string)
    ensures var r := KeywordToggled(KeywordToggled(f, keywordId), keywordId);
            && (forall id :: id in r.keywordIds <==> id in f.keywordIds)
            && (keywordId !in f.keywordIds ==> r == f)
            && (NoDuplicates(f.keywordIds) ==> multiset(r.keywordIds) == multiset(f.keywordIds))
  {
    ToggleTwice(f.keywordIds, keywordId);
  }

  /** The date range control sets both dates and nothing else. */
  function DateChanged(f: FilterState, start: string, end: string): (r: FilterState)
    ensures r.startDate == start && r.endDate == end
    ensures r.keywordIds == f.keywordIds && r.search == f.search && r.newOnly == f.newOnly
  {
    f.(startDate := start, endDate := end)
  }

  /** The new-only toggle sets only new_only. */
  function NewOnlyChanged(f: FilterState, checked: bool): (r: FilterState)
    ensures r.newOnly == checked
    ensures r.keywordIds == f.keywordIds && r.startDate == f.startDate && r.endDate == f.endDate
    ensures r.search == f.search
  {
    f.(newOnly := checked)
  }

  /**
   * The synchronisation effect: a settled search text that differs from the
   * filters' search is emitted with every other filter copied; an equal one
   * emits nothing.
   */
  function SyncedSearch(debounced: string, f: FilterState): (r: Option<FilterState>)
    ensures r.Some? <==> debounced != f.search
    ensures r.Some? ==> r.value.search == debounced && r.value.keywordIds == f.keywordIds
                        && r.value.startDate == f.startDate && r.value.endDate == f.endDate
                        && r.value.newOnly == f.newOnly
  {
    if debounced != f.search then Some(f.(search := debounced)) else None
  }

  /** Once its emission is applied, the effect settles: the same text emits nothing more. */
  lemma SyncSettles(debounced: string, f: FilterState)
    requires SyncedSearch(debounced, f).Some?
    ensures SyncedSearch(debounced, SyncedSearch(debounced, f).value).None?
  {
  }

  /** The filter bar's own state: the search text as typed, before debouncing. */
  class Bar {
    var searchInput: string

    /** The input starts with the filters' search. */
    constructor (filters: FilterState)
      ensures searchInput == filters.search
    {
      searchInput := filters.search;
    }

    method HandleSearchInput(text: string)
      modifies this
      ensures searchInput == text
    {
      searchInput := text;
    }

    /** Clear: the search input is emptied and the all-default filters are emitted. */
    method ClearFilters() returns (emitted: FilterState)
      modifies this
      ensures searchInput == "" && emitted == DefaultFilters && !HasActiveFilters(emitted)
    {
      searchInput := "";
      emitted := FilterState([], "", "", "", false);
    }
  }
}
