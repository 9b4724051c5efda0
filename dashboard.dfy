/**
 * The dashboard page: the filter, page, sort and export state its handlers
 * update, the matches query derived from that state, and which of the
 * onboarding state, the no-matches state and the matches table it shows.
 */
module Dashboard {
  import opened Base
  import opened Text
  import opened SearchParams
  import opened FilterBar
  import ExportModal
  import Schemas
  import Badge

  const ItemsPerPage: int := 20
  const DefaultSortBy: string := "first_seen_at"

  datatype SortOrder = Asc | Desc

  /** The matches query: the optional filters are absent when empty or false; paging and sorting are always sent. */
  datatype MatchFilters = MatchFilters(
    keywordIds: Option<seq<string>>,
    startDate: Option<string>,
    endDate: Option<string>,
    search: Option<string>,
    newOnly: Option<bool>,
    page: int,
    limit: int,
    sortBy: string,
    sortOrder: SortOrder)

  /** `s || undefined` on a string: the empty string reads as absent. */
  function NonEmpty(s: string): (r: Option<string>)
    ensures r.None? <==> s == ""
    ensures r.Some? ==> r.value == s
  {
    if s == "" then None else Some(s)
  }

  /** The query the matches table is loaded with. */
  function MatchFiltersOf(f: FilterState, page: int, sortBy: string, sortOrder: SortOrder): (q: MatchFilters)
    ensures q.keywordIds.Some? <==> |f.keywordIds| > 0
    ensures q.keywordIds.Some? ==> q.keywordIds.value == f.keywordIds
    ensures q.startDate.Some? <==> f.startDate != ""
    ensures q.endDate.Some? <==> f.endDate != ""
    ensures q.search.Some? <==> f.search != ""
    ensures q.newOnly.Some? <==> f.newOnly
    ensures q.newOnly != Some(false)
    ensures q.startDate.Some? ==> q.startDate.value == f.startDate
    ensures q.endDate.Some? ==> q.endDate.value == f.endDate
    ensures q.search.Some? ==> q.search.value == f.search
    ensures q.page == page && q.limit == ItemsPerPage && q.sortBy == sortBy && q.sortOrder == sortOrder
  {
    MatchFilters(
      if |f.keywordIds| > 0 then Some(f.keywordIds) else None,
      NonEmpty(f.startDate),
      NonEmpty(f.endDate),
      NonEmpty(f.search),
      if f.newOnly then Some(true) else None,
      page, ItemsPerPage, sortBy, sortOrder)
  }

  /**
   * The table's query and the export request filter alike: each filter is
   * sent by both or by neither, with the same value (keyword ids comma-joined
   * and new_only as "true" in the export).
   */
  lemma QueryAgreesWithExport(f: FilterState, page: int, sortBy: string, sortOrder: SortOrder)
    ensures var q := MatchFiltersOf(f, page, sortBy, sortOrder);
            && (q.keywordIds.None? <==> ExportModal.ExportParam(f, "keyword_ids").None?)
            && (q.keywordIds.Some? ==> ExportModal.ExportParam(f, "keyword_ids") == Some(Join(q.keywordIds.value, ",")))
            && q.startDate == ExportModal.ExportParam(f, "start_date")
            && q.endDate == ExportModal.ExportParam(f, "end_date")
            && q.search == ExportModal.ExportParam(f, "search")
            && (q.newOnly.Some? <==> ExportModal.ExportParam(f, "new_only") == Some("true"))
  {
  }

  /** A column header click: the sorted column flips its order, another column is sorted descending. */
  function NextSort(sortBy: string, sortOrder: SortOrder, key: string): (r: (string, SortOrder))
    ensures r.0 == key
    ensures key == sortBy ==> r.1 != sortOrder
    ensures key != sortBy ==> r.1 == Desc
  {
    if key == sortBy then (sortBy, if sortOrder == Asc then Desc else Asc)
    else (key, Desc)
  }

  /** Clicking the sorted column twice restores its order; a new column clicked twice ends ascending. */
  lemma NextSortTwice(sortBy: string, sortOrder: SortOrder, key: string)
    ensures var once := NextSort(sortBy, sortOrder, key);
            && (key == sortBy ==> NextSort(once.0, once.1, key) == (sortBy, sortOrder))
            && (key != sortBy ==> NextSort(once.0, once.1, key) == (key, Asc))
  {
  }

  /** What the page shows below the metric cards. */
  datatype MainView = Onboarding | NoMatches | MatchesTable

  /**
   * Onboarding when status and keywords have loaded and there is no keyword;
   * otherwise the no-matches state when matches have loaded with a total of
   * 0, and the table in every other case.
   */
  function MainViewOf(statusLoading: bool, keywordsLoading: bool, keywordCount: nat,
                      matchesLoading: bool, total: int): (v: MainView)
    ensures v == Onboarding <==> !statusLoading && !keywordsLoading && keywordCount == 0
    ensures v == NoMatches <==>
              (statusLoading || keywordsLoading || keywordCount > 0) && !matchesLoading && total <= 0
    ensures v == MatchesTable <==>
              (statusLoading || keywordsLoading || keywordCount > 0) && (matchesLoading || total > 0)
  {
    var isInitialLoading := statusLoading || keywordsLoading;
    var hasKeywords := keywordCount > 0;
    var hasMatches := total > 0;
    if !isInitialLoading && !hasKeywords then Onboarding
    else if !matchesLoading && !hasMatches then NoMatches
    else MatchesTable
  }

  /** The error banner is shown for a status in the error state. */
  predicate ShowsErrorBanner(status: Option<Schemas.MonitorStatus>)
  {
    status.Some? && status.value.state == Schemas.Error
  }

  /** The banner appears exactly when the app bar's status badge is the error badge. */
  lemma ErrorBannerFollowsBadge(status: Schemas.MonitorStatus)
    ensures ShowsErrorBanner(Some(status)) <==> Badge.StatusBadge(status.state).variant == Badge.Variant.Error
    ensures !ShowsErrorBanner(None)
  {
  }

  class Page {
    var filters: FilterState
    var page: int
    var sortBy: string
    var sortOrder: SortOrder
    var isExporting: bool

    /** No filter, the first page, newest first, not exporting. */
    constructor ()
      ensures filters == DefaultFilters && !HasActiveFilters(filters)
      ensures page == 1 && sortBy == DefaultSortBy && sortOrder == Desc && !isExporting
    {
      filters := DefaultFilters;
      page := 1;
      sortBy := DefaultSortBy;
      sortOrder := Desc;
      isExporting := false;
    }

    /** The query of the current state. */
    function Query(): (q: MatchFilters)
      reads this
      ensures q.page == page && q.limit == ItemsPerPage
    {
      MatchFiltersOf(filters, page, sortBy, sortOrder)
    }

    /** New filters replace the old ones and return to the first page. */
    method HandleFiltersChange(newFilters: FilterState)
      modifies this
      ensures filters == newFilters && page == 1
      ensures sortBy == old(sortBy) && sortOrder == old(sortOrder) && isExporting == old(isExporting)
      ensures Query() == MatchFiltersOf(newFilters, 1, sortBy, sortOrder)
    {
      filters := newFilters;
      page := 1;
    }

    /** The table's page change. */
    method HandlePageChange(p: int)
      modifies this
      ensures page == p
      ensures filters == old(filters) && sortBy == old(sortBy) && sortOrder == old(sortOrder)
      ensures isExporting == old(isExporting)
    {
      page := p;
    }

    /** A column header click: the sort as NextSort gives it, and back to the first page. */
    method HandleSort(key: string)
      modifies this
      ensures (sortBy, sortOrder) == NextSort(old(sortBy), old(sortOrder), key)
      ensures sortBy == key && page == 1
      ensures filters == old(filters) && isExporting == old(isExporting)
    {
      if key == sortBy {
        sortOrder := if sortOrder == Asc then Desc else Asc;
      } else {
        sortBy := key;
        sortOrder := Desc;
      }
      page := 1;
    }

    /** The start of handleExport: exporting, with the request's parameters built from the filters. */
    method BeginExport() returns (params: URLSearchParams)
      modifies this
      ensures isExporting
      ensures fresh(params) && params.entries == ExportModal.ExportEntries(filters)
      ensures filters == old(filters) && page == old(page) && sortBy == old(sortBy) && sortOrder == old(sortOrder)
    {
      isExporting := true;
      params := ExportModal.BuildExportParams(filters);
    }

    /**
     * The end of handleExport: a successful request downloads
     * matches-<date>.csv, a failed one downloads nothing; either way the
     * page stops exporting.
     */
    method FinishExport(succeeded: bool, isoNow: string) returns (download: Option<string>)
      modifies this
      ensures !isExporting
      ensures succeeded ==> download == Some(ExportModal.DownloadName(isoNow))
      ensures !succeeded ==> download.None?
      ensures filters == old(filters) && page == old(page) && sortBy == old(sortBy) && sortOrder == old(sortOrder)
    {
      if succeeded {
        download := Some(ExportModal.DownloadName(isoNow));
      } else {
        download := None;
      }
      isExporting := false;
    }
  }
}
