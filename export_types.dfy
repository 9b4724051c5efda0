/** The records of the export feature: the export row, its statuses, and the filters it stores. */
module ExportTypes {
  import opened Base
  import opened MatchesTypes

  /** The life cycle of an export row: pending, then streaming, then completed or failed. */
  const StatusPending: string := "pending"
  const StatusStreaming: string := "streaming"
  const StatusCompleted: string := "completed"
  const StatusFailed: string := "failed"

  const RateLimitedText: string := "rate limit exceeded"

  /** The error codes of the export endpoint's JSON error bodies. */
  const ErrorCodeRateLimited: string := "RATE_LIMITED"
  const ErrorCodeExportError: string := "EXPORT_ERROR"
  const ErrorCodeDBError: string := "DB_ERROR"

  /** The filters of an export, as stored with its row. */
  datatype FilterParams = FilterParams(
    keyword: string,
    q: string,
    issuer: string,
    dateFrom: Option<Time>,
    dateTo: Option<Time>,
    newOnly: bool,
    sort: string)

  /** A row of the exports table (its id is the table's key). */
  datatype ExportRecord = ExportRecord(
    filename: string,
    recordCount: int,
    filterParams: FilterParams,
    status: string,
    errorMessage: Option<string>,
    createdAt: Time)

  /** The filters of a list query: every filter field copied unchanged; paging is not kept. */
  function FiltersFromMatchQuery(q: ListQuery): (f: FilterParams)
    ensures f.keyword == q.keyword && f.q == q.q && f.issuer == q.issuer
    ensures f.dateFrom == q.dateFrom && f.dateTo == q.dateTo
    ensures f.newOnly == q.newOnly && f.sort == q.sort
  {
    FilterParams(q.keyword, q.q, q.issuer, q.dateFrom, q.dateTo, q.newOnly, q.sort)
  }

  /** Two queries that differ only in paging store the same filters. */
  lemma FiltersIgnorePaging(q: ListQuery, page: int, pageSize: int)
    ensures FiltersFromMatchQuery(q.(page := page, pageSize := pageSize)) == FiltersFromMatchQuery(q)
  {
  }
}
