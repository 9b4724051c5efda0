/**
 * GET /export.csv: the query-string parser of an export, which always asks
 * for every matching row, and the reply when the query cannot be parsed.
 */
module ExportHandler {
  import opened Base
  import opened MatchesTypes
  import opened MatchesHandler
  import opened QueryString
  import opened ExportTypes

  /** An export asks for one page large enough to hold every row. */
  const ExportPageSize: int := 1000000

  /** `date_from` / `date_to` of an export: absent, or a date used exactly as parsed. */
  function ParseExportDate(parsers: DateParsers, dateOnlyError: string -> string, s: string)
    : (r: Result<Option<Time>, string>)
    ensures s == "" ==> r == Success(None)
    ensures s != "" ==> (r.Success? <==> ParseDate(parsers, s).Some?)
    ensures s != "" && r.Success? ==> r.value == ParseDate(parsers, s)
    ensures r.Failure? ==> r.error == dateOnlyError(s)
  {
    if s == "" then Success(None)
    else
      match ParseDate(parsers, s)
      case None => Failure(dateOnlyError(s))
      case Some(t) => Success(Some(t))
  }

  /** `sort` of an export: the two named orders, the first-seen order for anything else. */
  function ExportSort(s: string): (sort: string)
    ensures sort == SortFirstSeenDesc || sort == SortLastSeenDesc || sort == SortDomainAsc
    ensures s == SortLastSeenDesc || s == SortDomainAsc ==> sort == s
    ensures s != SortLastSeenDesc && s != SortDomainAsc ==> sort == SortFirstSeenDesc
  {
    if s == "last_seen_desc" then SortLastSeenDesc
    else if s == "domain_asc" then SortDomainAsc
    else SortFirstSeenDesc
  }

  /**
   * The query of an export. Page and page size are fixed, new_only holds
   * only for "true", and a date that neither layout accepts is an error
   * whose text is that of the YYYY-MM-DD parse (date_from checked first).
   * `dateOnlyError` gives the text of that parse error.
   */
  function ParseExportQuery(params: Params, parsers: DateParsers, dateOnlyError: string -> string)
    : (r: Result<ListQuery, string>)
    ensures var from := ParseExportDate(parsers, dateOnlyError, Param(params, "date_from"));
            var to := ParseExportDate(parsers, dateOnlyError, Param(params, "date_to"));
            && (from.Failure? ==> r == Failure(from.error))
            && (from.Success? && to.Failure? ==> r == Failure(to.error))
            && (r.Success? <==> from.Success? && to.Success?)
            && (r.Success? ==> r.value.dateFrom == from.value && r.value.dateTo == to.value)
    ensures r.Success? ==>
              && r.value.page == 1 && r.value.pageSize == ExportPageSize
              && r.value.keyword == Param(params, "keyword") && r.value.q == Param(params, "q")
              && r.value.issuer == Param(params, "issuer")
              && (r.value.newOnly <==> Param(params, "new_only") == "true")
              && r.value.sort == ExportSort(Param(params, "sort"))
              && r.value.lastSuccessTime.None?
  {
    var from := ParseExportDate(parsers, dateOnlyError, Param(params, "date_from"));
    var to := ParseExportDate(parsers, dateOnlyError, Param(params, "date_to"));
    if from.Failure? then Failure(from.error)
    else if to.Failure? then Failure(to.error)
    else
      Success(ListQuery(1, ExportPageSize, Param(params, "keyword"), Param(params, "q"), Param(params, "issuer"),
                        from.value, to.value, Param(params, "new_only") == "true",
                        ExportSort(Param(params, "sort")), None))
  }

  /**
   * Unlike the list endpoint, an export keeps date_to as parsed: where both
   * parsers accept a request, the list's upper bound is the export's plus
   * one day less a nanosecond, and every other filter agrees.
   */
  lemma ExportDateToNotShifted(params: Params, parsers: DateParsers, dateOnlyError: string -> string)
    requires ParseListQuery(params, parsers).Success?
    ensures ParseExportQuery(params, parsers, dateOnlyError).Success?
    ensures var list := ParseListQuery(params, parsers).value;
            var exp := ParseExportQuery(params, parsers, dateOnlyError).value;
            && list.dateFrom == exp.dateFrom
            && (list.dateTo.Some? <==> exp.dateTo.Some?)
            && (list.dateTo.Some? ==> list.dateTo.value == exp.dateTo.value + NanosPerDay - 1)
            && list.keyword == exp.keyword && list.q == exp.q && list.issuer == exp.issuer
            && list.newOnly == exp.newOnly && list.sort == exp.sort
  {
  }

  /** The reply of GET /export.csv: an error body, or a CSV download of the parsed query. */
  datatype ExportReply =
    | ErrorReply(status: int, error: string, message: string)
    | CsvDownload(contentType: string, disposition: string, query: ListQuery)

  /**
   * A query that cannot be parsed is answered 500 EXPORT_ERROR with the
   * parse error's text; otherwise the response is a CSV attachment named
   * after `stamp`, the time of the request as YYYYMMDD_HHMMSS.
   */
  function ExportCSV(params: Params, parsers: DateParsers, dateOnlyError: string -> string, stamp: string)
    : (r: ExportReply)
    ensures ParseExportQuery(params, parsers, dateOnlyError).Failure? ==>
              r == ErrorReply(500, ErrorCodeExportError, ParseExportQuery(params, parsers, dateOnlyError).error)
    ensures ParseExportQuery(params, parsers, dateOnlyError).Success? ==>
              && r.CsvDownload? && r.query == ParseExportQuery(params, parsers, dateOnlyError).value
              && r.contentType == "text/csv"
              && r.disposition == "attachment; filename=matches_export_" + stamp + ".csv"
  {
    match ParseExportQuery(params, parsers, dateOnlyError)
    case Failure(message) => ErrorReply(500, ErrorCodeExportError, message)
    case Success(query) =>
      CsvDownload("text/csv", "attachment; filename=" + ("matches_export_" + stamp + ".csv"), query)
  }
}
