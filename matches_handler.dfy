/**
 * GET /matches: the query-string parser and the mapping of its outcome and
 * of the service's outcome to a status code.
 */
module MatchesHandler {
  import opened Base
  import opened Text
  import opened MatchesTypes
  import opened QueryString

  /** time.Parse with the RFC 3339 layout and with the YYYY-MM-DD layout (None: parse error). */
  datatype DateParsers = DateParsers(rfc3339: string -> Option<Time>, dateOnly: string -> Option<Time>)

  datatype QueryError = ErrInvalidPage | ErrInvalidPageSize | ErrInvalidDateFrom | ErrInvalidDateTo | ErrInvalidSort

  /** Backend timestamps count nanoseconds. */
  const NanosPerDay: int := 86_400_000_000_000

  /** RFC 3339 first, then a bare date; an error only when both layouts fail. */
  function ParseDate(parsers: DateParsers, s: string): (r: Option<Time>)
    ensures parsers.rfc3339(s).Some? ==> r == parsers.rfc3339(s)
    ensures parsers.rfc3339(s).None? ==> r == parsers.dateOnly(s)
    ensures r.None? <==> parsers.rfc3339(s).None? && parsers.dateOnly(s).None?
  {
    match parsers.rfc3339(s)
    case Some(t) => Some(t)
    case None => parsers.dateOnly(s)
  }

  /** `page`: 1 when absent, otherwise an integer of at least 1. */
  function ParsePage(s: string): (r: Result<int, QueryError>)
    ensures s == "" ==> r == Success(1)
    ensures s != "" ==> (r.Success? <==> GoAtoi(s).Some? && GoAtoi(s).value >= 1)
    ensures s != "" && r.Success? ==> r.value == GoAtoi(s).value
    ensures r.Success? ==> r.value >= 1
    ensures r.Failure? ==> r.error == ErrInvalidPage
  {
    if s == "" then Success(1)
    else
      match GoAtoi(s)
      case None => Failure(ErrInvalidPage)
      case Some(page) => if page < 1 then Failure(ErrInvalidPage) else Success(page)
  }

  /** `page_size`: 10 when absent, otherwise exactly 10, 25 or 50. */
  function ParsePageSize(s: string): (r: Result<int, QueryError>)
    ensures s == "" ==> r == Success(10)
    ensures s != "" ==> (r.Success? <==> GoAtoi(s).Some? && AllowedPageSize(GoAtoi(s).value))
    ensures s != "" && r.Success? ==> r.value == GoAtoi(s).value
    ensures r.Success? ==> AllowedPageSize(r.value)
    ensures r.Failure? ==> r.error == ErrInvalidPageSize
  {
    if s == "" then Success(10)
    else
      match GoAtoi(s)
      case None => Failure(ErrInvalidPageSize)
      case Some(pageSize) =>
        if pageSize != 10 && pageSize != 25 && pageSize != 50 then Failure(ErrInvalidPageSize)
        else Success(pageSize)
  }

  /** `date_from`: absent, or a date used as parsed. */
  function ParseDateFrom(parsers: DateParsers, s: string): (r: Result<Option<Time>, QueryError>)
    ensures s == "" ==> r == Success(None)
    ensures s != "" ==> (r.Success? <==> ParseDate(parsers, s).Some?)
    ensures s != "" && r.Success? ==> r.value == ParseDate(parsers, s)
    ensures r.Failure? ==> r.error == ErrInvalidDateFrom
  {
    if s == "" then Success(None)
    else
      match ParseDate(parsers, s)
      case None => Failure(ErrInvalidDateFrom)
      case Some(t) => Success(Some(t))
  }

  /** `date_to`: absent, or the last nanosecond of the day that starts at the parsed time. */
  function ParseDateTo(parsers: DateParsers, s: string): (r: Result<Option<Time>, QueryError>)
    ensures s == "" ==> r == Success(None)
    ensures s != "" ==> (r.Success? <==> ParseDate(parsers, s).Some?)
    ensures s != "" && r.Success? ==> r.value == Some(ParseDate(parsers, s).value + NanosPerDay - 1)
    ensures r.Failure? ==> r.error == ErrInvalidDateTo
  {
    if s == "" then Success(None)
    else
      match ParseDate(parsers, s)
      case None => Failure(ErrInvalidDateTo)
      case Some(t) => Success(Some(t + NanosPerDay - 1))
  }

  /** `sort`: one of the three orders, the first-seen order when absent. */
  function ParseSort(s: string): (r: Result<string, QueryError>)
    ensures r.Success? <==> s == "" || s == SortFirstSeenDesc || s == SortLastSeenDesc || s == SortDomainAsc
    ensures s == "" ==> r == Success(SortFirstSeenDesc)
    ensures s != "" && r.Success? ==> r.value == s
    ensures r.Failure? ==> r.error == ErrInvalidSort
  {
    if s == "last_seen_desc" then Success(SortLastSeenDesc)
    else if s == "domain_asc" then Success(SortDomainAsc)
    else if s == "first_seen_desc" || s == "" then Success(SortFirstSeenDesc)
    else Failure(ErrInvalidSort)
  }

  /**
   * The list query of a request. Parameters are checked in the order page,
   * page_size, date_from, date_to, sort, and the first failure is reported.
   */
  function ParseListQuery(params: Params, parsers: DateParsers): (r: Result<ListQuery, QueryError>)
    ensures ParsePage(Param(params, "page")).Failure? ==> r == Failure(ErrInvalidPage)
    ensures ParsePage(Param(params, "page")).Success? && ParsePageSize(Param(params, "page_size")).Failure? ==>
              r == Failure(ErrInvalidPageSize)
    ensures ParsePage(Param(params, "page")).Success? && ParsePageSize(Param(params, "page_size")).Success? &&
            ParseDateFrom(parsers, Param(params, "date_from")).Failure? ==>
              r == Failure(ErrInvalidDateFrom)
    ensures ParsePage(Param(params, "page")).Success? && ParsePageSize(Param(params, "page_size")).Success? &&
            ParseDateFrom(parsers, Param(params, "date_from")).Success? &&
            ParseDateTo(parsers, Param(params, "date_to")).Failure? ==>
              r == Failure(ErrInvalidDateTo)
    ensures ParsePage(Param(params, "page")).Success? && ParsePageSize(Param(params, "page_size")).Success? &&
            ParseDateFrom(parsers, Param(params, "date_from")).Success? &&
            ParseDateTo(parsers, Param(params, "date_to")).Success? && ParseSort(Param(params, "sort")).Failure? ==>
              r == Failure(ErrInvalidSort)
    ensures r.Success? <==>
              ParsePage(Param(params, "page")).Success? && ParsePageSize(Param(params, "page_size")).Success? &&
              ParseDateFrom(parsers, Param(params, "date_from")).Success? &&
              ParseDateTo(parsers, Param(params, "date_to")).Success? && ParseSort(Param(params, "sort")).Success?
    ensures r.Success? ==>
              && r.value.page >= 1 && AllowedPageSize(r.value.pageSize)
              && (r.value.sort == SortFirstSeenDesc || r.value.sort == SortLastSeenDesc || r.value.sort == SortDomainAsc)
              && r.value.page == ParsePage(Param(params, "page")).value
              && r.value.pageSize == ParsePageSize(Param(params, "page_size")).value
              && r.value.sort == ParseSort(Param(params, "sort")).value
              && r.value.keyword == Param(params, "keyword") && r.value.q == Param(params, "q")
              && r.value.issuer == Param(params, "issuer")
              && (r.value.newOnly <==> Param(params, "new_only") == "true")
              && r.value.dateFrom == ParseDateFrom(parsers, Param(params, "date_from")).value
              && r.value.dateTo == ParseDateTo(parsers, Param(params, "date_to")).value
              && r.value.lastSuccessTime.None?
  {
    var page := ParsePage(Param(params, "page"));
    var pageSize := ParsePageSize(Param(params, "page_size"));
    var dateFrom := ParseDateFrom(parsers, Param(params, "date_from"));
    var dateTo := ParseDateTo(parsers, Param(params, "date_to"));
    var sort := ParseSort(Param(params, "sort"));
    if page.Failure? then Failure(page.error)
    else if pageSize.Failure? then Failure(pageSize.error)
    else if dateFrom.Failure? then Failure(dateFrom.error)
    else if dateTo.Failure? then Failure(dateTo.error)
    else if sort.Failure? then Failure(sort.error)
    else
      Success(ListQuery(page.value, pageSize.value, Param(params, "keyword"), Param(params, "q"),
                        Param(params, "issuer"), dateFrom.value, dateTo.value,
                        Param(params, "new_only") == "true", sort.value, None))
  }

  /** A page number written in decimal reads back as itself. */
  lemma PageRoundTrip(page: int)
    requires 1 <= page <= Int64Max
    ensures ParsePage(IntToString(page)) == Success(page)
  {
    GoAtoiRoundTrip(page);
  }

  /** Each allowed page size written in decimal reads back as itself; no other value is accepted. */
  lemma PageSizeRoundTrip(pageSize: int)
    requires Int64Min <= pageSize <= Int64Max
    ensures ParsePageSize(IntToString(pageSize)).Success? <==> AllowedPageSize(pageSize)
    ensures AllowedPageSize(pageSize) ==> ParsePageSize(IntToString(pageSize)) == Success(pageSize)
  {
    GoAtoiRoundTrip(pageSize);
  }

  datatype ReplyBody =
    | ErrorBody(error: string, reason: Option<QueryError>)
    | ListBody(response: ListResponse)

  datatype Reply = Reply(status: int, body: ReplyBody)

  /** 400 with the parse error, 500 when the service fails, 200 with the page otherwise. */
  function List(params: Params, parsers: DateParsers, service: ListQuery -> Result<ListResponse, string>)
    : (r: Reply)
    ensures ParseListQuery(params, parsers).Failure? ==>
              r == Reply(400, ErrorBody("INVALID_QUERY", Some(ParseListQuery(params, parsers).error)))
    ensures ParseListQuery(params, parsers).Success? ==>
              var q := ParseListQuery(params, parsers).value;
              && (service(q).Failure? ==> r == Reply(500, ErrorBody("DB_ERROR", None)))
              && (service(q).Success? ==> r == Reply(200, ListBody(service(q).value)))
    ensures r.status == 200 || r.status == 400 || r.status == 500
  {
    match ParseListQuery(params, parsers)
    case Failure(e) => Reply(400, ErrorBody("INVALID_QUERY", Some(e)))
    case Success(query) =>
      match service(query)
      case Failure(_) => Reply(500, ErrorBody("DB_ERROR", None))
      case Success(response) => Reply(200, ListBody(response))
  }
}
