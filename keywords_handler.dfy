/**
 * The /keywords endpoints: query and path parsing and the mapping of the
 * service's outcomes to status codes and error bodies. The service is a
 * function from its input to its outcome.
 */
module KeywordsHandler {
  import opened Base
  import opened Text
  import opened KeywordsRepository
  import opened KeywordsService
  import opened QueryString

  datatype ReplyBody =
    | ErrorBody(error: string, message: Option<string>)
    | ListBody(response: ListResponse)
    | KeywordBody(keyword: Keyword)
    | OkBody

  datatype Reply = Reply(status: int, body: ReplyBody)

  const PageMessage: string := "page must be a positive integer"
  const PageSizeMessage: string := "page_size must be 10, 25, or 50"

  /**
   * The list query of a request: page 1 and page size 10 when absent; a
   * page that is not an integer of at least 1, or a page size other than
   * 10, 25 or 50, is refused with its own message (page checked first).
   */
  function ParseListQuery(params: Params): (r: Result<ListQuery, string>)
    ensures Param(params, "page") == "" ==> (r.Success? ==> r.value.page == 1)
    ensures Param(params, "page") != "" ==>
              (GoAtoi(Param(params, "page")).None? || GoAtoi(Param(params, "page")).value < 1 <==>
               r == Failure(PageMessage))
    ensures r.Success? ==>
              && r.value.q == Param(params, "q") && r.value.page >= 1
              && (r.value.pageSize == 10 || r.value.pageSize == 25 || r.value.pageSize == 50)
              && (Param(params, "page") != "" ==> Some(r.value.page) == GoAtoi(Param(params, "page")))
              && (Param(params, "page_size") == "" ==> r.value.pageSize == 10)
              && (Param(params, "page_size") != "" ==> Some(r.value.pageSize) == GoAtoi(Param(params, "page_size")))
    ensures r.Failure? ==> r.error == PageMessage || r.error == PageSizeMessage
    ensures r == Failure(PageSizeMessage) ==>
              var s := Param(params, "page_size");
              s != "" && (GoAtoi(s).None? || !(GoAtoi(s).value == 10 || GoAtoi(s).value == 25 || GoAtoi(s).value == 50))
  {
    var pageStr := Param(params, "page");
    var page := if pageStr == "" then Some(1) else GoAtoi(pageStr);
    if page.None? || page.value < 1 then Failure(PageMessage)
    else
      var pageSizeStr := Param(params, "page_size");
      var pageSize := if pageSizeStr == "" then Some(10) else GoAtoi(pageSizeStr);
      if pageSize.None? || (pageSize.value != 10 && pageSize.value != 25 && pageSize.value != 50) then
        Failure(PageSizeMessage)
      else Success(ListQuery(Param(params, "q"), page.value, pageSize.value))
  }

  /** A page number written in decimal is accepted as itself. */
  lemma PageAccepted(params: Params, page: int)
    requires 1 <= page <= Int64Max
    requires Param(params, "page") == IntToString(page) && Param(params, "page_size") == ""
    ensures ParseListQuery(params) == Success(ListQuery(Param(params, "q"), page, 10))
  {
    GoAtoiRoundTrip(page);
  }

  /** GET /keywords: 400 INVALID_QUERY with the parse message, 500 DB_ERROR when the service fails, else 200. */
  function List(params: Params, service: ListQuery -> Result<ListResponse, string>): (r: Reply)
    ensures ParseListQuery(params).Failure? ==>
              r == Reply(400, ErrorBody("INVALID_QUERY", Some(ParseListQuery(params).error)))
    ensures ParseListQuery(params).Success? ==>
              var q := ParseListQuery(params).value;
              && (service(q).Failure? ==> r == Reply(500, ErrorBody("DB_ERROR", None)))
              && (service(q).Success? ==> r == Reply(200, ListBody(service(q).value)))
  {
    match ParseListQuery(params)
    case Failure(message) => Reply(400, ErrorBody("INVALID_QUERY", Some(message)))
    case Success(query) =>
      match service(query)
      case Failure(_) => Reply(500, ErrorBody("DB_ERROR", None))
      case Success(response) => Reply(200, ListBody(response))
  }

  /**
   * POST /keywords. `body` is the bound request value (None: the JSON body
   * could not be bound). Validation errors are 400 with their message, a
   * duplicate is 409, anything else from the service is 500; success is 201.
   */
  function Create(body: Option<string>, service: string -> Result<Keyword, ServiceError>): (r: Reply)
    ensures body.None? ==>
              r == Reply(400, ErrorBody("VALIDATION_ERROR", Some("value is required and must be a string")))
    ensures body.Some? ==>
              var out := service(body.value);
              && (out.Success? <==> r.status == 201)
              && (out.Success? ==> r.body == KeywordBody(out.value))
              && (out.Failure? && (out.error.ErrEmptyValue? || out.error.ErrValueTooLong?) ==>
                    r == Reply(400, ErrorBody("VALIDATION_ERROR", Some(ErrorText(out.error)))))
              && (out.Failure? && out.error.ErrDuplicate? ==> r == Reply(409, ErrorBody("DUPLICATE_KEYWORD", None)))
              && (out.Failure? && !(out.error.ErrEmptyValue? || out.error.ErrValueTooLong? || out.error.ErrDuplicate?) ==>
                    r == Reply(500, ErrorBody("DB_ERROR", None)))
  {
    match body
    case None => Reply(400, ErrorBody("VALIDATION_ERROR", Some("value is required and must be a string")))
    case Some(value) =>
      match service(value)
      case Success(keyword) => Reply(201, KeywordBody(keyword))
      case Failure(e) =>
        match e
        case ErrEmptyValue => Reply(400, ErrorBody("VALIDATION_ERROR", Some(ErrorText(e))))
        case ErrValueTooLong => Reply(400, ErrorBody("VALIDATION_ERROR", Some(ErrorText(e))))
        case ErrDuplicate => Reply(409, ErrorBody("DUPLICATE_KEYWORD", None))
        case _ => Reply(500, ErrorBody("DB_ERROR", None))
  }

  /**
   * DELETE /keywords/:keyword_id: an empty id is 400, an unknown keyword
   * 404, any other failure 500, success 200 with {ok: true}.
   */
  function Delete(keywordID: string, service: string -> Option<ServiceError>): (r: Reply)
    ensures keywordID == "" ==> r == Reply(400, ErrorBody("INVALID_PATH_PARAM", Some("keyword_id is required")))
    ensures keywordID != "" ==>
              && (service(keywordID).None? ==> r == Reply(200, OkBody))
              && (service(keywordID) == Some(ErrKeywordNotFound) ==> r == Reply(404, ErrorBody("NOT_FOUND", None)))
              && (service(keywordID).Some? && service(keywordID) != Some(ErrKeywordNotFound) ==>
                    r == Reply(500, ErrorBody("DB_ERROR", None)))
  {
    if keywordID == "" then Reply(400, ErrorBody("INVALID_PATH_PARAM", Some("keyword_id is required")))
    else
      match service(keywordID)
      case None => Reply(200, OkBody)
      case Some(e) =>
        if e == ErrKeywordNotFound then Reply(404, ErrorBody("NOT_FOUND", None))
        else Reply(500, ErrorBody("DB_ERROR", None))
  }
}
