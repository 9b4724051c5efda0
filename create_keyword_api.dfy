/** The create-keyword mutation: how its failure is read, and what its success refreshes. */
module CreateKeywordApi {
  import opened Base
  import opened HttpErrors

  datatype CreateKeywordError = CreateKeywordError(code: string, message: string)

  /**
   * getCreateKeywordError: a 409 is a duplicate and a 400 a validation
   * error, each with the body's code and message when present; anything
   * else, including an error without a response, is no API error.
   */
  function GetCreateKeywordError(err: RequestError): (r: Option<CreateKeywordError>)
    ensures r.Some? <==> Status(err) == Some(409) || Status(err) == Some(400)
    ensures Status(err) == Some(409) ==>
              r == Some(CreateKeywordError(OrElse(BodyCode(err), "DUPLICATE_KEYWORD"),
                                           OrElse(BodyMessage(err), "This keyword already exists")))
    ensures Status(err) == Some(400) ==>
              r == Some(CreateKeywordError(OrElse(BodyCode(err), "VALIDATION_ERROR"),
                                           OrElse(BodyMessage(err), "Invalid keyword")))
    ensures err.NotHttp? ==> r.None?
  {
    if err.HttpError? then
      if Status(err) == Some(409) then
        Some(CreateKeywordError(OrElse(BodyCode(err), "DUPLICATE_KEYWORD"),
                                OrElse(BodyMessage(err), "This keyword already exists")))
      else if Status(err) == Some(400) then
        Some(CreateKeywordError(OrElse(BodyCode(err), "VALIDATION_ERROR"), OrElse(BodyMessage(err), "Invalid keyword")))
      else None
    else None
  }

  /** A conflict reported without a body reads as the duplicate-keyword error. */
  lemma BareConflictIsDuplicate(headers: map<string, string>)
    ensures GetCreateKeywordError(HttpError(Some(Response(Some(409), headers, None))))
            == Some(CreateKeywordError("DUPLICATE_KEYWORD", "This keyword already exists"))
  {
  }

  /** The query keys a successful creation invalidates: the keyword list only. */
  const InvalidatedOnSuccess: set<string> := {"keywords"}
}
