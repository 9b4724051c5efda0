/** The delete-keyword mutation: how its failure is read, and what its success refreshes. */
module DeleteKeywordApi {
  import opened Base
  import opened HttpErrors
  import CreateKeywordApi

  datatype DeleteKeywordError = DeleteKeywordError(status: int, code: string, message: string)

  /** `response?.status || 500`: a missing (or zero) status counts as 500. */
  function EffectiveStatus(err: RequestError): (s: int)
    ensures Status(err).Some? && Status(err).value != 0 ==> s == Status(err).value
    ensures Status(err).None? || Status(err).value == 0 ==> s == 500
  {
    if Status(err).Some? && Status(err).value != 0 then Status(err).value else 500
  }

  /**
   * getDeleteKeywordError: no API error without a response key; a 404 is
   * the fixed not-found error whatever the body says; any other status is
   * kept with the body's code and message or the server-error defaults.
   */
  function GetDeleteKeywordError(err: RequestError): (r: Option<DeleteKeywordError>)
    ensures r.None? <==> err.NotHttp?
    ensures err.HttpError? && EffectiveStatus(err) == 404 ==>
              r == Some(DeleteKeywordError(404, "NOT_FOUND", "Keyword not found"))
    ensures err.HttpError? && EffectiveStatus(err) != 404 ==>
              r == Some(DeleteKeywordError(EffectiveStatus(err), OrElse(BodyCode(err), "SERVER_ERROR"),
                                           OrElse(BodyMessage(err), "Failed to delete keyword")))
  {
    if err.HttpError? then
      var status := EffectiveStatus(err);
      if status == 404 then Some(DeleteKeywordError(404, "NOT_FOUND", "Keyword not found"))
      else Some(DeleteKeywordError(status, OrElse(BodyCode(err), "SERVER_ERROR"),
                                   OrElse(BodyMessage(err), "Failed to delete keyword")))
    else None
  }

  /** An HTTP error whose response is missing reads as a 500 server error. */
  lemma MissingResponseIsServerError()
    ensures GetDeleteKeywordError(HttpError(None)) == Some(DeleteKeywordError(500, "SERVER_ERROR", "Failed to delete keyword"))
  {
  }

  /** The query keys a successful deletion invalidates: keywords and matches. */
  const InvalidatedOnSuccess: set<string> := {"keywords", "matches"}

  /** Deleting refreshes everything creating does, and the match list besides. */
  lemma DeleteRefreshesMatches()
    ensures CreateKeywordApi.InvalidatedOnSuccess < InvalidatedOnSuccess
    ensures "matches" in InvalidatedOnSuccess && "matches" !in CreateKeywordApi.InvalidatedOnSuccess
  {
  }
}
