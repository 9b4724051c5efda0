/**
 * The shape of a failed request as the dashboard inspects it: an error that
 * is not an HTTP error at all, or one carrying a `response` (itself possibly
 * undefined) with an optional status, headers and error body.
 */
module HttpErrors {
  import opened Base

  /** The JSON error body `{code, message}`, either part possibly missing. */
  datatype ErrorData = ErrorData(code: Option<string>, message: Option<string>)

  datatype Response = Response(status: Option<int>, headers: map<string, string>, data: Option<ErrorData>)

  datatype RequestError =
    | NotHttp
    | HttpError(response: Option<Response>)

  /** The response status, when there is one. */
  function Status(err: RequestError): (r: Option<int>)
    ensures err.NotHttp? || err.response.None? ==> r.None?
    ensures err.HttpError? && err.response.Some? ==> r == err.response.value.status
  {
    if err.HttpError? && err.response.Some? then err.response.value.status else None
  }

  /** `data?.code` of the response, when there is one. */
  function BodyCode(err: RequestError): (r: Option<string>)
    ensures r.Some? ==> err.HttpError? && err.response.Some? && err.response.value.data.Some? &&
                        r == err.response.value.data.value.code
    ensures err.HttpError? && err.response.Some? && err.response.value.data.Some? ==> r == err.response.value.data.value.code
  {
    if err.HttpError? && err.response.Some? && err.response.value.data.Some? then err.response.value.data.value.code
    else None
  }

  /** `data?.message` of the response, when there is one. */
  function BodyMessage(err: RequestError): (r: Option<string>)
    ensures r.Some? ==> err.HttpError? && err.response.Some? && err.response.value.data.Some? &&
                        r == err.response.value.data.value.message
    ensures err.HttpError? && err.response.Some? && err.response.value.data.Some? ==> r == err.response.value.data.value.message
  {
    if err.HttpError? && err.response.Some? && err.response.value.data.Some? then err.response.value.data.value.message
    else None
  }

  /** JavaScript's `s || fallback` on an optional string: missing and empty both fall back. */
  function OrElse(s: Option<string>, fallback: string): (r: string)
    ensures s.Some? && s.value != "" ==> r == s.value
    ensures s.None? || s.value == "" ==> r == fallback
  {
    if s.Some? && s.value != "" then s.value else fallback
  }
}
