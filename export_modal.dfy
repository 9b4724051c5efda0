/**
 * The export dialog: its four states and the transitions its handlers make,
 * the query parameters an export request carries, and the summary of the
 * filters it shows.
 */
module ExportModal {
  import opened Base
  import opened Text
  import opened HttpErrors
  import opened SearchParams
  import opened FilterBar
  import Schemas

  datatype ModalState = Idle | Exporting | RateLimited | Errored

  /** A Retry-After value: seconds, or NaN when parseInt finds no digits. */
  datatype RetryAfter = Seconds(n: int) | NotANumber

  datatype ExportError = ExportError(code: string, message: string, retryAfter: Option<RetryAfter>)

  const RateLimitedMessage: string := "Export rate limit exceeded. Please wait before trying again."
  const ExportFailedMessage: string := "Failed to generate export. Please try again later."
  const UnknownErrorMessage: string := "An unexpected error occurred. Please try again."
  const DefaultRetryAfter: int := 60

  /** A single pair when `present`, nothing otherwise. */
  function OptionalEntry(name: string, present: bool, value: string): seq<Entry>
  {
    if present then [(name, value)] else []
  }

  /** The pairs of an export request, in the order they are set. */
  function ExportEntries(filters: FilterState): seq<Entry>
  {
    OptionalEntry("keyword_ids", |filters.keywordIds| > 0, Join(filters.keywordIds, ","))
    + OptionalEntry("start_date", filters.startDate != "", filters.startDate)
    + OptionalEntry("end_date", filters.endDate != "", filters.endDate)
    + OptionalEntry("search", filters.search != "", filters.search)
    + OptionalEntry("new_only", filters.newOnly, "true")
  }

  lemma {:induction false} LookupAppend(a: seq<Entry>, b: seq<Entry>, name: string)
    ensures Lookup(a + b, name) == if Lookup(a, name).Some? then Lookup(a, name) else Lookup(b, name)
  {
    if a == [] {
      assert a + b == b;
    } else {
      assert (a + b)[0] == a[0] && (a + b)[1..] == a[1..] + b;
      if a[0].0 != name {
        LookupAppend(a[1..], b, name);
      }
    }
  }

  /**
   * The parameter an export request should carry under `m`: each filter only
   * when set, keyword ids comma-joined, new_only as "true", nothing else.
   */
  function ExportParam(filters: FilterState, m: string): Option<string>
  {
    if m == "keyword_ids" then (if |filters.keywordIds| > 0 then Some(Join(filters.keywordIds, ",")) else None)
    else if m == "start_date" then (if filters.startDate != "" then Some(filters.startDate) else None)
    else if m == "end_date" then (if filters.endDate != "" then Some(filters.endDate) else None)
    else if m == "search" then (if filters.search != "" then Some(filters.search) else None)
    else if m == "new_only" then (if filters.newOnly then Some("true") else None)
    else None
  }

  lemma LookupOptional(name: string, present: bool, value: string, m: string)
    ensures Lookup(OptionalEntry(name, present, value), m) == if present && m == name then Some(value) else None
  {
    if present {
      assert OptionalEntry(name, present, value)[1..] == [];
    }
  }

  /** The pairs of an export request carry exactly the parameters `ExportParam` describes. */
  lemma ExportEntriesLookup(filters: FilterState, m: string)
    ensures Lookup(ExportEntries(filters), m) == ExportParam(filters, m)
  {
    var k := OptionalEntry("keyword_ids", |filters.keywordIds| > 0, Join(filters.keywordIds, ","));
    var sd := OptionalEntry("start_date", filters.startDate != "", filters.startDate);
    var ed := OptionalEntry("end_date", filters.endDate != "", filters.endDate);
    var q := OptionalEntry("search", filters.search != "", filters.search);
    var n := OptionalEntry("new_only", filters.newOnly, "true");
    LookupAppend(k + sd + ed + q, n, m);
    LookupAppend(k + sd + ed, q, m);
    LookupAppend(k + sd, ed, m);
    LookupAppend(k, sd, m);
    LookupOptional("keyword_ids", |filters.keywordIds| > 0, Join(filters.keywordIds, ","), m);
    LookupOptional("start_date", filters.startDate != "", filters.startDate, m);
    LookupOptional("end_date", filters.endDate != "", filters.endDate, m);
    LookupOptional("search", filters.search != "", filters.search, m);
    LookupOptional("new_only", filters.newOnly, "true", m);
  }

  /** With no active filter an export request carries no parameter at all, and with one it carries some. */
  lemma ExportEntriesEmpty(filters: FilterState)
    ensures ExportEntries(filters) == [] <==> !HasActiveFilters(filters)
  {
  }

  /** Every pair of `entries` is named in `names`. */
  predicate NamedAmong(entries: seq<Entry>, names: set<string>)
  {
    forall i :: 0 <= i < |entries| ==> entries[i].0 in names
  }

  /** Setting a parameter not yet present appends it. */
  method SetNew(params: URLSearchParams, names: set<string>, name: string, present: bool, value: string)
    requires NamedAmong(params.entries, names) && name !in names
    modifies params
    ensures params.entries == old(params.entries) + OptionalEntry(name, present, value)
    ensures NamedAmong(params.entries, names + {name})
  {
    if present {
      assert Lookup(params.entries, name).None?;
      params.Set(name, value);
    }
  }

  /** The query parameters of an export, set field by field on a new URLSearchParams. */
  method BuildExportParams(filters: FilterState) returns (params: URLSearchParams)
    ensures fresh(params)
    ensures params.entries == ExportEntries(filters)
  {
    ghost var k := OptionalEntry("keyword_ids", |filters.keywordIds| > 0, Join(filters.keywordIds, ","));
    ghost var sd := OptionalEntry("start_date", filters.startDate != "", filters.startDate);
    ghost var ed := OptionalEntry("end_date", filters.endDate != "", filters.endDate);
    ghost var q := OptionalEntry("search", filters.search != "", filters.search);
    ghost var n := OptionalEntry("new_only", filters.newOnly, "true");
    params := new URLSearchParams();
    SetNew(params, {}, "keyword_ids", |filters.keywordIds| > 0, Join(filters.keywordIds, ","));
    assert params.entries == k;
    SetNew(params, {"keyword_ids"}, "start_date", filters.startDate != "", filters.startDate);
    assert params.entries == k + sd;
    SetNew(params, {"keyword_ids", "start_date"}, "end_date", filters.endDate != "", filters.endDate);
    assert params.entries == k + sd + ed;
    SetNew(params, {"keyword_ids", "start_date", "end_date"}, "search", filters.search != "", filters.search);
    assert params.entries == k + sd + ed + q;
    SetNew(params, {"keyword_ids", "start_date", "end_date", "search"}, "new_only", filters.newOnly, "true");
  }

  /** `split('T')[0]`: the text before the first 'T'. */
  function DatePart(iso: string): (d: string)
    ensures |d| <= |iso| && d == iso[..|d|]
    ensures 'T' !in d
    ensures |d| < |iso| ==> iso[|d|] == 'T'
  {
    if iso == [] || iso[0] == 'T' then []
    else
      assert forall i :: 1 <= i < |iso| ==> iso[1..][i - 1] == iso[i];
      [iso[0]] + DatePart(iso[1..])
  }

  /** The downloaded file: matches-<date>.csv, the date being that of `isoNow` (an ISO-8601 timestamp). */
  function DownloadName(isoNow: string): (name: string)
    ensures |name| == |DatePart(isoNow)| + 12
    ensures HasPrefix(name, "matches-") && HasSuffix(name, ".csv")
    ensures name[8..|name| - 4] == DatePart(isoNow)
  {
    "matches-" + DatePart(isoNow) + ".csv"
  }

  /** The wait of a rate-limited export: the Retry-After header parsed when present and non-empty, else 60. */
  function RetryAfterOf(headers: map<string, string>): (r: RetryAfter)
    ensures ("retry-after" !in headers || headers["retry-after"] == "") ==> r == Seconds(DefaultRetryAfter)
    ensures "retry-after" in headers && headers["retry-after"] != "" ==>
              (r.Seconds? <==> JsParseInt(headers["retry-after"]).Some?)
    ensures "retry-after" in headers && headers["retry-after"] != "" && r.Seconds? ==>
              Some(r.n) == JsParseInt(headers["retry-after"])
  {
    if "retry-after" in headers && headers["retry-after"] != "" then
      match JsParseInt(headers["retry-after"])
      case Some(n) => Seconds(n)
      case None => NotANumber
    else Seconds(DefaultRetryAfter)
  }

  /**
   * The state and error a failed export leaves: 429 is rate limited (with
   * its wait), a status of 500 or more an export error, anything else —
   * no response, a 4xx — an unknown error.
   */
  function FailureOutcome(err: RequestError): (r: (ModalState, ExportError))
    ensures Status(err) == Some(429) ==>
              r == (RateLimited, ExportError("RATE_LIMITED", RateLimitedMessage,
                                             Some(RetryAfterOf(err.response.value.headers))))
    ensures Status(err).Some? && Status(err).value >= 500 ==>
              r == (Errored, ExportError("EXPORT_ERROR", ExportFailedMessage, None))
    ensures (Status(err).None? || (Status(err).value != 429 && Status(err).value < 500)) ==>
              r == (Errored, ExportError("UNKNOWN_ERROR", UnknownErrorMessage, None))
    ensures r.0 == RateLimited || r.0 == Errored
  {
    var status := Status(err);
    if status == Some(429) then
      (RateLimited, ExportError("RATE_LIMITED", RateLimitedMessage, Some(RetryAfterOf(err.response.value.headers))))
    else if status.Some? && status.value != 0 && status.value >= 500 then
      (Errored, ExportError("EXPORT_ERROR", ExportFailedMessage, None))
    else (Errored, ExportError("UNKNOWN_ERROR", UnknownErrorMessage, None))
  }

  /** A rate-limited reply without Retry-After asks for a 60-second wait. */
  lemma RateLimitedWithoutHeader(data: Option<ErrorData>)
    ensures FailureOutcome(HttpError(Some(Response(Some(429), map[], data))))
            == (RateLimited, ExportError("RATE_LIMITED", RateLimitedMessage, Some(Seconds(60))))
  {
  }

  /** The keywords of the chosen ids, in the order of the keyword list. */
  function SelectedKeywords(keywords: seq<Schemas.Keyword>, ids: seq<string>): (r: seq<Schemas.Keyword>)
    ensures |r| <= |keywords|
    ensures forall k :: k in r <==> k in keywords && k.keywordId in ids
  {
    if keywords == [] then []
    else if keywords[0].keywordId in ids then [keywords[0]] + SelectedKeywords(keywords[1..], ids)
    else SelectedKeywords(keywords[1..], ids)
  }

  /** One keyword: itself when its id is chosen, nothing otherwise. */
  lemma SelectedKeywordsSingle(keyword: Schemas.Keyword, ids: seq<string>)
    ensures SelectedKeywords([keyword], ids) == if keyword.keywordId in ids then [keyword] else []
  {
    assert [keyword][1..] == [];
  }

  /** Choosing from two lists one after the other is choosing from each, one after the other. */
  lemma {:induction false} SelectedKeywordsAppend(a: seq<Schemas.Keyword>, b: seq<Schemas.Keyword>, ids: seq<string>)
    ensures SelectedKeywords(a + b, ids) == SelectedKeywords(a, ids) + SelectedKeywords(b, ids)
  {
    if a == [] {
      assert a + b == b;
    } else {
      assert (a + b)[0] == a[0] && (a + b)[1..] == a[1..] + b;
      SelectedKeywordsAppend(a[1..], b, ids);
    }
  }

  /** Only which ids are chosen matters, not the order they were chosen in. */
  lemma {:induction false} SelectedKeywordsFollowList(keywords: seq<Schemas.Keyword>, a: seq<string>, b: seq<string>)
    requires forall id :: id in a <==> id in b
    ensures SelectedKeywords(keywords, a) == SelectedKeywords(keywords, b)
  {
    if keywords != [] {
      SelectedKeywordsFollowList(keywords[1..], a, b);
    }
  }

  class Modal {
    var state: ModalState
    var error: Option<ExportError>
    /** How many times the dialog asked its owner to close it. */
    var closeRequests: nat

    /** An error is held exactly in the two failure states. */
    predicate Valid()
      reads this
    {
      error.Some? <==> state == RateLimited || state == Errored
    }

    constructor ()
      ensures Valid() && state == Idle && error.None? && closeRequests == 0
    {
      state := Idle;
      error := None;
      closeRequests := 0;
    }

    /** "Try Again" replaces "Download CSV" in the two failure states. */
    function ShowsRetry(): (retry: bool)
      reads this
      ensures Valid() ==> (retry <==> error.Some?)
    {
      state == Errored || state == RateLimited
    }

    /** The start of handleExport: exporting, with no error, and the request's parameters built. */
    method BeginExport(filters: FilterState) returns (params: URLSearchParams)
      modifies this
      ensures Valid() && state == Exporting && error.None? && closeRequests == old(closeRequests)
      ensures fresh(params) && params.entries == ExportEntries(filters)
    {
      state := Exporting;
      error := None;
      params := BuildExportParams(filters);
    }

    /**
     * The end of handleExport: success downloads matches-<date>.csv, returns
     * to idle and closes; a failure takes the state and error of its kind.
     */
    method FinishExport(outcome: Option<RequestError>, isoNow: string) returns (download: Option<string>)
      modifies this
      ensures Valid()
      ensures outcome.None? ==>
                && download == Some(DownloadName(isoNow)) && state == Idle && error.None?
                && closeRequests == old(closeRequests) + 1
      ensures outcome.Some? ==>
                && download.None? && closeRequests == old(closeRequests)
                && state == FailureOutcome(outcome.value).0 && error == Some(FailureOutcome(outcome.value).1)
    {
      match outcome {
        case None =>
          download := Some(DownloadName(isoNow));
          state := Idle;
          closeRequests := closeRequests + 1;
          error := None;
        case Some(err) =>
          download := None;
          var (next, e) := FailureOutcome(err);
          state := next;
          error := Some(e);
      }
    }

    /** Closing is ignored while exporting; otherwise the dialog resets and closes. */
    method HandleClose()
      requires Valid()
      modifies this
      ensures Valid()
      ensures old(state) == Exporting ==> state == Exporting && error == old(error) && closeRequests == old(closeRequests)
      ensures old(state) != Exporting ==> state == Idle && error.None? && closeRequests == old(closeRequests) + 1
    {
      if state != Exporting {
        state := Idle;
        error := None;
        closeRequests := closeRequests + 1;
      }
    }

    /** Retrying returns to idle with the error cleared, ready to export again. */
    method HandleRetry()
      modifies this
      ensures Valid() && state == Idle && error.None? && !ShowsRetry() && closeRequests == old(closeRequests)
    {
      state := Idle;
      error := None;
    }
  }
}
