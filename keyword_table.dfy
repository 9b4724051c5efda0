/**
 * The keyword table's delete action: one deletion at a time, and the
 * feedback (a toast or the page's error banner) each outcome produces.
 */
module KeywordTable {
  import opened Base
  import opened HttpErrors
  import opened DeleteKeywordApi
  import opened Schemas

  datatype ToastKind = SuccessToast | ErrorToast

  /** What the user sees after a deletion: a toast, or the page-level error banner. */
  datatype Feedback = Toast(kind: ToastKind, text: string) | Banner(text: string)

  /**
   * The feedback of a finished deletion: a success toast naming the
   * keyword; for a 404 the not-found toast; for a 5xx the banner; anything
   * else, including no API error at all, an error toast.
   */
  function DeleteFeedback(keyword: Keyword, outcome: Option<RequestError>): (f: Feedback)
    ensures outcome.None? ==> f == Toast(SuccessToast, "Keyword \"" + keyword.value + "\" deleted")
    ensures outcome.Some? ==>
              var apiError := GetDeleteKeywordError(outcome.value);
              && (apiError.Some? && apiError.value.status == 404 ==> f == Toast(ErrorToast, "Keyword not found"))
              && (apiError.Some? && apiError.value.status >= 500 ==>
                    f == Banner(OrElse(Some(apiError.value.message), "Server error occurred")))
              && (apiError.None? ==> f == Toast(ErrorToast, "Failed to delete keyword"))
              && (apiError.Some? && apiError.value.status != 404 && apiError.value.status < 500 ==>
                    f == Toast(ErrorToast, OrElse(Some(apiError.value.message), "Failed to delete keyword")))
  {
    match outcome
    case None => Toast(SuccessToast, "Keyword \"" + keyword.value + "\" deleted")
    case Some(err) =>
      var apiError := GetDeleteKeywordError(err);
      if apiError.Some? && apiError.value.status == 404 then Toast(ErrorToast, "Keyword not found")
      else if apiError.Some? && (apiError.value.status == 500 || apiError.value.status >= 500) then
        Banner(OrElse(Some(apiError.value.message), "Server error occurred"))
      else Toast(ErrorToast, OrElse(if apiError.Some? then Some(apiError.value.message) else None,
                                    "Failed to delete keyword"))
  }

  /** A failure without a response status is a server error, shown on the banner. */
  lemma MissingStatusGoesToBanner(keyword: Keyword, headers: map<string, string>)
    ensures DeleteFeedback(keyword, Some(HttpError(Some(Response(None, headers, None)))))
            == Banner("Failed to delete keyword")
  {
  }

  class Table {
    /** The id of the keyword being deleted, if any. */
    var deletingId: Option<string>
    /** The feedback shown so far, oldest first. */
    var feedback: seq<Feedback>

    constructor ()
      ensures deletingId.None? && feedback == []
    {
      deletingId := None;
      feedback := [];
    }

    /** `if (deletingId)`: a deletion is in flight when a non-empty id is held. */
    predicate Busy()
      reads this
    {
      deletingId.Some? && deletingId.value != ""
    }

    /** Every Delete button is disabled while an id is held. */
    function DeleteDisabled(): (disabled: bool)
      reads this
      ensures Busy() ==> disabled
      ensures disabled <==> deletingId.Some?
    {
      deletingId.Some?
    }

    /** The start of handleDelete: refused while busy, otherwise the keyword's id is held. */
    method BeginDelete(keyword: Keyword) returns (started: bool)
      modifies this
      ensures started <==> !old(Busy())
      ensures !started ==> deletingId == old(deletingId)
      ensures started ==> deletingId == Some(keyword.keywordId)
      ensures feedback == old(feedback)
    {
      if Busy() {
        return false;
      }
      deletingId := Some(keyword.keywordId);
      return true;
    }

    /** The end of handleDelete: the outcome's feedback is shown and the id released, on success and failure alike. */
    method FinishDelete(keyword: Keyword, outcome: Option<RequestError>)
      modifies this
      ensures feedback == old(feedback) + [DeleteFeedback(keyword, outcome)]
      ensures deletingId.None? && !Busy()
    {
      feedback := feedback + [DeleteFeedback(keyword, outcome)];
      deletingId := None;
    }
  }
}
