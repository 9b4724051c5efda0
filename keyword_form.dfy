/**
 * The add-keyword form: the input it holds, the check it makes before
 * sending, and the error it shows for a refused request.
 */
module KeywordForm {
  import opened Base
  import opened Text
  import opened HttpErrors
  import opened CreateKeywordApi
  import KeywordsService

  const RequiredText: string := "Keyword is required"
  const TooShortText: string := "Keyword must be at least 2 characters"
  const TooLongText: string := "Keyword must be at most 64 characters"

  /** The form's check of its input, on the trimmed text: present, at least 2 and at most 64 characters. */
  function Validate(input: string): (r: Option<string>)
    ensures r.None? <==> 2 <= |TrimSpace(input)| <= 64
    ensures TrimSpace(input) == "" ==> r == Some(RequiredText)
    ensures |TrimSpace(input)| == 1 ==> r == Some(TooShortText)
    ensures |TrimSpace(input)| > 64 ==> r == Some(TooLongText)
  {
    var trimmed := TrimSpace(input);
    if trimmed == "" then Some(RequiredText)
    else if |trimmed| < 2 then Some(TooShortText)
    else if |trimmed| > 64 then Some(TooLongText)
    else None
  }

  /** The text shown for a refused creation: the duplicate text, the API's message, or a generic failure. */
  function SubmitErrorText(apiError: Option<CreateKeywordError>): (t: string)
    ensures apiError.Some? && apiError.value.code == "DUPLICATE_KEYWORD" ==> t == "This keyword already exists"
    ensures apiError.Some? && apiError.value.code != "DUPLICATE_KEYWORD" ==> t == apiError.value.message
    ensures apiError.None? ==> t == "Failed to create keyword"
  {
    match apiError
    case None => "Failed to create keyword"
    case Some(e) => if e.code == "DUPLICATE_KEYWORD" then "This keyword already exists" else e.message
  }

  /** A conflict is always reported as an existing keyword, whatever code the body carries. */
  lemma ConflictShownAsDuplicate(err: RequestError)
    requires Status(err) == Some(409) && (BodyCode(err).None? || BodyCode(err) == Some(""))
    ensures SubmitErrorText(GetCreateKeywordError(err)) == "This keyword already exists"
  {
  }

  /**
   * Whatever the form sends, the service accepts as is: the form's range
   * lies inside the service's, and the text is already trimmed.
   */
  lemma FormAcceptedServiceAccepts(input: string)
    requires Validate(input).None?
    ensures KeywordsService.Validate(TrimSpace(input)) == Success(TrimSpace(input))
  {
    TrimSpaceIdempotent(input);
  }

  /** A single character is refused by the form although the service would store it. */
  lemma SingleCharacterOnlyServiceSide(c: char)
    requires !IsSpace(c)
    ensures Validate([c]).Some?
    ensures KeywordsService.Validate([c]).Success?
  {
    assert TrimLeft([c]) == [c];
    assert TrimRight([c]) == [c];
  }

  class Form {
    var value: string
    var error: Option<string>
    /** How many times the form reported a successful creation. */
    var successes: nat

    constructor ()
      ensures value == "" && error.None? && successes == 0
    {
      value := "";
      error := None;
      successes := 0;
    }

    /** The submit button is disabled while the trimmed input is empty. */
    function SubmitDisabled(): (disabled: bool)
      reads this
      ensures disabled <==> |TrimSpace(value)| == 0
    {
      TrimSpace(value) == ""
    }

    /**
     * Submitting: an input that fails the check shows its message and sends
     * nothing; otherwise the trimmed text is sent, and `outcome` (no error,
     * or the request's error) decides between clearing the input and
     * showing the refusal.
     */
    method HandleSubmit(outcome: Option<RequestError>) returns (sent: Option<string>)
      modifies this
      ensures Validate(old(value)).Some? ==>
                sent.None? && error == Validate(old(value)) && value == old(value) && successes == old(successes)
      ensures Validate(old(value)).None? ==> sent == Some(TrimSpace(old(value)))
      ensures Validate(old(value)).None? && outcome.None? ==>
                value == "" && error.None? && successes == old(successes) + 1
      ensures Validate(old(value)).None? && outcome.Some? ==>
                && value == old(value) && successes == old(successes)
                && error == Some(SubmitErrorText(GetCreateKeywordError(outcome.value)))
    {
      error := None;
      var validationError := Validate(value);
      if validationError.Some? {
        error := validationError;
        return None;
      }
      sent := Some(TrimSpace(value));
      match outcome {
        case None =>
          value := "";
          successes := successes + 1;
        case Some(err) =>
          error := Some(SubmitErrorText(GetCreateKeywordError(err)));
      }
    }

    /** Editing the input replaces it and clears any error shown. */
    method HandleChange(newValue: string)
      modifies this
      ensures value == newValue && error.None? && successes == old(successes)
    {
      value := newValue;
      if error.Some? {
        error := None;
      }
    }
  }
}
