/**
 * The keywords service: it validates a new keyword (trimmed, 1 to 64
 * characters) before storing it with its normalised form, refuses to delete
 * a keyword it cannot find, and clamps the paging of a list.
 */
module KeywordsService {
  import opened Base
  import opened Text
  import opened Database
  import opened KeywordsRepository

  /** The errors the service reports; RepoError carries a repository error through. */
  datatype ServiceError =
    | ErrMissingValue
    | ErrEmptyValue
    | ErrValueTooLong
    | ErrKeywordNotFound
    | ErrDuplicate
    | RepoError(message: string)

  function ErrorText(e: ServiceError): (t: string)
    ensures e.RepoError? ==> t == e.message
  {
    match e
    case ErrMissingValue => "value is required"
    case ErrEmptyValue => "value cannot be empty"
    case ErrValueTooLong => "value must be between 1 and 64 characters"
    case ErrKeywordNotFound => "keyword not found"
    case ErrDuplicate => DuplicateKeywordText
    case RepoError(message) => message
  }

  /** The longest keyword accepted, in characters. */
  const MaxKeywordLength: nat := 64

  /** A keyword as the API returns it. */
  datatype Keyword = Keyword(id: string, value: string, normalizedValue: string, status: string, createdAt: Time)

  datatype ListResponse = ListResponse(items: seq<Keyword>, total: int)

  /** The API form of a row: id, text, normalised text, status and creation time. */
  function ToKeyword(row: KeywordRow): (k: Keyword)
    ensures k.id == row.id && k.value == row.keyword && k.normalizedValue == row.normalizedValue
    ensures k.status == row.status && k.createdAt == row.createdAt
  {
    Keyword(row.id, row.keyword, row.normalizedValue, row.status, row.createdAt)
  }

  /** What Create checks of the submitted text: the trimmed text is not empty and at most 64 characters. */
  function Validate(value: string): (r: Result<string, ServiceError>)
    ensures r.Success? <==> 1 <= |TrimSpace(value)| <= MaxKeywordLength
    ensures r.Success? ==> r.value == TrimSpace(value)
    ensures TrimSpace(value) == "" ==> r == Failure(ErrEmptyValue)
    ensures |TrimSpace(value)| > MaxKeywordLength ==> r == Failure(ErrValueTooLong)
  {
    var v := TrimSpace(value);
    if v == "" then Failure(ErrEmptyValue)
    else if |v| < 1 || |v| > MaxKeywordLength then Failure(ErrValueTooLong)
    else Success(v)
  }

  /** Surrounding blanks never decide validity: a value validates exactly as its trimmed form. */
  lemma ValidateIgnoresBlanks(value: string)
    ensures Validate(TrimSpace(value)) == Validate(value)
  {
    TrimSpaceIdempotent(value);
  }

  /** A page below 1 becomes 1; a page size other than 10, 25 or 50 becomes 10; the search is kept. */
  function Clamped(query: ListQuery): (q: ListQuery)
    ensures q.q == query.q
    ensures q.page >= 1 && (q.pageSize == 10 || q.pageSize == 25 || q.pageSize == 50)
    ensures query.page >= 1 ==> q.page == query.page
    ensures query.pageSize == 10 || query.pageSize == 25 || query.pageSize == 50 ==> q.pageSize == query.pageSize
  {
    var page := if query.page < 1 then 1 else query.page;
    var pageSize := if query.pageSize != 10 && query.pageSize != 25 && query.pageSize != 50 then 10 else query.pageSize;
    ListQuery(query.q, page, pageSize)
  }

  lemma ClampedIdempotent(query: ListQuery)
    ensures Clamped(Clamped(query)) == Clamped(query)
  {
  }

  class Service {
    const repo: Repository

    constructor (repo: Repository)
      ensures this.repo == repo
    {
      this.repo := repo;
    }

    /**
     * List: the clamped query goes to the repository; its error is returned;
     * otherwise one keyword per row, in row order, and the total.
     */
    method List(query: ListQuery, countResult: Result<int, string>,
                rowsResult: Result<seq<Result<KeywordRow, string>>, string>)
      returns (sent: ListQuery, r: Result<ListResponse, string>)
      ensures sent == Clamped(query)
      ensures countResult.Failure? ==> r == Failure(countResult.error)
      ensures countResult.Success? && rowsResult.Failure? ==> r == Failure(rowsResult.error)
      ensures countResult.Success? && rowsResult.Success? ==>
                && (Collected(rowsResult.value).Failure? ==> r == Failure(Collected(rowsResult.value).error))
                && (Collected(rowsResult.value).Success? ==>
                      var rows := Collected(rowsResult.value).value;
                      && r.Success? && r.value.total == countResult.value && |r.value.items| == |rows|
                      && forall i :: 0 <= i < |rows| ==> r.value.items[i] == ToKeyword(rows[i]))
    {
      sent := Clamped(query);
      var _, _, page := repo.List(sent, countResult, rowsResult);
      if page.Failure? {
        return sent, Failure(page.error);
      }
      var (rows, total) := page.value;
      var items: seq<Keyword> := [];
      for i := 0 to |rows|
        invariant |items| == i
        invariant forall k :: 0 <= k < i ==> items[k] == ToKeyword(rows[k])
      {
        items := items + [ToKeyword(rows[i])];
      }
      r := Success(ListResponse(items, total));
    }

    /**
     * Create: the trimmed text is validated, then stored with its normalised
     * form. Validation failures and repository errors leave the table as it
     * was; a duplicate is reported as such.
     */
    method Create(value: string, outcome: InsertOutcome) returns (r: Result<Keyword, ServiceError>)
      modifies repo.db
      ensures Validate(value).Failure? ==> r == Failure(Validate(value).error) && repo.db.keywords == old(repo.db.keywords)
      ensures Validate(value).Success? && outcome.UniqueViolation? ==>
                r == Failure(ErrDuplicate) && repo.db.keywords == old(repo.db.keywords)
      ensures Validate(value).Success? && outcome.InsertFailed? ==>
                r == Failure(RepoError(outcome.message)) && repo.db.keywords == old(repo.db.keywords)
      ensures Validate(value).Success? && outcome.Inserted? && outcome.id in old(repo.db.keywords) ==>
                r == Failure(ErrDuplicate) && repo.db.keywords == old(repo.db.keywords)
      ensures Validate(value).Success? && outcome.Inserted? && outcome.id !in old(repo.db.keywords) ==>
                var v := TrimSpace(value);
                && r == Success(Keyword(outcome.id, v, NormalizeValue(v), "active", outcome.createdAt))
                && repo.db.keywords == old(repo.db.keywords)[outcome.id :=
                     KeywordRecord(v, NormalizeValue(v), "active", false, outcome.createdAt, None)]
      ensures r.Success? ==> 1 <= |r.value.value| <= MaxKeywordLength && NoSurroundingSpace(r.value.value)
      ensures repo.db.monitorState == old(repo.db.monitorState) && repo.db.runs == old(repo.db.runs)
      ensures repo.db.matches == old(repo.db.matches)
    {
      var v := TrimSpace(value);
      if v == "" {
        return Failure(ErrEmptyValue);
      }
      if |v| < 1 || |v| > MaxKeywordLength {
        return Failure(ErrValueTooLong);
      }
      var normalizedValue := NormalizeValue(v);
      var row := repo.Create(v, normalizedValue, outcome);
      if row.Failure? {
        match row.error
        case ErrDuplicateKeyword =>
          return Failure(ErrDuplicate);
        case DbError(message) =>
          return Failure(RepoError(message));
      }
      TrimSpaceShape(value);
      r := Success(ToKeyword(row.value));
    }

    /**
     * Delete: a lookup error is returned; a keyword that is absent or
     * already deleted is ErrKeywordNotFound and nothing is written; otherwise
     * it is soft-deleted and the update's error, if any, is returned.
     */
    method Delete(id: string, now: Time, getError: Option<string>, execError: Option<string>)
      returns (err: Option<ServiceError>)
      modifies repo.db
      ensures getError.Some? ==> err == Some(RepoError(getError.value)) && repo.db.keywords == old(repo.db.keywords)
      ensures getError.None? && Lookup(old(repo.db.keywords), id).None? ==>
                err == Some(ErrKeywordNotFound) && repo.db.keywords == old(repo.db.keywords)
      ensures getError.None? && Lookup(old(repo.db.keywords), id).Some? ==>
                && (execError.None? ==> err == None && repo.db.keywords == SoftDeleted(old(repo.db.keywords), id, now))
                && (execError.Some? ==> err == Some(RepoError(execError.value)) && repo.db.keywords == old(repo.db.keywords))
      ensures err.None? ==> Lookup(repo.db.keywords, id).None?
      ensures repo.db.monitorState == old(repo.db.monitorState) && repo.db.runs == old(repo.db.runs)
      ensures repo.db.matches == old(repo.db.matches)
    {
      var existing := repo.GetByID(id, getError);
      if existing.Failure? {
        return Some(RepoError(existing.error));
      }
      if existing.value.None? {
        return Some(ErrKeywordNotFound);
      }
      var e := repo.SoftDelete(id, now, execError);
      if e.Some? {
        return Some(RepoError(e.value));
      }
      SoftDeleteHides(old(repo.db.keywords), id, now, id);
      return None;
    }
  }
}
