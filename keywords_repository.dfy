/**
 * The keywords repository: the keywords table is the `keywords` map of the
 * database, keyed by keyword id. Rows are never removed; a deletion is soft
 * (status inactive, is_deleted set), and every read skips deleted rows.
 */
module KeywordsRepository {
  import opened Base
  import opened Text
  import opened Database

  /** A keyword row as the repository returns it (updated_at is not modelled). */
  datatype KeywordRow = KeywordRow(
    id: string,
    keyword: string,
    normalizedValue: string,
    status: string,
    isDeleted: bool,
    createdAt: Time)

  function RowOf(id: string, rec: KeywordRecord): (row: KeywordRow)
    ensures row.id == id && row.keyword == rec.keyword && row.normalizedValue == rec.normalizedValue
    ensures row.status == rec.status && row.isDeleted == rec.isDeleted && row.createdAt == rec.createdAt
  {
    KeywordRow(id, rec.keyword, rec.normalizedValue, rec.status, rec.isDeleted, rec.createdAt)
  }

  /** Lower-cased and trimmed: the form keywords are compared in. */
  function NormalizeValue(value: string): (r: string)
    ensures |r| == |TrimSpace(value)| <= |value|
    ensures NoSurroundingSpace(r) && HasNoUpper(r)
    ensures forall i :: 0 <= i < |r| ==> LowerChar(TrimSpace(value)[i]) == r[i]
  {
    var t := TrimSpace(value);
    TrimSpaceNoSurrounding(value);
    LowerKeepsSurroundings(t);
    Lower(t)
  }

  /** Normalising a normalised value changes nothing. */
  lemma NormalizeValueIdempotent(value: string)
    ensures NormalizeValue(NormalizeValue(value)) == NormalizeValue(value)
  {
    var r := NormalizeValue(value);
    TrimLeftNoop(r);
    assert TrimRight(r) == r by {
      if r != [] { assert !IsSpace(r[|r| - 1]); }
    }
    LowerOfLowerCase(r);
  }

  /** Normalising ignores letter case. */
  lemma NormalizeValueIgnoresCase(value: string)
    ensures NormalizeValue(Lower(value)) == NormalizeValue(value)
  {
    LowerTrimLeft(value);
    LowerTrimRight(TrimLeft(value));
    var t := Lower(TrimSpace(value));
    assert TrimSpace(Lower(value)) == t;
    LowerHasNoUpper(TrimSpace(value));
    LowerOfLowerCase(t);
  }

  /** Lower-casing neither adds nor removes white space at either end, and leaves no capital. */
  lemma LowerKeepsSurroundings(t: string)
    requires NoSurroundingSpace(t)
    ensures NoSurroundingSpace(Lower(t)) && HasNoUpper(Lower(t))
  {
    if t != [] {
      LowerCharSpace(t[0]);
      LowerCharSpace(t[|t| - 1]);
    }
  }

  lemma LowerCharSpace(c: char)
    ensures IsSpace(LowerChar(c)) <==> IsSpace(c)
  {
  }

  /** Trimming the left commutes with lower-casing. */
  lemma {:induction false} LowerTrimLeft(s: string)
    ensures TrimLeft(Lower(s)) == Lower(TrimLeft(s))
    decreases |s|
  {
    if s != [] {
      LowerCharSpace(s[0]);
      if IsSpace(s[0]) {
        assert Lower(s)[1..] == Lower(s[1..]);
        LowerTrimLeft(s[1..]);
      }
    }
  }

  /** Trimming the right commutes with lower-casing. */
  lemma {:induction false} LowerTrimRight(s: string)
    ensures TrimRight(Lower(s)) == Lower(TrimRight(s))
    decreases |s|
  {
    if s != [] {
      LowerCharSpace(s[|s| - 1]);
      if IsSpace(s[|s| - 1]) {
        assert Lower(s)[..|s| - 1] == Lower(s[..|s| - 1]);
        LowerTrimRight(s[..|s| - 1]);
      }
    }
  }

  // -------------------------------------------------------------- lookups

  /** The non-deleted row with this id, if any: what GetByID's SELECT finds. */
  function Lookup(table: map<string, KeywordRecord>, id: string): (r: Option<KeywordRow>)
    ensures r.Some? <==> id in table && !table[id].isDeleted
    ensures r.Some? ==> r.value == RowOf(id, table[id])
  {
    if id in table && !table[id].isDeleted then Some(RowOf(id, table[id])) else None
  }

  /** The UPDATE of SoftDelete: status inactive, is_deleted TRUE, deleted_at now; no row matched, no change. */
  function SoftDeleted(table: map<string, KeywordRecord>, id: string, now: Time): (t: map<string, KeywordRecord>)
    ensures t.Keys == table.Keys
    ensures id in table ==>
              t[id] == table[id].(status := "inactive", isDeleted := true, deletedAt := Some(now))
    ensures forall k :: k in table && k != id ==> t[k] == table[k]
  {
    if id in table then table[id := table[id].(status := "inactive", isDeleted := true, deletedAt := Some(now))]
    else table
  }

  /** After a soft delete the id is not found, and every other lookup is as before. */
  lemma SoftDeleteHides(table: map<string, KeywordRecord>, id: string, now: Time, other: string)
    ensures Lookup(SoftDeleted(table, id, now), id) == None
    ensures other != id ==> Lookup(SoftDeleted(table, id, now), other) == Lookup(table, other)
  {
  }

  /** What the INSERT ... RETURNING reports: the new id and creation time, a unique violation (SQLSTATE 23505), or another error. */
  datatype InsertOutcome = Inserted(id: string, createdAt: Time) | UniqueViolation | InsertFailed(message: string)

  datatype CreateError = ErrDuplicateKeyword | DbError(message: string)

  /** The message of ErrDuplicateKeyword. */
  const DuplicateKeywordText: string := "duplicate keyword"

  // ---------------------------------------------------------------- list

  /** The fixed pieces of the list statements. */
  datatype Word = SelectCount | SelectRows | KeywordLike | OrderByCreatedDesc | Limit | Offset

  datatype Token = W(word: Word) | P(p: nat)

  function WordText(w: Word): string {
    match w
    case SelectCount => "SELECT COUNT(*) FROM keywords WHERE is_deleted = FALSE"
    case SelectRows =>
      "SELECT id, keyword, normalized_value, status, is_deleted, created_at, updated_at FROM keywords WHERE is_deleted = FALSE"
    case KeywordLike => " AND keyword ILIKE "
    case OrderByCreatedDesc => " ORDER BY created_at DESC"
    case Limit => " LIMIT "
    case Offset => " OFFSET "
  }

  datatype Statement = Statement(sql: seq<Token>, args: seq<SqlArg>)

  datatype SqlArg = TextArg(text: string) | IntArg(n: int)

  /** A keyword list query: substring search, page and page size. */
  datatype ListQuery = ListQuery(q: string, page: int, pageSize: int)

  /** Every placeholder of the statement reads an argument. */
  predicate PlaceholdersBound(st: Statement) {
    forall i :: 0 <= i < |st.sql| && st.sql[i].P? ==> 1 <= st.sql[i].p <= |st.args|
  }

  /** The optional ILIKE filter, shared by both statements. */
  function SearchFilter(query: ListQuery): seq<Token> {
    if query.q != "" then [W(KeywordLike), P(1)] else []
  }

  function SearchArgs(query: ListQuery): seq<SqlArg> {
    if query.q != "" then [TextArg("%" + query.q + "%")] else []
  }

  /**
   * The count and page statements of List. Both see only non-deleted rows
   * and share the search filter and its argument; the page orders by
   * creation time, newest first, and binds LIMIT and OFFSET to the next two
   * placeholders with offset (page - 1) * pageSize.
   */
  method ListStatements(query: ListQuery) returns (count: Statement, list: Statement)
    ensures count == Statement([W(SelectCount)] + SearchFilter(query), SearchArgs(query))
    ensures list.sql == [W(SelectRows)] + SearchFilter(query) +
                        [W(OrderByCreatedDesc), W(Limit), P(|count.args| + 1), W(Offset), P(|count.args| + 2)]
    ensures list.args == count.args + [IntArg(query.pageSize), IntArg((query.page - 1) * query.pageSize)]
    ensures PlaceholdersBound(count) && PlaceholdersBound(list)
  {
    var countQuery := [W(SelectCount)];
    var listQuery := [W(SelectRows)];
    var args: seq<SqlArg> := [];
    var argIndex := 1;
    if query.q != "" {
      var filter := [W(KeywordLike), P(argIndex)];
      countQuery := countQuery + filter;
      listQuery := listQuery + filter;
      args := args + [TextArg("%" + query.q + "%")];
      argIndex := argIndex + 1;
    }
    count := Statement(countQuery, args);
    listQuery := listQuery + [W(OrderByCreatedDesc)];
    var offset := (query.page - 1) * query.pageSize;
    listQuery := listQuery + [W(Limit), P(argIndex), W(Offset), P(argIndex + 1)];
    list := Statement(listQuery, args + [IntArg(query.pageSize), IntArg(offset)]);
  }

  /** The keywords repository over the database's keywords table. */
  class Repository {
    const db: Db

    constructor (db: Db)
      ensures this.db == db
    {
      this.db := db;
    }

    /**
     * List: the count runs first and its error is returned; then the page
     * query's error, then the first scan error; otherwise the scanned rows
     * and the total.
     */
    method List(query: ListQuery, countResult: Result<int, string>,
                rowsResult: Result<seq<Result<KeywordRow, string>>, string>)
      returns (count: Statement, list: Statement, r: Result<(seq<KeywordRow>, int), string>)
      ensures count == Statement([W(SelectCount)] + SearchFilter(query), SearchArgs(query))
      ensures list.args == count.args + [IntArg(query.pageSize), IntArg((query.page - 1) * query.pageSize)]
      ensures countResult.Failure? ==> r == Failure(countResult.error)
      ensures countResult.Success? && rowsResult.Failure? ==> r == Failure(rowsResult.error)
      ensures countResult.Success? && rowsResult.Success? ==>
                && (Collected(rowsResult.value).Failure? ==> r == Failure(Collected(rowsResult.value).error))
                && (Collected(rowsResult.value).Success? ==>
                      r == Success((Collected(rowsResult.value).value, countResult.value)))
    {
      count, list := ListStatements(query);
      if countResult.Failure? {
        return count, list, Failure(countResult.error);
      }
      if rowsResult.Failure? {
        return count, list, Failure(rowsResult.error);
      }
      var rows := ScanRows(rowsResult.value);
      if rows.Failure? {
        return count, list, Failure(rows.error);
      }
      r := Success((rows.value, countResult.value));
    }

    /**
     * Create: a successful insert adds an active, non-deleted row under the
     * new id; a unique violation becomes ErrDuplicateKeyword and any other
     * error passes through, both leaving the table unchanged. An id the
     * table already holds breaks the primary key, which is also SQLSTATE
     * 23505 and so also ErrDuplicateKeyword.
     */
    method Create(value: string, normalizedValue: string, outcome: InsertOutcome)
      returns (r: Result<KeywordRow, CreateError>)
      modifies db
      ensures outcome.Inserted? && outcome.id in old(db.keywords) ==>
                r == Failure(ErrDuplicateKeyword) && db.keywords == old(db.keywords)
      ensures outcome.Inserted? && outcome.id !in old(db.keywords) ==>
                && db.keywords == old(db.keywords)[outcome.id :=
                     KeywordRecord(value, normalizedValue, "active", false, outcome.createdAt, None)]
                && r == Success(KeywordRow(outcome.id, value, normalizedValue, "active", false, outcome.createdAt))
      ensures outcome.UniqueViolation? ==> r == Failure(ErrDuplicateKeyword) && db.keywords == old(db.keywords)
      ensures outcome.InsertFailed? ==> r == Failure(DbError(outcome.message)) && db.keywords == old(db.keywords)
      ensures r.Success? ==> Lookup(db.keywords, r.value.id) == Some(r.value)
      ensures db.monitorState == old(db.monitorState) && db.runs == old(db.runs) && db.matches == old(db.matches)
    {
      match outcome
      case UniqueViolation =>
        r := Failure(ErrDuplicateKeyword);
      case InsertFailed(message) =>
        r := Failure(DbError(message));
      case Inserted(id, createdAt) =>
        if id in db.keywords {
          r := Failure(ErrDuplicateKeyword);
        } else {
          db.keywords := db.keywords[id := KeywordRecord(value, normalizedValue, "active", false, createdAt, None)];
          r := Success(KeywordRow(id, value, normalizedValue, "active", false, createdAt));
        }
    }

    /** GetByID: the non-deleted row with that id, none when there is no such row, or the query error. */
    method GetByID(id: string, queryError: Option<string>) returns (r: Result<Option<KeywordRow>, string>)
      ensures queryError.Some? ==> r == Failure(queryError.value)
      ensures queryError.None? ==> r == Success(Lookup(db.keywords, id))
    {
      if queryError.Some? {
        return Failure(queryError.value);
      }
      if id in db.keywords && !db.keywords[id].isDeleted {
        return Success(Some(RowOf(id, db.keywords[id])));
      }
      return Success(None);
    }

    /** SoftDelete: marks the row with that id deleted, whether or not it was already; the exec error is returned. */
    method SoftDelete(id: string, now: Time, execError: Option<string>) returns (err: Option<string>)
      modifies db
      ensures err == execError
      ensures execError.None? ==> db.keywords == SoftDeleted(old(db.keywords), id, now)
      ensures execError.Some? ==> db.keywords == old(db.keywords)
      ensures db.monitorState == old(db.monitorState) && db.runs == old(db.runs) && db.matches == old(db.matches)
    {
      if execError.Some? {
        return execError;
      }
      if id in db.keywords {
        var rec := db.keywords[id];
        db.keywords := db.keywords[id := rec.(status := "inactive", isDeleted := true, deletedAt := Some(now))];
      }
      return None;
    }
  }
}
