/**
 * The scheduler's repository: the statements that move the monitor state,
 * record runs and upsert matched certificates, as updates of the tables of
 * `Database.Db`. NOW() is the `now` argument of each call.
 */
module SchedulerRepository {
  import opened Base
  import opened Database

  /** The single row of monitor_config. */
  datatype MonitorConfig = MonitorConfig(
    ctLogBaseURL: string,
    pollIntervalSec: int,
    batchSize: int,
    connectTimeoutMs: int,
    readTimeoutMs: int)

  /** What GetActiveKeywords selects of a keyword. */
  datatype KeywordRow = KeywordRow(id: string, keyword: string, normalizedValue: string)

  /** The values of one INSERT into matched_certificates. */
  datatype MatchInsert = MatchInsert(
    keywordID: string,
    monitorRunID: string,
    certFingerprint: string,
    matchedField: string,
    matchedValue: string,
    domainName: Option<string>,
    issuerCN: Option<string>,
    issuerOrg: Option<string>,
    subjectCN: Option<string>,
    subjectOrg: Option<string>,
    sanList: seq<string>,
    notBefore: Option<Time>,
    notAfter: Option<Time>,
    ctLogIndex: int,
    ctLogURL: Option<string>)
  {
    function Key(): MatchKey {
      MatchKey(certFingerprint, keywordID, matchedField)
    }
  }

  // --------------------------------------------------- upsert (specification)

  /** The row the INSERT branch of the upsert creates. */
  function InsertedRow(m: MatchInsert, now: Time): (r: MatchedCertificate)
    ensures r.Key() == m.Key()
  {
    MatchedCertificate(
      m.keywordID, m.monitorRunID, m.certFingerprint, m.matchedField, m.matchedValue,
      m.domainName, m.issuerCN, m.issuerOrg, m.subjectCN, m.subjectOrg, m.sanList,
      m.notBefore, m.notAfter, m.ctLogIndex, m.ctLogURL, now, now, true)
  }

  /**
   * INSERT ... ON CONFLICT (certificate_sha256, keyword_id, matched_field)
   * DO UPDATE SET last_seen_at, monitor_run_id, is_new = FALSE.
   */
  function Upserted(table: map<MatchKey, MatchedCertificate>, m: MatchInsert, now: Time)
    : (r: map<MatchKey, MatchedCertificate>)
    ensures r.Keys == table.Keys + {m.Key()}
    ensures forall k :: k in table && k != m.Key() ==> r[k] == table[k]
  {
    if m.Key() in table then
      table[m.Key() := table[m.Key()].(lastSeenAt := now, monitorRunId := m.monitorRunID, isNew := false)]
    else
      table[m.Key() := InsertedRow(m, now)]
  }

  /** Rows are stored under their own conflict key. */
  ghost predicate KeyedByConflictKey(table: map<MatchKey, MatchedCertificate>) {
    forall k :: k in table ==> table[k].Key() == k
  }

  /**
   * A match seen for the first time is stored with every column of the insert,
   * flagged new, first and last seen now.
   */
  lemma UpsertNewKey(table: map<MatchKey, MatchedCertificate>, m: MatchInsert, now: Time)
    requires m.Key() !in table
    ensures var row := Upserted(table, m, now)[m.Key()];
      && row.isNew && row.firstSeenAt == now && row.lastSeenAt == now
      && row.keywordId == m.keywordID && row.monitorRunId == m.monitorRunID
      && row.certificateSha256 == m.certFingerprint && row.matchedField == m.matchedField
      && row.matchedValue == m.matchedValue && row.domainName == m.domainName
      && row.issuerCN == m.issuerCN && row.issuerOrg == m.issuerOrg
      && row.subjectCN == m.subjectCN && row.subjectOrg == m.subjectOrg
      && row.sanList == m.sanList && row.notBefore == m.notBefore && row.notAfter == m.notAfter
      && row.ctLogIndex == m.ctLogIndex && row.ctLogURL == m.ctLogURL
  {
  }

  /**
   * A match seen again only refreshes last_seen_at, points at the new run and
   * clears is_new; first_seen_at and every other column keep their values.
   */
  lemma UpsertExistingKey(table: map<MatchKey, MatchedCertificate>, m: MatchInsert, now: Time)
    requires m.Key() in table
    ensures var before := table[m.Key()];
      var row := Upserted(table, m, now)[m.Key()];
      && row.lastSeenAt == now && row.monitorRunId == m.monitorRunID && !row.isNew
      && row.firstSeenAt == before.firstSeenAt
      && row == before.(lastSeenAt := now, monitorRunId := m.monitorRunID, isNew := false)
  {
  }

  /** The upsert never stores a row under a key other than its own. */
  lemma UpsertKeepsKeys(table: map<MatchKey, MatchedCertificate>, m: MatchInsert, now: Time)
    requires KeyedByConflictKey(table)
    ensures KeyedByConflictKey(Upserted(table, m, now))
  {
  }

  /** Upserting the same match twice leaves one row, no longer new. */
  lemma UpsertTwice(table: map<MatchKey, MatchedCertificate>, m: MatchInsert, t1: Time, t2: Time)
    ensures var r := Upserted(Upserted(table, m, t1), m, t2);
      |r.Keys| == |(table.Keys + {m.Key()})| && !r[m.Key()].isNew && r[m.Key()].lastSeenAt == t2
  {
  }

  /** A sequence of upserts, in order. */
  function UpsertAll(table: map<MatchKey, MatchedCertificate>, ms: seq<MatchInsert>, now: Time)
    : (r: map<MatchKey, MatchedCertificate>)
    decreases |ms|
  {
    if ms == [] then table else Upserted(UpsertAll(table, ms[..|ms| - 1], now), ms[|ms| - 1], now)
  }

  /** Upserting two sequences one after the other is upserting their concatenation. */
  lemma {:induction false} UpsertAllAppend(table: map<MatchKey, MatchedCertificate>, a: seq<MatchInsert>,
                                           b: seq<MatchInsert>, now: Time)
    ensures UpsertAll(table, a + b, now) == UpsertAll(UpsertAll(table, a, now), b, now)
    decreases |b|
  {
    if b == [] {
      assert a + b == a;
    } else {
      var b' := b[..|b| - 1];
      assert (a + b)[..|a + b| - 1] == a + b';
      UpsertAllAppend(table, a, b', now);
    }
  }

  /** The inserts of `ms` the database accepts, in order: those whose upsert returns no error. */
  function Accepted(ms: seq<MatchInsert>, upsertError: MatchInsert -> Option<string>): (r: seq<MatchInsert>)
    ensures |r| <= |ms|
    ensures forall q :: 0 <= q < |r| ==> r[q] in ms && upsertError(r[q]).None?
    decreases |ms|
  {
    if ms == [] then []
    else Accepted(ms[..|ms| - 1], upsertError) + (if upsertError(ms[|ms| - 1]).None? then [ms[|ms| - 1]] else [])
  }

  /** Filtering distributes over concatenation. */
  lemma {:induction false} AcceptedAppend(a: seq<MatchInsert>, b: seq<MatchInsert>,
                                          upsertError: MatchInsert -> Option<string>)
    ensures Accepted(a + b, upsertError) == Accepted(a, upsertError) + Accepted(b, upsertError)
    decreases |b|
  {
    if b == [] {
      assert a + b == a;
    } else {
      var b' := b[..|b| - 1];
      assert (a + b)[..|a + b| - 1] == a + b';
      AcceptedAppend(a, b', upsertError);
    }
  }

  /** One more insert is accepted exactly when its upsert returns no error. */
  lemma AcceptedSnoc(ms: seq<MatchInsert>, m: MatchInsert, upsertError: MatchInsert -> Option<string>)
    ensures Accepted(ms + [m], upsertError) == Accepted(ms, upsertError) + (if upsertError(m).None? then [m] else [])
  {
    assert (ms + [m])[..|ms|] == ms;
  }

  /** When no upsert fails, every insert is accepted; when every one fails, none is. */
  lemma {:induction false} AcceptedExtremes(ms: seq<MatchInsert>, upsertError: MatchInsert -> Option<string>)
    ensures (forall q :: 0 <= q < |ms| ==> upsertError(ms[q]).None?) ==> Accepted(ms, upsertError) == ms
    ensures (forall q :: 0 <= q < |ms| ==> upsertError(ms[q]).Some?) ==> Accepted(ms, upsertError) == []
    decreases |ms|
  {
    if ms != [] {
      var init := ms[..|ms| - 1];
      AcceptedExtremes(init, upsertError);
      assert forall q :: 0 <= q < |init| ==> init[q] == ms[q];
      assert ms == init + [ms[|ms| - 1]];
    }
  }

  /** The conflict keys of a sequence of inserts. */
  function InsertKeys(ms: seq<MatchInsert>): set<MatchKey>
    decreases |ms|
  {
    if ms == [] then {} else InsertKeys(ms[..|ms| - 1]) + {ms[|ms| - 1].Key()}
  }

  /** After a sequence of upserts, exactly the keys of the table and of the inserts are present. */
  lemma {:induction false} UpsertAllKeys(table: map<MatchKey, MatchedCertificate>, ms: seq<MatchInsert>, now: Time)
    ensures UpsertAll(table, ms, now).Keys == table.Keys + InsertKeys(ms)
    decreases |ms|
  {
    if ms != [] {
      UpsertAllKeys(table, ms[..|ms| - 1], now);
    }
  }

  // ------------------------------------------------------------ repository

  predicate IsActive(k: KeywordRecord) {
    !k.isDeleted && k.status == "active"
  }

  function RowOf(id: string, k: KeywordRecord): KeywordRow {
    KeywordRow(id, k.keyword, k.normalizedValue)
  }

  /** The transaction in which a cycle claims the monitor: a pending state row, applied on commit. */
  class Tx {
    const db: Db
    var pending: MonitorState

    constructor (db: Db)
      ensures this.db == db && pending == db.monitorState
    {
      this.db := db;
      pending := db.monitorState;
    }

    /** UPDATE monitor_state SET state = 'running', last_run_at = NOW(), error fields NULL, within the transaction. */
    method SetStateRunning(now: Time)
      modifies this
      ensures pending == old(pending).(state := "running", lastRunAt := Some(now),
                                       lastErrorCode := None, lastError := None)
    {
      pending := pending.(state := "running", lastRunAt := Some(now), lastErrorCode := None, lastError := None);
    }

    /** COMMIT: the pending row becomes the monitor state; a failed commit changes nothing. */
    method Commit(ok: bool) returns (committed: bool)
      modifies db
      ensures committed == ok
      ensures ok ==> db.monitorState == pending
      ensures !ok ==> db.monitorState == old(db.monitorState)
      ensures db.runs == old(db.runs) && db.matches == old(db.matches) && db.keywords == old(db.keywords)
    {
      committed := ok;
      if ok {
        db.monitorState := pending;
      }
    }
  }

  class Repository {
    const db: Db

    constructor (db: Db)
      ensures this.db == db
    {
      this.db := db;
    }

    /** SELECT ... FROM monitor_state WHERE id = 1 FOR UPDATE: the row as it stands, or the query error. */
    method LockStateForUpdate(tx: Tx, queryError: Option<string>) returns (r: Result<MonitorState, string>)
      requires tx.db == db
      ensures queryError.Some? ==> r == Failure(queryError.value)
      ensures queryError.None? ==> r == Success(db.monitorState)
    {
      if queryError.Some? {
        return Failure(queryError.value);
      }
      return Success(db.monitorState);
    }

    /**
     * The state becomes idle with the new tree size and processed index; the
     * error fields stay. `execError` is what the database answered: on an
     * error nothing changes and the error is returned.
     */
    method SetStateIdle(treeSize: int, processedIndex: int, now: Time, execError: Option<string>)
      returns (err: Option<string>)
      modifies db
      ensures err == execError
      ensures execError.None? ==>
                db.monitorState == old(db.monitorState).(state := "idle", lastTreeSize := treeSize,
                                   lastProcessedIndex := processedIndex, lastSuccessAt := Some(now))
      ensures execError.Some? ==> db.monitorState == old(db.monitorState)
      ensures db.runs == old(db.runs) && db.matches == old(db.matches) && db.keywords == old(db.keywords)
    {
      if execError.Some? {
        return execError;
      }
      db.monitorState := db.monitorState.(state := "idle", lastTreeSize := treeSize,
                                          lastProcessedIndex := processedIndex, lastSuccessAt := Some(now));
      return None;
    }

    /** The state becomes error with its code and message; the indices stay. A failed write changes nothing. */
    method SetStateError(errorCode: string, errorMessage: string, execError: Option<string>)
      returns (err: Option<string>)
      modifies db
      ensures err == execError
      ensures execError.None? ==>
                db.monitorState == old(db.monitorState).(state := "error", lastErrorCode := Some(errorCode),
                                   lastError := Some(errorMessage))
      ensures execError.Some? ==> db.monitorState == old(db.monitorState)
      ensures db.runs == old(db.runs) && db.matches == old(db.matches) && db.keywords == old(db.keywords)
    {
      if execError.Some? {
        return execError;
      }
      db.monitorState := db.monitorState.(state := "error", lastErrorCode := Some(errorCode), lastError := Some(errorMessage));
      return None;
    }

    /**
     * INSERT INTO monitor_run (start_index, end_index, state 'running') RETURNING id.
     * `generated` is what the database answered: the new id, or an error. An id
     * already in the table violates the primary key and fails as well.
     */
    method CreateRun(startIndex: int, endIndex: int, generated: Result<string, string>)
      returns (r: Result<string, string>)
      modifies db
      ensures generated.Failure? ==> r == generated
      ensures r.Success? <==> generated.Success? && generated.value !in old(db.runs)
      ensures r.Success? ==>
                (r.value == generated.value &&
                 db.runs == old(db.runs)[r.value := MonitorRun(startIndex, endIndex, "running", None, 0, 0, 0, None)])
      ensures r.Failure? ==> db.runs == old(db.runs)
      ensures db.monitorState == old(db.monitorState) && db.matches == old(db.matches) && db.keywords == old(db.keywords)
    {
      if generated.Failure? {
        return generated;
      }
      if generated.value in db.runs {
        return Failure("duplicate key value violates unique constraint");
      }
      db.runs := db.runs[generated.value := MonitorRun(startIndex, endIndex, "running", None, 0, 0, 0, None)];
      return generated;
    }

    /**
     * The run is completed with its counters; certificates_processed is the
     * number of parsed entries, and the number fetched is not stored. An
     * UPDATE that matches no row succeeds and changes nothing; a failed write
     * changes nothing and returns its error.
     */
    method UpdateRunSuccess(runID: string, entriesFetched: int, entriesParsed: int, parseErrors: int,
                            matchesFound: int, endIndex: int, now: Time, execError: Option<string>)
      returns (err: Option<string>)
      modifies db
      ensures err == execError
      ensures execError.None? && runID in old(db.runs) ==>
                db.runs == old(db.runs)[runID := old(db.runs)[runID].(endedAt := Some(now), state := "completed",
                  certificatesProcessed := entriesParsed, parseErrorCount := parseErrors,
                  matchesFound := matchesFound, endIndex := endIndex)]
      ensures execError.Some? || runID !in old(db.runs) ==> db.runs == old(db.runs)
      ensures db.monitorState == old(db.monitorState) && db.matches == old(db.matches) && db.keywords == old(db.keywords)
    {
      if execError.Some? {
        return execError;
      }
      if runID in db.runs {
        db.runs := db.runs[runID := db.runs[runID].(endedAt := Some(now), state := "completed",
          certificatesProcessed := entriesParsed, parseErrorCount := parseErrors,
          matchesFound := matchesFound, endIndex := endIndex)];
      }
      return None;
    }

    /** The run fails with the message; the error code argument is not stored. A failed write changes nothing. */
    method UpdateRunError(runID: string, errorCode: string, errorMessage: string, now: Time, execError: Option<string>)
      returns (err: Option<string>)
      modifies db
      ensures err == execError
      ensures execError.None? && runID in old(db.runs) ==>
                db.runs == old(db.runs)[runID := old(db.runs)[runID].(endedAt := Some(now), state := "failed",
                  errorMessage := Some(errorMessage))]
      ensures execError.Some? || runID !in old(db.runs) ==> db.runs == old(db.runs)
      ensures db.monitorState == old(db.monitorState) && db.matches == old(db.matches) && db.keywords == old(db.keywords)
    {
      if execError.Some? {
        return execError;
      }
      if runID in db.runs {
        db.runs := db.runs[runID := db.runs[runID].(endedAt := Some(now), state := "failed",
          errorMessage := Some(errorMessage))];
      }
      return None;
    }

    /**
     * SELECT id, keyword, normalized_value FROM keywords WHERE is_deleted = FALSE
     * AND status = 'active', read with a `rows.Scan` loop: every such row once,
     * in the order the database returns them (any order), or the query error,
     * or the error of the first row whose scan fails. `scanErrors` holds, by
     * keyword id, the rows whose scan fails.
     */
    method GetActiveKeywords(queryError: Option<string>, scanErrors: map<string, string>)
      returns (r: Result<seq<KeywordRow>, string>)
      ensures queryError.Some? ==> r == Failure(queryError.value)
      ensures r.Success? <==>
                queryError.None? && forall id :: id in db.keywords && IsActive(db.keywords[id]) ==> id !in scanErrors
      ensures r.Failure? && queryError.None? ==>
                exists id :: id in db.keywords && IsActive(db.keywords[id]) && id in scanErrors &&
                             r.error == scanErrors[id]
      ensures r.Success? ==> forall i :: 0 <= i < |r.value| ==>
                r.value[i].id in db.keywords && IsActive(db.keywords[r.value[i].id]) &&
                r.value[i] == RowOf(r.value[i].id, db.keywords[r.value[i].id])
      ensures r.Success? ==> forall id :: id in db.keywords && IsActive(db.keywords[id]) ==>
                exists i :: 0 <= i < |r.value| && r.value[i].id == id
      ensures r.Success? ==> forall i, j :: 0 <= i < j < |r.value| ==> r.value[i].id != r.value[j].id
    {
      if queryError.Some? {
        return Failure(queryError.value);
      }
      var rows := ActiveRows();
      var scanned := seq(|rows|, i requires 0 <= i < |rows| =>
                           if rows[i].id in scanErrors then Failure(scanErrors[rows[i].id]) else Success(rows[i]));
      r := ScanRows(scanned);
      CollectedMeaning(scanned);
      if r.Success? {
        assert r.value == rows;
        forall id | id in db.keywords && IsActive(db.keywords[id])
          ensures id !in scanErrors
        {
          var i :| 0 <= i < |rows| && rows[i].id == id;
          assert scanned[i].Success?;
        }
      } else {
        var i :| 0 <= i < |scanned| && scanned[i].Failure? && r.error == scanned[i].error &&
                 forall j :: 0 <= j < i ==> scanned[j].Success?;
        assert rows[i].id in scanErrors;
      }
    }

    /** The result set of the active-keywords query: every active row once, in any order. */
    method ActiveRows() returns (rows: seq<KeywordRow>)
      ensures forall i :: 0 <= i < |rows| ==>
                rows[i].id in db.keywords && IsActive(db.keywords[rows[i].id]) &&
                rows[i] == RowOf(rows[i].id, db.keywords[rows[i].id])
      ensures forall id :: id in db.keywords && IsActive(db.keywords[id]) ==>
                exists i :: 0 <= i < |rows| && rows[i].id == id
      ensures forall i, j :: 0 <= i < j < |rows| ==> rows[i].id != rows[j].id
    {
      rows := [];
      var remaining := db.keywords.Keys;
      while remaining != {}
        invariant remaining <= db.keywords.Keys
        invariant forall i :: 0 <= i < |rows| ==>
                    rows[i].id in db.keywords && rows[i].id !in remaining &&
                    IsActive(db.keywords[rows[i].id]) && rows[i] == RowOf(rows[i].id, db.keywords[rows[i].id])
        invariant forall id :: id in db.keywords && id !in remaining && IsActive(db.keywords[id]) ==>
                    exists i :: 0 <= i < |rows| && rows[i].id == id
        invariant forall i, j :: 0 <= i < j < |rows| ==> rows[i].id != rows[j].id
        decreases remaining
      {
        var id :| id in remaining;
        var k := db.keywords[id];
        ghost var before := rows;
        if IsActive(k) {
          rows := rows + [RowOf(id, k)];
        }
        remaining := remaining - {id};
        forall id' | id' in db.keywords && id' !in remaining && IsActive(db.keywords[id'])
          ensures exists i :: 0 <= i < |rows| && rows[i].id == id'
        {
          if id' == id {
            assert rows[|rows| - 1].id == id';
          } else {
            var i :| 0 <= i < |before| && before[i].id == id';
            assert rows[i] == before[i];
          }
        }
      }
    }

    /** The upsert of one match (see `Upserted`); a failed write changes nothing and returns its error. */
    method UpsertMatch(m: MatchInsert, now: Time, execError: Option<string>) returns (err: Option<string>)
      modifies db
      ensures err == execError
      ensures execError.None? ==> db.matches == Upserted(old(db.matches), m, now)
      ensures execError.Some? ==> db.matches == old(db.matches)
      ensures db.monitorState == old(db.monitorState) && db.runs == old(db.runs) && db.keywords == old(db.keywords)
    {
      if execError.Some? {
        return execError;
      }
      db.matches := Upserted(db.matches, m, now);
      return None;
    }
  }
}
