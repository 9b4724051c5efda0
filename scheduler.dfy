/**
 * The polling scheduler: one cycle claims the monitor (idle -> running) in a
 * transaction, reads the signed tree head, fetches the next window of entries
 * in chunks, parses each entry, matches it against the active keywords,
 * upserts the matches, and leaves the monitor idle (or in error).
 *
 * The goroutine, ticker and stop channel are not modelled; a cycle is a call
 * of `RunCycle` with a `CycleEnv` holding the outcome of every call to the
 * database and to the log, the library functions and the clock.
 */
module Scheduler {
  import opened Base
  import opened Database
  import opened SchedulerRepository
  import CtClient
  import X509Parser
  import Matcher


  /** The outcome of every external call a cycle makes, and the clock. */
  datatype CycleEnv = CycleEnv(
    beginTxError: Option<string>,
    lockError: Option<string>,
    setRunningOk: bool,
    commitOk: bool,
    config: Result<MonitorConfig, string>,
    sth: CtClient.Transport<CtClient.Sth>,
    sthCause: string,                               // text of the library error a failed get-sth wraps
    log: CtClient.Log,
    fetchCause: string,                             // text of the library error a failed get-entries wraps
    runId: Result<string, string>,
    keywordsError: Option<string>,
    keywordScanErrors: map<string, string>,         // active keyword rows whose scan fails, by id
    upsertError: MatchInsert -> Option<string>,     // the answer to the upsert of each row
    runSuccessError: Option<string>,
    runErrorError: Option<string>,
    idleError: Option<string>,
    errorStateError: Option<string>,
    codecs: X509Parser.Codecs,
    now: Time)

  /** What a completed cycle processed. */
  datatype CycleStats = CycleStats(
    runId: string,
    entries: seq<CtClient.LogEntry>,
    keywords: seq<Matcher.Keyword>,
    entriesParsed: nat,
    parseErrors: nat,
    matchesFound: nat,
    lastProcessedIndex: int)

  datatype CycleOutcome =
    | Skipped                                 // no transaction, lock failed, not idle, or the claim did not commit
    | Failed(code: string, message: string)   // the fatal error handled with this code and message
    | NoNewEntries                            // the window was empty
    | Completed(stats: CycleStats)

  /** The number of entries requested per get-entries call. */
  const ChunkSize: int := 100

  /** The error code of a failed get-sth call: invalid JSON, then timeout, then connection. */
  function SthErrorCode(e: CtClient.CtError): (code: string)
    ensures code == "CT_INVALID_JSON" <==> e.ErrInvalidJSON?
    ensures code == "CT_TIMEOUT" <==> e.ErrTimeout?
    ensures code == "CT_CONNECTION_ERROR" <==> e.ErrConnectionError? || e.ErrHTTPError?
  {
    match e
    case ErrInvalidJSON => "CT_INVALID_JSON"
    case ErrTimeout => "CT_TIMEOUT"
    case _ => "CT_CONNECTION_ERROR"
  }

  /** The error code of a failed chunked download: invalid JSON, or a fetch error. */
  function FetchErrorCode(e: CtClient.CtError): (code: string)
    ensures code == "CT_INVALID_JSON" <==> e == CtClient.ErrInvalidJSON
    ensures code == "CT_FETCH_ERROR" <==> e != CtClient.ErrInvalidJSON
  {
    if e == CtClient.ErrInvalidJSON then "CT_INVALID_JSON" else "CT_FETCH_ERROR"
  }


  // ------------------------------------------------ entry processing (spec)

  /** The parse results of a window: entry i is read at log index start + i. */
  function WindowResults(codecs: X509Parser.Codecs, entries: seq<CtClient.LogEntry>, start: int)
    : (rs: seq<X509Parser.ParseResult>)
    ensures |rs| == |entries|
    ensures forall i :: 0 <= i < |entries| ==> rs[i] == X509Parser.ParseEntry(codecs, entries[i], start + i)
    ensures forall i :: 0 <= i < |entries| ==> rs[i].index == start + i
  {
    seq(|entries|, i requires 0 <= i < |entries| => X509Parser.ParseEntry(codecs, entries[i], start + i))
  }

  /** The parse result of entry i of a window. */
  lemma WindowResultAt(codecs: X509Parser.Codecs, entries: seq<CtClient.LogEntry>, start: int, i: int)
    requires 0 <= i < |entries|
    ensures WindowResults(codecs, entries, start)[i] == X509Parser.ParseEntry(codecs, entries[i], start + i)
  {
  }

  /** The matches of one parse result: none for a parse error. */
  function EntryMatches(keywords: seq<Matcher.Keyword>, r: X509Parser.ParseResult): seq<Matcher.Match> {
    if r.outcome.Failure? then [] else Matcher.MatchAll(r.outcome.value, keywords)
  }

  function OptionalText(s: string): (r: Option<string>)
    ensures r.None? <==> s == ""
    ensures r.Some? ==> r.value == s
  {
    if s != "" then Some(s) else None
  }

  /** The row stored for one match: the certificate's columns, empty texts as NULL. */
  function InsertFor(m: Matcher.Match, cert: X509Parser.ParsedCertificate, runID: string,
                     baseURL: string, index: int): (r: MatchInsert)
    ensures r.keywordID == m.keywordID && r.monitorRunID == runID && r.certFingerprint == cert.fingerprint
    ensures r.matchedField == m.matchedField.Name() && r.matchedValue == m.matchedValue
    ensures r.ctLogIndex == index && r.ctLogURL == Some(baseURL)
    ensures r.subjectCN.None? <==> cert.subjectCN == ""
    ensures r.domainName.None? <==> m.domainName == ""
  {
    MatchInsert(m.keywordID, runID, cert.fingerprint, m.matchedField.Name(), m.matchedValue,
      OptionalText(m.domainName), OptionalText(cert.issuerCN), OptionalText(cert.issuerOrg),
      OptionalText(cert.subjectCN), OptionalText(cert.subjectOrg), cert.sans,
      cert.notBefore, cert.notAfter, index, Some(baseURL))
  }

  /** The rows upserted for one parse result, one per match, in match order. */
  function EntryInserts(keywords: seq<Matcher.Keyword>, r: X509Parser.ParseResult, runID: string, baseURL: string)
    : (ins: seq<MatchInsert>)
    ensures |ins| == |EntryMatches(keywords, r)|
    ensures forall k :: 0 <= k < |ins| ==> ins[k].ctLogIndex == r.index && ins[k].monitorRunID == runID
    ensures r.outcome.Success? ==>
              forall k :: 0 <= k < |ins| ==>
                ins[k] == InsertFor(EntryMatches(keywords, r)[k], r.outcome.value, runID, baseURL, r.index)
  {
    if r.outcome.Failure? then []
    else
      var ms := Matcher.MatchAll(r.outcome.value, keywords);
      seq(|ms|, k requires 0 <= k < |ms| => InsertFor(ms[k], r.outcome.value, runID, baseURL, r.index))
  }

  /** How many parse results are successes. */
  function ParsedCount(rs: seq<X509Parser.ParseResult>): (n: nat)
    ensures n <= |rs|
    decreases |rs|
  {
    if rs == [] then 0
    else ParsedCount(rs[..|rs| - 1]) + (if rs[|rs| - 1].outcome.Success? then 1 else 0)
  }

  /** The number of matches over the whole window. */
  function MatchCount(keywords: seq<Matcher.Keyword>, rs: seq<X509Parser.ParseResult>): nat
    decreases |rs|
  {
    if rs == [] then 0
    else MatchCount(keywords, rs[..|rs| - 1]) + |EntryMatches(keywords, rs[|rs| - 1])|
  }

  /** Every row upserted over the window, in processing order. */
  function WindowInserts(keywords: seq<Matcher.Keyword>, rs: seq<X509Parser.ParseResult>,
                         runID: string, baseURL: string): seq<MatchInsert>
    decreases |rs|
  {
    if rs == [] then []
    else WindowInserts(keywords, rs[..|rs| - 1], runID, baseURL) + EntryInserts(keywords, rs[|rs| - 1], runID, baseURL)
  }

  /** The index of the last successful parse result, or `start` when there is none. */
  function LastParsedIndex(rs: seq<X509Parser.ParseResult>, start: int): int
    decreases |rs|
  {
    if rs == [] then start
    else if rs[|rs| - 1].outcome.Success? then rs[|rs| - 1].index
    else LastParsedIndex(rs[..|rs| - 1], start)
  }

  /** The window functions over one more parse result. */
  lemma WindowPrefixStep(keywords: seq<Matcher.Keyword>, rs: seq<X509Parser.ParseResult>, i: int,
                         runID: string, baseURL: string, start: int)
    requires 0 <= i < |rs|
    ensures ParsedCount(rs[..i + 1]) == ParsedCount(rs[..i]) + (if rs[i].outcome.Success? then 1 else 0)
    ensures MatchCount(keywords, rs[..i + 1]) == MatchCount(keywords, rs[..i]) + |EntryMatches(keywords, rs[i])|
    ensures WindowInserts(keywords, rs[..i + 1], runID, baseURL)
            == WindowInserts(keywords, rs[..i], runID, baseURL) + EntryInserts(keywords, rs[i], runID, baseURL)
    ensures LastParsedIndex(rs[..i + 1], start)
            == if rs[i].outcome.Success? then rs[i].index else LastParsedIndex(rs[..i], start)
  {
    assert rs[..i + 1][..i] == rs[..i];
  }

  // ----------------------------------------------------- window properties

  /** Exactly one upsert is attempted per match found. */
  lemma {:induction false} OneUpsertPerMatch(keywords: seq<Matcher.Keyword>, rs: seq<X509Parser.ParseResult>,
                                              runID: string, baseURL: string)
    ensures |WindowInserts(keywords, rs, runID, baseURL)| == MatchCount(keywords, rs)
    decreases |rs|
  {
    if rs != [] {
      OneUpsertPerMatch(keywords, rs[..|rs| - 1], runID, baseURL);
    }
  }

  /** `x` is the log index of a parsed entry of the window. */
  predicate IsParsedIndex(rs: seq<X509Parser.ParseResult>, x: int)
  {
    exists i :: 0 <= i < |rs| && rs[i].outcome.Success? && rs[i].index == x
  }

  /** Every upserted row belongs to the run and carries the log index of a parsed entry of the window. */
  lemma {:induction false} InsertsComeFromParsedEntries(keywords: seq<Matcher.Keyword>,
                                                        rs: seq<X509Parser.ParseResult>, runID: string, baseURL: string)
    ensures forall q :: 0 <= q < |WindowInserts(keywords, rs, runID, baseURL)| ==>
              WindowInserts(keywords, rs, runID, baseURL)[q].monitorRunID == runID &&
              IsParsedIndex(rs, WindowInserts(keywords, rs, runID, baseURL)[q].ctLogIndex)
    decreases |rs|
  {
    if rs != [] {
      var prefix := rs[..|rs| - 1];
      var last := rs[|rs| - 1];
      InsertsComeFromParsedEntries(keywords, prefix, runID, baseURL);
      var done := WindowInserts(keywords, prefix, runID, baseURL);
      var more := EntryInserts(keywords, last, runID, baseURL);
      var all := WindowInserts(keywords, rs, runID, baseURL);
      assert all == done + more;
      forall q | 0 <= q < |all|
        ensures all[q].monitorRunID == runID && IsParsedIndex(rs, all[q].ctLogIndex)
      {
        if q < |done| {
          assert all[q] == done[q];
          var i :| 0 <= i < |prefix| && prefix[i].outcome.Success? && prefix[i].index == done[q].ctLogIndex;
          assert rs[i] == prefix[i];
        } else {
          assert all[q] == more[q - |done|];
          assert last.outcome.Success?;
          assert rs[|rs| - 1].index == all[q].ctLogIndex;
        }
      }
    }
  }

  /** When no entry of the window parses, the last processed index is the start of the window. */
  lemma {:induction false} NothingParsedKeepsStart(rs: seq<X509Parser.ParseResult>, start: int)
    requires forall i :: 0 <= i < |rs| ==> rs[i].outcome.Failure?
    ensures LastParsedIndex(rs, start) == start
    decreases |rs|
  {
    if rs != [] {
      NothingParsedKeepsStart(rs[..|rs| - 1], start);
    }
  }

  /**
   * When some entry of the window parses, the last processed index is the
   * index of the last entry that parses.
   */
  lemma {:induction false} LastParsedIndexIsLastSuccess(rs: seq<X509Parser.ParseResult>, start: int, k: int)
    requires 0 <= k < |rs| && rs[k].outcome.Success?
    ensures exists i :: k <= i < |rs| && rs[i].outcome.Success? && LastParsedIndex(rs, start) == rs[i].index &&
              forall j :: i < j < |rs| ==> rs[j].outcome.Failure?
    decreases |rs|
  {
    var last := |rs| - 1;
    if rs[last].outcome.Success? {
      assert LastParsedIndex(rs, start) == rs[last].index;
      assert k <= last;
    } else {
      var prefix := rs[..last];
      assert k < last && prefix[k] == rs[k];
      LastParsedIndexIsLastSuccess(prefix, start, k);
      var i :| k <= i < |prefix| && prefix[i].outcome.Success? && LastParsedIndex(prefix, start) == prefix[i].index &&
               forall j :: i < j < |prefix| ==> prefix[j].outcome.Failure?;
      assert LastParsedIndex(rs, start) == LastParsedIndex(prefix, start);
      assert rs[i] == prefix[i];
      forall j | i < j < |rs|
        ensures rs[j].outcome.Failure?
      {
        if j < last {
          assert rs[j] == prefix[j];
        }
      }
    }
  }


  /**
   * Whether a cycle leaves the monitor claimed: a fatal error leaves it in
   * the error state (or running, when that write fails too), and a failed
   * write of the idle state leaves it running. Every later cycle then skips.
   */
  predicate LeavesBusy(outcome: CycleOutcome, env: CycleEnv) {
    outcome.Failed? || ((outcome.Completed? || outcome == NoNewEntries) && env.idleError.Some?)
  }

  /** The monitor state after a fatal error: the error state, unless that write failed. */
  function AfterFatalError(before: MonitorState, code: string, message: string, execError: Option<string>)
    : (after: MonitorState)
    ensures execError.None? ==>
              after.state == "error" && after.lastErrorCode == Some(code) && after.lastError == Some(message)
    ensures execError.Some? ==> after == before
    ensures after.lastTreeSize == before.lastTreeSize && after.lastProcessedIndex == before.lastProcessedIndex
  {
    if execError.None? then before.(state := "error", lastErrorCode := Some(code), lastError := Some(message))
    else before
  }

  /** The monitor state after a window or an empty window: idle at the new position, unless that write failed. */
  function AfterIdle(before: MonitorState, treeSize: int, processedIndex: int, now: Time, execError: Option<string>)
    : (after: MonitorState)
    ensures execError.None? ==>
              after.state == "idle" && after.lastTreeSize == treeSize && after.lastProcessedIndex == processedIndex &&
              after.lastSuccessAt == Some(now) &&
              after.lastError == before.lastError && after.lastErrorCode == before.lastErrorCode
    ensures execError.Some? ==> after == before
  {
    if execError.None?
    then before.(state := "idle", lastTreeSize := treeSize, lastProcessedIndex := processedIndex,
                 lastSuccessAt := Some(now))
    else before
  }

  /** A run created for a window: "running" with no counters. */
  function NewRun(r: CtClient.FetchRange): MonitorRun {
    MonitorRun(r.start, r.end, "running", None, 0, 0, 0, None)
  }

  /** The run of a window that failed after the run was created: failed with the message, unless that write failed. */
  function FailedRun(r: CtClient.FetchRange, message: string, now: Time, execError: Option<string>): (run: MonitorRun)
    ensures execError.None? ==> run.state == "failed" && run.errorMessage == Some(message)
    ensures execError.Some? ==> run == NewRun(r)
  {
    if execError.None? then NewRun(r).(endedAt := Some(now), state := "failed", errorMessage := Some(message))
    else NewRun(r)
  }

  /** Whether CreateRun succeeds: the database returns a fresh id. */
  predicate RunCreated(env: CycleEnv, runs: map<string, MonitorRun>) {
    env.runId.Success? && env.runId.value !in runs
  }

  /** Whether loading the active keywords fails: the query, or the scan of an active row. */
  predicate KeywordsFail(env: CycleEnv, keywords: map<string, KeywordRecord>) {
    env.keywordsError.Some? ||
    exists id :: id in keywords && IsActive(keywords[id]) && id in env.keywordScanErrors
  }

  /** `message` is the error a failed keyword load returns: the query's, or that of a failing scan. */
  predicate IsKeywordsError(env: CycleEnv, keywords: map<string, KeywordRecord>, message: string) {
    if env.keywordsError.Some? then message == env.keywordsError.value
    else exists id :: id in keywords && IsActive(keywords[id]) && id in env.keywordScanErrors &&
                      env.keywordScanErrors[id] == message
  }

  /** A prefix one element longer. */
  lemma PrefixSnoc<T>(s: seq<T>, j: int)
    requires 0 <= j < |s|
    ensures s[..j + 1] == s[..j] + [s[j]]
  {
  }

  /** Writing a run twice leaves the second value. */
  lemma RunUpdatedTwice(runs: map<string, MonitorRun>, id: string, first: MonitorRun, second: MonitorRun)
    ensures runs[id := first][id := second] == runs[id := second]
  {
  }

  /** The matcher keyword built from a stored keyword row. */
  function MatcherKeywordOf(id: string, k: KeywordRecord): (kw: Matcher.Keyword)
    ensures kw.id == id && kw.value == k.keyword && kw.normalizedValue == k.normalizedValue
  {
    Matcher.Keyword(id, k.keyword, k.normalizedValue)
  }

  /**
   * `keywords` are the matcher keywords of the active, not deleted rows of
   * the table: each built from its row, every such row present, none twice.
   */
  ghost predicate ActiveKeywords(keywords: seq<Matcher.Keyword>, table: map<string, KeywordRecord>) {
    && (forall i :: 0 <= i < |keywords| ==>
          keywords[i].id in table && IsActive(table[keywords[i].id]) &&
          keywords[i] == MatcherKeywordOf(keywords[i].id, table[keywords[i].id]))
    && (forall id :: id in table && IsActive(table[id]) ==> exists i :: 0 <= i < |keywords| && keywords[i].id == id)
    && (forall i, j :: 0 <= i < j < |keywords| ==> keywords[i].id != keywords[j].id)
  }

  /** The loaded rows, converted one by one, are the active keywords of the table. */
  lemma LoadedKeywordsAreActive(rows: seq<KeywordRow>, keywords: seq<Matcher.Keyword>, table: map<string, KeywordRecord>)
    requires forall i :: 0 <= i < |rows| ==>
               rows[i].id in table && IsActive(table[rows[i].id]) && rows[i] == RowOf(rows[i].id, table[rows[i].id])
    requires forall id :: id in table && IsActive(table[id]) ==> exists i :: 0 <= i < |rows| && rows[i].id == id
    requires forall i, j :: 0 <= i < j < |rows| ==> rows[i].id != rows[j].id
    requires |keywords| == |rows|
    requires forall i :: 0 <= i < |rows| ==>
               keywords[i] == Matcher.Keyword(rows[i].id, rows[i].keyword, rows[i].normalizedValue)
    ensures ActiveKeywords(keywords, table)
  {
    forall id | id in table && IsActive(table[id])
      ensures exists i :: 0 <= i < |keywords| && keywords[i].id == id
    {
      var i :| 0 <= i < |rows| && rows[i].id == id;
      assert keywords[i].id == id;
    }
  }

  /**
   * The active keywords of a table are fixed up to order: a keyword is in
   * the list exactly when it is built from an active row of the table.
   */
  lemma ActiveKeywordsMembers(keywords: seq<Matcher.Keyword>, table: map<string, KeywordRecord>, k: Matcher.Keyword)
    requires ActiveKeywords(keywords, table)
    ensures k in keywords <==> k.id in table && IsActive(table[k.id]) && k == MatcherKeywordOf(k.id, table[k.id])
  {
    if k.id in table && IsActive(table[k.id]) && k == MatcherKeywordOf(k.id, table[k.id]) {
      var i :| 0 <= i < |keywords| && keywords[i].id == k.id;
      assert keywords[i] == k;
    }
  }

  // ------------------------------------------------------------- scheduler

  class Scheduler {
    var running: bool
    const repo: Repository

    constructor (db: Db)
      ensures !running && repo.db == db
    {
      running := false;
      repo := new Repository(db);
    }

    /** Starting an already running scheduler does nothing; otherwise it is now running. */
    method Start()
      modifies this
      ensures running
    {
      if running {
        return;
      }
      running := true;
    }

    /** Stopping a scheduler that is not running does nothing; otherwise it is no longer running. */
    method Stop()
      modifies this
      ensures !running
    {
      if !running {
        return;
      }
      running := false;
    }

    /**
     * The scheduler's goroutine: it loads the configuration (a failure ends it
     * before any cycle), runs a cycle at once and then one per tick until it
     * is stopped; `cycles` holds the environment of each cycle it runs. Once a
     * cycle leaves the monitor claimed, or when it was not idle to begin
     * with, every later cycle skips and the state row stays as it is.
     */
    method Run(configError: Option<string>, cycles: seq<CycleEnv>) returns (outcomes: seq<CycleOutcome>)
      modifies repo.db
      ensures configError.Some? ==> outcomes == [] && repo.db.monitorState == old(repo.db.monitorState)
      ensures configError.None? ==> |outcomes| == |cycles|
      ensures forall k, j :: 0 <= k < j < |outcomes| && LeavesBusy(outcomes[k], cycles[k]) ==> outcomes[j] == Skipped
      ensures old(repo.db.monitorState.state) != "idle" ==>
                repo.db.monitorState == old(repo.db.monitorState) &&
                forall j :: 0 <= j < |outcomes| ==> outcomes[j] == Skipped
      ensures repo.db.keywords == old(repo.db.keywords)
    {
      outcomes := [];
      if configError.Some? {
        return;
      }
      ghost var busy := repo.db.monitorState.state != "idle";
      for i := 0 to |cycles|
        invariant |outcomes| == i
        invariant busy ==> repo.db.monitorState.state != "idle"
        invariant forall k :: 0 <= k < i && LeavesBusy(outcomes[k], cycles[k]) ==> busy
        invariant forall k, j :: 0 <= k < j < i && LeavesBusy(outcomes[k], cycles[k]) ==> outcomes[j] == Skipped
        invariant old(repo.db.monitorState.state) != "idle" ==>
                    busy && repo.db.monitorState == old(repo.db.monitorState) &&
                    forall j :: 0 <= j < i ==> outcomes[j] == Skipped
        invariant repo.db.keywords == old(repo.db.keywords)
      {
        var outcome := RunCycle(cycles[i]);
        outcomes := outcomes + [outcome];
        busy := busy || LeavesBusy(outcome, cycles[i]);
      }
    }

    /** The monitor goes to the error state with the code and message; a failed write changes nothing. */
    method HandleFatalError(code: string, message: string, execError: Option<string>)
      modifies repo.db
      ensures repo.db.monitorState == AfterFatalError(old(repo.db.monitorState), code, message, execError)
      ensures repo.db.runs == old(repo.db.runs) && repo.db.matches == old(repo.db.matches)
      ensures repo.db.keywords == old(repo.db.keywords)
    {
      var _ := repo.SetStateError(code, message, execError);
    }

    /**
     * One polling cycle. It proceeds only when the locked state row is idle,
     * and then only after the running state has been committed.
     */
    method RunCycle(env: CycleEnv) returns (outcome: CycleOutcome)
      modifies repo.db
      ensures old(repo.db.monitorState.state) != "idle" ==> outcome == Skipped
      ensures outcome == Skipped ==>
                repo.db.monitorState == old(repo.db.monitorState) && repo.db.runs == old(repo.db.runs) &&
                repo.db.matches == old(repo.db.matches)
      ensures outcome != Skipped ==>
                old(repo.db.monitorState.state) == "idle" && repo.db.monitorState.lastRunAt == Some(env.now) &&
                (repo.db.monitorState.state != "idle" <==> LeavesBusy(outcome, env))
      ensures outcome.Failed? ==>
                if env.errorStateError.None?
                then repo.db.monitorState.state == "error" && repo.db.monitorState.lastErrorCode == Some(outcome.code) &&
                     repo.db.monitorState.lastError == Some(outcome.message)
                else repo.db.monitorState.state == "running"
      ensures outcome != Skipped && env.config.Failure? ==>
                outcome == Failed("CONFIG_ERROR", env.config.error) && repo.db.runs == old(repo.db.runs) &&
                repo.db.matches == old(repo.db.matches)
      ensures outcome != Skipped && env.config.Success? && CtClient.GetSTH(env.sth).Failure? ==>
                outcome == Failed(SthErrorCode(CtClient.GetSTH(env.sth).error),
                                  CtClient.ErrorMessage(env.sth, env.sthCause))
      ensures outcome.Completed? || outcome == NoNewEntries ==>
                if env.idleError.None?
                then repo.db.monitorState.state == "idle" && repo.db.monitorState.lastErrorCode.None?
                else repo.db.monitorState.state == "running"
      ensures outcome.Completed? ==>
                outcome.stats.entriesParsed + outcome.stats.parseErrors == |outcome.stats.entries| &&
                (env.idleError.None? ==> repo.db.monitorState.lastProcessedIndex == outcome.stats.lastProcessedIndex)
      ensures outcome.Completed? ==>
                env.config.Success? && CtClient.GetSTH(env.sth).Success? &&
                WindowDone(env.config.value, env,
                           CtClient.CalculateRange(CtClient.GetSTH(env.sth).value.treeSize, env.config.value.batchSize,
                                                   old(repo.db.monitorState).lastProcessedIndex),
                           outcome.stats, old(repo.db.matches), old(repo.db.runs), repo.db)
      ensures repo.db.keywords == old(repo.db.keywords)
    {
      if env.beginTxError.Some? {
        return Skipped;
      }
      var tx := new Tx(repo.db);
      var locked := repo.LockStateForUpdate(tx, env.lockError);
      if locked.Failure? {
        return Skipped;
      }
      var state := locked.value;
      if state.state != "idle" {
        return Skipped;
      }
      if !env.setRunningOk {
        return Skipped;
      }
      tx.SetStateRunning(env.now);
      var committed := tx.Commit(env.commitOk);
      if !committed {
        return Skipped;
      }

      if env.config.Failure? {
        HandleFatalError("CONFIG_ERROR", env.config.error, env.errorStateError);
        return Failed("CONFIG_ERROR", env.config.error);
      }
      outcome := ExecuteCycle(env.config.value, state, env);
    }

    /**
     * The work of a claimed cycle: the tree head, then the window to fetch. A
     * failed get-sth is a fatal error with its code and the client's message;
     * an empty window goes idle at the new tree size and the old index.
     */
    method ExecuteCycle(config: MonitorConfig, state: MonitorState, env: CycleEnv) returns (outcome: CycleOutcome)
      modifies repo.db
      ensures outcome != Skipped
      ensures CtClient.GetSTH(env.sth).Failure? ==>
                outcome == Failed(SthErrorCode(CtClient.GetSTH(env.sth).error),
                                  CtClient.ErrorMessage(env.sth, env.sthCause)) &&
                repo.db.runs == old(repo.db.runs) && repo.db.matches == old(repo.db.matches)
      ensures outcome.Failed? ==>
                repo.db.monitorState ==
                  AfterFatalError(old(repo.db.monitorState), outcome.code, outcome.message, env.errorStateError)
      ensures outcome == NoNewEntries ==>
                CtClient.GetSTH(env.sth).Success? &&
                var r := CtClient.CalculateRange(CtClient.GetSTH(env.sth).value.treeSize, config.batchSize,
                                                 state.lastProcessedIndex);
                r.start > r.end &&
                repo.db.monitorState == AfterIdle(old(repo.db.monitorState), CtClient.GetSTH(env.sth).value.treeSize,
                                                  state.lastProcessedIndex, env.now, env.idleError) &&
                repo.db.runs == old(repo.db.runs) && repo.db.matches == old(repo.db.matches)
      ensures outcome.Completed? ==>
                CtClient.GetSTH(env.sth).Success? &&
                var r := CtClient.CalculateRange(CtClient.GetSTH(env.sth).value.treeSize, config.batchSize,
                                                 state.lastProcessedIndex);
                r.start <= r.end &&
                WindowDone(config, env, r, outcome.stats, old(repo.db.matches), old(repo.db.runs), repo.db) &&
                repo.db.monitorState == AfterIdle(old(repo.db.monitorState), CtClient.GetSTH(env.sth).value.treeSize,
                                                  outcome.stats.lastProcessedIndex, env.now, env.idleError)
      ensures repo.db.keywords == old(repo.db.keywords)
    {
      var sth := CtClient.GetSTH(env.sth);
      if sth.Failure? {
        var code := SthErrorCode(sth.error);
        var message := CtClient.ErrorMessage(env.sth, env.sthCause);
        HandleFatalError(code, message, env.errorStateError);
        return Failed(code, message);
      }
      var treeSize := sth.value.treeSize;

      var fetchRange := CtClient.CalculateRange(treeSize, config.batchSize, state.lastProcessedIndex);
      if fetchRange.start > fetchRange.end {
        var _ := repo.SetStateIdle(treeSize, state.lastProcessedIndex, env.now, env.idleError);
        return NoNewEntries;
      }
      outcome := ProcessWindow(config, env, treeSize, fetchRange);
    }

    /**
     * A non-empty window: create the run, fetch the entries in chunks, load
     * the active keywords, process the entries, complete the run and go idle.
     * Each failing step is a fatal error; one after the run exists also fails
     * the run with the same message.
     */
    method ProcessWindow(config: MonitorConfig, env: CycleEnv, treeSize: int, fetchRange: CtClient.FetchRange)
      returns (outcome: CycleOutcome)
      requires fetchRange.start <= fetchRange.end
      modifies repo.db
      ensures outcome.Failed? || outcome.Completed?
      ensures outcome.Failed? ==>
                repo.db.monitorState ==
                  AfterFatalError(old(repo.db.monitorState), outcome.code, outcome.message, env.errorStateError) &&
                repo.db.matches == old(repo.db.matches)
      ensures !RunCreated(env, old(repo.db.runs)) ==>
                outcome.Failed? && outcome.code == "DB_ERROR" && repo.db.runs == old(repo.db.runs) &&
                (env.runId.Failure? ==> outcome.message == env.runId.error)
      ensures RunCreated(env, old(repo.db.runs)) &&
              CtClient.FetchFrom(env.log, fetchRange.start, fetchRange.end, ChunkSize).err.Some? ==>
                outcome == Failed(FetchErrorCode(CtClient.FetchFrom(env.log, fetchRange.start, fetchRange.end, ChunkSize).err.value),
                                  CtClient.DownloadErrorMessage(env.log, fetchRange.start, fetchRange.end, ChunkSize, env.fetchCause)) &&
                repo.db.runs == old(repo.db.runs)[env.runId.value :=
                                  FailedRun(fetchRange, outcome.message, env.now, env.runErrorError)]
      ensures RunCreated(env, old(repo.db.runs)) &&
              CtClient.FetchFrom(env.log, fetchRange.start, fetchRange.end, ChunkSize).err.None? &&
              KeywordsFail(env, old(repo.db.keywords)) ==>
                outcome.Failed? && outcome.code == "DB_ERROR" && IsKeywordsError(env, old(repo.db.keywords), outcome.message) &&
                repo.db.runs == old(repo.db.runs)[env.runId.value :=
                                  FailedRun(fetchRange, outcome.message, env.now, env.runErrorError)]
      ensures RunCreated(env, old(repo.db.runs)) &&
              CtClient.FetchFrom(env.log, fetchRange.start, fetchRange.end, ChunkSize).err.None? &&
              !KeywordsFail(env, old(repo.db.keywords)) ==>
                outcome.Completed? &&
                WindowDone(config, env, fetchRange, outcome.stats, old(repo.db.matches), old(repo.db.runs), repo.db) &&
                repo.db.monitorState ==
                  AfterIdle(old(repo.db.monitorState), treeSize, outcome.stats.lastProcessedIndex, env.now, env.idleError)
      ensures repo.db.keywords == old(repo.db.keywords)
    {
      var run := repo.CreateRun(fetchRange.start, fetchRange.end, env.runId);
      if run.Failure? {
        HandleFatalError("DB_ERROR", run.error, env.errorStateError);
        return Failed("DB_ERROR", run.error);
      }
      var runID := run.value;
      outcome := ProcessRun(config, env, treeSize, fetchRange, runID);
      RunUpdatedTwice(old(repo.db.runs), runID, NewRun(fetchRange), repo.db.runs[runID]);
    }

    /**
     * A window whose run exists: fetch the entries in chunks, load the active
     * keywords and complete the window. A failure fails the run as well.
     */
    method ProcessRun(config: MonitorConfig, env: CycleEnv, treeSize: int, fetchRange: CtClient.FetchRange,
                      runID: string)
      returns (outcome: CycleOutcome)
      requires fetchRange.start <= fetchRange.end
      requires env.runId == Success(runID) && runID in repo.db.runs && repo.db.runs[runID] == NewRun(fetchRange)
      modifies repo.db
      ensures outcome.Failed? || outcome.Completed?
      ensures outcome.Failed? ==>
                repo.db.monitorState ==
                  AfterFatalError(old(repo.db.monitorState), outcome.code, outcome.message, env.errorStateError) &&
                repo.db.matches == old(repo.db.matches)
      ensures CtClient.FetchFrom(env.log, fetchRange.start, fetchRange.end, ChunkSize).err.Some? ==>
                outcome == Failed(FetchErrorCode(CtClient.FetchFrom(env.log, fetchRange.start, fetchRange.end, ChunkSize).err.value),
                                  CtClient.DownloadErrorMessage(env.log, fetchRange.start, fetchRange.end, ChunkSize, env.fetchCause)) &&
                repo.db.runs == old(repo.db.runs)[runID := FailedRun(fetchRange, outcome.message, env.now, env.runErrorError)]
      ensures CtClient.FetchFrom(env.log, fetchRange.start, fetchRange.end, ChunkSize).err.None? &&
              KeywordsFail(env, old(repo.db.keywords)) ==>
                outcome.Failed? && outcome.code == "DB_ERROR" && IsKeywordsError(env, old(repo.db.keywords), outcome.message) &&
                repo.db.runs == old(repo.db.runs)[runID := FailedRun(fetchRange, outcome.message, env.now, env.runErrorError)]
      ensures CtClient.FetchFrom(env.log, fetchRange.start, fetchRange.end, ChunkSize).err.None? &&
              !KeywordsFail(env, old(repo.db.keywords)) ==>
                outcome.Completed? &&
                WindowDone(config, env, fetchRange, outcome.stats, old(repo.db.matches), old(repo.db.runs), repo.db) &&
                repo.db.monitorState ==
                  AfterIdle(old(repo.db.monitorState), treeSize, outcome.stats.lastProcessedIndex, env.now, env.idleError)
      ensures runID in repo.db.runs && repo.db.runs == old(repo.db.runs)[runID := repo.db.runs[runID]]
      ensures repo.db.keywords == old(repo.db.keywords)
    {
      var entries, fetchErr, requested :=
        CtClient.GetEntriesChunked(env.log, fetchRange.start, fetchRange.end, ChunkSize);
      if fetchErr.Some? {
        var code := FetchErrorCode(fetchErr.value);
        var message := CtClient.DownloadErrorMessage(env.log, fetchRange.start, fetchRange.end, ChunkSize, env.fetchCause);
        FailWindow(runID, fetchRange, code, "CT_ERROR", message, env);
        return Failed(code, message);
      }

      var keywordRows := repo.GetActiveKeywords(env.keywordsError, env.keywordScanErrors);
      if keywordRows.Failure? {
        FailWindow(runID, fetchRange, "DB_ERROR", "DB_ERROR", keywordRows.error, env);
        return Failed("DB_ERROR", keywordRows.error);
      }
      var keywords := ToMatcherKeywords(keywordRows.value);
      LoadedKeywordsAreActive(keywordRows.value, keywords, repo.db.keywords);
      var stats := CompleteWindow(config, env, treeSize, fetchRange, runID, entries, keywords);
      outcome := Completed(stats);
    }

    /**
     * The rest of a window once its entries and keywords are loaded: process
     * the entries, complete the run with the counters, and go idle at the
     * last processed index. A failed write of the run or of the state is
     * passed over.
     */
    method CompleteWindow(config: MonitorConfig, env: CycleEnv, treeSize: int, fetchRange: CtClient.FetchRange,
                          runID: string, entries: seq<CtClient.LogEntry>, keywords: seq<Matcher.Keyword>)
      returns (stats: CycleStats)
      requires runID in repo.db.runs && repo.db.runs[runID] == NewRun(fetchRange)
      modifies repo.db
      ensures stats.runId == runID && stats.entries == entries && stats.keywords == keywords
      ensures var rs := WindowResults(env.codecs, entries, fetchRange.start);
        && stats.entriesParsed == ParsedCount(rs)
        && stats.entriesParsed + stats.parseErrors == |entries|
        && stats.matchesFound == MatchCount(keywords, rs)
        && stats.lastProcessedIndex == LastParsedIndex(rs, fetchRange.start)
        && repo.db.matches == UpsertAll(old(repo.db.matches),
             Accepted(WindowInserts(keywords, rs, runID, config.ctLogBaseURL), env.upsertError), env.now)
      ensures repo.db.runs == old(repo.db.runs)[runID :=
                if env.runSuccessError.None?
                then MonitorRun(fetchRange.start, stats.lastProcessedIndex, "completed", Some(env.now),
                                stats.entriesParsed, stats.parseErrors, stats.matchesFound, None)
                else NewRun(fetchRange)]
      ensures repo.db.monitorState ==
                AfterIdle(old(repo.db.monitorState), treeSize, stats.lastProcessedIndex, env.now, env.idleError)
      ensures repo.db.keywords == old(repo.db.keywords)
    {
      var m := new Matcher.Matcher(keywords);
      var entriesParsed, parseErrors, matchesFound, lastProcessedIndex :=
        ProcessEntries(entries, fetchRange.start, m, runID, config.ctLogBaseURL, env.codecs, env.upsertError, env.now);

      var _ := repo.UpdateRunSuccess(runID, |entries|, entriesParsed, parseErrors, matchesFound, lastProcessedIndex,
                                     env.now, env.runSuccessError);
      var _ := repo.SetStateIdle(treeSize, lastProcessedIndex, env.now, env.idleError);
      stats := CycleStats(runID, entries, keywords, entriesParsed, parseErrors, matchesFound, lastProcessedIndex);
    }

    /**
     * A fatal error once the window's run exists: the monitor goes to the
     * error state, then the run fails with the same message (`runCode` is
     * passed along but not stored).
     */
    method FailWindow(runID: string, fetchRange: CtClient.FetchRange, code: string, runCode: string,
                      message: string, env: CycleEnv)
      requires runID in repo.db.runs && repo.db.runs[runID] == NewRun(fetchRange)
      modifies repo.db
      ensures repo.db.monitorState == AfterFatalError(old(repo.db.monitorState), code, message, env.errorStateError)
      ensures repo.db.runs == old(repo.db.runs)[runID := FailedRun(fetchRange, message, env.now, env.runErrorError)]
      ensures repo.db.matches == old(repo.db.matches) && repo.db.keywords == old(repo.db.keywords)
    {
      HandleFatalError(code, message, env.errorStateError);
      var _ := repo.UpdateRunError(runID, runCode, message, env.now, env.runErrorError);
    }

    /**
     * Parses each entry of the window (entry i has index start + i), counts it
     * as parsed or as a parse error, upserts one row per match of a parsed
     * entry, and tracks the index of the last parsed entry. Every match is
     * counted, whether or not the database accepts its upsert.
     */
    method ProcessEntries(entries: seq<CtClient.LogEntry>, start: int, m: Matcher.Matcher, runID: string,
                          baseURL: string, codecs: X509Parser.Codecs, upsertError: MatchInsert -> Option<string>,
                          now: Time)
      returns (entriesParsed: nat, parseErrors: nat, matchesFound: nat, lastProcessedIndex: int)
      modifies repo.db
      ensures entriesParsed == ParsedCount(WindowResults(codecs, entries, start))
      ensures entriesParsed + parseErrors == |entries|
      ensures matchesFound == MatchCount(m.keywords, WindowResults(codecs, entries, start))
      ensures lastProcessedIndex == LastParsedIndex(WindowResults(codecs, entries, start), start)
      ensures repo.db.matches == UpsertAll(old(repo.db.matches),
                Accepted(WindowInserts(m.keywords, WindowResults(codecs, entries, start), runID, baseURL), upsertError),
                now)
      ensures repo.db.monitorState == old(repo.db.monitorState) && repo.db.runs == old(repo.db.runs)
      ensures repo.db.keywords == old(repo.db.keywords)
    {
      ghost var rs := WindowResults(codecs, entries, start);
      entriesParsed, parseErrors, matchesFound := 0, 0, 0;
      lastProcessedIndex := start;
      for i := 0 to |entries|
        invariant entriesParsed == ParsedCount(rs[..i])
        invariant entriesParsed + parseErrors == i
        invariant matchesFound == MatchCount(m.keywords, rs[..i])
        invariant lastProcessedIndex == LastParsedIndex(rs[..i], start)
        invariant repo.db.matches ==
                    UpsertAll(old(repo.db.matches), Accepted(WindowInserts(m.keywords, rs[..i], runID, baseURL), upsertError), now)
        invariant repo.db.monitorState == old(repo.db.monitorState) && repo.db.runs == old(repo.db.runs)
        invariant repo.db.keywords == old(repo.db.keywords)
      {
        var index := start + i;
        WindowResultAt(codecs, entries, start, i);
        WindowPrefixStep(m.keywords, rs, i, runID, baseURL, start);
        ghost var done := WindowInserts(m.keywords, rs[..i], runID, baseURL);
        ghost var more := EntryInserts(m.keywords, rs[i], runID, baseURL);
        AcceptedAppend(done, more, upsertError);
        UpsertAllAppend(old(repo.db.matches), Accepted(done, upsertError), Accepted(more, upsertError), now);
        var parsed, found := ProcessEntry(entries[i], index, m, runID, baseURL, codecs, upsertError, now);
        matchesFound := matchesFound + found;
        if !parsed {
          parseErrors := parseErrors + 1;
          continue;
        }
        entriesParsed := entriesParsed + 1;
        lastProcessedIndex := index;
      }
      assert rs[..|entries|] == rs;
    }

    /**
     * One entry at its log index: a parse error counts and stops there;
     * otherwise one upsert is issued per match, in match order, and a failed
     * upsert is passed over.
     */
    method ProcessEntry(entry: CtClient.LogEntry, index: int, m: Matcher.Matcher, runID: string,
                        baseURL: string, codecs: X509Parser.Codecs, upsertError: MatchInsert -> Option<string>,
                        now: Time)
      returns (parsed: bool, found: nat)
      modifies repo.db
      ensures parsed == X509Parser.ParseEntry(codecs, entry, index).outcome.Success?
      ensures found == |EntryMatches(m.keywords, X509Parser.ParseEntry(codecs, entry, index))|
      ensures repo.db.matches == UpsertAll(old(repo.db.matches),
                Accepted(EntryInserts(m.keywords, X509Parser.ParseEntry(codecs, entry, index), runID, baseURL), upsertError),
                now)
      ensures repo.db.monitorState == old(repo.db.monitorState) && repo.db.runs == old(repo.db.runs)
      ensures repo.db.keywords == old(repo.db.keywords)
    {
      found := 0;
      var result := X509Parser.ParseEntry(codecs, entry, index);
      if result.outcome.Failure? {
        return false, 0;
      }
      parsed := true;
      var cert := result.outcome.value;

      var matches := m.Match(cert);
      ghost var all := EntryInserts(m.keywords, result, runID, baseURL);
      for j := 0 to |matches|
        invariant found == j
        invariant repo.db.matches == UpsertAll(old(repo.db.matches), Accepted(all[..j], upsertError), now)
        invariant repo.db.monitorState == old(repo.db.monitorState) && repo.db.runs == old(repo.db.runs)
        invariant repo.db.keywords == old(repo.db.keywords)
      {
        found := found + 1;
        var insert := InsertFor(matches[j], cert, runID, baseURL, index);
        assert insert == all[j];
        PrefixSnoc(all, j);
        AcceptedSnoc(all[..j], insert, upsertError);
        UpsertAllAppend(old(repo.db.matches), Accepted(all[..j], upsertError),
                        if upsertError(insert).None? then [insert] else [], now);
        var _ := repo.UpsertMatch(insert, now, upsertError(insert));
      }
      assert all[..|matches|] == all;
    }

    /** Turns the keyword rows into the matcher's keywords, one for one. */
    method ToMatcherKeywords(rows: seq<KeywordRow>) returns (keywords: seq<Matcher.Keyword>)
      ensures |keywords| == |rows|
      ensures forall i :: 0 <= i < |rows| ==>
                keywords[i] == Matcher.Keyword(rows[i].id, rows[i].keyword, rows[i].normalizedValue)
    {
      keywords := [];
      for i := 0 to |rows|
        invariant |keywords| == i
        invariant forall k :: 0 <= k < i ==>
                    keywords[k] == Matcher.Keyword(rows[k].id, rows[k].keyword, rows[k].normalizedValue)
      {
        keywords := keywords + [Matcher.Keyword(rows[i].id, rows[i].keyword, rows[i].normalizedValue)];
      }
    }
  }

  /**
   * What a completed window leaves behind: the fetched entries are those of
   * the chunked download of the window, the counters describe them (every
   * match counted), the accepted upserts are applied, the new run is
   * completed with the counters (or still running if that write failed).
   * The entries were matched against exactly the active keywords of the
   * table, which a cycle does not change.
   */
  ghost predicate WindowDone(config: MonitorConfig, env: CycleEnv, r: CtClient.FetchRange,
                             stats: CycleStats, matchesBefore: map<MatchKey, MatchedCertificate>,
                             runsBefore: map<string, MonitorRun>, db: Db)
    reads db
  {
    && ActiveKeywords(stats.keywords, db.keywords)
    && CtClient.FetchFrom(env.log, r.start, r.end, ChunkSize).entries == stats.entries
    && CtClient.FetchFrom(env.log, r.start, r.end, ChunkSize).err.None?
    && var rs := WindowResults(env.codecs, stats.entries, r.start);
    && stats.entriesParsed == ParsedCount(rs)
    && stats.entriesParsed + stats.parseErrors == |stats.entries|
    && stats.matchesFound == MatchCount(stats.keywords, rs)
    && stats.lastProcessedIndex == LastParsedIndex(rs, r.start)
    && db.matches == UpsertAll(matchesBefore,
         Accepted(WindowInserts(stats.keywords, rs, stats.runId, config.ctLogBaseURL), env.upsertError), env.now)
    && env.runId == Success(stats.runId)
    && db.runs == runsBefore[stats.runId :=
         if env.runSuccessError.None?
         then MonitorRun(r.start, stats.lastProcessedIndex, "completed", Some(env.now),
                         stats.entriesParsed, stats.parseErrors, stats.matchesFound, None)
         else NewRun(r)]
  }
}
