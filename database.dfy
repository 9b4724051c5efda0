/**
 * The PostgreSQL tables the backend reads and writes, held as maps keyed by
 * their primary (or conflict) keys. The repositories of the scheduler and of
 * the keyword feature update them in place.
 */
module Database {
  import opened Base

  /** The single row of monitor_state (id = 1). */
  datatype MonitorState = MonitorState(
    state: string,
    lastTreeSize: int,
    lastProcessedIndex: int,
    lastRunAt: Option<Time>,
    lastSuccessAt: Option<Time>,
    lastErrorCode: Option<string>,
    lastError: Option<string>)

  /** A row of monitor_run: one polling cycle that fetched entries. */
  datatype MonitorRun = MonitorRun(
    startIndex: int,
    endIndex: int,
    state: string,
    endedAt: Option<Time>,
    certificatesProcessed: int,
    parseErrorCount: int,
    matchesFound: int,
    errorMessage: Option<string>)

  /** The conflict key of matched_certificates. */
  datatype MatchKey = MatchKey(certificateSha256: string, keywordId: string, matchedField: string)

  /** A row of matched_certificates. */
  datatype MatchedCertificate = MatchedCertificate(
    keywordId: string,
    monitorRunId: string,
    certificateSha256: string,
    matchedField: string,
    matchedValue: string,
    domainName: Option<string>,
    issuerCN: Option<string>,
    issuerOrg: Option<string>,
    subjectCN: Option<string>,
    subjectOrg: Option<string>,
    sanList: seq<string>,
    notBefore: Option<Time>,
    notAfter: Option<Time>,
    ctLogIndex: int,
    ctLogURL: Option<string>,
    firstSeenAt: Time,
    lastSeenAt: Time,
    isNew: bool)
  {
    function Key(): MatchKey {
      MatchKey(certificateSha256, keywordId, matchedField)
    }
  }

  /** A row of keywords (its id is the key it is stored under). */
  datatype KeywordRecord = KeywordRecord(
    keyword: string,
    normalizedValue: string,
    status: string,
    isDeleted: bool,
    createdAt: Time,
    deletedAt: Option<Time>)

  /** The database: every table the core touches. */
  class Db {
    var monitorState: MonitorState
    var runs: map<string, MonitorRun>
    var matches: map<MatchKey, MatchedCertificate>
    var keywords: map<string, KeywordRecord>

    constructor (initial: MonitorState)
      ensures monitorState == initial
      ensures runs == map[] && matches == map[] && keywords == map[]
    {
      monitorState := initial;
      runs := map[];
      matches := map[];
      keywords := map[];
    }
  }

  // ------------------------------------------------------------ row scans

  /** What a `rows.Next()` / `rows.Scan` loop yields: every row, or the first scan error. */
  function Collected<T>(scanned: seq<Result<T, string>>): (r: Result<seq<T>, string>)
    decreases |scanned|
  {
    if scanned == [] then Success([])
    else
      match Collected(scanned[..|scanned| - 1])
      case Failure(e) => Failure(e)
      case Success(rows) =>
        match scanned[|scanned| - 1]
        case Failure(e) => Failure(e)
        case Success(row) => Success(rows + [row])
  }

  /**
   * Collected keeps every row in order when every scan succeeds, and
   * otherwise reports the first failing scan.
   */
  lemma {:induction false} CollectedMeaning<T>(scanned: seq<Result<T, string>>)
    ensures Collected(scanned).Success? <==> forall i :: 0 <= i < |scanned| ==> scanned[i].Success?
    ensures Collected(scanned).Success? ==>
              |Collected(scanned).value| == |scanned| &&
              forall i :: 0 <= i < |scanned| ==> Collected(scanned).value[i] == scanned[i].value
    ensures Collected(scanned).Failure? ==>
              exists i :: 0 <= i < |scanned| && scanned[i].Failure? && Collected(scanned).error == scanned[i].error &&
                          forall j :: 0 <= j < i ==> scanned[j].Success?
    decreases |scanned|
  {
    if scanned != [] {
      var init := scanned[..|scanned| - 1];
      CollectedMeaning(init);
      assert forall i :: 0 <= i < |init| ==> init[i] == scanned[i];
      if Collected(init).Failure? {
        var i :| 0 <= i < |init| && init[i].Failure? && Collected(init).error == init[i].error &&
                 forall j :: 0 <= j < i ==> init[j].Success?;
        assert scanned[i].Failure?;
      }
    }
  }

  /** A failed scan ends the collection: whatever follows is not read. */
  lemma {:induction false} CollectedStopsAtFailure<T>(scanned: seq<Result<T, string>>, i: nat)
    requires i < |scanned| && scanned[i].Failure? && Collected(scanned[..i]).Success?
    ensures Collected(scanned) == Failure(scanned[i].error)
    decreases |scanned|
  {
    if |scanned| - 1 > i {
      var init := scanned[..|scanned| - 1];
      assert init[..i] == scanned[..i];
      CollectedStopsAtFailure(init, i);
    } else {
      assert scanned[..|scanned| - 1] == scanned[..i];
    }
  }

  /** The scan loop: rows are appended one by one; the first scan error is returned instead. */
  method ScanRows<T>(scanned: seq<Result<T, string>>) returns (r: Result<seq<T>, string>)
    ensures r == Collected(scanned)
  {
    var rows: seq<T> := [];
    var i := 0;
    while i < |scanned|
      invariant i <= |scanned|
      invariant Collected(scanned[..i]) == Success(rows)
    {
      match scanned[i]
      case Failure(e) =>
        CollectedStopsAtFailure(scanned, i);
        return Failure(e);
      case Success(row) =>
        assert scanned[..i + 1][..i] == scanned[..i];
        rows := rows + [row];
      i := i + 1;
    }
    assert scanned[..i] == scanned;
    r := Success(rows);
  }

  /** The rows a scan loop reads before its first failing scan (all of them when none fails). */
  function ScannedPrefix<T>(scanned: seq<Result<T, string>>): (ok: seq<T>)
    ensures |ok| <= |scanned|
    ensures forall i :: 0 <= i < |ok| ==> scanned[i].Success? && ok[i] == scanned[i].value
    ensures |ok| < |scanned| ==> scanned[|ok|].Failure?
    decreases |scanned|
  {
    if scanned == [] || scanned[0].Failure? then []
    else [scanned[0].value] + ScannedPrefix(scanned[1..])
  }

  /** The scan loop succeeds exactly when its prefix of successful scans is every row. */
  lemma CollectedIsScannedPrefix<T>(scanned: seq<Result<T, string>>)
    ensures Collected(scanned).Success? <==> |ScannedPrefix(scanned)| == |scanned|
    ensures Collected(scanned).Success? ==> Collected(scanned).value == ScannedPrefix(scanned)
    ensures Collected(scanned).Failure? ==> Collected(scanned).error == scanned[|ScannedPrefix(scanned)|].error
  {
    CollectedMeaning(scanned);
    var ok := ScannedPrefix(scanned);
    if Collected(scanned).Failure? {
      var i :| 0 <= i < |scanned| && scanned[i].Failure? && Collected(scanned).error == scanned[i].error &&
               forall j :: 0 <= j < i ==> scanned[j].Success?;
      assert |ok| == i;
    }
  }
}
