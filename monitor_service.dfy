/**
 * GET /monitor/status: the status response assembled from the singleton
 * monitor_state row, the poll interval and the most recent completed run.
 * The three repository lookups are inputs.
 */
module MonitorService {
  import opened Base

  /** The error of a single-row lookup: no row at all, or any other failure. */
  datatype LookupError = ErrNoRows | QueryFailed(message: string)

  /** The monitor_state row. */
  datatype StateRow = StateRow(
    id: int,
    state: string,
    lastRunAt: Option<Time>,
    lastSuccessAt: Option<Time>,
    lastErrorCode: Option<string>,
    lastErrorMessage: Option<string>)

  /** The most recent completed monitor_run; durations and latencies may be NULL. */
  datatype LastRunRow = LastRunRow(
    certificatesProcessed: int,
    matchesFound: int,
    parseErrorCount: int,
    durationMs: Option<int>,
    ctLatencyMs: Option<int>,
    dbLatencyMs: Option<int>)

  /** The poll-interval lookup: the value it returns together with its error, if any. */
  datatype PollLookup = PollLookup(seconds: int, err: Option<LookupError>)

  datatype MetricsLastRun = MetricsLastRun(
    processedCount: int,
    matchCount: int,
    parseErrorCount: int,
    durationMs: int,
    ctLatencyMs: int,
    dbLatencyMs: int)

  datatype StatusResponse = StatusResponse(
    state: string,
    lastRunAt: Option<Time>,
    lastSuccessAt: Option<Time>,
    lastErrorCode: Option<string>,
    lastErrorMessage: Option<string>,
    metricsLastRun: Option<MetricsLastRun>,
    pollIntervalSeconds: int)

  /** The metrics of a completed run: counts copied, each NULL duration or latency read as 0. */
  function Metrics(run: LastRunRow): (m: MetricsLastRun)
    ensures m.processedCount == run.certificatesProcessed
    ensures m.matchCount == run.matchesFound
    ensures m.parseErrorCount == run.parseErrorCount
    ensures m.durationMs == (if run.durationMs.Some? then run.durationMs.value else 0)
    ensures m.ctLatencyMs == (if run.ctLatencyMs.Some? then run.ctLatencyMs.value else 0)
    ensures m.dbLatencyMs == (if run.dbLatencyMs.Some? then run.dbLatencyMs.value else 0)
  {
    MetricsLastRun(run.certificatesProcessed, run.matchesFound, run.parseErrorCount,
                   run.durationMs.GetOr(0), run.ctLatencyMs.GetOr(0), run.dbLatencyMs.GetOr(0))
  }

  /**
   * The status response. A failed state lookup is returned as is; the
   * poll-interval error is ignored and its value used; a missing completed
   * run leaves the metrics out, any other run-lookup error is returned.
   */
  function GetStatus(state: Result<StateRow, LookupError>, poll: PollLookup,
                     lastRun: Result<LastRunRow, LookupError>)
    : (r: Result<StatusResponse, LookupError>)
    ensures state.Failure? ==> r == Failure(state.error)
    ensures state.Success? && lastRun.Failure? && lastRun.error != ErrNoRows ==> r == Failure(lastRun.error)
    ensures r.Success? <==> state.Success? && (lastRun.Success? || lastRun.error == ErrNoRows)
    ensures r.Success? ==>
              && r.value.state == state.value.state
              && r.value.lastRunAt == state.value.lastRunAt
              && r.value.lastSuccessAt == state.value.lastSuccessAt
              && r.value.lastErrorCode == state.value.lastErrorCode
              && r.value.lastErrorMessage == state.value.lastErrorMessage
              && r.value.pollIntervalSeconds == poll.seconds
              && (r.value.metricsLastRun.Some? <==> lastRun.Success?)
              && (lastRun.Success? ==> r.value.metricsLastRun.value == Metrics(lastRun.value))
  {
    match state
    case Failure(e) => Failure(e)
    case Success(row) =>
      var response := StatusResponse(row.state, row.lastRunAt, row.lastSuccessAt, row.lastErrorCode,
                                     row.lastErrorMessage, None, poll.seconds);
      match lastRun
      case Failure(e) => if e == ErrNoRows then Success(response) else Failure(e)
      case Success(run) => Success(response.(metricsLastRun := Some(Metrics(run))))
  }

  /** Whether the poll-interval lookup failed never changes the outcome. */
  lemma PollErrorIgnored(state: Result<StateRow, LookupError>, seconds: int, e: LookupError,
                         lastRun: Result<LastRunRow, LookupError>)
    ensures GetStatus(state, PollLookup(seconds, Some(e)), lastRun) == GetStatus(state, PollLookup(seconds, None), lastRun)
  {
  }

  /** A run whose timings were all recorded reports exactly the run's figures. */
  lemma RecordedRunReportedExactly(run: LastRunRow)
    requires run.durationMs.Some? && run.ctLatencyMs.Some? && run.dbLatencyMs.Some?
    ensures Metrics(run) == MetricsLastRun(run.certificatesProcessed, run.matchesFound, run.parseErrorCount,
                                           run.durationMs.value, run.ctLatencyMs.value, run.dbLatencyMs.value)
  {
  }
}
