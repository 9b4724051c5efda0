/**
 * The Certificate Transparency log client: the get-sth and get-entries calls of
 * sections 4.3 and 4.6 of RFC 6962, the chunked download of a range of entries,
 * and the choice of the window of indices one polling cycle fetches.
 *
 * The HTTP exchange itself is not modelled: a call is described by its
 * `Transport` outcome (what the network, the status line and the JSON decoder
 * produced), and the log is a function from a requested range to such an outcome.
 */
module CtClient {
  import opened Base
  import Text

  /** The sentinel errors of the client (ct/types.go). */
  datatype CtError = ErrInvalidJSON | ErrHTTPError | ErrConnectionError | ErrTimeout

  datatype Sth = Sth(treeSize: int, timestamp: int, sha256RootHash: string, treeHeadSignature: string)

  datatype LogEntry = LogEntry(leafInput: string, extraData: string)

  datatype FetchRange = FetchRange(start: int, end: int)

  /** What reading the response body and decoding it as JSON produced. */
  datatype Body<T> = ReadFailed | Undecodable | Decoded(value: T)

  /** The outcome of one HTTP exchange with the log. */
  datatype Transport<T> =
    | RequestBuildFailed
    | TransportFailed(timeout: bool)
    | Response(status: int, body: Body<T>)

  /**
   * The error classification shared by GetSTH and GetEntries: a timeout, any
   * other transport failure (or unreadable body), a non-200 status, an
   * undecodable body.
   */
  function Classify<T>(t: Transport<T>): (r: Result<T, CtError>)
    ensures r.Success? <==> t.Response? && t.status == 200 && t.body.Decoded?
    ensures r.Success? ==> r.value == t.body.value
    ensures r == Failure(ErrTimeout) <==> t.TransportFailed? && t.timeout
    ensures r == Failure(ErrHTTPError) <==> t.Response? && t.status != 200
    ensures r == Failure(ErrInvalidJSON) <==> t.Response? && t.status == 200 && t.body.Undecodable?
    ensures r == Failure(ErrConnectionError) <==>
              t.RequestBuildFailed? || (t.TransportFailed? && !t.timeout) ||
              (t.Response? && t.status == 200 && t.body.ReadFailed?)
  {
    match t
    case RequestBuildFailed => Failure(ErrConnectionError)
    case TransportFailed(timeout) => if timeout then Failure(ErrTimeout) else Failure(ErrConnectionError)
    case Response(status, body) =>
      if status != 200 then Failure(ErrHTTPError)
      else match body
        case ReadFailed => Failure(ErrConnectionError)
        case Undecodable => Failure(ErrInvalidJSON)
        case Decoded(v) => Success(v)
  }

  /** The text of a sentinel error. */
  function ErrorText(e: CtError): (t: string)
    ensures |t| > 6 && t[|t| - 6..] == "CT log"
  {
    match e
    case ErrInvalidJSON => "invalid JSON response from CT log"
    case ErrHTTPError => "HTTP error from CT log"
    case ErrConnectionError => "connection error to CT log"
    case ErrTimeout => "timeout connecting to CT log"
  }

  predicate IsPrefix(p: string, s: string) {
    |p| <= |s| && s[..|p|] == p
  }

  /**
   * The text of the error a failed exchange returns (`err.Error()`): the
   * sentinel's text, followed for a wrapped error by ": " and the detail the
   * client adds; `cause` is the text of the underlying library error.
   */
  function ErrorMessage<T>(t: Transport<T>, cause: string): (m: string)
    requires Classify(t).Failure?
    ensures IsPrefix(ErrorText(Classify(t).error), m)
    ensures Classify(t) == Failure(ErrTimeout) ==> m == ErrorText(ErrTimeout)
    ensures t.Response? && t.status != 200 ==> m == ErrorText(ErrHTTPError) + ": status " + Text.IntToString(t.status)
  {
    match t
    case RequestBuildFailed => ErrorText(ErrConnectionError) + ": " + cause
    case TransportFailed(timeout) =>
      if timeout then ErrorText(ErrTimeout) else ErrorText(ErrConnectionError) + ": " + cause
    case Response(status, body) =>
      if status != 200 then ErrorText(ErrHTTPError) + ": status " + Text.IntToString(status)
      else if body.ReadFailed? then ErrorText(ErrConnectionError) + ": failed to read body: " + cause
      else ErrorText(ErrInvalidJSON) + ": " + cause
  }

  /**
   * `errors.Is` on the message: of the four sentinels, exactly the one the
   * exchange failed with is a prefix of its error's text.
   */
  lemma MessageNamesItsError<T>(t: Transport<T>, cause: string, e: CtError)
    requires Classify(t).Failure?
    ensures IsPrefix(ErrorText(e), ErrorMessage(t, cause)) <==> e == Classify(t).error
  {
    var m := ErrorMessage(t, cause);
    var own := ErrorText(Classify(t).error);
    assert own[0] == m[0];
    if IsPrefix(ErrorText(e), m) {
      assert ErrorText(e)[0] == m[0];
      InitialsDistinct(e, Classify(t).error);
    }
  }

  /** The four sentinel texts already differ in their first character. */
  lemma InitialsDistinct(a: CtError, b: CtError)
    requires ErrorText(a)[0] == ErrorText(b)[0]
    ensures a == b
  {
  }

  /** GET <base>/ct/v1/get-sth. */
  function GetSTH(exchange: Transport<Sth>): (r: Result<Sth, CtError>)
    ensures r.Success? <==> exchange.Response? && exchange.status == 200 && exchange.body.Decoded?
    ensures r.Success? ==> r.value == exchange.body.value
  {
    Classify(exchange)
  }

  /** A log as seen by the client: the exchange a get-entries request for [start, end] produces. */
  type Log = (int, int) -> Transport<seq<LogEntry>>

  /** GET <base>/ct/v1/get-entries?start=..&end=.. */
  function GetEntries(log: Log, start: int, end: int): (r: Result<seq<LogEntry>, CtError>)
    ensures r.Success? <==> log(start, end).Response? && log(start, end).status == 200 && log(start, end).body.Decoded?
    ensures r.Success? ==> r.value == log(start, end).body.value
  {
    Classify(log(start, end))
  }

  function Min(a: int, b: int): int { if a <= b then a else b }

  /** The requests a fully successful chunked download of [current, end] makes. */
  function Chunks(current: int, end: int, chunkSize: int): (cs: seq<FetchRange>)
    requires chunkSize >= 1
    decreases end - current
  {
    if current > end then []
    else
      var chunkEnd := Min(current + chunkSize - 1, end);
      if chunkEnd >= end then [FetchRange(current, chunkEnd)]
      else [FetchRange(current, chunkEnd)] + Chunks(current + chunkSize, end, chunkSize)
  }

  /** What a chunked download returns: the entries, the first error, and the requests made. */
  datatype Download = Download(entries: seq<LogEntry>, err: Option<CtError>, requested: seq<FetchRange>)

  /** The reference definition of GetEntriesChunked, one chunk after another. */
  function FetchFrom(log: Log, current: int, end: int, chunkSize: int): (d: Download)
    requires chunkSize >= 1
    ensures d.requested == [] <==> current > end
    ensures d.err.Some? ==> d.requested != []
    decreases end - current
  {
    if current > end then Download([], None, [])
    else
      var chunkEnd := Min(current + chunkSize - 1, end);
      match GetEntries(log, current, chunkEnd)
      case Failure(e) => Download([], Some(e), [FetchRange(current, chunkEnd)])
      case Success(es) =>
        if chunkEnd >= end then Download(es, None, [FetchRange(current, chunkEnd)])
        else
          var rest := FetchFrom(log, current + chunkSize, end, chunkSize);
          Download(es + rest.entries, rest.err, [FetchRange(current, chunkEnd)] + rest.requested)
  }

  /**
   * Downloads [start, end] in chunks of at most `chunkSize` entries, in
   * ascending order, concatenating the answers; it stops at the first failing
   * chunk and returns what it collected so far with that error.
   */
  method GetEntriesChunked(log: Log, start: int, end: int, chunkSize: int)
    returns (entries: seq<LogEntry>, err: Option<CtError>, requested: seq<FetchRange>)
    requires chunkSize >= 1
    ensures Download(entries, err, requested) == FetchFrom(log, start, end, chunkSize)
  {
    entries, err, requested := [], None, [];
    var current := start;
    while current <= end
      invariant FetchFrom(log, start, end, chunkSize) ==
                Then(entries, requested, FetchFrom(log, current, end, chunkSize))
      decreases end - current
    {
      var chunkEnd := current + chunkSize - 1;
      if chunkEnd > end {
        chunkEnd := end;
      }
      assert chunkEnd == Min(current + chunkSize - 1, end);
      FetchFromStep(log, current, end, chunkSize);
      ghost var entries0, requested0 := entries, requested;
      var resp := GetEntries(log, current, chunkEnd);
      requested := requested + [FetchRange(current, chunkEnd)];
      if resp.Failure? {
        err := Some(resp.error);
        assert Download(entries, err, requested) == Then(entries0, requested0, FetchFrom(log, current, end, chunkSize));
        return;
      }
      entries := entries + resp.value;
      if chunkEnd >= end {
        assert Download(entries, err, requested) == Then(entries0, requested0, FetchFrom(log, current, end, chunkSize));
        break;
      }
      ThenThen(entries0, requested0, resp.value, [FetchRange(current, chunkEnd)],
               FetchFrom(log, current + chunkSize, end, chunkSize));
      current := current + chunkSize;
    }
  }

  /** Performing a download after two stretches of collected entries is performing it after both. */
  lemma ThenThen(e1: seq<LogEntry>, r1: seq<FetchRange>, e2: seq<LogEntry>, r2: seq<FetchRange>, d: Download)
    ensures Then(e1, r1, Then(e2, r2, d)) == Then(e1 + e2, r1 + r2, d)
  {
    assert e1 + (e2 + d.entries) == (e1 + e2) + d.entries;
    assert r1 + (r2 + d.requested) == (r1 + r2) + d.requested;
  }

  /** One step of the chunked download: the first chunk, then the rest. */
  lemma FetchFromStep(log: Log, current: int, end: int, chunkSize: int)
    requires chunkSize >= 1 && current <= end
    ensures var chunkEnd := Min(current + chunkSize - 1, end);
      var first := GetEntries(log, current, chunkEnd);
      var here := FetchFrom(log, current, end, chunkSize);
      && (first.Failure? ==> here == Download([], Some(first.error), [FetchRange(current, chunkEnd)]))
      && (first.Success? && chunkEnd >= end ==> here == Download(first.value, None, [FetchRange(current, chunkEnd)]))
      && (first.Success? && chunkEnd < end ==>
            here == Then(first.value, [FetchRange(current, chunkEnd)], FetchFrom(log, current + chunkSize, end, chunkSize)))
  {
  }

  /** The download `d` performed after `entries` were collected by the `requested` calls. */
  function Then(entries: seq<LogEntry>, requested: seq<FetchRange>, d: Download): Download {
    Download(entries + d.entries, d.err, requested + d.requested)
  }

  // ------------------------------------------------------ chunk properties

  /**
   * The requests made by a download are a prefix of the chunk plan, all of them
   * answered successfully except, when it failed, the last one; on success the
   * whole plan was requested.
   */
  lemma {:induction false} FetchFromFollowsPlan(log: Log, current: int, end: int, chunkSize: int)
    requires chunkSize >= 1
    ensures var d := FetchFrom(log, current, end, chunkSize);
      && |d.requested| <= |Chunks(current, end, chunkSize)|
      && d.requested == Chunks(current, end, chunkSize)[..|d.requested|]
      && (d.err.None? ==> d.requested == Chunks(current, end, chunkSize))
      && (d.err.Some? ==>
            (|d.requested| >= 1 &&
             var last := d.requested[|d.requested| - 1];
             GetEntries(log, last.start, last.end) == Failure(d.err.value)))
      && (forall k :: 0 <= k < |d.requested| - 1 ==>
            GetEntries(log, d.requested[k].start, d.requested[k].end).Success?)
    decreases end - current
  {
    if current <= end {
      var chunkEnd := Min(current + chunkSize - 1, end);
      if GetEntries(log, current, chunkEnd).Success? && chunkEnd < end {
        FetchFromFollowsPlan(log, current + chunkSize, end, chunkSize);
      }
    }
  }

  /**
   * The text of the error a failed chunked download returns: that of the
   * exchange of its last request, the one that failed.
   */
  function DownloadErrorMessage(log: Log, start: int, end: int, chunkSize: int, cause: string): (m: string)
    requires chunkSize >= 1 && FetchFrom(log, start, end, chunkSize).err.Some?
    ensures IsPrefix(ErrorText(FetchFrom(log, start, end, chunkSize).err.value), m)
  {
    FetchFromFollowsPlan(log, start, end, chunkSize);
    var d := FetchFrom(log, start, end, chunkSize);
    var failing := d.requested[|d.requested| - 1];
    ErrorMessage(log(failing.start, failing.end), cause)
  }

  /** A range that is empty (start > end) makes no request and yields nothing. */
  lemma EmptyRangeNoRequest(log: Log, start: int, end: int, chunkSize: int)
    requires chunkSize >= 1 && start > end
    ensures FetchFrom(log, start, end, chunkSize) == Download([], None, [])
  {
  }

  /**
   * The chunk plan of a non-empty range starts at `current`, ends at `end`,
   * every chunk is non-empty and at most `chunkSize` long, and each chunk
   * starts right after the previous one: the range is covered exactly once,
   * in ascending order.
   */
  lemma {:induction false} ChunksCover(current: int, end: int, chunkSize: int)
    requires chunkSize >= 1 && current <= end
    ensures var cs := Chunks(current, end, chunkSize);
      && |cs| >= 1
      && cs[0].start == current
      && cs[|cs| - 1].end == end
      && (forall k :: 0 <= k < |cs| ==> cs[k].start <= cs[k].end < cs[k].start + chunkSize)
      && (forall k :: 0 <= k < |cs| - 1 ==> cs[k + 1].start == cs[k].end + 1)
    decreases end - current
  {
    var chunkEnd := Min(current + chunkSize - 1, end);
    if chunkEnd < end {
      ChunksCover(current + chunkSize, end, chunkSize);
    }
  }

  // ------------------------------------------------------- fetch window

  /**
   * The window of log indices one cycle fetches: up to `batchSize` entries after
   * `lastProcessedIndex`, or the newest `batchSize` entries when nothing has
   * been processed yet (an index of 0 or less counts as "never processed").
   */
  function CalculateRange(treeSize: int, batchSize: int, lastProcessedIndex: int): (r: FetchRange)
    ensures treeSize == 0 ==> r == FetchRange(0, 0)
    ensures treeSize > 0 && batchSize >= 1 ==> 0 <= r.start <= r.end <= treeSize - 1
    ensures treeSize > 0 && batchSize >= 1 ==> r.end - r.start + 1 <= batchSize
  {
    if treeSize == 0 then FetchRange(0, 0)
    else
      var end := treeSize - 1;
      var start := if lastProcessedIndex > 0 then lastProcessedIndex + 1
                   else if end - batchSize + 1 < 0 then 0 else end - batchSize + 1;
      if start > end then FetchRange(end, end)
      else if end - start + 1 > batchSize then FetchRange(start, start + batchSize - 1)
      else FetchRange(start, end)
  }

  /** A monitor that has caught up with the log re-fetches the newest entry: the range is never empty. */
  lemma CaughtUpRange(treeSize: int, batchSize: int, lastProcessedIndex: int)
    requires treeSize > 0 && lastProcessedIndex > 0 && lastProcessedIndex >= treeSize - 1
    ensures CalculateRange(treeSize, batchSize, lastProcessedIndex) == FetchRange(treeSize - 1, treeSize - 1)
  {
  }

  /** Behind the head: the window starts right after the last processed index and is cut at the batch size. */
  lemma ResumeRange(treeSize: int, batchSize: int, lastProcessedIndex: int)
    requires batchSize >= 1 && 0 < lastProcessedIndex < treeSize - 1
    ensures var r := CalculateRange(treeSize, batchSize, lastProcessedIndex);
      r.start == lastProcessedIndex + 1 &&
      r.end == Min(treeSize - 1, lastProcessedIndex + batchSize)
  {
  }

  /** Never processed: the window is the newest `batchSize` entries, clamped at index 0. */
  lemma FirstRange(treeSize: int, batchSize: int, lastProcessedIndex: int)
    requires treeSize > 0 && batchSize >= 1 && lastProcessedIndex <= 0
    ensures var r := CalculateRange(treeSize, batchSize, lastProcessedIndex);
      r.start == (if treeSize - batchSize < 0 then 0 else treeSize - batchSize) &&
      r.end == treeSize - 1
  {
  }

  /**
   * The range is empty (start > end) only when the batch size is not positive
   * and the monitor is strictly behind the head; with a positive batch size
   * the "no new entries" case of a cycle cannot arise.
   */
  lemma EmptyRangeIff(treeSize: int, batchSize: int, lastProcessedIndex: int)
    requires treeSize >= 0
    ensures var r := CalculateRange(treeSize, batchSize, lastProcessedIndex);
      r.start > r.end <==> treeSize > 0 && batchSize <= 0 && 0 < lastProcessedIndex < treeSize - 1
  {
  }
}
