/**
 * The CSV export: an export row is recorded, marked streaming, and every
 * matching certificate is written as a CSV record after a fixed header,
 * through a buffered writer that is flushed after the header, before every
 * hundredth row and at the end. The row's final status says whether the
 * export completed (with its row count) or failed (with the error's text).
 */
module ExportService {
  import opened Base
  import opened Text
  import opened Database
  import opened MatchesTypes
  import opened MatchesRepository
  import opened MatchesService
  import opened ExportTypes

  /** One CSV record: its fields, before quoting. */
  type Record = seq<string>

  /** The column names of an export, in order. */
  const Header: Record := [
    "id", "keyword_id", "keyword_value", "certificate_sha256",
    "matched_field", "matched_value", "domain_name",
    "issuer_cn", "issuer_org", "subject_cn", "subject_org",
    "not_before", "not_after", "first_seen_at", "last_seen_at",
    "is_new", "ct_log_index"]

  /** An absent text is the empty field. */
  function PtrToString(s: Option<string>): (r: string)
    ensures s.None? ==> r == ""
    ensures s.Some? ==> r == s.value
  {
    match s
    case None => ""
    case Some(v) => v
  }

  /** An absent time is the empty field; a present one is written by `format` (RFC 3339). */
  function FormatTimePtr(t: Option<Time>, format: Time -> string): (r: string)
    ensures t.None? ==> r == ""
    ensures t.Some? ==> r == format(t.value)
  {
    match t
    case None => ""
    case Some(v) => format(v)
  }

  /** strconv.FormatBool. */
  function FormatBool(b: bool): (r: string)
    ensures r == "true" <==> b
    ensures r == "false" <==> !b
  {
    if b then "true" else "false"
  }

  /** The columns of an export. */
  datatype ColumnName =
    | Id | KeywordId | KeywordValue | CertificateSha256 | MatchedField | MatchedValue | DomainName
    | IssuerCN | IssuerOrg | SubjectCN | SubjectOrg | NotBefore | NotAfter | FirstSeenAt | LastSeenAt
    | IsNew | CtLogIndex

  const Columns: seq<ColumnName> := [
    Id, KeywordId, KeywordValue, CertificateSha256, MatchedField, MatchedValue, DomainName,
    IssuerCN, IssuerOrg, SubjectCN, SubjectOrg, NotBefore, NotAfter, FirstSeenAt, LastSeenAt,
    IsNew, CtLogIndex]

  /** The header text of a column. */
  function Name(c: ColumnName): string {
    match c
    case Id => "id"
    case KeywordId => "keyword_id"
    case KeywordValue => "keyword_value"
    case CertificateSha256 => "certificate_sha256"
    case MatchedField => "matched_field"
    case MatchedValue => "matched_value"
    case DomainName => "domain_name"
    case IssuerCN => "issuer_cn"
    case IssuerOrg => "issuer_org"
    case SubjectCN => "subject_cn"
    case SubjectOrg => "subject_org"
    case NotBefore => "not_before"
    case NotAfter => "not_after"
    case FirstSeenAt => "first_seen_at"
    case LastSeenAt => "last_seen_at"
    case IsNew => "is_new"
    case CtLogIndex => "ct_log_index"
  }

  /** The field of a match in a column. */
  function Column(m: Match, c: ColumnName, format: Time -> string): string {
    match c
    case Id => m.id
    case KeywordId => m.keywordID
    case KeywordValue => m.keywordValue
    case CertificateSha256 => m.certSHA256
    case MatchedField => m.matchedField
    case MatchedValue => m.matchedValue
    case DomainName => PtrToString(m.domainName)
    case IssuerCN => PtrToString(m.issuerCN)
    case IssuerOrg => PtrToString(m.issuerOrg)
    case SubjectCN => PtrToString(m.subjectCN)
    case SubjectOrg => PtrToString(m.subjectOrg)
    case NotBefore => FormatTimePtr(m.notBefore, format)
    case NotAfter => FormatTimePtr(m.notAfter, format)
    case FirstSeenAt => format(m.firstSeenAt)
    case LastSeenAt => format(m.lastSeenAt)
    case IsNew => FormatBool(m.isNew)
    case CtLogIndex => IntToString(m.ctLogIndex)
  }

  /** The CSV record of one match. */
  function CsvRow(m: Match, format: Time -> string): (r: Record)
    ensures |r| == |Header|
  {
    [m.id, m.keywordID, m.keywordValue, m.certSHA256, m.matchedField, m.matchedValue,
     PtrToString(m.domainName), PtrToString(m.issuerCN), PtrToString(m.issuerOrg),
     PtrToString(m.subjectCN), PtrToString(m.subjectOrg),
     FormatTimePtr(m.notBefore, format), FormatTimePtr(m.notAfter, format),
     format(m.firstSeenAt), format(m.lastSeenAt), FormatBool(m.isNew), IntToString(m.ctLogIndex)]
  }

  /** The header names the columns, in order. */
  lemma HeaderNamesColumns()
    ensures |Columns| == |Header|
    ensures forall i :: 0 <= i < |Header| ==> Header[i] == Name(Columns[i])
  {
  }

  /** A record holds, at each position, the match's field in that position's column. */
  lemma CsvRowInHeaderOrder(m: Match, format: Time -> string)
    ensures |CsvRow(m, format)| == |Columns|
    ensures forall i :: 0 <= i < |Columns| ==> CsvRow(m, format)[i] == Column(m, Columns[i], format)
  {
  }

  /** The data records of a sequence of rows, in order. */
  function CsvRows(rows: seq<MatchRow>, format: Time -> string): (r: seq<Record>)
    ensures |r| == |rows|
  {
    seq(|rows|, i requires 0 <= i < |rows| => CsvRow(RowToMatch(rows[i]), format))
  }

  // ------------------------------------------------------------ the writer

  /**
   * The destination of the CSV text: it accepts `capacity` records (any
   * number when None) and then fails with `failure`. The writer's buffer
   * holds `bufferSize` records before it passes them on by itself.
   */
  datatype Sink = Sink(capacity: Option<nat>, bufferSize: nat, failure: string)

  /** `a` is `b` cut short. */
  predicate IsPrefix(a: seq<Record>, b: seq<Record>) {
    |a| <= |b| && a == b[..|a|]
  }

  predicate Fits(sink: Sink, n: nat) {
    sink.capacity.None? || n <= sink.capacity.value
  }

  /**
   * The buffered CSV writer: `delivered` records have reached the sink,
   * `pending` ones wait in the buffer, and the first sink error sticks.
   */
  class CsvWriter {
    const sink: Sink
    var delivered: seq<Record>
    var pending: seq<Record>
    var err: Option<string>

    ghost predicate Valid()
      reads this
    {
      && Fits(sink, |delivered|)
      && (err.Some? ==> err == Some(sink.failure) && !Fits(sink, |delivered| + |pending|))
    }

    /** Everything written so far, delivered or not. */
    function Records(): seq<Record>
      reads this
    {
      delivered + pending
    }

    constructor (sink: Sink)
      ensures this.sink == sink && delivered == [] && pending == [] && err == None
      ensures Valid()
    {
      this.sink := sink;
      delivered := [];
      pending := [];
      err := None;
    }

    /**
     * Passes the buffer on: everything when the sink accepts it, otherwise
     * what still fits, after which the sink's error sticks. A writer that
     * already failed is left alone. No record is lost or reordered.
     */
    method Flush()
      requires Valid()
      modifies this
      ensures Valid()
      ensures Records() == old(Records())
      ensures old(err).Some? ==> delivered == old(delivered) && pending == old(pending) && err == old(err)
      ensures old(err).None? ==> (err.None? <==> Fits(sink, |Records()|))
      ensures err.None? ==> pending == [] && delivered == Records()
    {
      if err.None? {
        if Fits(sink, |delivered| + |pending|) {
          delivered := delivered + pending;
          pending := [];
        } else {
          var room := sink.capacity.value - |delivered|;
          assert pending == pending[..room] + pending[room..];
          delivered := delivered + pending[..room];
          pending := pending[room..];
          err := Some(sink.failure);
        }
      }
    }

    /**
     * Buffers one record, passing the buffer on once it holds `bufferSize`
     * records; returns the writer's error. A writer that already failed
     * refuses the record. A write fails only when the sink cannot take
     * everything written so far.
     */
    method Write(record: Record) returns (e: Option<string>)
      requires Valid()
      modifies this
      ensures Valid()
      ensures e == err
      ensures old(err).Some? ==> delivered == old(delivered) && pending == old(pending) && err == old(err)
      ensures old(err).None? ==> Records() == old(Records()) + [record]
      ensures old(err).None? && Fits(sink, |Records()|) ==> e.None?
    {
      if err.Some? {
        return err;
      }
      pending := pending + [record];
      if |pending| >= sink.bufferSize {
        Flush();
      }
      e := err;
    }
  }

  // ------------------------------------------------------------ the export

  /**
   * The outcomes of the export table's statements: the new row's id (or
   * the insert's error), the error of marking it streaming, and the error
   * of its final update (completed or failed), which the export ignores.
   */
  datatype StoreOutcomes = StoreOutcomes(
    created: Result<string, string>,
    streamingError: Option<string>,
    finalError: Option<string>)

  /** The name recorded for an export created at `stamp` (YYYYMMDD_HHMMSS). */
  function Filename(stamp: string): string {
    "export_" + stamp + ".csv"
  }

  /** What the stream statement of `query` yields: the statement of the matches repository, run by `database`. */
  function Streamed(query: ListQuery, lastSuccess: Result<Option<Time>, string>,
                    database: Statement -> StreamOutcome): StreamOutcome
  {
    var q := StreamQuery(query, lastSuccess);
    database(Statement(StreamSql(q), FilterArgs(q)))
  }

  /** The whole export of a stream: the header, then one record per row read before the first failing scan. */
  function AllRecords(outcome: StreamOutcome, format: Time -> string): (r: seq<Record>)
    ensures |r| == 1 + |ScannedPrefix(outcome.rows)|
  {
    [Header] + CsvRows(ScannedPrefix(outcome.rows), format)
  }

  /** Taking one more element of a sequence appends that element. */
  lemma TakeOneMore<T>(s: seq<T>, n: nat)
    requires n < |s|
    ensures s[..n + 1] == s[..n] + [s[n]]
  {
  }

  /** One more row of the stream extends the export by that row's record. */
  lemma AllRecordsStep(outcome: StreamOutcome, format: Time -> string, i: nat)
    requires i < |ScannedPrefix(outcome.rows)|
    ensures AllRecords(outcome, format)[..2 + i] ==
            AllRecords(outcome, format)[..1 + i] + [CsvRow(RowToMatch(outcome.rows[i].value), format)]
  {
    var all := AllRecords(outcome, format);
    var ok := ScannedPrefix(outcome.rows);
    assert all[1 + i] == CsvRows(ok, format)[i] == CsvRow(RowToMatch(ok[i]), format);
    TakeOneMore(all, 1 + i);
  }

  /** The error a stream reports: the query's, else the first failing scan's, else the one at its end. */
  function StreamError(outcome: StreamOutcome): (e: Option<string>)
    ensures e.None? <==>
              outcome.queryError.None? && outcome.endError.None? &&
              forall i :: 0 <= i < |outcome.rows| ==> outcome.rows[i].Success?
  {
    var ok := ScannedPrefix(outcome.rows);
    if outcome.queryError.Some? then outcome.queryError
    else if |ok| < |outcome.rows| then Some(outcome.rows[|ok|].error)
    else outcome.endError
  }

  /**
   * The final row of an export: completed with its count, or failed with
   * the error's text; when that last update fails the row stays streaming.
   */
  function FinalRecord(streaming: ExportRecord, count: nat, err: Option<string>, finalError: Option<string>)
    : (r: ExportRecord)
    ensures finalError.Some? ==> r == streaming
    ensures finalError.None? && err.None? ==> r == streaming.(status := StatusCompleted, recordCount := count)
    ensures finalError.None? && err.Some? ==> r == streaming.(status := StatusFailed, errorMessage := err)
  {
    if finalError.Some? then streaming
    else if err.None? then streaming.(status := StatusCompleted, recordCount := count)
    else streaming.(status := StatusFailed, errorMessage := err)
  }

  /**
   * One data row of the stream: the record is written, and before every
   * hundredth row (`count` rows written so far) the buffer is flushed; the
   * first error of either is returned.
   */
  method WriteRow(w: CsvWriter, row: Record, count: nat) returns (e: Option<string>)
    requires w.Valid() && w.err.None?
    modifies w
    ensures w.Valid() && w.Records() == old(w.Records()) + [row]
    ensures e == w.err
    ensures Fits(w.sink, |w.Records()|) ==> e.None?
  {
    e := w.Write(row);
    if e.Some? {
      return e;
    }
    if count % 100 == 0 {
      w.Flush();
      if w.err.Some? {
        return w.err;
      }
    }
  }

  /**
   * One turn of the stream loop on row `i`: a failed scan is the stream's
   * error; a scanned row is written as its match's record.
   */
  method StreamStep(w: CsvWriter, outcome: StreamOutcome, format: Time -> string, i: nat)
    returns (streamErr: Option<string>)
    requires i < |outcome.rows| && i <= |ScannedPrefix(outcome.rows)|
    requires w.Valid() && w.err.None? && w.Records() == AllRecords(outcome, format)[..1 + i]
    modifies w
    ensures w.Valid() && IsPrefix(w.Records(), AllRecords(outcome, format))
    ensures streamErr.None? ==>
              i < |ScannedPrefix(outcome.rows)| && w.err.None? && w.Records() == AllRecords(outcome, format)[..2 + i]
    ensures streamErr.Some? && w.err.None? ==>
              i == |ScannedPrefix(outcome.rows)| && streamErr == Some(outcome.rows[i].error)
    ensures w.err.Some? ==> streamErr == w.err
  {
    if outcome.rows[i].Failure? {
      return Some(outcome.rows[i].error);
    }
    var row := CsvRow(RowToMatch(outcome.rows[i].value), format);
    AllRecordsStep(outcome, format, i);
    streamErr := WriteRow(w, row, i);
  }

  /**
   * The rows of a stream, written after the header: the query's error ends
   * the stream at once; each scanned row is written as its match's record
   * and the buffer is flushed before every hundredth row; the first failing
   * scan, write or flush ends it; a stream read to its end reports the
   * error found there. `count` is the number of rows written in full.
   */
  method StreamRows(w: CsvWriter, outcome: StreamOutcome, format: Time -> string)
    returns (count: nat, streamErr: Option<string>)
    requires w.Valid() && w.err.None? && w.Records() == [Header]
    modifies w
    ensures w.Valid()
    ensures count <= |ScannedPrefix(outcome.rows)|
    ensures IsPrefix(w.Records(), AllRecords(outcome, format))
    ensures streamErr.None? ==>
              StreamError(outcome).None? && w.err.None? && w.Records() == AllRecords(outcome, format) &&
              count == |outcome.rows|
    ensures streamErr.Some? && w.err.None? ==>
              streamErr == StreamError(outcome) &&
              count == (if outcome.queryError.Some? then 0 else |ScannedPrefix(outcome.rows)|)
    ensures w.err.Some? ==> streamErr == w.err
  {
    ghost var ok := ScannedPrefix(outcome.rows);
    ghost var all := AllRecords(outcome, format);
    assert w.Records() == all[..1];
    count := 0;
    if outcome.queryError.Some? {
      return 0, outcome.queryError;
    }
    streamErr := None;
    var rows := outcome.rows;
    var i := 0;
    while i < |rows| && streamErr.None?
      decreases |rows| - i, if streamErr.None? then 1 else 0
      invariant i == count <= |ok|
      invariant w.Valid() && IsPrefix(w.Records(), all)
      invariant streamErr.None? ==> w.err.None? && w.Records() == all[..1 + i]
      invariant streamErr.Some? && w.err.None? ==> i == |ok| < |rows| && streamErr == Some(rows[i].error)
      invariant w.err.Some? ==> streamErr == w.err
    {
      streamErr := StreamStep(w, outcome, format, i);
      if streamErr.None? {
        ghost var next := all[..2 + i];
        count := count + 1;
        i := i + 1;
        assert next == all[..1 + i];
      }
    }
    if streamErr.None? {
      assert i == |rows| == |ok|;
      assert all[..1 + i] == all;
      streamErr := outcome.endError;
    }
  }

  /**
   * What a finished export has written, given the stream, the record
   * format and the sink: `count` data records were written in full, `out`
   * (what reached the sink) is a prefix of the whole export, and `err` is
   * None exactly when the stream reported no error and the sink took the
   * whole export. With a sink that takes everything, `err` is the stream's
   * own error; with a stream that has none, it is the sink's.
   */
  predicate ExportWritten(outcome: StreamOutcome, format: Time -> string, sink: Sink,
                          count: nat, err: Option<string>, out: seq<Record>)
  {
    var all := AllRecords(outcome, format);
    && count <= |ScannedPrefix(outcome.rows)|
    && IsPrefix(out, all)
    && (err.None? <==> StreamError(outcome).None? && Fits(sink, |all|))
    && (err.None? ==> out == all && count == |outcome.rows|)
    && (Fits(sink, 1 + |outcome.rows|) ==>
          err == StreamError(outcome) &&
          count == (if outcome.queryError.Some? then 0 else |ScannedPrefix(outcome.rows)|))
    && (StreamError(outcome).None? && err.Some? ==> err == Some(sink.failure))
    && (!Fits(sink, 1) ==> count == 0 && err == Some(sink.failure) && out == [])
  }

  /**
   * The writing part of an export: the header, written and flushed; the
   * streamed rows; a last flush, whose error counts only when the stream
   * had none.
   */
  method WriteAll(w: CsvWriter, outcome: StreamOutcome, format: Time -> string)
    returns (count: nat, err: Option<string>)
    requires w.Valid() && w.delivered == [] && w.pending == [] && w.err.None?
    modifies w
    ensures ExportWritten(outcome, format, w.sink, count, err, w.delivered)
  {
    ghost var all := AllRecords(outcome, format);
    var e := w.Write(Header);
    if e.Some? {
      return 0, e;
    }
    w.Flush();
    if w.err.Some? {
      return 0, w.err;
    }
    assert Fits(w.sink, 1);
    var streamErr;
    count, streamErr := StreamRows(w, outcome, format);
    ghost var written := w.Records();
    ghost var errBefore := w.err;
    w.Flush();
    err := streamErr;
    if w.err.Some? && streamErr.None? {
      err := w.err;
    }
    assert IsPrefix(w.delivered, written);
    ExportWrittenAtEnd(outcome, format, w.sink, count, streamErr, err, w.delivered, written, errBefore, w.err);
  }

  /** The closing argument of WriteAll, from what the stream and the last flush leave behind. */
  lemma ExportWrittenAtEnd(outcome: StreamOutcome, format: Time -> string, sink: Sink, count: nat,
                           streamErr: Option<string>, err: Option<string>, delivered: seq<Record>,
                           written: seq<Record>, errBefore: Option<string>, errAfter: Option<string>)
    requires Fits(sink, 1) && Fits(sink, |delivered|) && IsPrefix(delivered, written)
    requires count <= |ScannedPrefix(outcome.rows)| && IsPrefix(written, AllRecords(outcome, format))
    requires streamErr.None? ==>
               StreamError(outcome).None? && errBefore.None? && written == AllRecords(outcome, format) &&
               count == |outcome.rows|
    requires streamErr.Some? && errBefore.None? ==>
               streamErr == StreamError(outcome) &&
               count == (if outcome.queryError.Some? then 0 else |ScannedPrefix(outcome.rows)|)
    requires errBefore.Some? ==>
               streamErr == errBefore == errAfter && errBefore == Some(sink.failure) && !Fits(sink, |written|)
    requires errBefore.None? ==> (errAfter.None? <==> Fits(sink, |written|))
    requires errAfter.Some? ==> errAfter == Some(sink.failure)
    requires errAfter.None? ==> delivered == written
    requires err == if errAfter.Some? && streamErr.None? then errAfter else streamErr
    ensures ExportWritten(outcome, format, sink, count, err, delivered)
  {
  }

  class Service {
    /** The exports table, by id. */
    var exports: map<string, ExportRecord>

    constructor ()
      ensures exports == map[]
    {
      exports := map[];
    }

    /**
     * The streaming part of an export whose row `id` is marked streaming:
     * the matches of the query are written, and the row is then marked
     * completed with the count or failed with the error's text (an error of
     * that last update, `finalError`, is ignored).
     */
    method Stream(id: string, streaming: ExportRecord, query: ListQuery,
                  lastSuccess: Result<Option<Time>, string>, database: Statement -> StreamOutcome,
                  format: Time -> string, sink: Sink, finalError: Option<string>)
      returns (count: nat, err: Option<string>, out: seq<Record>)
      requires id in exports && exports[id] == streaming
      modifies this
      ensures ExportWritten(Streamed(query, lastSuccess, database), format, sink, count, err, out)
      ensures exports == old(exports)[id := FinalRecord(streaming, count, err, finalError)]
    {
      var w := new CsvWriter(sink);
      var statement := StreamStatement(StreamQuery(query, lastSuccess));
      assert database(statement) == Streamed(query, lastSuccess, database);
      count, err := WriteAll(w, database(statement), format);
      out := w.delivered;
      if finalError.None? {
        if err.Some? {
          exports := exports[id := streaming.(status := StatusFailed, errorMessage := err)];
        } else {
          exports := exports[id := streaming.(status := StatusCompleted, recordCount := count)];
        }
      }
    }

    /**
     * ExportCSV: records the export as pending and marks it streaming before
     * anything is written; writes the header and then one record per
     * streamed match; returns the number of data records written and the
     * first error, after marking the export failed; otherwise marks it
     * completed with that number. `out` is what reached the sink.
     */
    method ExportCSV(query: ListQuery, stamp: string, now: Time, store: StoreOutcomes,
                     lastSuccess: Result<Option<Time>, string>, database: Statement -> StreamOutcome,
                     format: Time -> string, sink: Sink)
      returns (count: nat, err: Option<string>, out: seq<Record>)
      modifies this
      ensures store.created.Failure? ==>
                count == 0 && err == Some(store.created.error) && out == [] && exports == old(exports)
      ensures store.created.Success? && store.streamingError.Some? ==>
                && count == 0 && err == store.streamingError && out == []
                && exports == old(exports)[store.created.value :=
                     ExportRecord(Filename(stamp), 0, FiltersFromMatchQuery(query), StatusPending, None, now)]
      ensures store.created.Success? && store.streamingError.None? ==>
                && ExportWritten(Streamed(query, lastSuccess, database), format, sink, count, err, out)
                && exports == old(exports)[store.created.value := FinalRecord(
                     ExportRecord(Filename(stamp), 0, FiltersFromMatchQuery(query), StatusStreaming, None, now),
                     count, err, store.finalError)]
    {
      var filename := Filename(stamp);
      var filterParams := FiltersFromMatchQuery(query);
      if store.created.Failure? {
        return 0, Some(store.created.error), [];
      }
      var id := store.created.value;
      exports := exports[id := ExportRecord(filename, 0, filterParams, StatusPending, None, now)];
      if store.streamingError.Some? {
        return 0, store.streamingError, [];
      }
      var streaming := ExportRecord(filename, 0, filterParams, StatusStreaming, None, now);
      exports := exports[id := streaming];
      count, err, out := Stream(id, streaming, query, lastSuccess, database, format, sink, store.finalError);
    }
  }
}
