# Brand-protection CT monitor — Dafny model

This project models the core of a brand-protection monitor. The system has two halves.

The Go backend polls a Certificate Transparency log (RFC 6962) in cycles:
- it claims the monitor state (idle → running) in a transaction;
- it picks the next window of entries from the signed tree head and downloads it in chunks;
- it parses each `leaf_input` into the certificate fields it needs;
- it normalises the domain names and matches them against the active keywords;
- it upserts every match and records the run's metrics.

Around that cycle the backend serves:
- the `/matches` and `/keywords` endpoints: query parsing, SQL statement building, paging clamps and error mapping;
- a streamed CSV export;
- the monitor status;
- a request-id middleware and a per-IP rate limiter;
- configuration from the environment.

The TypeScript/React dashboard holds:
- the filter, page and sort state and the matches query derived from it;
- the export dialog's state machine and its query parameters;
- the keyword form's validation and the keyword table's delete flow;
- the response schemas;
- the small display rules of the table, the app bar, the metric cards, the badges and the select controls.

There is one Dafny module per source file, plus:
- `Base`, with Option and Result;
- `Text`, with ASCII case mapping, trimming, decimal rendering, Go's `strconv.Atoi` and JavaScript's `parseInt`;
- `Database`, the backend's tables held as maps in one class;
- `QueryString`, the query parameters of a backend request as gin reads them;
- `HttpErrors` and `SearchParams`, the shapes of a failed request and of URLSearchParams.

The form of each module follows its source file:
- Code that only computes is modelled as functions and lemmas.
- Code that updates state becomes classes whose methods state the new state. Examples are the repositories, the scheduler, the CSV writer, the middleware context, the rate limiter, the stores and the component state of the dashboard.
- Loops become methods with invariants, proved against specification functions. Examples are the chunked download, the entry loop of a cycle, the row scan and the CSV streaming.
- Asynchronous handlers are split into a method for the part before the awaited request and one for the part after it. The request's outcome is a parameter of the second.

## Model

| member | source | states |
|---|---|---|
| Text.Lower | backend/internal/parser/normalize.go:6 | `strings.ToLower` keeps the length and lowercases each letter in place |
| Text.LowerHasNoUpper | backend/internal/parser/normalize.go:6 | a lowercased text has no upper-case letter left |
| Text.TrimSpaceShape | backend/internal/features/keywords/service.go:55 | `strings.TrimSpace` yields a slice of the input with no surrounding white space, only white space cut on either side |
| Text.TrimSpaceIdempotent | backend/internal/features/keywords/repository.go:115 | trimming an already trimmed text changes nothing |
| Text.GoAtoi | backend/internal/features/matches/handler.go:56 | `strconv.Atoi` succeeds only on a text starting with a sign or digit, and only with a value in the int64 range |
| Text.GoAtoiRoundTrip | backend/internal/config/config.go:26 | every int64 rendered in decimal reads back as itself |
| Text.JsParseIntOfNat | frontend/src/features/export/components/export-modal.tsx:90 | `parseInt` reads back a rendered natural number whatever non-digit text follows it |
| Text.JsParseIntNaN | frontend/src/features/export/components/export-modal.tsx:90 | `parseInt` of a text whose first non-blank character is neither sign nor digit is NaN |
| Normalize.NormalizeDomain | backend/internal/parser/normalize.go:5-9 | the result is the domain lower-cased character by character, one character shorter exactly when the domain ends in "." |
| Normalize.StripsOneDot | backend/internal/parser/normalize.go:7 | only one trailing dot is removed: "a.." gives "a.", so normalising twice can differ from normalising once |
| Normalize.NormalizeDomainNoop | backend/internal/parser/normalize.go:5-9 | a lower-case domain without a trailing dot is returned unchanged |
| Normalize.NormalizeDomains | backend/internal/parser/normalize.go:11-24 | the loop returns exactly the reference list `Normalized(domains)`: non-empty normalised names, first occurrences only |
| Normalize.NormalizedShape | backend/internal/parser/normalize.go:17 | the output is no longer than the input and never holds the empty name |
| Normalize.NormalizedDistinct | backend/internal/parser/normalize.go:13-19 | no name appears twice in the output |
| Normalize.NormalizedSound | backend/internal/parser/normalize.go:15-20 | every output name is the normalisation of some input |
| Normalize.NormalizedComplete | backend/internal/parser/normalize.go:15-20 | every input with a non-empty normalisation is represented in the output |
| Normalize.NormalizedFirstOccurrenceOrder | backend/internal/parser/normalize.go:15-20 | output names keep the order in which their first producing input appears |
| Matcher.MatchedField.Name | backend/internal/matcher/types.go:5-9 | the stored field name is one of "cn", "san", "both" |
| Matcher.FieldNamesDistinct | backend/internal/matcher/types.go:5-9 | two fields have the same stored name only if they are the same field |
| Matcher.FirstMatchingSAN | backend/internal/matcher/matcher.go:30-36 | none iff no SAN contains the keyword in lower case; otherwise the first such SAN in certificate order |
| Matcher.MatchKeyword | backend/internal/matcher/matcher.go:21-59 | a match carries the keyword's id and value, and its domain name equals its matched value |
| Matcher.MatchAll | backend/internal/matcher/matcher.go:17-63 | at most one match per keyword |
| Matcher.Matcher.constructor | backend/internal/matcher/matcher.go:13-15 | the matcher holds the given keywords |
| Matcher.Matcher.Match | backend/internal/matcher/matcher.go:17-63 | the loop returns exactly `MatchAll(cert, keywords)` |
| Matcher.MatchIff | backend/internal/matcher/matcher.go:26-38 | a keyword matches iff the CN is non-empty and contains the lower-case keyword, or some lower-cased SAN contains it |
| Matcher.Classification | backend/internal/matcher/matcher.go:44-56 | "both" iff CN and some SAN match, "cn" iff only the CN matches, "san" iff the CN does not; CN matches report the CN, SAN matches the first matching SAN |
| Matcher.OneMatchPerKeywordInOrder | backend/internal/matcher/matcher.go:20-60 | the matches are those of exactly the matching keywords, one each, in keyword order |
| Matcher.NoKeywordsNoMatches | backend/internal/matcher/matcher.go:18-20 | without keywords there are no matches |
| X509Parser.Uint16At | backend/internal/parser/x509_parser.go:27 | two big-endian bytes read as a number below 2^16 |
| X509Parser.Uint24At | backend/internal/parser/x509_parser.go:45 | three big-endian bytes read as a number below 2^24 |
| X509Parser.Uint24RoundTrip | backend/internal/parser/x509_parser.go:45 | a 24-bit length written big-endian reads back unchanged at any offset |
| X509Parser.Uint16RoundTrip | backend/internal/parser/x509_parser.go:27 | a 16-bit entry type written big-endian reads back unchanged at any offset |
| X509Parser.ParseEntry | backend/internal/parser/x509_parser.go:17-33 | the index is kept; undecodable base64 and leaves shorter than 15 bytes fail with "invalid leaf input" |
| X509Parser.ParseEntryDispatch | backend/internal/parser/x509_parser.go:29-33 | a decoded leaf of at least 15 bytes with entry type 1 is parsed as a precert entry, any other as an x509 entry |
| X509Parser.ParseX509Entry | backend/internal/parser/x509_parser.go:35-52 | short leaf: invalid input; exactly 15 bytes: no certificate; length past the end: invalid input; success only on the bytes after offset 15 of the stated length |
| X509Parser.ParsePrecert | backend/internal/parser/x509_parser.go:54-77 | the same framing at offset 47 with the length at bytes 44-46; success only on the TBSCertificate bytes |
| X509Parser.ParseCertFromExtraData | backend/internal/parser/x509_parser.go:79-81 | always fails with "certificate parse failed" |
| X509Parser.ParseCertDER | backend/internal/parser/x509_parser.go:83-90 | succeeds iff the X.509 decoder accepts the bytes, else "certificate parse failed"; keeps the bytes as raw DER |
| X509Parser.FirstOrEmpty | backend/internal/parser/x509_parser.go:100-105 | the first organisation, or "" when there is none |
| X509Parser.BuildParsedCert | backend/internal/parser/x509_parser.go:92-115 | fingerprint of the DER, normalised subject CN and SANs, raw issuer CN, first organisations, both validity dates and the DER bytes |
| X509Parser.ParsedNamesNormalised | backend/internal/parser/x509_parser.go:95-107 | a parsed certificate's CN has no upper case and its SANs hold no empty or repeated name |
| X509Parser.ParseX509Leaf | backend/internal/parser/x509_parser.go:35-52 | for a leaf framed as an x509_entry, exactly the certificate bytes reach the decoder; an empty leaf body reads as "no certificate" |
| X509Parser.ParsePrecertLeaf | backend/internal/parser/x509_parser.go:54-77 | for a leaf framed as a precert_entry, success iff the decoder accepts the TBSCertificate, which becomes the raw DER |
| CtClient.Classify | backend/internal/ct/client.go:38-66 | success iff a 200 response with a decodable body; timeout iff the transport timed out; HTTP error iff the status is not 200; invalid JSON iff a 200 body does not decode; connection error for every other failure |
| CtClient.ErrorText | backend/internal/ct/types.go:9-12 | the four sentinel error texts, each naming the CT log at its end |
| CtClient.ErrorMessage | backend/internal/ct/client.go:38-63 | the text `err.Error()` of a failed exchange starts with its sentinel's text; a timeout is the bare sentinel; a non-200 status reads "HTTP error from CT log: status <code>" |
| CtClient.MessageNamesItsError | backend/internal/ct/client.go:38-63 | the error text starts with a sentinel's text exactly when that sentinel is the classified error, so `errors.Is` on the wrapped error finds it and no other |
| CtClient.GetSTH | backend/internal/ct/client.go:35-66 | the tree head is returned iff the exchange was a 200 response with a decodable body, and is that body |
| CtClient.GetEntries | backend/internal/ct/client.go:69-100 | the entries are returned iff the exchange for [start, end] was a 200 response with a decodable body, and are that body |
| CtClient.FetchFrom | backend/internal/ct/client.go:103-125 | the reference download makes no request exactly when start > end, and an error always follows a request |
| CtClient.FetchFromStep | backend/internal/ct/client.go:106-121 | one step of the download: a failing chunk ends it with that error, a last chunk ends it, any other chunk is followed by the rest |
| CtClient.DownloadErrorMessage | backend/internal/ct/client.go:112-114 | the text a failed download returns starts with the text of the sentinel error of the failing chunk |
| CtClient.GetEntriesChunked | backend/internal/ct/client.go:103-125 | the loop's entries, error and requests are exactly those of the reference download `FetchFrom(log, start, end, chunkSize)` |
| CtClient.FetchFromFollowsPlan | backend/internal/ct/client.go:106-121 | the requests made are a prefix of the chunk plan; all but a failing last one succeeded; a download without error requested the whole plan |
| CtClient.EmptyRangeNoRequest | backend/internal/ct/client.go:106 | a range with start > end makes no request and returns nothing |
| CtClient.ChunksCover | backend/internal/ct/client.go:106-110 | the chunk plan covers the range exactly once, in ascending order, with non-empty chunks of at most chunkSize entries |
| CtClient.CalculateRange | backend/internal/ct/client.go:127-153 | an empty log gives [0,0]; otherwise the range lies inside the log and holds at most batchSize entries |
| CtClient.CaughtUpRange | backend/internal/ct/client.go:144-146 | a monitor at or past the head re-fetches only the newest entry |
| CtClient.ResumeRange | backend/internal/ct/client.go:135-136 | behind the head, the range starts right after the last processed index and ends at the head or after batchSize entries |
| CtClient.FirstRange | backend/internal/ct/client.go:137-142 | never processed: the newest batchSize entries, clamped at index 0 |
| CtClient.EmptyRangeIff | backend/internal/ct/client.go:144-150 | the range is empty only for a batch size of 0 or less while the monitor is behind the head |
| Database.CollectedMeaning | backend/internal/scheduler/repository.go:153-161 | a row scan succeeds iff every row scans, keeping all rows in order; otherwise it reports the first failing scan |
| Database.CollectedStopsAtFailure | backend/internal/features/keywords/repository.go:57-61 | a failed scan ends the loop with its error; later rows are not read |
| Database.ScanRows | backend/internal/features/keywords/repository.go:56-65 | the scan loop shared by the keyword list and the active-keyword load returns exactly the reference `Collected(scanned)` |
| Database.ScannedPrefix | backend/internal/scheduler/repository.go:153-160 | the rows read before the first failing scan, all successful, stopping at that failure |
| Database.CollectedIsScannedPrefix | backend/internal/features/keywords/repository.go:57-63 | the scan succeeds iff its successful prefix is every row, and then returns that prefix |
| SchedulerRepository.InsertedRow | backend/internal/scheduler/repository.go:172-178 | the inserted row carries the conflict key of the match |
| SchedulerRepository.Upserted | backend/internal/scheduler/repository.go:170-188 | the table gains at most the match's key and no other row changes |
| SchedulerRepository.UpsertNewKey | backend/internal/scheduler/repository.go:172-178 | a first sighting stores every inserted column, flagged new, first and last seen now |
| SchedulerRepository.UpsertExistingKey | backend/internal/scheduler/repository.go:179-183 | a repeat sighting only sets last_seen_at, monitor_run_id and is_new = FALSE; first_seen_at is kept |
| SchedulerRepository.UpsertKeepsKeys | backend/internal/scheduler/repository.go:179 | every row stays stored under its own (sha256, keyword, field) key |
| SchedulerRepository.UpsertTwice | backend/internal/scheduler/repository.go:179-183 | the same match upserted twice leaves one row, no longer new, last seen at the second time |
| SchedulerRepository.UpsertAllAppend | backend/internal/scheduler/repository.go:170-188 | upserting two lists in turn equals upserting their concatenation |
| SchedulerRepository.UpsertAllKeys | backend/internal/scheduler/repository.go:170-188 | after a list of upserts the keys are those of the table and of the inserts |
| SchedulerRepository.Accepted | backend/internal/scheduler/scheduler.go:243-245 | the upserts that took effect: a sub-list of those issued, each one whose statement did not fail |
| SchedulerRepository.AcceptedAppend | backend/internal/scheduler/scheduler.go:210-245 | the upserts that took effect from two lists in turn are those of each, in turn |
| SchedulerRepository.AcceptedSnoc | backend/internal/scheduler/scheduler.go:243-245 | one more upsert takes effect exactly when its statement does not fail |
| SchedulerRepository.AcceptedExtremes | backend/internal/scheduler/scheduler.go:243-245 | when no upsert fails all take effect; when every one fails none does |
| SchedulerRepository.Tx.SetStateRunning | backend/internal/scheduler/repository.go:88-93 | within the transaction the state becomes running, last_run_at now, both error fields NULL |
| SchedulerRepository.Tx.Commit | backend/internal/scheduler/repository.go:208-210 | a commit publishes the pending state row; a failed one changes nothing |
| SchedulerRepository.Repository.LockStateForUpdate | backend/internal/scheduler/repository.go:76-86 | the current state row, or the query error |
| SchedulerRepository.Repository.SetStateIdle | backend/internal/scheduler/repository.go:95-100 | when the statement succeeds: state idle with the new tree size, processed index and last_success_at, error fields kept; when it fails: its error is returned and nothing changes |
| SchedulerRepository.Repository.SetStateError | backend/internal/scheduler/repository.go:102-107 | when the statement succeeds: state error with the code and message, indices kept; when it fails: its error is returned and nothing changes |
| SchedulerRepository.Repository.CreateRun | backend/internal/scheduler/repository.go:109-117 | a new running run under the generated id, or the database error with the table unchanged |
| SchedulerRepository.Repository.UpdateRunSuccess | backend/internal/scheduler/repository.go:119-131 | when the statement succeeds and the run exists: completed with parsed count, parse errors, matches and end index, the fetched count not stored; otherwise the runs are unchanged; the statement's error is returned |
| SchedulerRepository.Repository.UpdateRunError | backend/internal/scheduler/repository.go:133-142 | when the statement succeeds and the run exists: failed with the message, the error code not stored; otherwise the runs are unchanged; the statement's error is returned |
| SchedulerRepository.Repository.GetActiveKeywords | backend/internal/scheduler/repository.go:144-162 | a query error is returned as is; otherwise the load succeeds iff every active row scans, and then holds every active, not deleted keyword exactly once and nothing else; a failed scan returns that row's error |
| SchedulerRepository.Repository.ActiveRows | backend/internal/scheduler/repository.go:145-147 | the query's rows: every active, not deleted keyword, each once, and nothing else |
| SchedulerRepository.Repository.UpsertMatch | backend/internal/scheduler/repository.go:170-188 | when the statement succeeds the match table becomes `Upserted(old table, m, now)`; when it fails its error is returned and nothing changes; no other table changes |
| Scheduler.SthErrorCode | backend/internal/scheduler/scheduler.go:128-137 | a failed get-sth is CT_INVALID_JSON iff the body was invalid JSON, CT_TIMEOUT iff it timed out, and CT_CONNECTION_ERROR for connection and HTTP errors |
| Scheduler.FetchErrorCode | backend/internal/scheduler/scheduler.go:160-165 | a failed download is CT_INVALID_JSON iff the body was invalid JSON, else CT_FETCH_ERROR |
| Scheduler.WindowResults | backend/internal/scheduler/scheduler.go:196-198 | one parse result per fetched entry; entry i is parsed at log index start + i |
| Scheduler.OptionalText | backend/internal/scheduler/scheduler.go:225-239 | an empty text is stored as NULL, any other text as itself |
| Scheduler.InsertFor | backend/internal/scheduler/scheduler.go:213-241 | the stored row carries the keyword, run, fingerprint, field name, value, log index and log URL; empty CN and domain become NULL |
| Scheduler.EntryInserts | backend/internal/scheduler/scheduler.go:209-246 | one row per match of the entry, each at the entry's index and in the current run |
| Scheduler.ParsedCount | backend/internal/scheduler/scheduler.go:200-206 | no more parsed entries than entries |
| Scheduler.OneUpsertPerMatch | backend/internal/scheduler/scheduler.go:210-245 | exactly one upsert is attempted per match found |
| Scheduler.InsertsComeFromParsedEntries | backend/internal/scheduler/scheduler.go:196-249 | every upserted row belongs to the current run and carries the log index of an entry that parsed |
| Scheduler.NothingParsedKeepsStart | backend/internal/scheduler/scheduler.go:194 | when no entry of the window parses, the processed index stays at the window's start |
| Scheduler.LastParsedIndexIsLastSuccess | backend/internal/scheduler/scheduler.go:248 | otherwise the processed index is the index of the last entry that parsed |
| Scheduler.AfterFatalError | backend/internal/scheduler/scheduler.go:266-271 | after a fatal error the state is error with the code and message, unless that write fails, when the state row is unchanged; the indices are kept either way |
| Scheduler.AfterIdle | backend/internal/scheduler/scheduler.go:145-150 | after a window the state is idle at the new tree size and index with last_success_at set to now, keeping the last error and code, unless that write fails, when the state row is unchanged |
| Scheduler.FailedRun | backend/internal/scheduler/scheduler.go:166 | a run whose window failed is failed with the message, unless that write fails, when it stays running |
| Scheduler.Scheduler.constructor | backend/internal/scheduler/scheduler.go:26-32 | a new scheduler is not running |
| Scheduler.Scheduler.Start | backend/internal/scheduler/scheduler.go:34-47 | afterwards the scheduler is running, whether or not it already was |
| Scheduler.Scheduler.Stop | backend/internal/scheduler/scheduler.go:273-284 | afterwards the scheduler is not running |
| Scheduler.Scheduler.Run | backend/internal/scheduler/scheduler.go:49-76 | a config error ends the loop before any cycle; otherwise one outcome per tick; once a cycle leaves the monitor not idle, every later cycle skips; a monitor that was not idle skips every cycle and keeps its state |
| Scheduler.Scheduler.HandleFatalError | backend/internal/scheduler/scheduler.go:266-271 | the monitor state becomes `AfterFatalError`: error with the code and message, or unchanged when that write fails; runs and matches are unchanged |
| Scheduler.Scheduler.RunCycle | backend/internal/scheduler/scheduler.go:78-118 | a state that is not idle skips the cycle and changes nothing; a claimed cycle ends not idle exactly when it failed or its idle write failed; a failure leaves error with its code and message, or running when that write fails; CONFIG_ERROR carries the config error; a failed get-sth carries its code and the wrapped client error text; a completed cycle satisfies `WindowDone` for the window after the stored index: the entries were matched against exactly the active, not deleted keywords (`ActiveKeywords`), each once with its id, text and normalised value, and parsed + errors = fetched |
| Scheduler.Scheduler.ExecuteCycle | backend/internal/scheduler/scheduler.go:120-264 | a failed get-sth gives its code and touches no run; an empty window is `AfterIdle` at the new tree size and the old index; otherwise the window is processed completely, as `WindowDone` states (including that the matcher held exactly the active keywords), and the state is `AfterIdle` at the last parsed index |
| Scheduler.Scheduler.ProcessWindow | backend/internal/scheduler/scheduler.go:153-264 | a failed CreateRun is DB_ERROR with the state in error and no run; a failed download or keyword load gives its code, the error state and a failed run with the wrapped message, and stores no match; otherwise the run completes against exactly the active keywords (`ActiveKeywords`), every accepted upsert is applied and the state is `AfterIdle` |
| Scheduler.Scheduler.ProcessRun | backend/internal/scheduler/scheduler.go:159-264 | after the run is created: a failed download is CT_INVALID_JSON or CT_FETCH_ERROR with run code CT_ERROR, a failed keyword load is DB_ERROR, each with the run failed; otherwise the window completes with the matcher built from exactly the active keywords; only this run changes |
| Scheduler.Scheduler.FailWindow | backend/internal/scheduler/scheduler.go:160-176 | the state becomes `AfterFatalError` and the run `FailedRun` with the message; matches and keywords are unchanged |
| Scheduler.Scheduler.CompleteWindow | backend/internal/scheduler/scheduler.go:179-263 | the entries are processed, the run becomes completed with the counters (or stays running when that write fails), and the state becomes `AfterIdle` at the last parsed index |
| Scheduler.Scheduler.ProcessEntries | backend/internal/scheduler/scheduler.go:190-249 | the counters, the processed index and the match table equal the reference functions over the window's parse results; every match is counted, whether or not its upsert took effect |
| Scheduler.Scheduler.ProcessEntry | backend/internal/scheduler/scheduler.go:197-248 | an entry counts as parsed iff it parses; all its matches are counted; the upserts that took effect are applied in match order |
| Scheduler.Scheduler.ToMatcherKeywords | backend/internal/scheduler/scheduler.go:179-186 | one matcher keyword per row, with the row's id, keyword and normalised value |
| Scheduler.MatcherKeywordOf | backend/internal/scheduler/scheduler.go:181-185 | the matcher keyword of a row carries its id, its keyword as the value and its normalised value |
| Scheduler.LoadedKeywordsAreActive | backend/internal/scheduler/scheduler.go:172-186 | the matcher keywords built from a successful GetActiveKeywords are exactly the active, not deleted rows of the table, each once, each built from its row |
| Scheduler.ActiveKeywordsMembers | backend/internal/scheduler/scheduler.go:179-188 | a keyword is among the matcher keywords iff its id names an active, not deleted row and it is that row's matcher keyword |
| MatchesRepository.OrderBy | backend/internal/features/matches/repository.go:69-76 | last_seen_desc orders by last seen, domain_asc by domain, every other sort name by first seen |
| MatchesRepository.PlaceholdersNumberArgs | backend/internal/features/matches/repository.go:22-52 | the conditions read placeholders 1, 2, ... in turn, one per bound argument |
| MatchesRepository.ConditionsBound | backend/internal/features/matches/repository.go:24-52 | each condition's placeholder holds the value of its own filter, which is present |
| MatchesRepository.ConditionsComplete | backend/internal/features/matches/repository.go:24-56 | the conditions are exactly the present filters, once each, in builder order; all but new-only bind an argument |
| MatchesRepository.WhereBound | backend/internal/features/matches/repository.go:20-56 | every placeholder of the WHERE clause is bound to a filter argument |
| MatchesRepository.AddFilter | backend/internal/features/matches/repository.go:24-28 | an absent filter changes nothing; new-only appends its condition alone; any other present filter appends its condition at the current placeholder and its value, and advances the index |
| MatchesRepository.BuildFilter | backend/internal/features/matches/repository.go:20-56 | the builder yields the base clause plus the present filters' conditions, the reference argument list, and the next free placeholder |
| MatchesRepository.ListStatements | backend/internal/features/matches/repository.go:58-80 | the count shares the WHERE clause and arguments; the page adds ORDER BY, then LIMIT and OFFSET at the next two placeholders with offset (page - 1) * pageSize; every placeholder is bound |
| MatchesRepository.StreamStatement | backend/internal/features/matches/repository.go:102-154 | the export statement has the same WHERE clause, arguments and ORDER BY as List, with no LIMIT; every placeholder is bound |
| MatchesRepository.ListOutcome | backend/internal/features/matches/repository.go:60-99 | the page's rows and the total, or the count's error, then the rows' error |
| MatchesService.RowToMatch | backend/internal/features/matches/service.go:62-82 | every column of the row is copied: mapping the match back gives the row |
| MatchesService.RowToMatchInjective | backend/internal/features/matches/service.go:62-82 | distinct rows give distinct matches |
| MatchesService.MatchToRow | backend/internal/features/matches/service.go:62-82 | the inverse copy of a match into a row, used to state that RowToMatch loses no column |
| MatchesService.WithLastSuccess | backend/internal/features/matches/service.go:26-31 | only the last success time can change; a new-only query whose lookup succeeds and finds a time gets exactly that time; every other query is unchanged |
| MatchesService.Normalized | backend/internal/features/matches/service.go:16-24 | a page below 1 becomes 1, a page size other than 10, 25 or 50 becomes 10, an empty sort becomes first-seen; valid values are kept and nothing else changes |
| MatchesService.NormalizedIdempotent | backend/internal/features/matches/service.go:16-24 | normalising a normalised query changes nothing |
| MatchesService.List | backend/internal/features/matches/service.go:15-47 | the repository receives the normalised query with the last success time; its error is returned; otherwise one match per row, in order, with its total |
| MatchesService.StreamQuery | backend/internal/features/matches/service.go:49-55 | the stream query differs from the request only in the last success time, which is the looked-up time for a new-only request with a successful lookup that found one, and the request's otherwise |
| MatchesService.StreamedMatches | backend/internal/features/matches/service.go:57-59 | one match per streamed row, in the repository's order |
| MatchesService.ListAndStreamShareFilter | backend/internal/features/matches/service.go:26-55 | the list and the stream apply the same new-only filter: both get the looked-up time under the same conditions |
| MatchesHandler.ParseDate | backend/internal/features/matches/handler.go:110-122 | RFC 3339 first, then a bare date; an error only when both layouts fail |
| MatchesHandler.ParsePage | backend/internal/features/matches/handler.go:55-63 | 1 when absent; otherwise accepted iff it is an integer of at least 1, else "invalid page" |
| MatchesHandler.ParsePageSize | backend/internal/features/matches/handler.go:65-76 | 10 when absent; otherwise accepted iff it is exactly 10, 25 or 50, else "invalid page_size" |
| MatchesHandler.ParseDateFrom | backend/internal/features/matches/handler.go:78-84 | absent, or the parsed date; an unparsable date is "invalid date_from" |
| MatchesHandler.ParseDateTo | backend/internal/features/matches/handler.go:86-93 | absent, or the parsed date plus one day minus one nanosecond; an unparsable date is "invalid date_to" |
| MatchesHandler.ParseSort | backend/internal/features/matches/handler.go:95-105 | accepted iff empty or one of the three sort names; empty means first-seen |
| MatchesHandler.ParseListQuery | backend/internal/features/matches/handler.go:47-108 | parameters are checked in the order page, page_size, date_from, date_to, sort, and the first failure is returned with its own error; a parsed query holds the page, size and sort that ParsePage, ParsePageSize and ParseSort give, the text filters as given, new_only iff "true", and no last success time |
| MatchesHandler.PageRoundTrip | backend/internal/features/matches/handler.go:55-63 | any page from 1 to the 64-bit maximum, written in decimal, reads back as itself |
| MatchesHandler.PageSizeRoundTrip | backend/internal/features/matches/handler.go:65-76 | a 64-bit page size written in decimal is accepted iff it is 10, 25 or 50, and then reads back as itself |
| MatchesHandler.List | backend/internal/features/matches/handler.go:28-45 | 400 INVALID_QUERY with the parse error, 500 DB_ERROR when the service fails, 200 with the page otherwise |
| KeywordsRepository.RowOf | backend/internal/features/keywords/repository.go:89-93 | the selected row carries the record's id, text, normalised text, status, deleted flag and creation time |
| KeywordsRepository.NormalizeValue | backend/internal/features/keywords/repository.go:114-116 | the result is the trimmed value lower-cased character by character: no surrounding blanks and no capital |
| KeywordsRepository.NormalizeValueIdempotent | backend/internal/features/keywords/repository.go:114-116 | normalising a normalised value changes nothing |
| KeywordsRepository.NormalizeValueIgnoresCase | backend/internal/features/keywords/repository.go:114-116 | values that differ only in letter case normalise alike |
| KeywordsRepository.Lookup | backend/internal/features/keywords/repository.go:87-103 | a row is found iff the id exists and is not deleted |
| KeywordsRepository.SoftDeleted | backend/internal/features/keywords/repository.go:105-112 | the row with the id becomes inactive, deleted, deleted now; no other row changes and no row is added |
| KeywordsRepository.SoftDeleteHides | backend/internal/features/keywords/repository.go:92-108 | after a soft delete the id is no longer found and every other lookup is as before |
| KeywordsRepository.ListStatements | backend/internal/features/keywords/repository.go:24-48 | count and page share the not-deleted filter and the optional search with its argument; the page orders newest first and binds LIMIT and OFFSET to the next two placeholders, with offset (page - 1) * pageSize |
| KeywordsRepository.Repository.List | backend/internal/features/keywords/repository.go:24-66 | the count's error first, then the page query's, then the first scan error; otherwise the scanned rows and the total |
| KeywordsRepository.Repository.Create | backend/internal/features/keywords/repository.go:68-85 | an insert under a new id adds an active, not deleted row that is then found by id; a unique violation, including an id already in the table, is "duplicate keyword", and other errors pass through, each leaving the table unchanged |
| KeywordsRepository.Repository.GetByID | backend/internal/features/keywords/repository.go:87-103 | the not-deleted row with the id, none when there is no such row, or the query error |
| KeywordsRepository.Repository.SoftDelete | backend/internal/features/keywords/repository.go:105-112 | the table becomes `SoftDeleted` of the old table, or stays unchanged on an exec error, which is returned |
| KeywordsService.ErrorText | backend/internal/features/keywords/service.go:9-14 | a repository error keeps its message |
| KeywordsService.ToKeyword | backend/internal/features/keywords/service.go:39-45 | the API keyword carries the row's id, text, normalised text, status and creation time |
| KeywordsService.Validate | backend/internal/features/keywords/service.go:55-61 | accepted iff the trimmed text has 1 to 64 characters, and then it is the trimmed text; empty is "cannot be empty", longer is "too long" |
| KeywordsService.ValidateIgnoresBlanks | backend/internal/features/keywords/service.go:55 | a value validates exactly as its trimmed form |
| KeywordsService.Clamped | backend/internal/features/keywords/service.go:25-30 | a page below 1 becomes 1, a page size other than 10, 25 or 50 becomes 10; valid values and the search are kept |
| KeywordsService.ClampedIdempotent | backend/internal/features/keywords/service.go:25-30 | clamping twice is clamping once |
| KeywordsService.Service.List | backend/internal/features/keywords/service.go:24-52 | the repository gets the clamped query; its error is returned; otherwise one keyword per row, in order, and the total |
| KeywordsService.Service.Create | backend/internal/features/keywords/service.go:54-80 | invalid text and repository errors leave the table unchanged; a duplicate (also an id already in the table) is reported; success stores the trimmed text with its normalised form, active, and returns it |
| KeywordsService.Service.Delete | backend/internal/features/keywords/service.go:82-92 | a lookup error is returned; an absent or deleted keyword is "not found" with nothing written; otherwise it is soft-deleted; after a successful delete the keyword is no longer found |
| KeywordsHandler.ParseListQuery | backend/internal/features/keywords/handler.go:28-53 | page 1 and size 10 when absent; a page that is not an integer of at least 1 is refused with its message (checked first), a size other than 10, 25 or 50 with its own; accepted values are the integers given |
| KeywordsHandler.PageAccepted | backend/internal/features/keywords/handler.go:33-42 | a page written in decimal is accepted as itself with the default size |
| KeywordsHandler.List | backend/internal/features/keywords/handler.go:28-62 | 400 INVALID_QUERY with the message, 500 DB_ERROR when the service fails, 200 with the page otherwise |
| KeywordsHandler.Create | backend/internal/features/keywords/handler.go:64-86 | an unbound body is 400; validation errors are 400 with their message; a duplicate is 409; other errors 500; success 201 with the keyword |
| KeywordsHandler.Delete | backend/internal/features/keywords/handler.go:88-106 | an empty id is 400, an unknown keyword 404, any other failure 500, success 200 with ok: true |
| ExportTypes.FiltersFromMatchQuery | backend/internal/features/export/types.go:49-59 | every filter field of the list query is copied unchanged; paging is dropped |
| ExportTypes.FiltersIgnorePaging | backend/internal/features/export/types.go:49-59 | queries that differ only in paging store the same filters |
| ExportHandler.ParseExportDate | backend/internal/features/export/handler.go:62-82 | absent, or the date exactly as parsed (RFC 3339, then YYYY-MM-DD); otherwise the error text of the YYYY-MM-DD parse |
| ExportHandler.ExportSort | backend/internal/features/export/handler.go:84-92 | the two named orders are kept; any other value, valid or not, becomes first-seen |
| ExportHandler.ParseExportQuery | backend/internal/features/export/handler.go:51-95 | date_from is checked before date_to and the first failure wins; a parsed query has page 1, page size 1000000, the text filters as given, new_only iff "true", the export sort, and no last success time |
| ExportHandler.ExportDateToNotShifted | backend/internal/features/export/handler.go:73-82 | where the list endpoint accepts a request, the export accepts it too with the same filters, except that the list's date_to is one day less a nanosecond later |
| ExportHandler.ExportCSV | backend/internal/features/export/handler.go:31-49 | an unparsable query is 500 EXPORT_ERROR with the parse error's text; otherwise a text/csv attachment named matches_export_<stamp>.csv that streams the parsed query |
| ExportService.PtrToString | backend/internal/features/export/service.go:113-118 | an absent text is the empty field |
| ExportService.FormatTimePtr | backend/internal/features/export/service.go:120-125 | an absent time is the empty field; a present one is formatted |
| ExportService.FormatBool | backend/internal/features/export/service.go:77 | "true" iff the flag is set, "false" iff not |
| ExportService.CsvRow | backend/internal/features/export/service.go:61-79 | a data record has as many fields as the header |
| ExportService.HeaderNamesColumns | backend/internal/features/export/service.go:42-48 | the header names the seventeen columns, in order |
| ExportService.CsvRowInHeaderOrder | backend/internal/features/export/service.go:42-79 | each field of a record is the match's value for the column the header names at that position |
| ExportService.CsvRows | backend/internal/features/export/service.go:60-94 | one record per row |
| ExportService.CsvWriter.Flush | backend/internal/features/export/service.go:53-57 | no record is lost or reordered; an unfailed writer fails iff the sink cannot take all records; without error nothing stays buffered |
| ExportService.CsvWriter.Write | backend/internal/features/export/service.go:81-83 | an unfailed writer appends the record; a failed one refuses it; the error is returned, and none while the sink can take everything |
| ExportService.AllRecords | backend/internal/features/export/service.go:42-94 | the header, then one record per row read before the first failing scan |
| ExportService.StreamError | backend/internal/features/matches/repository.go:154-172 | a stream reports no error iff the query, every scan and the end of the rows succeed |
| ExportService.FinalRecord | backend/internal/features/export/service.go:101-110 | completed with the count, or failed with the error's text; the row stays streaming when that last update fails |
| ExportService.WriteRow | backend/internal/features/export/service.go:81-92 | the record is written and the buffer flushed before every hundredth row; the writer's error is returned |
| ExportService.StreamStep | backend/internal/features/export/service.go:60-94 | a failed scan is the stream's error; a scanned row appends its match's record |
| ExportService.StreamRows | backend/internal/features/export/service.go:60-94 | what is written is a prefix of the full export; a clean stream writes all of it with the count equal to the rows; otherwise the first error of query, scan, write or flush is returned |
| ExportService.WriteAll | backend/internal/features/export/service.go:39-99 | the header is written and flushed, then the rows; a last flush's error counts only when the stream had none |
| ExportService.Service.Stream | backend/internal/features/export/service.go:59-110 | the export is written as `ExportWritten` states, then its row is marked completed with the count or failed with the error's text |
| ExportService.Service.ExportCSV | backend/internal/features/export/service.go:26-111 | a failed create returns its error with nothing written; a failed streaming update leaves the row pending; otherwise the export is written and its row finalised |
| MonitorService.Metrics | backend/internal/features/monitor/service.go:40-56 | the counts of the run are copied; each missing duration or latency reads as 0 |
| MonitorService.GetStatus | backend/internal/features/monitor/service.go:18-59 | a failed state lookup is returned; a run lookup error other than "no rows" is returned; otherwise the state's fields, the poll interval, and metrics iff a completed run exists |
| MonitorService.PollErrorIgnored | backend/internal/features/monitor/service.go:24-27 | a failed poll-interval lookup never changes the outcome |
| MonitorService.RecordedRunReportedExactly | backend/internal/features/monitor/service.go:40-56 | a run with all timings recorded reports exactly its figures |
| Config.Getenv | backend/internal/config/config.go:17-22 | an unset variable reads as "" |
| Config.Message | backend/internal/config/config.go:19-28 | a missing DATABASE_URL has its fixed text; a bad PORT reads "PORT must be a valid integer: strconv.Atoi: parsing " then the value as strconv.Quote writes it, then "value out of range" when the text is a well-formed number or its leading digit run after the sign already passes 2^64 - 1 (where Go stops reading), and "invalid syntax" otherwise |
| Config.ShortDigitRunIsSyntaxError | backend/internal/config/config.go:26-28 | a malformed PORT whose leading digit run has at most 19 digits is reported as invalid syntax |
| Config.OverflowBeforeLetterIsRangeError | backend/internal/config/config.go:26-28 | twenty or more nines followed by a non-digit are malformed yet reported as value out of range |
| Config.QuoteRoundTrip | backend/internal/config/config.go:28 | the quoted PORT text in the message reads back, escape by escape, as the value given |
| Config.QuotePlain | backend/internal/config/config.go:28 | a value without quotes, backslashes or control characters appears in the quotes as it is |
| Config.QuotedPortExample | backend/internal/config/config.go:28 | a double quote inside the value is written as a backslash and a quote |
| Config.Load | backend/internal/config/config.go:14-34 | fails without DATABASE_URL; an unset or empty PORT gives 8080; any other PORT must parse as a decimal int64 and is then the port |
| Config.GetAddr | backend/internal/config/config.go:36-38 | the address is ":" followed by the port in decimal |
| Config.AddrNamesLoadedPort | backend/internal/config/config.go:14-38 | the address of a loaded port reads back as that port |
| Config.PortRoundTrip | backend/internal/config/config.go:14-38 | a PORT written as an int64 in decimal is served exactly |
| Middleware.Context.constructor | backend/internal/observability/middleware.go:19-21 | a fresh request context: no keys, no response headers, no status, not aborted |
| Middleware.Context.GetHeader | backend/internal/observability/middleware.go:21 | a missing request header reads as "" |
| Middleware.Context.GetRequestID | backend/internal/observability/middleware.go:57-64 | the stored request id when the key holds a string, else "" |
| Middleware.Context.ChosenRequestID | backend/internal/observability/middleware.go:21-24 | the request's own non-empty X-Request-ID, else the generated one; never empty when a UUID was generated |
| Middleware.Context.RequestID | backend/internal/observability/middleware.go:19-29 | the chosen id is stored under request_id, echoed as X-Request-ID, and read back by GetRequestID; the chain continues |
| Middleware.IPRateLimiter.constructor | backend/internal/observability/middleware.go:95-101 | a limiter set with the given rate and burst and no IP yet |
| Middleware.IPRateLimiter.GetLimiter | backend/internal/observability/middleware.go:103-114 | the stored limiter of the IP, or a new one with the shared settings that is then stored; no other entry changes |
| Middleware.RateLimit | backend/internal/observability/middleware.go:116-130 | a refused request is aborted with 429, "Rate limit exceeded" and the request id, and the chain stops; an allowed one continues untouched |
| Middleware.NewLimiters | backend/internal/observability/middleware.go:132-135 | matches at 10 requests a second with bursts of 20, exports at 1 with bursts of 3, two distinct empty limiter sets |
| Schemas.StrField | frontend/src/lib/schemas.ts:4-8 | a field is read as a string iff the object has the key and it holds a string |
| Schemas.NullableStrField | frontend/src/lib/schemas.ts:23-29 | a nullable string accepts null or a string and rejects a missing key or any other value |
| Schemas.NumField | frontend/src/lib/schemas.ts:13 | a number field is read iff present and numeric |
| Schemas.BoolField | frontend/src/lib/schemas.ts:32 | a boolean field is read iff present and boolean |
| Schemas.ParseKeywordStatus | frontend/src/lib/schemas.ts:7 | accepted iff "active" or "inactive", and its name reads back |
| Schemas.ParseKeyword | frontend/src/lib/schemas.ts:3-9 | accepted iff keyword_id is a uuid, value has 1 to 64 characters, normalized_value and created_at are strings and status is active or inactive; the result is a valid keyword with those values |
| Schemas.KeywordRoundTrip | frontend/src/lib/schemas.ts:3-9 | every valid keyword survives encoding and parsing unchanged |
| Schemas.KeywordIgnoresExtraFields | frontend/src/lib/schemas.ts:3-9 | a field the schema does not declare is dropped, never rejected |
| Schemas.ParseMatchedField | frontend/src/lib/schemas.ts:21 | accepted iff "cn", "san" or "both", and its name reads back |
| Schemas.ParseCertFields | frontend/src/lib/schemas.ts:23-29 | accepted iff each of the seven certificate fields is null or a string, none missing |
| Schemas.ParseMatch | frontend/src/lib/schemas.ts:16-34 | accepted iff both ids are uuids, matched_field is cn/san/both, the certificate fields are nullable strings, the sightings are strings, is_new a boolean and ct_log_index a number; the result is a valid match |
| Schemas.MatchRoundTrip | frontend/src/lib/schemas.ts:16-34 | every valid match survives encoding and parsing unchanged |
| Schemas.ParseMonitorState | frontend/src/lib/schemas.ts:42 | accepted iff "idle", "running" or "error", and its name reads back |
| Schemas.ParseMetrics | frontend/src/lib/schemas.ts:47-53 | accepted iff the six metric fields are numbers |
| Schemas.ParseNullableMetrics | frontend/src/lib/schemas.ts:47-54 | metrics_last_run is null or a metrics object; a missing key is rejected |
| Schemas.ParseMonitorStatus | frontend/src/lib/schemas.ts:41-55 | accepted iff the state is idle/running/error, the four timestamps and error fields are nullable strings and the metrics are nullable |
| Schemas.MonitorStatusRoundTrip | frontend/src/lib/schemas.ts:41-55 | every monitor status survives encoding and parsing unchanged |
| Schemas.ParseAll | frontend/src/lib/schemas.ts:12 | an array parses iff every element does, keeping their order |
| Schemas.ParseList | frontend/src/lib/schemas.ts:11-14 | a list response parses iff items is an array of valid items and total is a number |
| Schemas.ParseCreateKeyword | frontend/src/lib/schemas.ts:57-59 | accepted iff value is a string of 1 to 64 characters |
| Badge.VariantStylesDistinct | frontend/src/components/ui/badge.tsx:11-17 | each of the five badge variants has a colour style no other variant shares |
| Badge.BadgeVariant | frontend/src/components/ui/badge.tsx:19 | a badge without a variant is drawn as `default`; otherwise with the variant asked for |
| Badge.BadgeClass | frontend/src/components/ui/badge.tsx:19-22 | the badge's class string contains its variant's colour style and ends with the caller's class names |
| Badge.StatusBadge | frontend/src/components/ui/badge.tsx:33-40 | idle is shown as a success badge "Idle", running as an info badge "Running", error as an error badge "Error", each variant belonging to exactly one state |
| Store.MonitorStore.constructor | frontend/src/lib/store.ts:11-13 | the monitor store starts not polling and with no error |
| Store.MonitorStore.SetPolling | frontend/src/lib/store.ts:14 | sets the polling flag and leaves the last error alone |
| Store.MonitorStore.SetError | frontend/src/lib/store.ts:15 | sets the last error and leaves the polling flag alone |
| Store.MonitorStore.ClearError | frontend/src/lib/store.ts:16 | clears the last error and leaves the polling flag alone |
| Store.UIStore.constructor | frontend/src/lib/store.ts:25-26 | the sidebar starts closed |
| Store.UIStore.ToggleSidebar | frontend/src/lib/store.ts:27 | the sidebar's open flag becomes the negation of what it was |
| Store.UIStore.SetSidebarOpen | frontend/src/lib/store.ts:28 | the sidebar's open flag becomes the value given |
| HttpErrors.OrElse | frontend/src/features/keywords/api/use-create-keyword.ts:36-37 | JavaScript `value || fallback` on an optional string: a present non-empty value wins, a missing or empty one yields the fallback |
| HttpErrors.Status | frontend/src/features/keywords/api/use-create-keyword.ts:33-34 | `response?.status`: absent for an error with no response, otherwise the response's status |
| HttpErrors.BodyCode | frontend/src/features/keywords/api/use-create-keyword.ts:36 | `response.data?.code`: present only when the response carries a body, and then its code |
| HttpErrors.BodyMessage | frontend/src/features/keywords/api/use-create-keyword.ts:37 | `response.data?.message`: present only when the response carries a body, and then its message |
| SearchParams.Lookup | frontend/src/features/export/components/export-modal.tsx:55-62 | the value read back for a name is absent exactly when no pair carries that name |
| SearchParams.URLSearchParams.Get | frontend/src/features/export/components/export-modal.tsx:55-62 | `get(name)`: the value of the first pair with that name, as `Lookup` states |
| QueryString.Param | backend/internal/features/export/handler.go:53-56 | `c.Query(key)`: the parameter's value when present, the empty string when absent |
| SearchParams.RemoveAll | frontend/src/features/export/components/export-modal.tsx:55-62 | removing a name leaves no pair with it and every other name's value as it was |
| SearchParams.SetEntry | frontend/src/features/export/components/export-modal.tsx:57-62 | `set(name, value)` makes the name read back as the value, leaves every other name unchanged, and appends the pair when the name was absent |
| SearchParams.URLSearchParams.constructor | frontend/src/features/export/components/export-modal.tsx:55 | a new parameter list is empty |
| SearchParams.URLSearchParams.Set | frontend/src/features/export/components/export-modal.tsx:57-62 | the list becomes `SetEntry` of the old list, so the name then reads back as the value |
| CreateKeywordApi.GetCreateKeywordError | frontend/src/features/keywords/api/use-create-keyword.ts:31-48 | an API error is reported exactly for a 409 or a 400 response; 409 gives the body's code and message or DUPLICATE_KEYWORD / "This keyword already exists", 400 the body's or VALIDATION_ERROR / "Invalid keyword"; an error without a response gives none |
| CreateKeywordApi.BareConflictIsDuplicate | frontend/src/features/keywords/api/use-create-keyword.ts:34-39 | a 409 without a body reads as the duplicate-keyword error |
| DeleteKeywordApi.EffectiveStatus | frontend/src/features/keywords/api/use-delete-keyword.ts:27 | the status is the response's when present and non-zero, 500 otherwise |
| DeleteKeywordApi.GetDeleteKeywordError | frontend/src/features/keywords/api/use-delete-keyword.ts:24-44 | an error is reported exactly when the error has a response key; a 404 is always NOT_FOUND / "Keyword not found"; any other status keeps the status with the body's code and message or SERVER_ERROR / "Failed to delete keyword" |
| DeleteKeywordApi.MissingResponseIsServerError | frontend/src/features/keywords/api/use-delete-keyword.ts:25-41 | an error whose response is undefined reads as a 500 SERVER_ERROR |
| DeleteKeywordApi.DeleteRefreshesMatches | frontend/src/features/keywords/api/use-delete-keyword.ts:17-20 | a successful delete invalidates the keyword list as a create does, and the match list besides, which a create does not |
| Select.Without | frontend/src/components/ui/select.tsx:60 | filtering a value out leaves no occurrence of it, and every other value is present afterwards iff it was before |
| Select.WithoutCount | frontend/src/components/ui/select.tsx:60 | every other value keeps its number of occurrences |
| Select.WithoutKeepsOrder | frontend/src/components/ui/select.tsx:60 | the kept values stay in their order: an element at index i lands right after what is kept of the elements before it |
| Select.ToggleOption | frontend/src/components/ui/select.tsx:58-64 | a selected value is removed everywhere by `Without`, keeping the order of the rest; an unselected one is appended at the end; no other value's membership changes |
| Select.ToggleTwice | frontend/src/components/ui/select.tsx:58-64 | toggling the same value twice restores exactly the list when it was unselected, and the same set of values (the same multiset on a duplicate-free list) when it was selected |
| Select.SelectedLabels | frontend/src/components/ui/select.tsx:66-68 | the labels shown are at most one per option and are exactly the labels of the options whose values are selected |
| Select.SelectedLabelsSingle | frontend/src/components/ui/select.tsx:66-68 | one option contributes its label when its value is selected and nothing otherwise |
| Select.SelectedLabelsAppend | frontend/src/components/ui/select.tsx:66-68 | the labels of two option lists in turn are the labels of each in turn; with the single-option case this fixes the labels of every list |
| Select.ShowsPlaceholder | frontend/src/components/ui/select.tsx:75-83 | the placeholder shows exactly when no option's value is selected |
| Select.ShowsError | frontend/src/components/ui/select.tsx:39-41 | the error line renders for a present, non-empty error |
| Select.SelectedLabelsFollowOptions | frontend/src/components/ui/select.tsx:66-68 | the shown labels depend only on which values are selected, not on the order they were picked |
| Select.DashSpaceRuns | frontend/src/components/ui/select.tsx:17 | `replace(/\s+/g, '-')`: the result has no white space, is no longer than the text, is the text itself when it has none and adds no upper-case letter |
| Select.DropSpacesRun | frontend/src/components/ui/select.tsx:17 | a maximal run of white space is consumed whole |
| Select.DashSpaceRunsRun | frontend/src/components/ui/select.tsx:17 | a maximal run of white space at the front becomes one dash |
| Select.DashSpaceRunsCons | frontend/src/components/ui/select.tsx:17 | a character that is not white space is kept as is |
| Select.DashSpaceRunsWord | frontend/src/components/ui/select.tsx:17 | a word followed by a maximal white-space run becomes the word and one dash, then the rest is replaced the same way |
| Select.DashSpaceRunsOfRuns | frontend/src/components/ui/select.tsx:17 | text without white space is unchanged; text of white space only becomes a single dash |
| Select.SelectId | frontend/src/components/ui/select.tsx:17 | a non-empty id is used as given; otherwise the id exists exactly when a label does, and is then `DashSpaceRuns` of the lowercased label: no white space, no upper case, no longer than it |
| KeywordForm.Validate | frontend/src/features/keywords/components/keyword-form.tsx:15-27 | the input passes exactly when its trimmed text has 2 to 64 characters; empty gives "Keyword is required", one character the at-least-2 message, more than 64 the at-most-64 message |
| KeywordForm.SubmitErrorText | frontend/src/features/keywords/components/keyword-form.tsx:44-51 | a DUPLICATE_KEYWORD refusal shows "This keyword already exists", any other API error its message, and a failure that is no API error "Failed to create keyword" |
| KeywordForm.ConflictShownAsDuplicate | frontend/src/features/keywords/components/keyword-form.tsx:44-46 | a 409 whose body carries no code is shown as an existing keyword |
| KeywordForm.FormAcceptedServiceAccepts | frontend/src/features/keywords/components/keyword-form.tsx:15-40 | every text the form sends (the trimmed input that passed its check) is accepted unchanged by the backend service's validation |
| KeywordForm.SingleCharacterOnlyServiceSide | frontend/src/features/keywords/components/keyword-form.tsx:20-22 | a single non-blank character is refused by the form although the backend service would accept it |
| KeywordForm.Form.constructor | frontend/src/features/keywords/components/keyword-form.tsx:11-12 | the form starts with an empty input and no error |
| KeywordForm.Form.SubmitDisabled | frontend/src/features/keywords/components/keyword-form.tsx:76 | the submit button is disabled exactly when the trimmed input is empty |
| KeywordForm.Form.HandleSubmit | frontend/src/features/keywords/components/keyword-form.tsx:29-53 | an input failing the check shows its message and sends nothing; otherwise the trimmed input is sent, success clears input and error and counts one success, failure keeps the input and shows the refusal text |
| KeywordForm.Form.HandleChange | frontend/src/features/keywords/components/keyword-form.tsx:55-60 | editing replaces the input and clears any error |
| KeywordTable.DeleteFeedback | frontend/src/features/keywords/components/keyword-table.tsx:30-41 | success toasts the keyword's value as deleted; a 404 toasts "Keyword not found"; a status of 500 or more goes to the page banner with the message or "Server error occurred"; any other failure, including no API error, toasts the message or "Failed to delete keyword" |
| KeywordTable.MissingStatusGoesToBanner | frontend/src/features/keywords/components/keyword-table.tsx:34-38 | a failure whose response has no status counts as a 500 and is shown on the banner with the default delete message |
| KeywordTable.Table.constructor | frontend/src/features/keywords/components/keyword-table.tsx:22 | the table starts with no deletion in progress and no feedback |
| KeywordTable.Table.DeleteDisabled | frontend/src/features/keywords/components/keyword-table.tsx:102 | every Delete button is disabled exactly when an id is held, in particular while a deletion is in progress |
| KeywordTable.Table.BeginDelete | frontend/src/features/keywords/components/keyword-table.tsx:26-29 | a delete starts exactly when none is in progress, and then holds the keyword's id; a refused one changes nothing |
| KeywordTable.Table.FinishDelete | frontend/src/features/keywords/components/keyword-table.tsx:30-44 | the outcome's feedback is appended and the held id is released, whatever the outcome |
| FilterBar.HasActiveFilters | frontend/src/features/dashboard/components/filter-bar.tsx:59-63 | some filter is active exactly when the filters differ from the all-default ones that Clear emits |
| FilterBar.KeywordToggled | frontend/src/features/dashboard/components/filter-bar.tsx:33-38 | a selected keyword id is removed as `Without` removes it, the other ids keeping their order; an unselected one is appended; no other id's membership changes and the dates, search and new-only flag are kept |
| FilterBar.KeywordToggledTwice | frontend/src/features/dashboard/components/filter-bar.tsx:33-38 | toggling the same keyword twice selects the same ids again (exactly the same filters when it was unselected) and changes no other filter |
| FilterBar.DateChanged | frontend/src/features/dashboard/components/filter-bar.tsx:40-42 | the date control sets both dates and keeps the keywords, search and new-only flag |
| FilterBar.NewOnlyChanged | frontend/src/features/dashboard/components/filter-bar.tsx:44-46 | the toggle sets only the new-only flag |
| FilterBar.SyncedSearch | frontend/src/features/dashboard/components/filter-bar.tsx:27-31 | the settled search text is emitted exactly when it differs from the filters' search, with every other filter copied |
| FilterBar.SyncSettles | frontend/src/features/dashboard/components/filter-bar.tsx:27-31 | once its emission is applied, the same settled text emits nothing more |
| FilterBar.Bar.constructor | frontend/src/features/dashboard/components/filter-bar.tsx:24 | the search input starts with the filters' search |
| FilterBar.Bar.HandleSearchInput | frontend/src/features/dashboard/components/filter-bar.tsx:106 | typing replaces the search input |
| FilterBar.Bar.ClearFilters | frontend/src/features/dashboard/components/filter-bar.tsx:48-57 | clearing empties the search input and emits the default filters, which have no active filter |
| ExportModal.ExportEntriesLookup | frontend/src/features/export/components/export-modal.tsx:55-62 | the export request carries keyword_ids comma-joined when some are chosen, each date and the search only when non-empty, new_only as "true" only when set, and no other parameter |
| ExportModal.ExportEntriesEmpty | frontend/src/features/export/components/export-modal.tsx:55-62 | the request carries no parameter exactly when no filter is active (129-134) |
| ExportModal.SetNew | frontend/src/features/export/components/export-modal.tsx:56-62 | setting a parameter not yet present appends it, so the names stay distinct |
| ExportModal.BuildExportParams | frontend/src/features/export/components/export-modal.tsx:55-62 | the parameters set one by one on a new URLSearchParams are exactly the export's parameter list |
| ExportModal.DatePart | frontend/src/features/export/components/export-modal.tsx:71 | the part of an ISO timestamp before its first 'T': a prefix with no 'T', followed in the timestamp by 'T' when shorter |
| ExportModal.DownloadName | frontend/src/features/export/components/export-modal.tsx:71 | the download is named "matches-", the date part of now, ".csv" |
| ExportModal.RetryAfterOf | frontend/src/features/export/components/export-modal.tsx:85-90 | a missing or empty Retry-After header gives 60 seconds; otherwise the wait is parseInt of the header, NaN exactly when it has no leading digits |
| ExportModal.FailureOutcome | frontend/src/features/export/components/export-modal.tsx:79-110 | a 429 is rate limited with its Retry-After wait, a status of 500 or more an EXPORT_ERROR, anything else (no response, no status, other 4xx) an UNKNOWN_ERROR, always in a failure state |
| ExportModal.RateLimitedWithoutHeader | frontend/src/features/export/components/export-modal.tsx:84-91 | a 429 without Retry-After asks for a 60-second wait |
| ExportModal.SelectedKeywords | frontend/src/features/export/components/export-modal.tsx:128 | the summary's keywords are exactly those of the list whose ids are chosen |
| ExportModal.SelectedKeywordsSingle | frontend/src/features/export/components/export-modal.tsx:128 | one keyword is kept exactly when its id is chosen |
| ExportModal.SelectedKeywordsAppend | frontend/src/features/export/components/export-modal.tsx:128 | choosing from two lists in turn is choosing from each in turn; with the single case this fixes the summary of every list |
| ExportModal.SelectedKeywordsFollowList | frontend/src/features/export/components/export-modal.tsx:128 | the summary depends only on which ids are chosen, not their order |
| ExportModal.Modal.constructor | frontend/src/features/export/components/export-modal.tsx:47-48 | the dialog starts idle with no error |
| ExportModal.Modal.ShowsRetry | frontend/src/features/export/components/export-modal.tsx:231-243 | "Try Again" replaces "Download CSV" exactly when an error is held, that is in the error and rate-limited states |
| ExportModal.Modal.BeginExport | frontend/src/features/export/components/export-modal.tsx:50-62 | the export starts in the exporting state with the error cleared and builds the request's parameters |
| ExportModal.Modal.FinishExport | frontend/src/features/export/components/export-modal.tsx:64-110 | success downloads matches-<date>.csv, returns to idle and closes once; failure downloads nothing, does not close and takes the state and error of its kind |
| ExportModal.Modal.HandleClose | frontend/src/features/export/components/export-modal.tsx:113-119 | closing is ignored while exporting; otherwise the dialog returns to idle without error and closes |
| ExportModal.Modal.HandleRetry | frontend/src/features/export/components/export-modal.tsx:121-124 | retrying returns to idle with no error, so the download button shows again |
| Dashboard.NonEmpty | frontend/src/features/dashboard/index.tsx:35-37 | `s \|\| undefined` on a string: absent exactly when the string is empty, the string itself otherwise |
| Dashboard.MatchFiltersOf | frontend/src/features/dashboard/index.tsx:33-43 | the table's query carries the keyword ids only when some are chosen, each date and the search only when non-empty, new_only only as true, the current page, 20 per page and the current sort |
| Dashboard.QueryAgreesWithExport | frontend/src/features/dashboard/index.tsx:33-43 | the table's query and the export request (65-72) send the same filters: each by both or by neither, with the same value |
| Dashboard.NextSort | frontend/src/features/dashboard/index.tsx:52-58 | a header click sorts by that column; the sorted column flips its order, another column starts descending |
| Dashboard.NextSortTwice | frontend/src/features/dashboard/index.tsx:52-58 | two clicks on the sorted column restore its order; two clicks on a new column leave it ascending |
| Dashboard.MainViewOf | frontend/src/features/dashboard/index.tsx:126-140 | onboarding exactly when status and keywords have loaded and there is no keyword; otherwise the no-matches state exactly when matches have loaded with a total of 0; otherwise the table |
| Dashboard.ErrorBannerFollowsBadge | frontend/src/features/dashboard/index.tsx:114-119 | the error banner shows exactly when the monitor's state is error, which is when the app bar's badge is the error badge, and never before the status has loaded |
| Dashboard.ShowsErrorBanner | frontend/src/features/dashboard/index.tsx:114-119 | the banner condition; its meaning is stated by ErrorBannerFollowsBadge |
| Dashboard.Page.constructor | frontend/src/features/dashboard/index.tsx:24-28 | the page starts with no active filter, on page 1, sorted by first_seen_at descending, not exporting |
| Dashboard.Page.Query | frontend/src/features/dashboard/index.tsx:33-43 | the current query asks for the current page, 20 per page |
| Dashboard.Page.HandleFiltersChange | frontend/src/features/dashboard/index.tsx:47-50 | new filters replace the old ones and return to page 1; the sort is kept |
| Dashboard.Page.HandlePageChange | frontend/src/features/dashboard/index.tsx:140-150 | the page changes and nothing else does |
| Dashboard.Page.HandleSort | frontend/src/features/dashboard/index.tsx:52-60 | the sort becomes NextSort of the old one and the page returns to 1; the filters are kept |
| Dashboard.Page.BeginExport | frontend/src/features/dashboard/index.tsx:62-72 | exporting starts and the request's parameters are those the export dialog would send |
| Dashboard.Page.FinishExport | frontend/src/features/dashboard/index.tsx:74-90 | success downloads matches-<date>.csv, failure nothing; either way exporting stops and the filters, page and sort are kept |
| MatchesTable.EscapeRegExp | frontend/src/features/dashboard/components/matches-table.tsx:9 | escaping puts a backslash before each regular-expression meta character: the result is a literal pattern at most twice as long |
| MatchesTable.EscapeRoundTrip | frontend/src/features/dashboard/components/matches-table.tsx:9 | the escaped keyword, read as a pattern, stands for the keyword itself |
| MatchesTable.HighlightPattern | frontend/src/features/dashboard/components/matches-table.tsx:7-9 | an empty keyword highlights nothing; any other keyword becomes one group holding its escaped text, which stands for exactly the keyword |
| MatchesTable.TruncateFingerprint | frontend/src/features/dashboard/components/matches-table.tsx:25-28 | a fingerprint of at most 16 characters is shown whole; a longer one as its first 8 characters, "...", and its last 8 |
| MatchesTable.TruncatedAlike | frontend/src/features/dashboard/components/matches-table.tsx:25-28 | two long fingerprints shown alike agree on their first and last 8 characters |
| MatchesTable.TotalPages | frontend/src/features/dashboard/components/matches-table.tsx:64 | `Math.ceil(total / limit)`: the fewest pages of `limit` rows holding `total` rows, at least 1 when there is a row |
| MatchesTable.DateCell | frontend/src/features/dashboard/components/matches-table.tsx:42-51 | a missing or empty date shows "-", any other the locale-formatted date |
| MatchesTable.IssuerCell | frontend/src/features/dashboard/components/matches-table.tsx:117 | the issuer organisation when non-empty, else the issuer CN when non-empty, else "-"; never empty |
| MatchesTable.FieldLabel | frontend/src/features/dashboard/components/matches-table.tsx:95 | the field badge is the matched field's name in capitals |
| MatchesTable.RowOf | frontend/src/features/dashboard/components/matches-table.tsx:66-141 | each row shows the keyword, the matched value highlighted by the keyword, the New badge exactly for new matches, the truncated fingerprint with the full one as title, the issuer, the field label and the two dates |
| MatchesTable.RowsOf | frontend/src/features/dashboard/components/matches-table.tsx:153-160 | one row per match, in the order of the matches |
| MatchesTable.View | frontend/src/features/dashboard/components/matches-table.tsx:143-173 | ten skeleton rows exactly while loading; otherwise the rows, with pagination exactly when the total is positive, carrying the page, at least one page, the total and the limit |
| AppBar.Age | frontend/src/features/dashboard/components/app-bar.tsx:11-24 | a missing or empty date is never run; an unparsable one an invalid date; otherwise under a minute is just now, under an hour the floored minutes, under a day the floored hours, later the date itself |
| AppBar.AgeText | frontend/src/features/dashboard/components/app-bar.tsx:10-24 | no run reads "Never", an unparsable time "Invalid Date", under a minute "Just now", minutes "<n>m ago", hours "<n>h ago", older runs the locale date |
| AppBar.FormatLastRun | frontend/src/features/dashboard/components/app-bar.tsx:11-12 | a missing or empty last-run time reads "Never" |
| AppBar.AgeTextReadsBack | frontend/src/features/dashboard/components/app-bar.tsx:19-22 | the number in "<n>m ago" or "<n>h ago" parses back as the minutes or hours |
| AppBar.FutureRunIsJustNow | frontend/src/features/dashboard/components/app-bar.tsx:15-18 | a run at or after the current time reads "Just now" |
| AppBar.BadgeAreaOf | frontend/src/features/dashboard/components/app-bar.tsx:36-40 | a pulsing placeholder exactly while loading, the state's status badge exactly once a status exists, nothing otherwise |
| AppBar.LastRunText | frontend/src/features/dashboard/components/app-bar.tsx:44-48 | "Last run: " followed by the formatted last-run time, shown exactly when a status exists |
| MetricCards.CardStyle | frontend/src/features/dashboard/components/metric-cards.tsx:15-20 | each card variant has a text colour class |
| MetricCards.CardStylesDistinct | frontend/src/features/dashboard/components/metric-cards.tsx:15-20 | the four variants have four different colours |
| MetricCards.MetricsOr0 | frontend/src/features/dashboard/components/metric-cards.tsx:45-48 | the run's metrics, or every count and the duration 0 without a run |
| MetricCards.View | frontend/src/features/dashboard/components/metric-cards.tsx:33-74 | four skeletons exactly while loading; otherwise Processed, Matches, Parse Errors and Cycle Duration in that order, Matches coloured success exactly when positive, Parse Errors warning exactly when positive, the duration as "<n>ms" |
| MetricCards.NoRunShowsZeros | frontend/src/features/dashboard/components/metric-cards.tsx:45-72 | without a run every card shows 0 in the default colour and the duration "0ms" |
| MetricCards.NeverErrorColoured | frontend/src/features/dashboard/components/metric-cards.tsx:52-71 | no card is ever coloured as an error |

## Left out

- The scheduler's goroutine, stop channel, mutex and WaitGroup are not modelled. `Start` and `Stop` keep only the running-flag guard. `Scheduler.Scheduler.Run` models the ticker loop as a sequence of ticks, one `RunCycle` each: the poll interval, context cancellation and the stop signal only decide how many ticks there are.
- The cause of a CT client error (`%v` of the transport, read or decode error) is an input string; the wrapped text around it follows the client.
- The CT log's HTTP exchange, JSON decoding, base64, x509 parsing, SHA-256 and the clock are not modelled. Each is a parameter or an outcome given as input, because they are library or network code.
- SQL evaluation is not modelled. The builders produce statements and argument lists, and the rows and counts a query returns are inputs. The scheduler and keyword repositories update `Database.Db` maps the way their statements would.
- A failing statement is modelled by an error input to the write that runs it: the write returns that error and changes nothing. For the scheduler's writes these inputs are fields of `Scheduler.CycleEnv`; an upsert's failure is a function of the row being upserted, so each row of a window may fail on its own.
- The text of a database error is an input string; the model does not compute driver messages. The configuration error texts are computed by `Config.Message`.
- Config.Message: strconv.Quote is modelled for ASCII only. Characters from 0x80 up are copied as they are, whereas Go escapes the non-printable ones and invalid UTF-8.
- The `StreamAll` callback is flattened into a loop over the scanned rows, because Dafny has no closures that update state.
- CSV quoting and CRLF line ends are not modelled: a record is a sequence of fields. The writer's buffer is counted in records rather than bytes.
- Text is modelled in ASCII. Case mapping and white space cover the ASCII range only, and lengths are counted in characters, not in UTF-8 bytes (Go) or UTF-16 units (JavaScript).
- KeywordsService.Validate: the 64 limit is counted in characters. The Go code counts bytes, so the two agree only on ASCII text.
- Schemas.IsUuid follows zod 3's `uuid()` pattern: 8-4-4-4-12 hexadecimal digits of either case, with no check of the version or variant digits. Later zod releases also check those digits; the zod version in use is not part of this model.
- JSON numbers are integers: `z.number()` is read as an integer.
- The URL encoding of query parameters (`URLSearchParams.toString`) is not modelled. Parameters are the name/value pairs before encoding.
- The `useDebounce` hook's timer is not modelled. The filter bar's effect is stated for the settled text.
- React Query's caching, refetching and loading flags are not modelled. The invalidation sets are constants, and the loading flags are parameters.
- The regular-expression split and `test` of `HighlightedText` are not modelled. This includes the global flag's `lastIndex`. Only the pattern it builds is modelled.
- Locale formatting (`toLocaleString`, `toLocaleDateString`), `Date` parsing and `toISOString` are parameters.
- The poll interval, last-success time and configuration lookups of the monitor and export services are inputs.
- The AccessLog and Recovery middlewares are not part of this model. They only log or turn a panic into a 500. Logging and `console.error` are left out throughout.
- The health endpoint is not part of this model. The monitor handler is not either: only the service it calls is.
- `handleNavigateToKeywords` is not modelled, because it only assigns `window.location`.
- The dashboard passes `isExporting` to the app bar, which does not read it. The model's app bar has no such input.
- Middleware.RateLimit: the token bucket's verdict (`Allow`) is an input. The limiter's mutex is not modelled.
- Middleware.Context.RequestID: requires a non-empty generated id, because a generated UUID is never empty.
- Middleware.RateLimit: requires a context no handler has answered yet, as at the start of the chain.
- CtClient.GetEntriesChunked: requires `chunkSize >= 1`. The loop does not terminate otherwise, and the client always passes 100.
- MatchesTable.TotalPages: requires `limit > 0`, because the dashboard always passes 20.
- MatchesTable.View: requires `limit > 0`, because the dashboard always passes 20.
- Scheduler.Scheduler.ProcessWindow: requires a non-empty window. It models the part of `executeCycle` after the empty-window check.
- SchedulerRepository.Repository.LockStateForUpdate: requires the transaction to be open on the repository's own database.
- ExportService.Service.Stream: requires the export row to exist. It models the part of `ExportCSV` after the row was created.
