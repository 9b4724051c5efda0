/**
 * The dashboard's response schemas: which JSON values are a keyword, a
 * match, a monitor status, a list response or a create-keyword body. Each
 * schema is a parser from a JSON value to a typed record that keeps only the
 * declared fields, and each has an encoder it inverts.
 */
module Schemas {
  import opened Base

  /** A JSON value; numbers are integers in this model. */
  datatype Json =
    | JNull
    | JBool(b: bool)
    | JNum(n: int)
    | JStr(s: string)
    | JArr(items: seq<Json>)
    | JObj(fields: map<string, Json>)

  // -------------------------------------------------------------- fields

  function StrField(j: Json, key: string): (r: Option<string>)
    ensures r.Some? <==> j.JObj? && key in j.fields && j.fields[key].JStr?
    ensures r.Some? ==> r.value == j.fields[key].s
  {
    if j.JObj? && key in j.fields && j.fields[key].JStr? then Some(j.fields[key].s) else None
  }

  /** A `.nullable()` string: present as null or a string; a missing key is rejected. */
  function NullableStrField(j: Json, key: string): (r: Option<Option<string>>)
    ensures r.Some? <==> j.JObj? && key in j.fields && (j.fields[key].JNull? || j.fields[key].JStr?)
    ensures r.Some? && j.fields[key].JNull? ==> r.value.None?
    ensures r.Some? && j.fields[key].JStr? ==> r.value == Some(j.fields[key].s)
  {
    if j.JObj? && key in j.fields then
      match j.fields[key]
      case JNull => Some(None)
      case JStr(s) => Some(Some(s))
      case _ => None
    else None
  }

  function NumField(j: Json, key: string): (r: Option<int>)
    ensures r.Some? <==> j.JObj? && key in j.fields && j.fields[key].JNum?
    ensures r.Some? ==> r.value == j.fields[key].n
  {
    if j.JObj? && key in j.fields && j.fields[key].JNum? then Some(j.fields[key].n) else None
  }

  function BoolField(j: Json, key: string): (r: Option<bool>)
    ensures r.Some? <==> j.JObj? && key in j.fields && j.fields[key].JBool?
    ensures r.Some? ==> r.value == j.fields[key].b
  {
    if j.JObj? && key in j.fields && j.fields[key].JBool? then Some(j.fields[key].b) else None
  }

  function NullableStrJson(v: Option<string>): Json {
    match v
    case None => JNull
    case Some(s) => JStr(s)
  }

  predicate IsHex(c: char) { '0' <= c <= '9' || 'a' <= c <= 'f' || 'A' <= c <= 'F' }

  /** The 8-4-4-4-12 hexadecimal shape of a UUID. */
  predicate IsUuid(s: string)
  {
    && |s| == 36
    && (forall i :: 0 <= i < 36 ==> (i == 8 || i == 13 || i == 18 || i == 23 <==> s[i] == '-'))
    && (forall i :: 0 <= i < 36 && i != 8 && i != 13 && i != 18 && i != 23 ==> IsHex(s[i]))
  }

  /** `z.string().min(1).max(64)`. */
  predicate KeywordLength(s: string) { 1 <= |s| <= 64 }

  // ------------------------------------------------------------- keyword

  datatype KeywordStatus = Active | Inactive

  function KeywordStatusName(st: KeywordStatus): string {
    match st
    case Active => "active"
    case Inactive => "inactive"
  }

  function ParseKeywordStatus(s: string): (r: Option<KeywordStatus>)
    ensures r.Some? <==> s == "active" || s == "inactive"
    ensures r.Some? ==> KeywordStatusName(r.value) == s
  {
    if s == "active" then Some(Active) else if s == "inactive" then Some(Inactive) else None
  }

  datatype Keyword = Keyword(
    keywordId: string,
    value: string,
    normalizedValue: string,
    status: KeywordStatus,
    createdAt: string)

  predicate ValidKeyword(k: Keyword) { IsUuid(k.keywordId) && KeywordLength(k.value) }

  /**
   * KeywordSchema: a uuid keyword_id, a value of 1 to 64 characters, a
   * normalized_value and created_at string, and status active or inactive.
   */
  function ParseKeyword(j: Json): (r: Option<Keyword>)
    ensures r.Some? <==>
              && StrField(j, "keyword_id").Some? && IsUuid(StrField(j, "keyword_id").value)
              && StrField(j, "value").Some? && KeywordLength(StrField(j, "value").value)
              && StrField(j, "normalized_value").Some?
              && StrField(j, "status").Some? && ParseKeywordStatus(StrField(j, "status").value).Some?
              && StrField(j, "created_at").Some?
    ensures r.Some? ==> ValidKeyword(r.value)
    ensures r.Some? ==> r.value.keywordId == j.fields["keyword_id"].s && r.value.value == j.fields["value"].s
  {
    var id := StrField(j, "keyword_id");
    var value := StrField(j, "value");
    var normalized := StrField(j, "normalized_value");
    var status := StrField(j, "status");
    var created := StrField(j, "created_at");
    if id.None? || !IsUuid(id.value) || value.None? || !KeywordLength(value.value) || normalized.None?
       || status.None? || ParseKeywordStatus(status.value).None? || created.None?
    then None
    else Some(Keyword(id.value, value.value, normalized.value, ParseKeywordStatus(status.value).value, created.value))
  }

  function EncodeKeyword(k: Keyword): Json {
    JObj(map["keyword_id" := JStr(k.keywordId), "value" := JStr(k.value),
             "normalized_value" := JStr(k.normalizedValue),
             "status" := JStr(KeywordStatusName(k.status)), "created_at" := JStr(k.createdAt)])
  }

  /** Every valid keyword survives encoding and parsing unchanged. */
  lemma KeywordRoundTrip(k: Keyword)
    requires ValidKeyword(k)
    ensures ParseKeyword(EncodeKeyword(k)) == Some(k)
  {
    var j := EncodeKeyword(k);
    assert ParseKeywordStatus(KeywordStatusName(k.status)) == Some(k.status);
  }

  /** Fields the schema does not declare are dropped, never rejected. */
  lemma KeywordIgnoresExtraFields(k: Keyword, extra: string, v: Json)
    requires ValidKeyword(k)
    requires extra !in EncodeKeyword(k).fields
    ensures ParseKeyword(JObj(EncodeKeyword(k).fields[extra := v])) == Some(k)
  {
    var j := JObj(EncodeKeyword(k).fields[extra := v]);
    assert ParseKeywordStatus(KeywordStatusName(k.status)) == Some(k.status);
    assert StrField(j, "keyword_id") == Some(k.keywordId);
    assert StrField(j, "value") == Some(k.value);
    assert StrField(j, "normalized_value") == Some(k.normalizedValue);
    assert StrField(j, "status") == Some(KeywordStatusName(k.status));
    assert StrField(j, "created_at") == Some(k.createdAt);
  }

  // --------------------------------------------------------------- match

  datatype MatchedField = Cn | San | Both

  function MatchedFieldName(f: MatchedField): string {
    match f
    case Cn => "cn"
    case San => "san"
    case Both => "both"
  }

  function ParseMatchedField(s: string): (r: Option<MatchedField>)
    ensures r.Some? <==> s == "cn" || s == "san" || s == "both"
    ensures r.Some? ==> MatchedFieldName(r.value) == s
  {
    if s == "cn" then Some(Cn) else if s == "san" then Some(San) else if s == "both" then Some(Both) else None
  }

  /** The nullable certificate fields of a match, in schema order. */
  datatype CertFields = CertFields(
    domainName: Option<string>,
    issuerCn: Option<string>,
    issuerOrg: Option<string>,
    subjectCn: Option<string>,
    subjectOrg: Option<string>,
    notBefore: Option<string>,
    notAfter: Option<string>)

  datatype Match = Match(
    id: string,
    keywordId: string,
    keywordValue: string,
    certificateSha256: string,
    matchedField: MatchedField,
    matchedValue: string,
    cert: CertFields,
    firstSeenAt: string,
    lastSeenAt: string,
    isNew: bool,
    ctLogIndex: int)

  predicate ValidMatch(m: Match) { IsUuid(m.id) && IsUuid(m.keywordId) }

  /** The seven nullable fields: each null or a string, none missing. */
  function ParseCertFields(j: Json): (r: Option<CertFields>)
    ensures r.Some? <==>
              && NullableStrField(j, "domain_name").Some? && NullableStrField(j, "issuer_cn").Some?
              && NullableStrField(j, "issuer_org").Some? && NullableStrField(j, "subject_cn").Some?
              && NullableStrField(j, "subject_org").Some? && NullableStrField(j, "not_before").Some?
              && NullableStrField(j, "not_after").Some?
  {
    var d := NullableStrField(j, "domain_name");
    var icn := NullableStrField(j, "issuer_cn");
    var io := NullableStrField(j, "issuer_org");
    var scn := NullableStrField(j, "subject_cn");
    var so := NullableStrField(j, "subject_org");
    var nb := NullableStrField(j, "not_before");
    var na := NullableStrField(j, "not_after");
    if d.None? || icn.None? || io.None? || scn.None? || so.None? || nb.None? || na.None? then None
    else Some(CertFields(d.value, icn.value, io.value, scn.value, so.value, nb.value, na.value))
  }

  /**
   * MatchSchema: uuid ids, matched_field one of cn/san/both, the certificate
   * fields nullable, first/last_seen_at required strings, is_new a boolean
   * and ct_log_index a number.
   */
  function ParseMatch(j: Json): (r: Option<Match>)
    ensures r.Some? <==>
              && StrField(j, "id").Some? && IsUuid(StrField(j, "id").value)
              && StrField(j, "keyword_id").Some? && IsUuid(StrField(j, "keyword_id").value)
              && StrField(j, "keyword_value").Some? && StrField(j, "certificate_sha256").Some?
              && StrField(j, "matched_field").Some? && ParseMatchedField(StrField(j, "matched_field").value).Some?
              && StrField(j, "matched_value").Some? && ParseCertFields(j).Some?
              && StrField(j, "first_seen_at").Some? && StrField(j, "last_seen_at").Some?
              && BoolField(j, "is_new").Some? && NumField(j, "ct_log_index").Some?
    ensures r.Some? ==> ValidMatch(r.value)
  {
    var id := StrField(j, "id");
    var kid := StrField(j, "keyword_id");
    var kv := StrField(j, "keyword_value");
    var sha := StrField(j, "certificate_sha256");
    var mf := StrField(j, "matched_field");
    var mv := StrField(j, "matched_value");
    var cert := ParseCertFields(j);
    var first := StrField(j, "first_seen_at");
    var last := StrField(j, "last_seen_at");
    var isNew := BoolField(j, "is_new");
    var index := NumField(j, "ct_log_index");
    if id.None? || !IsUuid(id.value) || kid.None? || !IsUuid(kid.value) || kv.None? || sha.None?
       || mf.None? || ParseMatchedField(mf.value).None? || mv.None? || cert.None? || first.None?
       || last.None? || isNew.None? || index.None?
    then None
    else Some(Match(id.value, kid.value, kv.value, sha.value, ParseMatchedField(mf.value).value, mv.value,
                    cert.value, first.value, last.value, isNew.value, index.value))
  }

  function EncodeMatch(m: Match): Json {
    JObj(map["id" := JStr(m.id), "keyword_id" := JStr(m.keywordId), "keyword_value" := JStr(m.keywordValue),
             "certificate_sha256" := JStr(m.certificateSha256),
             "matched_field" := JStr(MatchedFieldName(m.matchedField)), "matched_value" := JStr(m.matchedValue),
             "domain_name" := NullableStrJson(m.cert.domainName), "issuer_cn" := NullableStrJson(m.cert.issuerCn),
             "issuer_org" := NullableStrJson(m.cert.issuerOrg), "subject_cn" := NullableStrJson(m.cert.subjectCn),
             "subject_org" := NullableStrJson(m.cert.subjectOrg), "not_before" := NullableStrJson(m.cert.notBefore),
             "not_after" := NullableStrJson(m.cert.notAfter), "first_seen_at" := JStr(m.firstSeenAt),
             "last_seen_at" := JStr(m.lastSeenAt), "is_new" := JBool(m.isNew), "ct_log_index" := JNum(m.ctLogIndex)])
  }

  lemma NullableRoundTrip(j: Json, key: string, v: Option<string>)
    requires j.JObj? && key in j.fields && j.fields[key] == NullableStrJson(v)
    ensures NullableStrField(j, key) == Some(v)
  {
  }

  /** The seven nullable fields of an encoded match read back as they were. */
  lemma CertFieldsRoundTrip(m: Match)
    ensures ParseCertFields(EncodeMatch(m)) == Some(m.cert)
  {
    var j := EncodeMatch(m);
    NullableRoundTrip(j, "domain_name", m.cert.domainName);
    NullableRoundTrip(j, "issuer_cn", m.cert.issuerCn);
    NullableRoundTrip(j, "issuer_org", m.cert.issuerOrg);
    NullableRoundTrip(j, "subject_cn", m.cert.subjectCn);
    NullableRoundTrip(j, "subject_org", m.cert.subjectOrg);
    NullableRoundTrip(j, "not_before", m.cert.notBefore);
    NullableRoundTrip(j, "not_after", m.cert.notAfter);
  }

  /** The identifying fields of an encoded match read back as they were. */
  lemma MatchIdsRoundTrip(m: Match)
    ensures var j := EncodeMatch(m);
            && StrField(j, "id") == Some(m.id) && StrField(j, "keyword_id") == Some(m.keywordId)
            && StrField(j, "keyword_value") == Some(m.keywordValue)
            && StrField(j, "certificate_sha256") == Some(m.certificateSha256)
  {
  }

  /** The matched field and value of an encoded match read back as they were. */
  lemma MatchedRoundTrip(m: Match)
    ensures var j := EncodeMatch(m);
            && StrField(j, "matched_field") == Some(MatchedFieldName(m.matchedField))
            && StrField(j, "matched_value") == Some(m.matchedValue)
  {
  }

  /** The sighting fields of an encoded match read back as they were. */
  lemma SightingRoundTrip(m: Match)
    ensures var j := EncodeMatch(m);
            && StrField(j, "first_seen_at") == Some(m.firstSeenAt) && StrField(j, "last_seen_at") == Some(m.lastSeenAt)
            && BoolField(j, "is_new") == Some(m.isNew) && NumField(j, "ct_log_index") == Some(m.ctLogIndex)
  {
  }

  /** A JSON object whose fields hold the values of a valid match parses to that match. */
  lemma ParseMatchOf(j: Json, m: Match)
    requires ValidMatch(m)
    requires StrField(j, "id") == Some(m.id) && StrField(j, "keyword_id") == Some(m.keywordId)
    requires StrField(j, "keyword_value") == Some(m.keywordValue)
    requires StrField(j, "certificate_sha256") == Some(m.certificateSha256)
    requires StrField(j, "matched_field") == Some(MatchedFieldName(m.matchedField))
    requires StrField(j, "matched_value") == Some(m.matchedValue)
    requires ParseCertFields(j) == Some(m.cert)
    requires StrField(j, "first_seen_at") == Some(m.firstSeenAt) && StrField(j, "last_seen_at") == Some(m.lastSeenAt)
    requires BoolField(j, "is_new") == Some(m.isNew) && NumField(j, "ct_log_index") == Some(m.ctLogIndex)
    ensures ParseMatch(j) == Some(m)
  {
    assert ParseMatchedField(MatchedFieldName(m.matchedField)) == Some(m.matchedField);
  }

  /** Every valid match survives encoding and parsing unchanged. */
  lemma MatchRoundTrip(m: Match)
    requires ValidMatch(m)
    ensures ParseMatch(EncodeMatch(m)) == Some(m)
  {
    CertFieldsRoundTrip(m);
    MatchIdsRoundTrip(m);
    MatchedRoundTrip(m);
    SightingRoundTrip(m);
    ParseMatchOf(EncodeMatch(m), m);
  }

  // ------------------------------------------------------ monitor status

  datatype MonitorState = Idle | Running | Error

  function MonitorStateName(s: MonitorState): string {
    match s
    case Idle => "idle"
    case Running => "running"
    case Error => "error"
  }

  function ParseMonitorState(s: string): (r: Option<MonitorState>)
    ensures r.Some? <==> s == "idle" || s == "running" || s == "error"
    ensures r.Some? ==> MonitorStateName(r.value) == s
  {
    if s == "idle" then Some(Idle) else if s == "running" then Some(Running) else if s == "error" then Some(Error)
    else None
  }

  datatype Metrics = Metrics(
    processedCount: int,
    matchCount: int,
    parseErrorCount: int,
    durationMs: int,
    ctLatencyMs: int,
    dbLatencyMs: int)

  datatype MonitorStatus = MonitorStatus(
    state: MonitorState,
    lastRunAt: Option<string>,
    lastSuccessAt: Option<string>,
    lastErrorCode: Option<string>,
    lastErrorMessage: Option<string>,
    metricsLastRun: Option<Metrics>)

  /** The metrics object: exactly the six numeric fields must be numbers. */
  function ParseMetrics(j: Json): (r: Option<Metrics>)
    ensures r.Some? <==>
              && NumField(j, "processed_count").Some? && NumField(j, "match_count").Some?
              && NumField(j, "parse_error_count").Some? && NumField(j, "duration_ms").Some?
              && NumField(j, "ct_latency_ms").Some? && NumField(j, "db_latency_ms").Some?
  {
    var p := NumField(j, "processed_count");
    var m := NumField(j, "match_count");
    var e := NumField(j, "parse_error_count");
    var d := NumField(j, "duration_ms");
    var ct := NumField(j, "ct_latency_ms");
    var db := NumField(j, "db_latency_ms");
    if p.None? || m.None? || e.None? || d.None? || ct.None? || db.None? then None
    else Some(Metrics(p.value, m.value, e.value, d.value, ct.value, db.value))
  }

  /** metrics_last_run: null, or a metrics object; a missing key is rejected. */
  function ParseNullableMetrics(j: Json): (r: Option<Option<Metrics>>)
    ensures r.Some? <==> j.JObj? && "metrics_last_run" in j.fields
                         && (j.fields["metrics_last_run"].JNull? || ParseMetrics(j.fields["metrics_last_run"]).Some?)
    ensures r.Some? && j.fields["metrics_last_run"].JNull? ==> r.value.None?
  {
    if j.JObj? && "metrics_last_run" in j.fields then
      var v := j.fields["metrics_last_run"];
      if v.JNull? then Some(None)
      else match ParseMetrics(v)
        case None => None
        case Some(m) => Some(Some(m))
    else None
  }

  /** MonitorStatusSchema: state idle/running/error, four nullable strings, nullable metrics. */
  function ParseMonitorStatus(j: Json): (r: Option<MonitorStatus>)
    ensures r.Some? <==>
              && StrField(j, "state").Some? && ParseMonitorState(StrField(j, "state").value).Some?
              && NullableStrField(j, "last_run_at").Some? && NullableStrField(j, "last_success_at").Some?
              && NullableStrField(j, "last_error_code").Some? && NullableStrField(j, "last_error_message").Some?
              && ParseNullableMetrics(j).Some?
    ensures r.Some? ==> MonitorStateName(r.value.state) == j.fields["state"].s
  {
    var st := StrField(j, "state");
    var run := NullableStrField(j, "last_run_at");
    var success := NullableStrField(j, "last_success_at");
    var code := NullableStrField(j, "last_error_code");
    var msg := NullableStrField(j, "last_error_message");
    var metrics := ParseNullableMetrics(j);
    if st.None? || ParseMonitorState(st.value).None? || run.None? || success.None? || code.None? || msg.None?
       || metrics.None?
    then None
    else Some(MonitorStatus(ParseMonitorState(st.value).value, run.value, success.value, code.value, msg.value,
                            metrics.value))
  }

  function EncodeMetrics(m: Metrics): Json {
    JObj(map["processed_count" := JNum(m.processedCount), "match_count" := JNum(m.matchCount),
             "parse_error_count" := JNum(m.parseErrorCount), "duration_ms" := JNum(m.durationMs),
             "ct_latency_ms" := JNum(m.ctLatencyMs), "db_latency_ms" := JNum(m.dbLatencyMs)])
  }

  function EncodeMonitorStatus(s: MonitorStatus): Json {
    JObj(map["state" := JStr(MonitorStateName(s.state)), "last_run_at" := NullableStrJson(s.lastRunAt),
             "last_success_at" := NullableStrJson(s.lastSuccessAt),
             "last_error_code" := NullableStrJson(s.lastErrorCode),
             "last_error_message" := NullableStrJson(s.lastErrorMessage),
             "metrics_last_run" := if s.metricsLastRun.Some? then EncodeMetrics(s.metricsLastRun.value) else JNull])
  }

  /** The fields of an encoded monitor status read back as they were. */
  lemma MonitorStatusFieldsRoundTrip(s: MonitorStatus)
    ensures var j := EncodeMonitorStatus(s);
            && StrField(j, "state") == Some(MonitorStateName(s.state))
            && NullableStrField(j, "last_run_at") == Some(s.lastRunAt)
            && NullableStrField(j, "last_success_at") == Some(s.lastSuccessAt)
            && NullableStrField(j, "last_error_code") == Some(s.lastErrorCode)
            && NullableStrField(j, "last_error_message") == Some(s.lastErrorMessage)
  {
    var j := EncodeMonitorStatus(s);
    NullableRoundTrip(j, "last_run_at", s.lastRunAt);
    NullableRoundTrip(j, "last_success_at", s.lastSuccessAt);
    NullableRoundTrip(j, "last_error_code", s.lastErrorCode);
    NullableRoundTrip(j, "last_error_message", s.lastErrorMessage);
  }

  /** The metrics of an encoded monitor status read back as they were, null included. */
  lemma MetricsRoundTrip(s: MonitorStatus)
    ensures ParseNullableMetrics(EncodeMonitorStatus(s)) == Some(s.metricsLastRun)
  {
    if s.metricsLastRun.Some? {
      assert ParseMetrics(EncodeMetrics(s.metricsLastRun.value)) == s.metricsLastRun;
    }
  }

  /** Every monitor status survives encoding and parsing unchanged. */
  lemma MonitorStatusRoundTrip(s: MonitorStatus)
    ensures ParseMonitorStatus(EncodeMonitorStatus(s)) == Some(s)
  {
    MonitorStatusFieldsRoundTrip(s);
    MetricsRoundTrip(s);
    assert ParseMonitorState(MonitorStateName(s.state)) == Some(s.state);
  }

  // ------------------------------------------------------- list responses

  /** `z.array(item)`: every element must parse; the parsed elements keep their order. */
  function ParseAll<T>(items: seq<Json>, parse: Json -> Option<T>): (r: Option<seq<T>>)
    ensures r.Some? <==> forall i :: 0 <= i < |items| ==> parse(items[i]).Some?
    ensures r.Some? ==> |r.value| == |items| && forall i :: 0 <= i < |items| ==> r.value[i] == parse(items[i]).value
  {
    if items == [] then Some([])
    else
      match parse(items[0])
      case None => None
      case Some(x) =>
        match ParseAll(items[1..], parse)
        case None => None
        case Some(rest) => Some([x] + rest)
  }

  datatype ListResponse<T> = ListResponse(items: seq<T>, total: int)

  /** KeywordListResponseSchema / MatchListResponseSchema: `{items, total}`. */
  function ParseList<T>(j: Json, parse: Json -> Option<T>): (r: Option<ListResponse<T>>)
    ensures r.Some? <==>
              && j.JObj? && "items" in j.fields && j.fields["items"].JArr?
              && ParseAll(j.fields["items"].items, parse).Some? && NumField(j, "total").Some?
    ensures r.Some? ==> r.value.items == ParseAll(j.fields["items"].items, parse).value
                        && r.value.total == j.fields["total"].n
  {
    if j.JObj? && "items" in j.fields && j.fields["items"].JArr? then
      match (ParseAll(j.fields["items"].items, parse), NumField(j, "total"))
      case (Some(items), Some(total)) => Some(ListResponse(items, total))
      case _ => None
    else None
  }

  /** CreateKeywordSchema: a value of 1 to 64 characters. */
  function ParseCreateKeyword(j: Json): (r: Option<string>)
    ensures r.Some? <==> StrField(j, "value").Some? && KeywordLength(StrField(j, "value").value)
    ensures r.Some? ==> 1 <= |r.value| <= 64
  {
    match StrField(j, "value")
    case Some(v) => if KeywordLength(v) then Some(v) else None
    case None => None
  }
}
