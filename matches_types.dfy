/** The records of the matches feature: a stored match row, its API form, and the list query. */
module MatchesTypes {
  import opened Base

  /** The three sort orders a list query may ask for. */
  const SortFirstSeenDesc: string := "first_seen_desc"
  const SortLastSeenDesc: string := "last_seen_desc"
  const SortDomainAsc: string := "domain_asc"

  /** A row of matched_certificates joined with its keyword's text. */
  datatype MatchRow = MatchRow(
    id: string,
    keywordID: string,
    keywordValue: string,
    certSHA256: string,
    matchedField: string,
    matchedValue: string,
    domainName: Option<string>,
    issuerCN: Option<string>,
    issuerOrg: Option<string>,
    subjectCN: Option<string>,
    subjectOrg: Option<string>,
    notBefore: Option<Time>,
    notAfter: Option<Time>,
    firstSeenAt: Time,
    lastSeenAt: Time,
    isNew: bool,
    ctLogIndex: int)

  /** A match as the API returns it. */
  datatype Match = Match(
    id: string,
    keywordID: string,
    keywordValue: string,
    certSHA256: string,
    matchedField: string,
    matchedValue: string,
    domainName: Option<string>,
    issuerCN: Option<string>,
    issuerOrg: Option<string>,
    subjectCN: Option<string>,
    subjectOrg: Option<string>,
    notBefore: Option<Time>,
    notAfter: Option<Time>,
    firstSeenAt: Time,
    lastSeenAt: Time,
    isNew: bool,
    ctLogIndex: int)

  /**
   * The filters, page and sort of a list or export request. `lastSuccessTime`
   * is the time of the monitor's last success, looked up for new-only queries.
   */
  datatype ListQuery = ListQuery(
    page: int,
    pageSize: int,
    keyword: string,
    q: string,
    issuer: string,
    dateFrom: Option<Time>,
    dateTo: Option<Time>,
    newOnly: bool,
    sort: string,
    lastSuccessTime: Option<Time>)

  datatype ListResponse = ListResponse(items: seq<Match>, total: int)

  /** The page sizes a client may ask for. */
  predicate AllowedPageSize(n: int) {
    n == 10 || n == 25 || n == 50
  }
}
