/**
 * The matches service: it normalises a list query before handing it to the
 * repository, and turns stored rows into API matches.
 */
module MatchesService {
  import opened Base
  import opened MatchesTypes

  /** A stored row as an API match, field for field. */
  function RowToMatch(row: MatchRow): (m: Match)
    ensures MatchToRow(m) == row
  {
    Match(row.id, row.keywordID, row.keywordValue, row.certSHA256, row.matchedField, row.matchedValue,
          row.domainName, row.issuerCN, row.issuerOrg, row.subjectCN, row.subjectOrg,
          row.notBefore, row.notAfter, row.firstSeenAt, row.lastSeenAt, row.isNew, row.ctLogIndex)
  }

  /** The inverse of RowToMatch, used to state that no field is lost. */
  function MatchToRow(m: Match): MatchRow {
    MatchRow(m.id, m.keywordID, m.keywordValue, m.certSHA256, m.matchedField, m.matchedValue,
             m.domainName, m.issuerCN, m.issuerOrg, m.subjectCN, m.subjectOrg,
             m.notBefore, m.notAfter, m.firstSeenAt, m.lastSeenAt, m.isNew, m.ctLogIndex)
  }

  /** Distinct rows give distinct matches: the copy loses nothing. */
  lemma RowToMatchInjective(a: MatchRow, b: MatchRow)
    ensures RowToMatch(a) == RowToMatch(b) ==> a == b
  {
    assert MatchToRow(RowToMatch(a)) == a;
    assert MatchToRow(RowToMatch(b)) == b;
  }

  /**
   * For a new-only query, the monitor's last success time when the lookup
   * succeeds and finds one; otherwise the query is unchanged.
   */
  function WithLastSuccess(query: ListQuery, lastSuccess: Result<Option<Time>, string>): (q: ListQuery)
    ensures q == query.(lastSuccessTime := q.lastSuccessTime)
    ensures query.newOnly && lastSuccess.Success? && lastSuccess.value.Some? ==>
              q.lastSuccessTime == lastSuccess.value
    ensures !(query.newOnly && lastSuccess.Success? && lastSuccess.value.Some?) ==> q == query
  {
    if query.newOnly && lastSuccess.Success? && lastSuccess.value.Some? then
      query.(lastSuccessTime := lastSuccess.value)
    else query
  }

  /** A page below 1 becomes 1, a page size other than 10, 25 or 50 becomes 10, no sort becomes first-seen. */
  function Normalized(query: ListQuery): (q: ListQuery)
    ensures q.page >= 1 && AllowedPageSize(q.pageSize) && q.sort != ""
    ensures query.page >= 1 ==> q.page == query.page
    ensures AllowedPageSize(query.pageSize) ==> q.pageSize == query.pageSize
    ensures query.sort != "" ==> q.sort == query.sort
    ensures query.sort == "" ==> q.sort == SortFirstSeenDesc
    ensures q == query.(page := q.page, pageSize := q.pageSize, sort := q.sort)
  {
    var page := if query.page < 1 then 1 else query.page;
    var pageSize := if !AllowedPageSize(query.pageSize) then 10 else query.pageSize;
    var sort := if query.sort == "" then SortFirstSeenDesc else query.sort;
    query.(page := page, pageSize := pageSize, sort := sort)
  }

  /** Normalising twice is normalising once. */
  lemma NormalizedIdempotent(query: ListQuery)
    ensures Normalized(Normalized(query)) == Normalized(query)
  {
  }

  /** One page of rows as the repository returns it, with the total of all matching rows. */
  datatype RowsPage = RowsPage(rows: seq<MatchRow>, total: int)

  /**
   * The list of one page. The repository is a function from the query it
   * receives to its outcome; its error is returned with no response.
   */
  method List(query: ListQuery, lastSuccess: Result<Option<Time>, string>,
               repoList: ListQuery -> Result<RowsPage, string>)
    returns (sent: ListQuery, r: Result<ListResponse, string>)
    ensures sent == WithLastSuccess(Normalized(query), lastSuccess)
    ensures repoList(sent).Failure? ==> r == Failure(repoList(sent).error)
    ensures repoList(sent).Success? ==>
              r.Success? && r.value.total == repoList(sent).value.total &&
              |r.value.items| == |repoList(sent).value.rows| &&
              forall i :: 0 <= i < |r.value.items| ==> r.value.items[i] == RowToMatch(repoList(sent).value.rows[i])
  {
    sent := Normalized(query);
    sent := WithLastSuccess(sent, lastSuccess);
    var page := repoList(sent);
    if page.Failure? {
      return sent, Failure(page.error);
    }
    var rows := page.value.rows;
    var items: seq<Match> := [];
    for i := 0 to |rows|
      invariant |items| == i
      invariant forall k :: 0 <= k < i ==> items[k] == RowToMatch(rows[k])
    {
      items := items + [RowToMatch(rows[i])];
    }
    r := Success(ListResponse(items, page.value.total));
  }

  /** The query StreamAll hands to the repository: no paging normalisation, only the last success time. */
  function StreamQuery(query: ListQuery, lastSuccess: Result<Option<Time>, string>): (q: ListQuery)
    ensures q == query.(lastSuccessTime := q.lastSuccessTime)
    ensures query.newOnly && lastSuccess.Success? && lastSuccess.value.Some? ==>
              q.lastSuccessTime == lastSuccess.value
    ensures !(query.newOnly && lastSuccess.Success? && lastSuccess.value.Some?) ==> q == query
  {
    WithLastSuccess(query, lastSuccess)
  }

  /**
   * The list and the stream filter alike: the query List sends and the one
   * StreamAll sends differ at most in the page, the page size and the sort.
   */
  lemma ListAndStreamShareFilter(query: ListQuery, lastSuccess: Result<Option<Time>, string>)
    ensures var listed := WithLastSuccess(Normalized(query), lastSuccess);
      listed == StreamQuery(query, lastSuccess).(page := listed.page, pageSize := listed.pageSize, sort := listed.sort)
  {
  }

  /** The matches StreamAll delivers, in repository order: one per row. */
  function StreamedMatches(rows: seq<MatchRow>): (ms: seq<Match>)
    ensures |ms| == |rows|
    ensures forall i :: 0 <= i < |rows| ==> MatchToRow(ms[i]) == rows[i]
  {
    seq(|rows|, i requires 0 <= i < |rows| => RowToMatch(rows[i]))
  }
}
