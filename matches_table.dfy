/**
 * The matches table: the cells each match is rendered with, the highlight
 * pattern built from its keyword, the page count, and when the skeleton and
 * the pagination are shown.
 */
module MatchesTable {
  import opened Base
  import opened Text
  import opened HttpErrors
  import opened Schemas

  /** The characters a regular expression gives a meaning to, escaped before highlighting. */
  predicate IsRegExpMeta(c: char)
  {
    c == '.' || c == '*' || c == '+' || c == '?' || c == '^' || c == '$' || c == '{' || c == '}'
    || c == '(' || c == ')' || c == '|' || c == '[' || c == ']' || c == '\\'
  }

  /** Text a regular expression reads literally: every meta character comes behind a backslash. */
  predicate LiteralPattern(r: string)
    decreases |r|
  {
    if r == [] then true
    else if IsRegExpMeta(r[0]) then r[0] == '\\' && |r| >= 2 && IsRegExpMeta(r[1]) && LiteralPattern(r[2..])
    else LiteralPattern(r[1..])
  }

  /** `replace(/[.*+?^${}()|[\]\\]/g, '\\$&')`: a backslash put before each meta character. */
  function EscapeRegExp(s: string): (r: string)
    ensures |s| <= |r| <= 2 * |s|
    ensures LiteralPattern(r)
  {
    if s == [] then []
    else
      var head := if IsRegExpMeta(s[0]) then ['\\', s[0]] else [s[0]];
      var rest := EscapeRegExp(s[1..]);
      assert (head + rest)[|head|..] == rest;
      head + rest
  }

  /** The text a literal pattern matches: each backslash pair read as its second character. */
  function Unescape(r: string): (s: string)
    decreases |r|
  {
    if r == [] then []
    else if r[0] == '\\' && |r| >= 2 then [r[1]] + Unescape(r[2..])
    else [r[0]] + Unescape(r[1..])
  }

  /** The escaped keyword matches the keyword itself: escaping loses nothing. */
  lemma {:induction false} EscapeRoundTrip(s: string)
    ensures Unescape(EscapeRegExp(s)) == s
  {
    if s != [] {
      EscapeRoundTrip(s[1..]);
      var rest := EscapeRegExp(s[1..]);
      if IsRegExpMeta(s[0]) {
        assert EscapeRegExp(s) == ['\\', s[0]] + rest;
        assert (['\\', s[0]] + rest)[2..] == rest;
      } else {
        assert EscapeRegExp(s) == [s[0]] + rest;
        assert ([s[0]] + rest)[1..] == rest;
      }
      assert s == [s[0]] + s[1..];
    }
  }

  /** The highlight pattern: none for an empty keyword (the text is shown as is), else the escaped keyword as one group. */
  function HighlightPattern(keyword: string): (p: Option<string>)
    ensures p.None? <==> keyword == ""
    ensures p.Some? ==> |p.value| >= 2 && p.value[0] == '(' && p.value[|p.value| - 1] == ')'
    ensures p.Some? ==> LiteralPattern(p.value[1..|p.value| - 1]) && Unescape(p.value[1..|p.value| - 1]) == keyword
  {
    if keyword == "" then None
    else
      var e := EscapeRegExp(keyword);
      EscapeRoundTrip(keyword);
      assert ("(" + e + ")")[1..|e| + 1] == e;
      Some("(" + e + ")")
  }

  /** A long fingerprint shortened to its first and last eight characters around "...". */
  function TruncateFingerprint(hash: string): (r: string)
    ensures |hash| <= 16 ==> r == hash
    ensures |hash| > 16 ==> |r| == 19 && r[..8] == hash[..8] && r[8..11] == "..." && r[11..] == hash[|hash| - 8..]
    ensures |r| <= 19
  {
    if |hash| <= 16 then hash
    else hash[..8] + "..." + hash[|hash| - 8..]
  }

  /** Two fingerprints shown alike agree on their first and last eight characters. */
  lemma TruncatedAlike(a: string, b: string)
    requires |a| > 16 && |b| > 16 && TruncateFingerprint(a) == TruncateFingerprint(b)
    ensures a[..8] == b[..8] && a[|a| - 8..] == b[|b| - 8..]
  {
    assert TruncateFingerprint(a)[..8] == TruncateFingerprint(b)[..8];
    assert TruncateFingerprint(a)[11..] == TruncateFingerprint(b)[11..];
  }

  /** `Math.ceil(total / limit)`: the fewest pages of `limit` rows that hold `total` rows. */
  function TotalPages(total: int, limit: int): (pages: int)
    requires limit > 0
    ensures (pages - 1) * limit < total <= pages * limit
    ensures total <= 0 ==> pages <= 0
    ensures total > 0 ==> pages >= 1
  {
    var q := (-total) / limit;
    assert q * limit <= -total < q * limit + limit;
    -q
  }

  /** A date cell: "-" for a missing or empty date, else the date in the `locale` format. */
  function DateCell(date: Option<string>, locale: string -> string): (cell: string)
    ensures (date.None? || date.value == "") ==> cell == "-"
    ensures date.Some? && date.value != "" ==> cell == locale(date.value)
  {
    if date.Some? && date.value != "" then locale(date.value) else "-"
  }

  /** The issuer cell: the issuer organisation, else the issuer CN, else "-". */
  function IssuerCell(cert: CertFields): (cell: string)
    ensures cert.issuerOrg.Some? && cert.issuerOrg.value != "" ==> cell == cert.issuerOrg.value
    ensures (cert.issuerOrg.None? || cert.issuerOrg.value == "") ==>
              (cert.issuerCn.Some? && cert.issuerCn.value != "" ==> cell == cert.issuerCn.value)
    ensures (cert.issuerOrg.None? || cert.issuerOrg.value == "") ==>
              (cert.issuerCn.None? || cert.issuerCn.value == "" ==> cell == "-")
    ensures cell != ""
  {
    OrElse(cert.issuerOrg, OrElse(cert.issuerCn, "-"))
  }

  /** The field badge: the matched field in capitals. */
  function FieldLabel(f: MatchedField): (caption: string)
    ensures HasNoUpper(MatchedFieldName(f)) && Lower(caption) == MatchedFieldName(f)
    ensures forall i :: 0 <= i < |caption| ==> !IsLowerAscii(caption[i])
  {
    Upper(MatchedFieldName(f))
  }

  /** The cells of one row, left to right. */
  datatype Row = Row(
    keyword: string,
    matchedValue: string,
    highlight: Option<string>,
    newBadge: bool,
    field: string,
    fingerprint: string,
    fingerprintTitle: string,
    issuer: string,
    firstSeen: string,
    expires: string)

  function RowOf(m: Match, locale: string -> string): (row: Row)
    ensures row.keyword == m.keywordValue && row.matchedValue == m.matchedValue
    ensures row.highlight == HighlightPattern(m.keywordValue)
    ensures row.newBadge <==> m.isNew
    ensures row.fingerprintTitle == m.certificateSha256 && row.fingerprint == TruncateFingerprint(m.certificateSha256)
    ensures row.issuer == IssuerCell(m.cert) && row.field == FieldLabel(m.matchedField)
    ensures row.firstSeen == DateCell(Some(m.firstSeenAt), locale) && row.expires == DateCell(m.cert.notAfter, locale)
  {
    Row(m.keywordValue, m.matchedValue, HighlightPattern(m.keywordValue), m.isNew, FieldLabel(m.matchedField),
        TruncateFingerprint(m.certificateSha256), m.certificateSha256, IssuerCell(m.cert),
        DateCell(Some(m.firstSeenAt), locale), DateCell(m.cert.notAfter, locale))
  }

  datatype Pagination = Pagination(currentPage: int, totalPages: int, totalItems: int, itemsPerPage: int)

  /** What the table renders: a skeleton of some rows while loading, else the rows and perhaps pagination. */
  datatype TableView =
    | Skeleton(skeletonRows: nat)
    | Rows(rows: seq<Row>, pagination: Option<Pagination>)

  function RowsOf(matches: seq<Match>, locale: string -> string): (rows: seq<Row>)
    ensures |rows| == |matches|
    ensures forall i :: 0 <= i < |matches| ==> rows[i] == RowOf(matches[i], locale)
  {
    if matches == [] then [] else [RowOf(matches[0], locale)] + RowsOf(matches[1..], locale)
  }

  /**
   * A ten-row skeleton while loading; otherwise one row per match, in order,
   * with pagination exactly when the total is positive.
   */
  function View(matches: seq<Match>, total: int, page: int, limit: int, isLoading: bool,
                locale: string -> string): (v: TableView)
    requires limit > 0
    ensures isLoading <==> v == Skeleton(10)
    ensures !isLoading ==> v.Rows? && v.rows == RowsOf(matches, locale)
    ensures !isLoading ==> (v.pagination.Some? <==> total > 0)
    ensures !isLoading && total > 0 ==>
              v.pagination.value == Pagination(page, TotalPages(total, limit), total, limit)
              && v.pagination.value.totalPages >= 1
  {
    if isLoading then Skeleton(10)
    else Rows(RowsOf(matches, locale),
              if total > 0 then Some(Pagination(page, TotalPages(total, limit), total, limit)) else None)
  }
}
