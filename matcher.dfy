/**
 * The keyword matcher: which active keywords a parsed certificate matches,
 * and whether through its subject CN, one of its SANs, or both.
 */
module Matcher {
  import opened Base
  import opened Text
  import X509Parser

  datatype MatchedField = FieldCN | FieldSAN | FieldBoth {
    /** The value stored in matched_certificates.matched_field. */
    function Name(): (r: string)
      ensures r in {"cn", "san", "both"}
    {
      match this
      case FieldCN => "cn"
      case FieldSAN => "san"
      case FieldBoth => "both"
    }
  }

  lemma FieldNamesDistinct(a: MatchedField, b: MatchedField)
    ensures a.Name() == b.Name() <==> a == b
  {
  }

  datatype Keyword = Keyword(id: string, value: string, normalizedValue: string)

  datatype Match = KeywordMatch(
    keywordID: string, keywordValue: string,
    matchedField: MatchedField, matchedValue: string, domainName: string)

  // ------------------------------------------------------- specification

  /** The subject CN matches: it is non-empty and its lower-case form contains the keyword. */
  predicate CNMatches(cert: X509Parser.ParsedCertificate, needle: string) {
    cert.subjectCN != "" && Contains(Lower(cert.subjectCN), needle)
  }

  predicate SANMatches(san: string, needle: string) {
    Contains(Lower(san), needle)
  }

  /** The first SAN, in certificate order, whose lower-case form contains the keyword. */
  function FirstMatchingSAN(sans: seq<string>, needle: string): (r: Option<string>)
    ensures r.None? <==> forall k :: 0 <= k < |sans| ==> !SANMatches(sans[k], needle)
    ensures r.Some? ==> exists k :: 0 <= k < |sans| && sans[k] == r.value && SANMatches(sans[k], needle) &&
                          forall k' :: 0 <= k' < k ==> !SANMatches(sans[k'], needle)
    decreases |sans|
  {
    if sans == [] then None
    else if SANMatches(sans[0], needle) then
      Some(sans[0])
    else
      var r := FirstMatchingSAN(sans[1..], needle);
      assert forall k :: 1 <= k < |sans| ==> sans[k] == sans[1..][k - 1];
      if r.Some? then
        var k :| 0 <= k < |sans[1..]| && sans[1..][k] == r.value && SANMatches(sans[1..][k], needle) &&
                 forall k' :: 0 <= k' < k ==> !SANMatches(sans[1..][k'], needle);
        assert sans[k + 1] == r.value;
        r
      else r
  }

  /** The match one keyword produces on a certificate, if any. */
  function MatchKeyword(cert: X509Parser.ParsedCertificate, kw: Keyword): (r: Option<Match>)
    ensures r.Some? ==> r.value.keywordID == kw.id && r.value.keywordValue == kw.value
    ensures r.Some? ==> r.value.domainName == r.value.matchedValue
  {
    var needle := Lower(kw.normalizedValue);
    var cnMatch := CNMatches(cert, needle);
    var san := FirstMatchingSAN(cert.sans, needle);
    if cnMatch && san.Some? then Some(KeywordMatch(kw.id, kw.value, FieldBoth, cert.subjectCN, cert.subjectCN))
    else if cnMatch then Some(KeywordMatch(kw.id, kw.value, FieldCN, cert.subjectCN, cert.subjectCN))
    else if san.Some? then Some(KeywordMatch(kw.id, kw.value, FieldSAN, san.value, san.value))
    else None
  }

  function OptionToSeq<T>(o: Option<T>): (r: seq<T>)
    ensures |r| <= 1
  {
    if o.Some? then [o.value] else []
  }

  /** The reference definition of Matcher.Match: one optional match per keyword, in keyword order. */
  function MatchAll(cert: X509Parser.ParsedCertificate, keywords: seq<Keyword>): (r: seq<Match>)
    ensures |r| <= |keywords|
    decreases |keywords|
  {
    if keywords == [] then []
    else MatchAll(cert, keywords[..|keywords| - 1]) + OptionToSeq(MatchKeyword(cert, keywords[|keywords| - 1]))
  }

  /** MatchAll over one more keyword. */
  lemma MatchAllStep(cert: X509Parser.ParsedCertificate, keywords: seq<Keyword>, i: int)
    requires 0 <= i < |keywords|
    ensures MatchAll(cert, keywords[..i + 1]) == MatchAll(cert, keywords[..i]) + OptionToSeq(MatchKeyword(cert, keywords[i]))
  {
    assert keywords[..i + 1][..i] == keywords[..i];
  }

  // -------------------------------------------------------------- matcher

  class Matcher {
    const keywords: seq<Keyword>

    constructor (keywords: seq<Keyword>)
      ensures this.keywords == keywords
    {
      this.keywords := keywords;
    }

    /** The matches of the certificate against every keyword, in keyword order. */
    method Match(cert: X509Parser.ParsedCertificate) returns (matches: seq<Match>)
      ensures matches == MatchAll(cert, keywords)
    {
      matches := [];
      for i := 0 to |keywords|
        invariant matches == MatchAll(cert, keywords[..i])
      {
        var kw := keywords[i];
        var normalizedKeyword := Lower(kw.normalizedValue);
        var cnMatch := false;
        var sanMatch := false;
        var matchedSAN := "";

        if cert.subjectCN != "" && Contains(Lower(cert.subjectCN), normalizedKeyword) {
          cnMatch := true;
        }

        var j := 0;
        while j < |cert.sans|
          invariant 0 <= j <= |cert.sans|
          invariant !sanMatch
          invariant FirstMatchingSAN(cert.sans, normalizedKeyword) ==
                    FirstMatchingSAN(cert.sans[j..], normalizedKeyword)
        {
          if Contains(Lower(cert.sans[j]), normalizedKeyword) {
            sanMatch := true;
            matchedSAN := cert.sans[j];
            break;
          }
          assert cert.sans[j..][1..] == cert.sans[j + 1..];
          j := j + 1;
        }
        assert sanMatch <==> FirstMatchingSAN(cert.sans, normalizedKeyword).Some?;
        assert sanMatch ==> FirstMatchingSAN(cert.sans, normalizedKeyword) == Some(matchedSAN);

        MatchAllStep(cert, keywords, i);
        if cnMatch || sanMatch {
          var m := KeywordMatch(kw.id, kw.value, FieldSAN, matchedSAN, matchedSAN);
          if cnMatch && sanMatch {
            m := m.(matchedField := FieldBoth, matchedValue := cert.subjectCN, domainName := cert.subjectCN);
          } else if cnMatch {
            m := m.(matchedField := FieldCN, matchedValue := cert.subjectCN, domainName := cert.subjectCN);
          }
          assert MatchKeyword(cert, kw) == Some(m);
          matches := matches + [m];
        } else {
          assert MatchKeyword(cert, kw).None?;
        }
      }
      assert keywords[..|keywords|] == keywords;
    }
  }

  // ---------------------------------------------------------- properties

  /**
   * A keyword matches exactly when the CN is non-empty and contains the
   * lower-case keyword, or some SAN does.
   */
  lemma MatchIff(cert: X509Parser.ParsedCertificate, kw: Keyword)
    ensures var needle := Lower(kw.normalizedValue);
      MatchKeyword(cert, kw).Some? <==>
        (cert.subjectCN != "" && Contains(Lower(cert.subjectCN), needle)) ||
        (exists k :: 0 <= k < |cert.sans| && Contains(Lower(cert.sans[k]), needle))
  {
    var needle := Lower(kw.normalizedValue);
    if FirstMatchingSAN(cert.sans, needle).None? {
      assert forall k :: 0 <= k < |cert.sans| ==> !SANMatches(cert.sans[k], needle);
    }
  }

  /**
   * The classification of a match: both when the CN and a SAN match, cn when
   * only the CN does (both reporting the CN), san otherwise, reporting the
   * first matching SAN in certificate order.
   */
  lemma Classification(cert: X509Parser.ParsedCertificate, kw: Keyword)
    requires MatchKeyword(cert, kw).Some?
    ensures var needle := Lower(kw.normalizedValue);
      var m := MatchKeyword(cert, kw).value;
      var anySAN := exists k :: 0 <= k < |cert.sans| && SANMatches(cert.sans[k], needle);
      && (m.matchedField == FieldBoth <==> CNMatches(cert, needle) && anySAN)
      && (m.matchedField == FieldCN <==> CNMatches(cert, needle) && !anySAN)
      && (m.matchedField == FieldSAN <==> !CNMatches(cert, needle))
      && (m.matchedField != FieldSAN ==> m.matchedValue == cert.subjectCN)
      && (m.matchedField == FieldSAN ==>
            exists k :: 0 <= k < |cert.sans| && m.matchedValue == cert.sans[k] &&
              SANMatches(cert.sans[k], needle) &&
              forall k' :: 0 <= k' < k ==> !SANMatches(cert.sans[k'], needle))
  {
  }

  /** The indices of the keywords that produce a match, in increasing order. */
  ghost function MatchedIndices(cert: X509Parser.ParsedCertificate, keywords: seq<Keyword>): seq<nat>
    decreases |keywords|
  {
    if keywords == [] then []
    else
      var previous := MatchedIndices(cert, keywords[..|keywords| - 1]);
      if MatchKeyword(cert, keywords[|keywords| - 1]).Some? then previous + [|keywords| - 1] else previous
  }

  /**
   * The matches are exactly those of the matching keywords, one per keyword,
   * in keyword order: there is a strictly increasing list of keyword indices,
   * containing every matching keyword and no other, whose matches are the result.
   */
  lemma {:induction false} OneMatchPerKeywordInOrder(cert: X509Parser.ParsedCertificate, keywords: seq<Keyword>)
    ensures var r := MatchAll(cert, keywords);
      var ks := MatchedIndices(cert, keywords);
      && |ks| == |r|
      && (forall p :: 0 <= p < |ks| ==> ks[p] < |keywords| && MatchKeyword(cert, keywords[ks[p]]) == Some(r[p]))
      && (forall p, q :: 0 <= p < q < |ks| ==> ks[p] < ks[q])
      && (forall k :: 0 <= k < |keywords| && MatchKeyword(cert, keywords[k]).Some? ==> k in ks)
  {
    MatchedIndicesGiveMatches(cert, keywords);
    MatchedIndicesOrderedAndComplete(cert, keywords);
  }

  lemma {:induction false} MatchedIndicesGiveMatches(cert: X509Parser.ParsedCertificate, keywords: seq<Keyword>)
    ensures var r := MatchAll(cert, keywords);
      var ks := MatchedIndices(cert, keywords);
      && |ks| == |r|
      && (forall p :: 0 <= p < |ks| ==> ks[p] < |keywords| && MatchKeyword(cert, keywords[ks[p]]) == Some(r[p]))
    decreases |keywords|
  {
    if keywords != [] {
      var prefix := keywords[..|keywords| - 1];
      MatchedIndicesGiveMatches(cert, prefix);
      var previous := MatchedIndices(cert, prefix);
      var done := MatchAll(cert, prefix);
      var r := MatchAll(cert, keywords);
      assert r[..|done|] == done;
      forall p | 0 <= p < |previous|
        ensures previous[p] < |keywords| && MatchKeyword(cert, keywords[previous[p]]) == Some(r[p])
      {
        assert keywords[previous[p]] == prefix[previous[p]];
        assert r[p] == done[p];
      }
    }
  }

  lemma {:induction false} MatchedIndicesOrderedAndComplete(cert: X509Parser.ParsedCertificate, keywords: seq<Keyword>)
    ensures var ks := MatchedIndices(cert, keywords);
      && (forall p :: 0 <= p < |ks| ==> ks[p] < |keywords|)
      && (forall p, q :: 0 <= p < q < |ks| ==> ks[p] < ks[q])
      && (forall k :: 0 <= k < |keywords| && MatchKeyword(cert, keywords[k]).Some? ==> k in ks)
    decreases |keywords|
  {
    if keywords != [] {
      var prefix := keywords[..|keywords| - 1];
      MatchedIndicesOrderedAndComplete(cert, prefix);
      forall k | 0 <= k < |prefix|
        ensures keywords[k] == prefix[k]
      {
      }
    }
  }

  /** No keyword, no match. */
  lemma NoKeywordsNoMatches(cert: X509Parser.ParsedCertificate)
    ensures MatchAll(cert, []) == []
  {
  }
}
