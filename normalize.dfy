/**
 * Normalisation of the domain names found in a certificate: lower case, at
 * most one trailing dot removed, and for a list of names the empty ones and
 * the repetitions dropped.
 */
module Normalize {
  import opened Text

  /** A domain in lower case with one trailing "." removed, if there is one. */
  function NormalizeDomain(domain: string): (r: string)
    ensures |r| == |domain| || |r| == |domain| - 1
    ensures |r| == |domain| - 1 <==> domain != [] && domain[|domain| - 1] == '.'
    ensures forall i :: 0 <= i < |r| ==> r[i] == LowerChar(domain[i])
    ensures HasNoUpper(r)
  {
    var lowered := Lower(domain);
    if lowered != [] && lowered[|lowered| - 1] == '.' then lowered[..|lowered| - 1] else lowered
  }

  /** Only one dot is stripped: "a.." becomes "a.", so normalising is not idempotent. */
  lemma StripsOneDot()
    ensures NormalizeDomain("a..") == "a."
    ensures NormalizeDomain(NormalizeDomain("a..")) == "a"
  {
    assert NormalizeDomain("a..")[1] == LowerChar('.');
    assert NormalizeDomain("a.") == [LowerChar('a')];
  }

  /** A domain already in lower case without a trailing dot is left alone. */
  lemma NormalizeDomainNoop(domain: string)
    requires HasNoUpper(domain)
    requires domain == [] || domain[|domain| - 1] != '.'
    ensures NormalizeDomain(domain) == domain
  {
    LowerOfLowerCase(domain);
  }

  /**
   * The reference definition of NormalizeDomains: the non-empty normalised
   * names, each kept at its first occurrence.
   */
  function Normalized(domains: seq<string>): seq<string>
    decreases |domains|
  {
    if domains == [] then []
    else
      var previous := Normalized(domains[..|domains| - 1]);
      var n := NormalizeDomain(domains[|domains| - 1]);
      if n != "" && n !in previous then previous + [n] else previous
  }

  /** Normalises each name and keeps the non-empty ones not seen before, in input order. */
  method NormalizeDomains(domains: seq<string>) returns (normalized: seq<string>)
    ensures normalized == Normalized(domains)
  {
    normalized := [];
    var seen: set<string> := {};
    for i := 0 to |domains|
      invariant normalized == Normalized(domains[..i])
      invariant forall n :: n in seen <==> n in normalized
    {
      var n := NormalizeDomain(domains[i]);
      assert domains[..i + 1][..i] == domains[..i];
      if n != "" && n !in seen {
        normalized := normalized + [n];
        seen := seen + {n};
      }
    }
    assert domains[..|domains|] == domains;
  }

  // ----------------------------------------------------------- properties

  /** The output is never longer than the input and never holds the empty name. */
  lemma {:induction false} NormalizedShape(domains: seq<string>)
    ensures |Normalized(domains)| <= |domains|
    ensures "" !in Normalized(domains)
    decreases |domains|
  {
    if domains != [] {
      NormalizedShape(domains[..|domains| - 1]);
    }
  }

  predicate NoDuplicates(s: seq<string>) {
    forall i, j :: 0 <= i < j < |s| ==> s[i] != s[j]
  }

  /** No name occurs twice in the output. */
  lemma {:induction false} NormalizedDistinct(domains: seq<string>)
    ensures NoDuplicates(Normalized(domains))
    decreases |domains|
  {
    if domains != [] {
      var previous := Normalized(domains[..|domains| - 1]);
      NormalizedDistinct(domains[..|domains| - 1]);
      var r := Normalized(domains);
      forall i, j | 0 <= i < j < |r|
        ensures r[i] != r[j]
      {
        if j >= |previous| {
          assert r[i] == previous[i] && r[i] in previous;
          assert r[j] !in previous;
        } else {
          assert r[i] == previous[i] && r[j] == previous[j];
          assert previous[i] != previous[j];
        }
      }
    }
  }

  /** Every output name is the normalisation of some input name. */
  lemma {:induction false} NormalizedSound(domains: seq<string>)
    ensures forall x :: x in Normalized(domains) ==>
              exists a :: 0 <= a < |domains| && NormalizeDomain(domains[a]) == x
    decreases |domains|
  {
    if domains != [] {
      var prefix := domains[..|domains| - 1];
      NormalizedSound(prefix);
      forall x | x in Normalized(domains)
        ensures exists a :: 0 <= a < |domains| && NormalizeDomain(domains[a]) == x
      {
        if x in Normalized(prefix) {
          var a :| 0 <= a < |prefix| && NormalizeDomain(prefix[a]) == x;
          assert domains[a] == prefix[a];
        } else {
          assert NormalizeDomain(domains[|domains| - 1]) == x;
        }
      }
    }
  }

  /** Every input whose normalisation is non-empty is represented in the output. */
  lemma {:induction false} NormalizedComplete(domains: seq<string>)
    ensures forall a :: 0 <= a < |domains| && NormalizeDomain(domains[a]) != "" ==>
              NormalizeDomain(domains[a]) in Normalized(domains)
    decreases |domains|
  {
    if domains != [] {
      var prefix := domains[..|domains| - 1];
      NormalizedComplete(prefix);
      forall a | 0 <= a < |domains| - 1
        ensures domains[a] == prefix[a]
      {
      }
    }
  }

  /** The ordering property, stated for one prefix of the input. */
  ghost predicate FirstBefore(domains: seq<string>, x: string, y: string) {
    exists a :: 0 <= a < |domains| && NormalizeDomain(domains[a]) == x &&
      forall b :: 0 <= b <= a ==> NormalizeDomain(domains[b]) != y
  }

  /** Extending the input keeps an established order. */
  lemma FirstBeforeExtend(domains: seq<string>, d: string, x: string, y: string)
    requires FirstBefore(domains, x, y)
    ensures FirstBefore(domains + [d], x, y)
  {
    var a :| 0 <= a < |domains| && NormalizeDomain(domains[a]) == x &&
             forall b :: 0 <= b <= a ==> NormalizeDomain(domains[b]) != y;
    assert forall b :: 0 <= b <= a ==> (domains + [d])[b] == domains[b];
  }

  /** A name no earlier input produced comes after every name already in the output. */
  lemma FirstBeforeNew(domains: seq<string>, x: string, y: string)
    requires x in Normalized(domains)
    requires y != "" && y !in Normalized(domains)
    ensures FirstBefore(domains, x, y)
  {
    NormalizedSound(domains);
    NormalizedComplete(domains);
    var a :| 0 <= a < |domains| && NormalizeDomain(domains[a]) == x;
  }

  ghost predicate InFirstOccurrenceOrder(domains: seq<string>, r: seq<string>) {
    forall i, j :: 0 <= i < j < |r| ==> FirstBefore(domains, r[i], r[j])
  }

  /**
   * The output keeps the order of first occurrence: for any two output names,
   * the earlier one is produced by an input that comes before every input
   * producing the later one.
   */
  lemma {:induction false} NormalizedFirstOccurrenceOrder(domains: seq<string>)
    ensures InFirstOccurrenceOrder(domains, Normalized(domains))
    decreases |domains|
  {
    if domains != [] {
      var prefix := domains[..|domains| - 1];
      var d := domains[|domains| - 1];
      assert domains == prefix + [d];
      var previous := Normalized(prefix);
      var r := Normalized(domains);
      NormalizedFirstOccurrenceOrder(prefix);
      forall i, j | 0 <= i < j < |r|
        ensures FirstBefore(domains, r[i], r[j])
      {
        assert r[i] == previous[i];
        if j < |previous| {
          assert r[j] == previous[j];
          assert FirstBefore(prefix, previous[i], previous[j]);
          FirstBeforeExtend(prefix, d, r[i], r[j]);
        } else {
          FirstBeforeNew(prefix, r[i], r[j]);
          FirstBeforeExtend(prefix, d, r[i], r[j]);
        }
      }
    }
  }
}
