/**
 * Parsing of a log entry's leaf_input: the framing of a MerkleTreeLeaf /
 * TimestampedEntry (sections 3.1, 3.2 and 3.4 of RFC 6962), followed by the
 * extraction of the certificate fields the monitor keeps.
 *
 * Base64 decoding, X.509 DER parsing and the SHA-256 fingerprint are library
 * calls; they are the fields of a `Codecs` value given to the parser.
 */
module X509Parser {
  import opened Base
  import opened Text
  import opened Normalize
  import CtClient

  datatype ParseError = ErrInvalidLeafInput | ErrNoCertificate | ErrParseFailed

  /** The fields of an x509.Certificate the parser reads. */
  datatype Certificate = Certificate(
    subjectCN: string, subjectOrganization: seq<string>,
    issuerCN: string, issuerOrganization: seq<string>,
    dnsNames: seq<string>, notBefore: Time, notAfter: Time)

  datatype ParsedCertificate = ParsedCertificate(
    fingerprint: string,
    subjectCN: string, subjectOrg: string,
    issuerCN: string, issuerOrg: string,
    sans: seq<string>,
    notBefore: Option<Time>, notAfter: Option<Time>,
    rawDER: seq<byte>)

  /** The outcome of parsing the entry at log index `index`. */
  datatype ParseResult = ParseResult(outcome: Result<ParsedCertificate, ParseError>, index: int)

  /** The library functions: base64 (standard alphabet), x509.ParseCertificate, hex SHA-256. */
  datatype Codecs = Codecs(
    base64Decode: string -> Option<seq<byte>>,
    parseCertificate: seq<byte> -> Option<Certificate>,
    fingerprint: seq<byte> -> string)

  // -------------------------------------------------- big-endian integers

  function Uint16At(b: seq<byte>, i: nat): (r: nat)
    requires i + 2 <= |b|
    ensures r < 0x1_0000
  {
    b[i] as int * 0x100 + b[i + 1] as int
  }

  function Uint24At(b: seq<byte>, i: nat): (r: nat)
    requires i + 3 <= |b|
    ensures r < 0x100_0000
  {
    b[i] as int * 0x1_0000 + b[i + 1] as int * 0x100 + b[i + 2] as int
  }

  function EncodeUint16(n: nat): (r: seq<byte>)
    requires n < 0x1_0000
    ensures |r| == 2
  {
    [(n / 0x100) as byte, (n % 0x100) as byte]
  }

  function EncodeUint24(n: nat): (r: seq<byte>)
    requires n < 0x100_0000
    ensures |r| == 3
  {
    [(n / 0x1_0000) as byte, (n / 0x100 % 0x100) as byte, (n % 0x100) as byte]
  }

  /** Reading a big-endian length back gives the length that was written, at any offset. */
  lemma Uint24RoundTrip(prefix: seq<byte>, n: nat, suffix: seq<byte>)
    requires n < 0x100_0000
    ensures Uint24At(prefix + EncodeUint24(n) + suffix, |prefix|) == n
  {
    var b := prefix + EncodeUint24(n) + suffix;
    assert b[|prefix|] as int == n / 0x1_0000;
    assert b[|prefix| + 1] as int == n / 0x100 % 0x100;
    assert b[|prefix| + 2] as int == n % 0x100;
  }

  lemma Uint16RoundTrip(prefix: seq<byte>, n: nat, suffix: seq<byte>)
    requires n < 0x1_0000
    ensures Uint16At(prefix + EncodeUint16(n) + suffix, |prefix|) == n
  {
    var b := prefix + EncodeUint16(n) + suffix;
    assert b[|prefix|] as int == n / 0x100;
    assert b[|prefix| + 1] as int == n % 0x100;
  }

  // ------------------------------------------------------------- parsing

  /** Decodes the leaf and dispatches on the entry type held in bytes 10-11. */
  function ParseEntry(codecs: Codecs, entry: CtClient.LogEntry, index: int): (r: ParseResult)
    ensures r.index == index
    ensures codecs.base64Decode(entry.leafInput).None? ==> r.outcome == Failure(ErrInvalidLeafInput)
    ensures (codecs.base64Decode(entry.leafInput).Some? &&
             |codecs.base64Decode(entry.leafInput).value| < 15) ==>
              r.outcome == Failure(ErrInvalidLeafInput)
  {
    match codecs.base64Decode(entry.leafInput)
    case None => ParseResult(Failure(ErrInvalidLeafInput), index)
    case Some(leafBytes) =>
      if |leafBytes| < 15 then ParseResult(Failure(ErrInvalidLeafInput), index)
      else if Uint16At(leafBytes, 10) == 1 then ParsePrecert(codecs, leafBytes, index)
      else ParseX509Entry(codecs, leafBytes, index)
  }

  /**
   * A decoded leaf of at least 15 bytes is parsed by its entry type: 1 is a
   * precert_entry, anything else is read as an x509_entry.
   */
  lemma ParseEntryDispatch(codecs: Codecs, entry: CtClient.LogEntry, index: int, leafBytes: seq<byte>)
    requires codecs.base64Decode(entry.leafInput) == Some(leafBytes) && |leafBytes| >= 15
    ensures Uint16At(leafBytes, 10) == 1 ==> ParseEntry(codecs, entry, index) == ParsePrecert(codecs, leafBytes, index)
    ensures Uint16At(leafBytes, 10) != 1 ==> ParseEntry(codecs, entry, index) == ParseX509Entry(codecs, leafBytes, index)
  {
  }

  /** An x509_entry: a 24-bit length at bytes 12-14, then the DER certificate. */
  function ParseX509Entry(codecs: Codecs, leafBytes: seq<byte>, index: int): (r: ParseResult)
    ensures r.index == index
    ensures |leafBytes| < 15 ==> r.outcome == Failure(ErrInvalidLeafInput)
    ensures |leafBytes| == 15 ==> r.outcome == Failure(ErrNoCertificate)
    ensures |leafBytes| > 15 && 15 + Uint24At(leafBytes, 12) > |leafBytes| ==>
              r.outcome == Failure(ErrInvalidLeafInput)
    ensures r.outcome.Success? ==>
              |leafBytes| > 15 && 15 + Uint24At(leafBytes, 12) <= |leafBytes| &&
              r.outcome.value.rawDER == leafBytes[15..15 + Uint24At(leafBytes, 12)]
  {
    if |leafBytes| < 15 then ParseResult(Failure(ErrInvalidLeafInput), index)
    else if 15 >= |leafBytes| then ParseResult(Failure(ErrNoCertificate), index)
    else
      var certLen := Uint24At(leafBytes, 12);
      if 15 + certLen > |leafBytes| then ParseResult(Failure(ErrInvalidLeafInput), index)
      else ParseCertDER(codecs, leafBytes[15..15 + certLen], index)
  }

  /**
   * A precert_entry: a 32-byte issuer key hash at bytes 12-43, a 24-bit length
   * at bytes 44-46, then the TBSCertificate.
   */
  function ParsePrecert(codecs: Codecs, leafBytes: seq<byte>, index: int): (r: ParseResult)
    ensures r.index == index
    ensures |leafBytes| < 47 ==> r.outcome == Failure(ErrInvalidLeafInput)
    ensures |leafBytes| == 47 ==> r.outcome == Failure(ErrNoCertificate)
    ensures |leafBytes| > 47 && 47 + Uint24At(leafBytes, 44) > |leafBytes| ==>
              r.outcome == Failure(ErrInvalidLeafInput)
    ensures r.outcome.Success? ==>
              |leafBytes| > 47 && 47 + Uint24At(leafBytes, 44) <= |leafBytes| &&
              r.outcome.value.rawDER == leafBytes[47..47 + Uint24At(leafBytes, 44)]
  {
    if |leafBytes| < 47 then ParseResult(Failure(ErrInvalidLeafInput), index)
    else if 47 >= |leafBytes| then ParseResult(Failure(ErrNoCertificate), index)
    else
      var tbsLen := Uint24At(leafBytes, 44);
      if 47 + tbsLen > |leafBytes| then ParseResult(Failure(ErrInvalidLeafInput), index)
      else
        var tbsDER := leafBytes[47..47 + tbsLen];
        match codecs.parseCertificate(tbsDER)
        case None => ParseCertFromExtraData(leafBytes, index)
        case Some(cert) => BuildParsedCert(codecs, cert, tbsDER, index)
  }

  /** The fallback for a TBSCertificate that does not parse: it always fails. */
  function ParseCertFromExtraData(leafBytes: seq<byte>, index: int): (r: ParseResult)
    ensures r == ParseResult(Failure(ErrParseFailed), index)
  {
    ParseResult(Failure(ErrParseFailed), index)
  }

  function ParseCertDER(codecs: Codecs, certDER: seq<byte>, index: int): (r: ParseResult)
    ensures r.index == index
    ensures r.outcome.Success? <==> codecs.parseCertificate(certDER).Some?
    ensures r.outcome.Failure? ==> r.outcome.error == ErrParseFailed
    ensures r.outcome.Success? ==> r.outcome.value.rawDER == certDER
  {
    match codecs.parseCertificate(certDER)
    case None => ParseResult(Failure(ErrParseFailed), index)
    case Some(cert) => BuildParsedCert(codecs, cert, certDER, index)
  }

  function FirstOrEmpty(xs: seq<string>): (r: string)
    ensures xs == [] ==> r == ""
    ensures xs != [] ==> r == xs[0]
  {
    if |xs| > 0 then xs[0] else ""
  }

  /**
   * The record the monitor keeps: the fingerprint of the DER bytes, the
   * normalised subject CN and SANs, the raw issuer CN and the first
   * organisations.
   */
  function BuildParsedCert(codecs: Codecs, cert: Certificate, rawDER: seq<byte>, index: int): (r: ParseResult)
    ensures r.index == index && r.outcome.Success?
    ensures r.outcome.value.fingerprint == codecs.fingerprint(rawDER)
    ensures r.outcome.value.subjectCN == NormalizeDomain(cert.subjectCN)
    ensures r.outcome.value.issuerCN == cert.issuerCN
    ensures r.outcome.value.subjectOrg == FirstOrEmpty(cert.subjectOrganization)
    ensures r.outcome.value.issuerOrg == FirstOrEmpty(cert.issuerOrganization)
    ensures r.outcome.value.sans == Normalized(cert.dnsNames)
    ensures r.outcome.value.notBefore == Some(cert.notBefore)
    ensures r.outcome.value.notAfter == Some(cert.notAfter)
    ensures r.outcome.value.rawDER == rawDER
  {
    ParseResult(Success(ParsedCertificate(
      codecs.fingerprint(rawDER),
      NormalizeDomain(cert.subjectCN), FirstOrEmpty(cert.subjectOrganization),
      cert.issuerCN, FirstOrEmpty(cert.issuerOrganization),
      Normalized(cert.dnsNames),
      Some(cert.notBefore), Some(cert.notAfter),
      rawDER)), index)
  }

  // ---------------------------------------------------------- properties

  /**
   * A parsed certificate has a subject CN without upper-case letters and a
   * list of SANs with no empty name and no repetition.
   */
  lemma ParsedNamesNormalised(codecs: Codecs, entry: CtClient.LogEntry, index: int)
    ensures var r := ParseEntry(codecs, entry, index);
      r.outcome.Success? ==>
        HasNoUpper(r.outcome.value.subjectCN) &&
        "" !in r.outcome.value.sans &&
        NoDuplicates(r.outcome.value.sans)
  {
    var r := ParseEntry(codecs, entry, index);
    if r.outcome.Success? {
      var leafBytes := codecs.base64Decode(entry.leafInput).value;
      var der := if Uint16At(leafBytes, 10) == 1 then leafBytes[47..47 + Uint24At(leafBytes, 44)]
                 else leafBytes[15..15 + Uint24At(leafBytes, 12)];
      var cert := codecs.parseCertificate(der).value;
      assert r.outcome.value.sans == Normalized(cert.dnsNames);
      NormalizedShape(cert.dnsNames);
      NormalizedDistinct(cert.dnsNames);
    }
  }

  // ------------------------------------------------- leaf encoding (partner)

  /** The entry of a TimestampedEntry after its 12-byte header. */
  datatype SignedEntry =
    | X509Entry(certificate: seq<byte>)
    | PrecertEntry(issuerKeyHash: seq<byte>, tbsCertificate: seq<byte>)

  /** A well-formed entry: lengths fit 24 bits and the key hash has 32 bytes. */
  predicate WellFormed(e: SignedEntry) {
    match e
    case X509Entry(c) => |c| < 0x100_0000
    case PrecertEntry(h, t) => |h| == 32 && |t| < 0x100_0000
  }

  /**
   * The bytes of a MerkleTreeLeaf: version, leaf type and timestamp (10 bytes,
   * `header`), the entry type, the entry with its 24-bit length, then whatever
   * follows (the extensions).
   */
  function EncodeLeaf(header: seq<byte>, e: SignedEntry, extensions: seq<byte>): (r: seq<byte>)
    requires |header| == 10 && WellFormed(e)
  {
    match e
    case X509Entry(c) => header + EncodeUint16(0) + EncodeUint24(|c|) + c + extensions
    case PrecertEntry(h, t) => header + EncodeUint16(1) + h + EncodeUint24(|t|) + t + extensions
  }

  /**
   * Framing round trip: for a leaf built from an x509_entry, the parser hands
   * exactly the certificate bytes to the X.509 decoder; an empty certificate
   * with nothing after it reads as "no certificate".
   */
  lemma ParseX509Leaf(codecs: Codecs, entry: CtClient.LogEntry, index: int,
                      header: seq<byte>, cert: seq<byte>, extensions: seq<byte>)
    requires |header| == 10 && |cert| < 0x100_0000
    requires codecs.base64Decode(entry.leafInput) == Some(EncodeLeaf(header, X509Entry(cert), extensions))
    ensures cert + extensions != [] ==> ParseEntry(codecs, entry, index) == ParseCertDER(codecs, cert, index)
    ensures cert + extensions == [] ==> ParseEntry(codecs, entry, index).outcome == Failure(ErrNoCertificate)
  {
    var b := EncodeLeaf(header, X509Entry(cert), extensions);
    assert b == header + EncodeUint16(0) + EncodeUint24(|cert|) + (cert + extensions);
    Uint16RoundTrip(header, 0, EncodeUint24(|cert|) + cert + extensions);
    assert b == header + EncodeUint16(0) + (EncodeUint24(|cert|) + cert + extensions);
    Uint24RoundTrip(header + EncodeUint16(0), |cert|, cert + extensions);
    assert b[15..15 + |cert|] == cert;
  }

  /** Framing round trip for a precert_entry: the TBSCertificate is what reaches the decoder. */
  lemma ParsePrecertLeaf(codecs: Codecs, entry: CtClient.LogEntry, index: int,
                         header: seq<byte>, keyHash: seq<byte>, tbs: seq<byte>, extensions: seq<byte>)
    requires |header| == 10 && |keyHash| == 32 && 1 <= |tbs| < 0x100_0000
    requires codecs.base64Decode(entry.leafInput) == Some(EncodeLeaf(header, PrecertEntry(keyHash, tbs), extensions))
    ensures var r := ParseEntry(codecs, entry, index);
      r.outcome.Success? <==> codecs.parseCertificate(tbs).Some?
    ensures var r := ParseEntry(codecs, entry, index);
      r.outcome.Success? ==> r.outcome.value.rawDER == tbs
    ensures var r := ParseEntry(codecs, entry, index);
      r.outcome.Failure? ==> r.outcome.error == ErrParseFailed
  {
    var b := EncodeLeaf(header, PrecertEntry(keyHash, tbs), extensions);
    Uint16RoundTrip(header, 1, keyHash + EncodeUint24(|tbs|) + tbs + extensions);
    assert b == header + EncodeUint16(1) + (keyHash + EncodeUint24(|tbs|) + tbs + extensions);
    Uint24RoundTrip(header + EncodeUint16(1) + keyHash, |tbs|, tbs + extensions);
    assert b == header + EncodeUint16(1) + keyHash + EncodeUint24(|tbs|) + (tbs + extensions);
    assert b[47..47 + |tbs|] == tbs;
  }
}
