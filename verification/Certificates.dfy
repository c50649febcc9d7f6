/**
 What the two revocation checkers of pkg/tls/verifier share: certificates, the
 parsing loop, the issuer search and the depth at which raw chains are cut off.
*/
module Certificates {
  import opened Results

  type Bytes = seq<bv8>

  /** A distinguished name: its serialNumber attribute and its printed form. */
  datatype Name = Name(serialNumber: string, text: string)

  datatype Cert = Cert(
    serial: int, subject: Name, issuer: Name,
    isCA: bool, authorityKeyId: Bytes, subjectKeyId: Bytes,
    crlPoints: seq<string>, issuingUrls: seq<string>, ocspServers: seq<string>)

  datatype Error =
    | ClientCrt        // no certificate received
    | ParseCert
    | NoCrl
    | CrlSignature
    | ExpiredCrl
    | Revoked
    | StatusUnknown
    | ServerFailed
    | NoIssuer
    | NoResponder
    | Failure(what: string)

  /** `uint` and `int` on a 64-bit platform. */
  type Uint = x: int | 0 <= x < 0x1_0000_0000_0000_0000

  function ToInt(x: Uint): int {
    if x < 0x8000_0000_0000_0000 then x else x - 0x1_0000_0000_0000_0000
  }

  /** How many of n raw certificates are checked: the loop stops after certificate number i
      when i + 1 == int(depth). */
  function Cutoff(depth: Uint, n: nat): (k: nat)
    ensures k <= n
  {
    if 1 <= ToInt(depth) <= n then ToInt(depth) else n
  }

  /** Zero means no limit, and so does any depth that is larger than the chain or turns
      negative as an int. */
  lemma CutoffIsTheDepth(depth: Uint, n: nat)
    ensures Cutoff(depth, n) == if depth == 0 || n < depth || depth >= 0x8000_0000_0000_0000 then n else depth
  {
  }

  /** Is a certificate with subject s the one an issuer name refers to? */
  predicate Refers(issuer: Name, s: Name) {
    if s.serialNumber != "" && issuer.serialNumber != "" then s.serialNumber == issuer.serialNumber
    else s.text == issuer.text
  }

  /** The first of the certificates that the issuer name refers to. */
  function IssuerIn(issuer: Name, certs: seq<Cert>): (r: Option<Cert>)
    ensures r.None? ==> forall i :: 0 <= i < |certs| ==> !Refers(issuer, certs[i].subject)
    ensures r.Some? ==> exists i :: 0 <= i < |certs| && certs[i] == r.value && Refers(issuer, certs[i].subject)
                                    && forall j :: 0 <= j < i ==> !Refers(issuer, certs[j].subject)
  {
    if certs == [] then None
    else if Refers(issuer, certs[0].subject) then Some(certs[0])
    else
      var r := IssuerIn(issuer, certs[1..]);
      assert r.Some? ==> exists i :: 0 <= i < |certs[1..]| && certs[1..][i] == r.value
                                     && Refers(issuer, certs[1..][i].subject)
                                     && (forall j :: 0 <= j < i ==> !Refers(issuer, certs[1..][j].subject))
                                     && certs[i + 1] == r.value
                                     && forall j :: 0 <= j < i + 1 ==> !Refers(issuer, certs[j].subject);
      r
  }

  method RetrieveIssuerCert(issuer: Name, certs: seq<Cert>) returns (r: Option<Cert>)
    ensures r == IssuerIn(issuer, certs)
  {
    for i := 0 to |certs|
      invariant IssuerIn(issuer, certs) == IssuerIn(issuer, certs[i..])
    {
      var subject := certs[i].subject;
      if subject.serialNumber != "" && issuer.serialNumber != "" && subject.serialNumber == issuer.serialNumber {
        return Some(certs[i]);
      }
      if (subject.serialNumber == "" || issuer.serialNumber == "") && subject.text == issuer.text {
        return Some(certs[i]);
      }
    }
    return None;
  }

  /** Certificate i of a verified chain was issued by the next one, the last one by itself. */
  function ChainIssuer(chain: seq<Cert>, i: nat): Cert
    requires i < |chain|
  {
    if i + 1 < |chain| then chain[i + 1] else chain[i]
  }

  /** The x509 parser. */
  type Parser = Bytes -> Option<Cert>

  predicate AllParse(parse: Parser, raw: seq<Bytes>) {
    forall i :: 0 <= i < |raw| ==> parse(raw[i]).Some?
  }

  function Parsed(parse: Parser, raw: seq<Bytes>): (certs: seq<Cert>)
    requires AllParse(parse, raw)
    ensures |certs| == |raw| && forall i :: 0 <= i < |raw| ==> Some(certs[i]) == parse(raw[i])
  {
    seq(|raw|, i requires 0 <= i < |raw| => parse(raw[i]).value)
  }

  method ParseCertificates(parse: Parser, raw: seq<Bytes>) returns (r: Result<seq<Cert>, Error>)
    ensures r.Ok? <==> AllParse(parse, raw)
    ensures r.Ok? ==> r.value == Parsed(parse, raw)
    ensures r.Err? ==> r.error == ParseCert
  {
    var certs := [];
    for i := 0 to |raw|
      invariant |certs| == i
      invariant forall k :: 0 <= k < i ==> parse(raw[k]) == Some(certs[k])
    {
      var cert := parse(raw[i]);
      if cert.None? {
        return Err(ParseCert);
      }
      certs := certs + [cert.value];
    }
    return Ok(certs);
  }
}
