/**
 Online certificate status, pkg/tls/verifier/ocsp/ocsp.go. The loops and the long
 chain of early returns are proved to accept exactly what the predicates say.
 Requests, responses and downloads are the oracle `World`.
*/
module Ocsp {
  import opened Results
  import opened Certificates

  datatype Status = Good | RevokedStatus | ServerFailedStatus | UnknownStatus

  /** The configured responder: its address and its host; an empty address means none. */
  datatype Config = Config(depth: Uint, responderUrl: string, responderHost: string)

  datatype World = World(
    parse: Parser,
    retrieveIssuer: string -> Result<Cert, Error>,
    createRequest: (Cert, Cert) -> Result<Bytes, Error>,
    hostOf: string -> Result<string, Error>,
    ask: (string, string, Bytes) -> Result<Bytes, Error>,
    parseResponse: (Bytes, Cert, Cert) -> Result<Status, Error>)

  predicate IsRootCA(cert: Cert) {
    cert.isCA
    && ((|cert.authorityKeyId| > 0 && |cert.subjectKeyId| > 0 && cert.authorityKeyId == cert.subjectKeyId)
        || cert.issuer.text == cert.subject.text)
  }

  /** i is the certificate whose key must have signed the status of cert: a root's own, the
      issuer found in the chain, or else the one at cert's first issuer address. */
  predicate IsIssuer(w: World, cert: Cert, found: Option<Cert>, i: Cert) {
    if IsRootCA(cert) then i == cert
    else if found.Some? then i == found.value
    else |cert.issuingUrls| > 0 && w.retrieveIssuer(cert.issuingUrls[0]) == Ok(i)
  }

  /** The configured responder goes before the certificate's own. */
  predicate IsResponder(cfg: Config, w: World, cert: Cert, url: string, host: string) {
    if cfg.responderUrl != "" then url == cfg.responderUrl && host == cfg.responderHost
    else |cert.ocspServers| > 0 && url == cert.ocspServers[0] && w.hostOf(url) == Ok(host)
  }

  /** The responder for cert, asked about cert under issuer i, answered with this status. */
  ghost predicate Answered(cfg: Config, w: World, cert: Cert, found: Option<Cert>, i: Cert, status: Status) {
    && IsIssuer(w, cert, found, i)
    && w.createRequest(cert, i).Ok?
    && exists url, host :: IsResponder(cfg, w, cert, url, host)
         && var reply := w.ask(url, host, w.createRequest(cert, i).value);
            reply.Ok? && w.parseResponse(reply.value, cert, i) == Ok(status)
  }

  ghost predicate HasStatus(cfg: Config, w: World, cert: Cert, found: Option<Cert>, status: Status) {
    exists i :: Answered(cfg, w, cert, found, i, status)
  }

  /** A certificate answers for itself exactly when it is a CA whose two key identifiers are
      there and equal, or whose two names are printed alike; otherwise the issuer found is
      asked about, and the first issuer address is used only if none was found. */
  lemma IssuerExactlyWhen(w: World, cert: Cert, found: Option<Cert>, i: Cert)
    ensures IsIssuer(w, cert, found, i)
       <==> if cert.isCA && cert.issuer.text == cert.subject.text then i == cert
            else if cert.isCA && cert.authorityKeyId != [] && cert.authorityKeyId == cert.subjectKeyId then i == cert
            else found == Some(i)
                 || (found == None && cert.issuingUrls != [] && w.retrieveIssuer(cert.issuingUrls[0]) == Ok(i))
  {
  }

  method OcspVerify(cfg: Config, w: World, cert: Cert, found: Option<Cert>) returns (r: Result<(), Error>)
    ensures r.Ok? <==> HasStatus(cfg, w, cert, found, Good)
    ensures HasStatus(cfg, w, cert, found, RevokedStatus) ==> r == Err(Revoked)
    ensures HasStatus(cfg, w, cert, found, ServerFailedStatus) ==> r == Err(ServerFailed)
    ensures HasStatus(cfg, w, cert, found, UnknownStatus) ==> r == Err(StatusUnknown)
  {
    var issuer := found;
    if !IsRootCA(cert) {
      if issuer.None? {
        if |cert.issuingUrls| < 1 {
          return Err(NoIssuer);
        }
        var retrieved := w.retrieveIssuer(cert.issuingUrls[0]);
        if retrieved.Err? {
          return Err(retrieved.error);
        }
        issuer := Some(retrieved.value);
      }
    } else {
      issuer := Some(cert);
    }
    assert forall i :: IsIssuer(w, cert, found, i) <==> i == issuer.value;
    var request := w.createRequest(cert, issuer.value);
    if request.Err? {
      return Err(request.error);
    }
    var ocspURL, ocspURLHost := "", "";
    if cfg.responderUrl == "" {
      if |cert.ocspServers| < 1 {
        return Err(NoResponder);
      }
      ocspURL := cert.ocspServers[0];
      var host := w.hostOf(cert.ocspServers[0]);
      if host.Err? {
        return Err(host.error);
      }
      ocspURLHost := host.value;
    } else {
      ocspURLHost := cfg.responderHost;
      ocspURL := cfg.responderUrl;
    }
    assert forall url, host :: IsResponder(cfg, w, cert, url, host) <==> url == ocspURL && host == ocspURLHost;
    var output := w.ask(ocspURL, ocspURLHost, request.value);
    if output.Err? {
      return Err(output.error);
    }
    var response := w.parseResponse(output.value, cert, issuer.value);
    if response.Err? {
      return Err(response.error);
    }
    assert Answered(cfg, w, cert, found, issuer.value, response.value) by {
      assert IsResponder(cfg, w, cert, ocspURL, ocspURLHost);
    }
    match response.value {
      case Good => return Ok(());
      case RevokedStatus => return Err(Revoked);
      case ServerFailedStatus => return Err(ServerFailed);
      case UnknownStatus => return Err(StatusUnknown);
    }
  }

  /** Certificate i of a verified chain is good under the next one, or itself at the end. */
  ghost predicate ChainGood(cfg: Config, w: World, chain: seq<Cert>, i: nat)
    requires i < |chain|
  {
    HasStatus(cfg, w, chain[i], Some(ChainIssuer(chain, i)), Good)
  }

  ghost predicate AcceptsChain(cfg: Config, w: World, chain: seq<Cert>) {
    forall i :: 0 <= i < |chain| ==> ChainGood(cfg, w, chain, i)
  }

  /** A chain is one certificate, which stands for its own issuer, or a certificate issued by
      the first of a shorter chain. */
  lemma ChainLinks(cfg: Config, w: World, cert: Cert, rest: seq<Cert>)
    ensures AcceptsChain(cfg, w, [cert] + rest)
       <==> HasStatus(cfg, w, cert, Some(if rest == [] then cert else rest[0]), Good) && AcceptsChain(cfg, w, rest)
  {
    var chain := [cert] + rest;
    forall i | 0 <= i < |rest| ensures ChainGood(cfg, w, chain, i + 1) <==> ChainGood(cfg, w, rest, i) {
      assert chain[i + 1] == rest[i] && ChainIssuer(chain, i + 1) == ChainIssuer(rest, i);
    }
    if ChainGood(cfg, w, chain, 0) && AcceptsChain(cfg, w, rest) {
      forall i | 0 <= i < |chain| ensures ChainGood(cfg, w, chain, i) {
        assert i > 0 ==> ChainGood(cfg, w, rest, i - 1);
      }
    }
    if AcceptsChain(cfg, w, chain) {
      forall i | 0 <= i < |rest| ensures ChainGood(cfg, w, rest, i) {
        assert ChainGood(cfg, w, chain, i + 1);
      }
    }
    assert ChainGood(cfg, w, chain, 0) <==> HasStatus(cfg, w, cert, Some(if rest == [] then cert else rest[0]), Good);
  }

  ghost predicate AcceptsChains(cfg: Config, w: World, chains: seq<seq<Cert>>) {
    forall c :: 0 <= c < |chains| ==> AcceptsChain(cfg, w, chains[c])
  }

  /** The status of raw certificate i, whose issuer is looked for among all of them, is good. */
  ghost predicate RawGood(cfg: Config, w: World, certs: seq<Cert>, i: nat)
    requires i < |certs|
  {
    HasStatus(cfg, w, certs[i], IssuerIn(certs[i].issuer, certs), Good)
  }

  ghost predicate AcceptsRaw(cfg: Config, w: World, certs: seq<Cert>) {
    forall i :: 0 <= i < Cutoff(cfg.depth, |certs|) ==> RawGood(cfg, w, certs, i)
  }

  ghost predicate Accepts(cfg: Config, w: World, raw: seq<Bytes>, chains: seq<seq<Cert>>) {
    if |chains| > 0 then AcceptsChains(cfg, w, chains)
    else |raw| > 0 && AllParse(w.parse, raw) && AcceptsRaw(cfg, w, Parsed(w.parse, raw))
  }

  method VerifyRawPeerCertificates(cfg: Config, w: World, certs: seq<Cert>) returns (r: Result<(), Error>)
    ensures r.Ok? <==> AcceptsRaw(cfg, w, certs)
  {
    for i := 0 to |certs|
      invariant i <= Cutoff(cfg.depth, |certs|)
      invariant forall k :: 0 <= k < i ==> RawGood(cfg, w, certs, k)
      invariant !(1 <= ToInt(cfg.depth) <= i)
    {
      var issuer := RetrieveIssuerCert(certs[i].issuer, certs);
      r := OcspVerify(cfg, w, certs[i], issuer);
      if r.Err? {
        assert !RawGood(cfg, w, certs, i);
        return;
      }
      if i + 1 == ToInt(cfg.depth) {
        return Ok(());
      }
    }
    return Ok(());
  }

  method VerifyVerifiedPeerCertificates(cfg: Config, w: World, chains: seq<seq<Cert>>) returns (r: Result<(), Error>)
    ensures r.Ok? <==> AcceptsChains(cfg, w, chains)
  {
    for c := 0 to |chains|
      invariant forall k :: 0 <= k < c ==> AcceptsChain(cfg, w, chains[k])
    {
      var chain := chains[c];
      for i := 0 to |chain|
        invariant forall k :: 0 <= k < i ==> ChainGood(cfg, w, chain, k)
      {
        var cert := chain[i];
        var issuer := cert;
        if i + 1 < |chain| {
          issuer := chain[i + 1];
        }
        assert issuer == ChainIssuer(chain, i);
        r := OcspVerify(cfg, w, cert, Some(issuer));
        if r.Err? {
          assert !ChainGood(cfg, w, chains[c], i);
          assert !AcceptsChain(cfg, w, chains[c]);
          return;
        }
      }
    }
    return Ok(());
  }

  method VerifyPeerCertificate(cfg: Config, w: World, raw: seq<Bytes>, chains: seq<seq<Cert>>)
    returns (r: Result<(), Error>)
    ensures r.Ok? <==> Accepts(cfg, w, raw, chains)
    ensures chains == [] && raw == [] ==> r == Err(ClientCrt)
    ensures chains == [] && raw != [] && !AllParse(w.parse, raw) ==> r == Err(ParseCert)
  {
    if |chains| > 0 {
      r := VerifyVerifiedPeerCertificates(cfg, w, chains);
    } else if |raw| > 0 {
      var peerCertificates := ParseCertificates(w.parse, raw);
      if peerCertificates.Err? {
        return Err(peerCertificates.error);
      }
      r := VerifyRawPeerCertificates(cfg, w, peerCertificates.value);
    } else {
      r := Err(ClientCrt);
    }
  }

  /** A responder gives a certificate at most one status. */
  lemma OneStatus(cfg: Config, w: World, cert: Cert, found: Option<Cert>, a: Status, b: Status)
    requires HasStatus(cfg, w, cert, found, a) && HasStatus(cfg, w, cert, found, b)
    ensures a == b
  {
  }

  /** What is accepted at some depth is accepted at every smaller one but zero, and what is
      accepted at depth zero is accepted at every depth. */
  lemma LessDepthAcceptsMore(cfg: Config, e: Uint, w: World, raw: seq<Bytes>)
    requires |raw| < 0x8000_0000_0000_0000 && (cfg.depth == 0 || (e != 0 && cfg.depth >= e))
    requires Accepts(cfg, w, raw, [])
    ensures Accepts(cfg.(depth := e), w, raw, [])
  {
    var certs := Parsed(w.parse, raw);
    assert Cutoff(e, |certs|) <= Cutoff(cfg.depth, |certs|);
    forall i | 0 <= i < Cutoff(e, |certs|)
      ensures RawGood(cfg.(depth := e), w, certs, i)
    {
      assert RawGood(cfg, w, certs, i);
      DepthIsNotAsked(cfg, e, w, certs[i], IssuerIn(certs[i].issuer, certs));
    }
  }

  lemma DepthIsNotAsked(cfg: Config, e: Uint, w: World, cert: Cert, found: Option<Cert>)
    ensures HasStatus(cfg, w, cert, found, Good) <==> HasStatus(cfg.(depth := e), w, cert, found, Good)
  {
    var cfg' := cfg.(depth := e);
    assert forall url, host :: IsResponder(cfg, w, cert, url, host) <==> IsResponder(cfg', w, cert, url, host);
    assert forall i :: Answered(cfg, w, cert, found, i, Good) <==> Answered(cfg', w, cert, found, i, Good);
  }

  /** Verified chains are checked in full whatever the depth. */
  lemma ChainsIgnoreDepth(cfg: Config, e: Uint, w: World, raw: seq<Bytes>, chains: seq<seq<Cert>>)
    requires chains != []
    ensures Accepts(cfg, w, raw, chains) <==> Accepts(cfg.(depth := e), w, raw, chains)
  {
    var cfg' := cfg.(depth := e);
    forall c, i | 0 <= c < |chains| && 0 <= i < |chains[c]|
      ensures ChainGood(cfg, w, chains[c], i) <==> ChainGood(cfg', w, chains[c], i)
    {
      DepthIsNotAsked(cfg, e, w, chains[c][i], Some(ChainIssuer(chains[c], i)));
    }
    assert forall c :: 0 <= c < |chains| ==> (AcceptsChain(cfg, w, chains[c]) <==> AcceptsChain(cfg', w, chains[c]));
  }
}
