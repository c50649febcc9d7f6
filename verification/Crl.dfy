/**
 Revocation lists, pkg/tls/verifier/crl/crl.go. The loops are proved to accept
 exactly what the quantified predicates `AcceptsChains` and `AcceptsRaw` say.
 Files, downloads, decoding and signatures are the oracle `World`.
*/
module Crl {
  import opened Results
  import opened Certificates

  /** Serial numbers revoked, and the time by which the next list is due. */
  datatype RevocationList = RevocationList(revoked: seq<int>, nextUpdate: int)

  datatype Config = Config(depth: Uint, distributionPoint: string, distributionIssuerFile: string)

  datatype World = World(
    parse: Parser,
    offlineFile: Result<Bytes, Error>,              // empty if there is no such file configured
    offlineIssuer: Result<Option<Cert>, Error>,
    distributionIssuer: Result<Option<Cert>, Error>,
    fetch: string -> Result<Bytes, Error>,
    decode: Bytes -> Result<RevocationList, Error>,  // PEM and ASN.1
    signedBy: (Bytes, Option<Cert>) -> bool,
    now: int)

  function ParseVerifyCrl(w: World, bytes: Bytes, issuer: Option<Cert>, checkSign: bool): Result<RevocationList, Error>
  {
    match w.decode(bytes)
    case Err(e) => Err(e)
    case Ok(crl) =>
      if checkSign && !w.signedBy(bytes, issuer) then Err(CrlSignature)
      else if crl.nextUpdate < w.now then Err(ExpiredCrl)
      else Ok(crl)
  }

  function OfflineCrl(w: World): Result<Option<RevocationList>, Error> {
    match w.offlineFile
    case Err(e) => Err(e)
    case Ok(bytes) =>
      if bytes == [] then Ok(None)
      else
        match w.offlineIssuer
        case Err(e) => Err(e)
        case Ok(_) => Found(ParseVerifyCrl(w, bytes, None, false))
  }

  function RetrieveCrl(w: World, url: string, issuer: Option<Cert>): Result<RevocationList, Error> {
    match w.fetch(url)
    case Err(e) => Err(e)
    case Ok(body) => ParseVerifyCrl(w, body, issuer, true)
  }

  /** `getCRLFromDistributionPoint`: the certificate's own point goes before the configured one. */
  function OnlineCrl(cfg: Config, w: World, cert: Cert, issuer: Option<Cert>): Result<Option<RevocationList>, Error> {
    if |cert.crlPoints| > 0 then Found(RetrieveCrl(w, cert.crlPoints[0], issuer))
    else if cfg.distributionPoint != "" && cfg.distributionIssuerFile != "" then
      match w.distributionIssuer
      case Err(e) => Err(e)
      case Ok(crlIssuer) => Found(RetrieveCrl(w, cfg.distributionPoint, crlIssuer))
    else Ok(None)
  }

  function Found(r: Result<RevocationList, Error>): Result<Option<RevocationList>, Error> {
    match r
    case Err(e) => Err(e)
    case Ok(crl) => Ok(Some(crl))
  }

  /** The list the certificate must not be on: online if there is one, otherwise offline. */
  ghost predicate Governs(cfg: Config, w: World, cert: Cert, issuer: Option<Cert>, crl: RevocationList) {
    || OnlineCrl(cfg, w, cert, issuer) == Ok(Some(crl))
    || (OnlineCrl(cfg, w, cert, issuer) == Ok(None) && OfflineCrl(w) == Ok(Some(crl)))
  }

  ghost predicate NotRevoked(cfg: Config, w: World, cert: Cert, issuer: Option<Cert>) {
    exists crl :: Governs(cfg, w, cert, issuer, crl) && cert.serial !in crl.revoked
  }

  /** Certificate i of a verified chain is not revoked under the next one, or itself at the end. */
  ghost predicate ChainGood(cfg: Config, w: World, chain: seq<Cert>, i: nat)
    requires i < |chain|
  {
    NotRevoked(cfg, w, chain[i], Some(ChainIssuer(chain, i)))
  }

  ghost predicate AcceptsChain(cfg: Config, w: World, chain: seq<Cert>) {
    forall i :: 0 <= i < |chain| ==> ChainGood(cfg, w, chain, i)
  }

  ghost predicate AcceptsChains(cfg: Config, w: World, chains: seq<seq<Cert>>) {
    OfflineCrl(w).Ok? && forall c :: 0 <= c < |chains| ==> AcceptsChain(cfg, w, chains[c])
  }

  /** Raw certificate i, whose issuer is looked for among all of them, is not revoked. */
  ghost predicate RawGood(cfg: Config, w: World, certs: seq<Cert>, i: nat)
    requires i < |certs|
  {
    NotRevoked(cfg, w, certs[i], IssuerIn(certs[i].issuer, certs))
  }

  ghost predicate AcceptsRaw(cfg: Config, w: World, certs: seq<Cert>) {
    OfflineCrl(w).Ok? && forall i :: 0 <= i < Cutoff(cfg.depth, |certs|) ==> RawGood(cfg, w, certs, i)
  }

  ghost predicate Accepts(cfg: Config, w: World, raw: seq<Bytes>, chains: seq<seq<Cert>>) {
    if |chains| > 0 then AcceptsChains(cfg, w, chains)
    else |raw| > 0 && AllParse(w.parse, raw) && AcceptsRaw(cfg, w, Parsed(w.parse, raw))
  }

  /** A chain is one certificate, which stands for its own issuer, or a certificate issued by
      the first of a shorter chain. */
  lemma ChainLinks(cfg: Config, w: World, cert: Cert, rest: seq<Cert>)
    ensures AcceptsChain(cfg, w, [cert] + rest)
       <==> NotRevoked(cfg, w, cert, Some(if rest == [] then cert else rest[0])) && AcceptsChain(cfg, w, rest)
  {
    var chain := [cert] + rest;
    forall i | 0 <= i < |rest| ensures ChainGood(cfg, w, chain, i + 1) <==> ChainGood(cfg, w, rest, i) {
      assert chain[i + 1] == rest[i] && ChainIssuer(chain, i + 1) == ChainIssuer(rest, i);
    }
    if ChainGood(cfg, w, chain, 0) && AcceptsChain(cfg, w, rest) {
      forall i | 0 <= i < |chain| ensures ChainGood(cfg, w, chain, i) {
        assert i > 0 ==> ChainGood(cfg, w, rest, i - 1);
      }
    }
    if AcceptsChain(cfg, w, chain) {
      forall i | 0 <= i < |rest| ensures ChainGood(cfg, w, rest, i) {
        assert ChainGood(cfg, w, chain, i + 1);
      }
    }
    assert ChainGood(cfg, w, chain, 0) <==> NotRevoked(cfg, w, cert, Some(if rest == [] then cert else rest[0]));
  }

  method CrlVerify(cert: Cert, crl: RevocationList) returns (r: Result<(), Error>)
    ensures r == if cert.serial in crl.revoked then Err(Revoked) else Ok(())
  {
    for i := 0 to |crl.revoked|
      invariant cert.serial !in crl.revoked[..i]
    {
      if crl.revoked[i] == cert.serial {
        return Err(Revoked);
      }
    }
    return Ok(());
  }

  /** The body both loops share: choose the list, then look the certificate up. */
  method VerifyOne(cfg: Config, w: World, offlineCrl: Option<RevocationList>, cert: Cert, issuer: Option<Cert>)
    returns (r: Result<(), Error>)
    requires OfflineCrl(w) == Ok(offlineCrl)
    ensures r.Ok? <==> NotRevoked(cfg, w, cert, issuer)
    ensures OnlineCrl(cfg, w, cert, issuer) == Ok(None) && offlineCrl == None ==> r == Err(NoCrl)
  {
    var online := OnlineCrl(cfg, w, cert, issuer);
    if online.Err? {
      return Err(online.error);
    }
    var crl := online.value;
    if crl.None? && offlineCrl.Some? {
      crl := offlineCrl;
    } else if crl.None? {
      return Err(NoCrl);
    }
    assert Governs(cfg, w, cert, issuer, crl.value);
    r := CrlVerify(cert, crl.value);
  }

  method VerifyVerifiedPeerCertificates(cfg: Config, w: World, chains: seq<seq<Cert>>) returns (r: Result<(), Error>)
    ensures r.Ok? <==> AcceptsChains(cfg, w, chains)
  {
    var offlineCrl := OfflineCrl(w);
    if offlineCrl.Err? {
      return Err(offlineCrl.error);
    }
    for c := 0 to |chains|
      invariant forall k :: 0 <= k < c ==> AcceptsChain(cfg, w, chains[k])
    {
      var chain := chains[c];
      for i := 0 to |chain|
        invariant forall k :: 0 <= k < i ==> ChainGood(cfg, w, chain, k)
      {
        var cert := chain[i];
        var issuer := cert;
        if i + 1 < |chain| {
          issuer := chain[i + 1];
        }
        assert issuer == ChainIssuer(chain, i);
        r := VerifyOne(cfg, w, offlineCrl.value, cert, Some(issuer));
        if r.Err? {
          assert !ChainGood(cfg, w, chains[c], i);
          assert !AcceptsChain(cfg, w, chains[c]);
          return;
        }
      }
    }
    return Ok(());
  }

  method VerifyRawPeerCertificates(cfg: Config, w: World, certs: seq<Cert>) returns (r: Result<(), Error>)
    ensures r.Ok? <==> AcceptsRaw(cfg, w, certs)
  {
    var offlineCrl := OfflineCrl(w);
    if offlineCrl.Err? {
      return Err(offlineCrl.error);
    }
    for i := 0 to |certs|
      invariant i <= Cutoff(cfg.depth, |certs|)
      invariant forall k :: 0 <= k < i ==> RawGood(cfg, w, certs, k)
      invariant !(1 <= ToInt(cfg.depth) <= i)
    {
      var issuer := RetrieveIssuerCert(certs[i].issuer, certs);
      r := VerifyOne(cfg, w, offlineCrl.value, certs[i], issuer);
      if r.Err? {
        assert !RawGood(cfg, w, certs, i);
        return;
      }
      if i + 1 == ToInt(cfg.depth) {
        return Ok(());
      }
    }
    return Ok(());
  }

  method VerifyPeerCertificate(cfg: Config, w: World, raw: seq<Bytes>, chains: seq<seq<Cert>>)
    returns (r: Result<(), Error>)
    ensures r.Ok? <==> Accepts(cfg, w, raw, chains)
    ensures chains == [] && raw == [] ==> r == Err(ClientCrt)
    ensures chains == [] && raw != [] && !AllParse(w.parse, raw) ==> r == Err(ParseCert)
  {
    if |chains| > 0 {
      r := VerifyVerifiedPeerCertificates(cfg, w, chains);
    } else if |raw| > 0 {
      var peerCertificates := ParseCertificates(w.parse, raw);
      if peerCertificates.Err? {
        return Err(peerCertificates.error);
      }
      r := VerifyRawPeerCertificates(cfg, w, peerCertificates.value);
    } else {
      r := Err(ClientCrt);
    }
  }

  // ---------- What the decision depends on ----------

  /** Is depth d at least as strict as depth e? Zero is the strictest. */
  predicate AsStrict(d: Uint, e: Uint) {
    d == 0 || (e != 0 && d >= e)
  }

  /** What is accepted at some depth is accepted at every less strict one. */
  lemma LessDepthAcceptsMore(cfg: Config, e: Uint, w: World, raw: seq<Bytes>)
    requires |raw| < 0x8000_0000_0000_0000 && AsStrict(cfg.depth, e)
    requires Accepts(cfg, w, raw, [])
    ensures Accepts(cfg.(depth := e), w, raw, [])
  {
    var certs := Parsed(w.parse, raw);
    var cfg' := cfg.(depth := e);
    assert Cutoff(e, |certs|) <= Cutoff(cfg.depth, |certs|);
    forall i | 0 <= i < Cutoff(e, |certs|)
      ensures RawGood(cfg', w, certs, i)
    {
      assert RawGood(cfg, w, certs, i);
      SameSource(cfg, cfg', w, certs[i], IssuerIn(certs[i].issuer, certs));
    }
  }

  lemma SameSource(cfg: Config, cfg': Config, w: World, cert: Cert, issuer: Option<Cert>)
    requires cfg' == cfg.(depth := cfg'.depth)
    ensures NotRevoked(cfg, w, cert, issuer) <==> NotRevoked(cfg', w, cert, issuer)
  {
    assert forall crl :: Governs(cfg, w, cert, issuer, crl) <==> Governs(cfg', w, cert, issuer, crl);
  }

  /** Verified chains are checked in full whatever the depth. */
  lemma ChainsIgnoreDepth(cfg: Config, e: Uint, w: World, raw: seq<Bytes>, chains: seq<seq<Cert>>)
    requires chains != []
    ensures Accepts(cfg, w, raw, chains) <==> Accepts(cfg.(depth := e), w, raw, chains)
  {
    var cfg' := cfg.(depth := e);
    forall c, i | 0 <= c < |chains| && 0 <= i < |chains[c]|
      ensures ChainGood(cfg, w, chains[c], i) <==> ChainGood(cfg', w, chains[c], i)
    {
      SameSource(cfg, cfg', w, chains[c][i], Some(ChainIssuer(chains[c], i)));
    }
    assert forall c :: 0 <= c < |chains| ==> (AcceptsChain(cfg, w, chains[c]) <==> AcceptsChain(cfg', w, chains[c]));
  }

  /** The order of the verified chains and repetitions among them do not matter. */
  lemma ChainOrderIsIrrelevant(cfg: Config, w: World, raw: seq<Bytes>, a: seq<seq<Cert>>, b: seq<seq<Cert>>)
    requires a != [] && b != []
    requires forall chain :: chain in a <==> chain in b
    ensures Accepts(cfg, w, raw, a) <==> Accepts(cfg, w, raw, b)
  {
    assert forall chain :: chain in a ==> chain in b;
    assert AcceptsChains(cfg, w, a)
      <==> OfflineCrl(w).Ok? && forall chain :: chain in a ==> AcceptsChain(cfg, w, chain);
    assert AcceptsChains(cfg, w, b)
      <==> OfflineCrl(w).Ok? && forall chain :: chain in b ==> AcceptsChain(cfg, w, chain);
  }

  /** Where w gives a list, v gives one with at least the same entries; otherwise they agree. */
  ghost predicate RevokesMore(v: World, w: World) {
    && v.parse == w.parse && v.distributionIssuer == w.distributionIssuer
    && Extends(OfflineCrl(v), OfflineCrl(w))
    && (forall url, issuer :: Extends(Found(RetrieveCrl(v, url, issuer)), Found(RetrieveCrl(w, url, issuer))))
  }

  predicate Extends(v: Result<Option<RevocationList>, Error>, w: Result<Option<RevocationList>, Error>) {
    match (v, w)
    case (Ok(Some(x)), Ok(Some(y))) => forall n :: n in y.revoked ==> n in x.revoked
    case _ => v == w
  }

  lemma MoreGoverns(cfg: Config, v: World, w: World, cert: Cert, issuer: Option<Cert>)
    requires RevokesMore(v, w) && NotRevoked(cfg, v, cert, issuer)
    ensures NotRevoked(cfg, w, cert, issuer)
  {
    var online := OnlineCrl(cfg, w, cert, issuer);
    assert Extends(OnlineCrl(cfg, v, cert, issuer), online);
    var list := if online == Ok(None) then OfflineCrl(w) else online;
    assert Governs(cfg, w, cert, issuer, list.value.value);
  }

  /** Revoking more certificates never turns a rejection into an acceptance. */
  lemma RevocationIsMonotone(cfg: Config, v: World, w: World, raw: seq<Bytes>, chains: seq<seq<Cert>>)
    requires RevokesMore(v, w) && Accepts(cfg, v, raw, chains)
    ensures Accepts(cfg, w, raw, chains)
  {
    forall cert, issuer | NotRevoked(cfg, v, cert, issuer)
      ensures NotRevoked(cfg, w, cert, issuer)
    {
      MoreGoverns(cfg, v, w, cert, issuer);
    }
    if |chains| > 0 {
      forall c | 0 <= c < |chains| ensures AcceptsChain(cfg, w, chains[c]) {
        assert AcceptsChain(cfg, v, chains[c]);
        forall i | 0 <= i < |chains[c]| ensures ChainGood(cfg, w, chains[c], i) {
          assert ChainGood(cfg, v, chains[c], i);
        }
      }
    } else {
      var certs := Parsed(w.parse, raw);
      forall i | 0 <= i < Cutoff(cfg.depth, |certs|) ensures RawGood(cfg, w, certs, i) {
        assert RawGood(cfg, v, certs, i);
      }
    }
  }

  /** The configured distribution point and its issuer file are looked at only for
      certificates without a point of their own: they are a fallback, not an override. */
  lemma ConfiguredPointIsAFallback(cfg: Config, cfg': Config, w: World, cert: Cert, issuer: Option<Cert>)
    requires |cert.crlPoints| > 0
    ensures NotRevoked(cfg, w, cert, issuer) <==> NotRevoked(cfg', w, cert, issuer)
  {
    assert forall crl :: Governs(cfg, w, cert, issuer, crl) <==> Governs(cfg', w, cert, issuer, crl);
  }

  /** The list that governs a certificate with a point of its own is the one fetched from the
      first of its points, signed by its issuer, whatever the settings and the offline list. */
  lemma OwnPointGoverns(cfg: Config, w: World, cert: Cert, issuer: Option<Cert>, crl: RevocationList)
    requires cert.crlPoints != []
    ensures Governs(cfg, w, cert, issuer, crl)
       <==> exists body :: w.fetch(cert.crlPoints[0]) == Ok(body) && w.decode(body) == Ok(crl)
              && w.signedBy(body, issuer) && crl.nextUpdate >= w.now
  {
  }

  /** For every other certificate it is the configured list that governs, if both settings are
      there: the one fetched from the point, signed by the configured issuer, whatever the
      certificate's own issuer is. No offline list takes its place. */
  lemma ConfiguredPointGoverns(cfg: Config, w: World, cert: Cert, issuer: Option<Cert>, crl: RevocationList)
    requires cert.crlPoints == [] && cfg.distributionPoint != "" && cfg.distributionIssuerFile != ""
    ensures Governs(cfg, w, cert, issuer, crl)
       <==> exists body, crlIssuer :: w.fetch(cfg.distributionPoint) == Ok(body) && w.decode(body) == Ok(crl)
              && w.distributionIssuer == Ok(crlIssuer) && w.signedBy(body, crlIssuer) && crl.nextUpdate >= w.now
  {
  }

  /** For the rest it is the offline list, whoever has signed it. */
  lemma OfflineListGoverns(cfg: Config, w: World, cert: Cert, issuer: Option<Cert>, crl: RevocationList)
    requires cert.crlPoints == [] && (cfg.distributionPoint == "" || cfg.distributionIssuerFile == "")
    ensures Governs(cfg, w, cert, issuer, crl)
       <==> w.offlineFile.Ok? && w.offlineFile.value != [] && w.offlineIssuer.Ok?
            && w.decode(w.offlineFile.value) == Ok(crl) && crl.nextUpdate >= w.now
  {
  }

  ghost predicate SettingsDecide(cfg: Config, cfg': Config, w: World, cert: Cert, issuer: Option<Cert>) {
    NotRevoked(cfg, w, cert, issuer) && !NotRevoked(cfg', w, cert, issuer)
  }

  /** The settings can make a difference exactly for the certificates without a point. */
  lemma SettingsMatterExactlyWhen(cert: Cert)
    ensures (exists cfg, cfg', w, issuer :: SettingsDecide(cfg, cfg', w, cert, issuer)) <==> cert.crlPoints == []
  {
    if cert.crlPoints == [] {
      var list := RevocationList([], 0);
      var w := World(_ => None, Ok([]), Ok(None), Ok(None), _ => Ok([]), _ => Ok(list), (_, _) => true, 0);
      var cfg, cfg' := Config(0, "a", "b"), Config(0, "", "");
      assert Governs(cfg, w, cert, None, list);
      assert SettingsDecide(cfg, cfg', w, cert, None);
    } else {
      forall cfg, cfg', w, issuer ensures !SettingsDecide(cfg, cfg', w, cert, issuer) {
        ConfiguredPointIsAFallback(cfg, cfg', w, cert, issuer);
      }
    }
  }

  /** The offline list can be missing, but not broken: a file that cannot be read, decoded or
      used, or an issuer file that cannot be read, rejects every certificate. */
  lemma OfflineLoadsExactlyWhen(w: World)
    ensures OfflineCrl(w).Ok?
       <==> w.offlineFile == Ok([])
            || (w.offlineFile.Ok? && w.offlineIssuer.Ok?
                && exists crl :: w.decode(w.offlineFile.value) == Ok(crl) && crl.nextUpdate >= w.now)
    ensures OfflineCrl(w) == Ok(None) <==> w.offlineFile == Ok([])
  {
  }

  /** The decision does not depend on which certificate the offline issuer file holds, only on
      whether it can be read. */
  lemma OfflineIssuerIsUnused(
    cfg: Config, w: World, other: Result<Option<Cert>, Error>, raw: seq<Bytes>, chains: seq<seq<Cert>>)
    requires other.Ok? <==> w.offlineIssuer.Ok?
    ensures Accepts(cfg, w, raw, chains) <==> Accepts(cfg, w.(offlineIssuer := other), raw, chains)
  {
    var v := w.(offlineIssuer := other);
    if Accepts(cfg, w, raw, chains) {
      RevocationIsMonotone(cfg, w, v, raw, chains);
    } else if Accepts(cfg, v, raw, chains) {
      RevocationIsMonotone(cfg, v, w, raw, chains);
    }
  }
}
