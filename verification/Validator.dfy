/** pkg/tls/verifier/verifier.go: a list of verifiers as one validation function. */
module Validator {
  import opened Results
  import opened Certificates
  import Crl

  /** Any implementation of the interface: its answer for raw certificates and verified chains. */
  type Verifier = (seq<Bytes>, seq<seq<Cert>>) -> Result<(), Error>

  predicate AllAccept(verifiers: seq<Verifier>, raw: seq<Bytes>, chains: seq<seq<Cert>>) {
    forall i :: 0 <= i < |verifiers| ==> verifiers[i](raw, chains).Ok?
  }

  /** Verifier i is the first to refuse. */
  predicate FirstToRefuse(verifiers: seq<Verifier>, raw: seq<Bytes>, chains: seq<seq<Cert>>, i: nat) {
    i < |verifiers| && verifiers[i](raw, chains).Err? && AllAccept(verifiers[..i], raw, chains)
  }

  method Validate(verifiers: seq<Verifier>, raw: seq<Bytes>, chains: seq<seq<Cert>>) returns (r: Result<(), Error>)
    ensures r.Ok? <==> AllAccept(verifiers, raw, chains)
    ensures r.Err? ==> exists i: nat :: FirstToRefuse(verifiers, raw, chains, i) && verifiers[i](raw, chains) == r
  {
    for i := 0 to |verifiers|
      invariant AllAccept(verifiers[..i], raw, chains)
    {
      r := verifiers[i](raw, chains);
      if r.Err? {
        assert FirstToRefuse(verifiers, raw, chains, i);
        return;
      }
    }
    return Ok(());
  }

  /** The order of the verifiers and repetitions among them do not change the decision. */
  lemma OrderIsIrrelevant(a: seq<Verifier>, b: seq<Verifier>, raw: seq<Bytes>, chains: seq<seq<Cert>>)
    requires forall v :: v in a <==> v in b
    ensures AllAccept(a, raw, chains) <==> AllAccept(b, raw, chains)
  {
    assert forall v :: v in a ==> v in b;
    assert AllAccept(a, raw, chains) <==> forall v :: v in a ==> v(raw, chains).Ok?;
    assert AllAccept(b, raw, chains) <==> forall v :: v in b ==> v(raw, chains).Ok?;
  }

  /** Verifier v decides as the revocation lists of w do. */
  ghost predicate ChecksLists(v: Verifier, cfg: Crl.Config, w: Crl.World) {
    forall raw, chains :: v(raw, chains).Ok? <==> Crl.Accepts(cfg, w, raw, chains)
  }

  /** Verifier v is w, or checks lists of which those of w are a part. */
  ghost predicate Stricter(v: Verifier, w: Verifier) {
    v == w || exists cfg, x, y :: ChecksLists(v, cfg, x) && ChecksLists(w, cfg, y) && Crl.RevokesMore(x, y)
  }

  /** Verifiers that revoke more, one by one, never accept what the others reject. */
  lemma StricterListsAcceptLess(v: seq<Verifier>, w: seq<Verifier>, raw: seq<Bytes>, chains: seq<seq<Cert>>)
    requires |v| == |w| && forall i :: 0 <= i < |v| ==> Stricter(v[i], w[i])
    requires AllAccept(v, raw, chains)
    ensures AllAccept(w, raw, chains)
  {
    forall i | 0 <= i < |w| ensures w[i](raw, chains).Ok? {
      assert Stricter(v[i], w[i]) && v[i](raw, chains).Ok?;
      if v[i] != w[i] {
        var cfg, x, y :| ChecksLists(v[i], cfg, x) && ChecksLists(w[i], cfg, y) && Crl.RevokesMore(x, y);
        Crl.RevocationIsMonotone(cfg, x, y, raw, chains);
      }
    }
  }
}
