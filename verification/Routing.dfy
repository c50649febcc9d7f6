/**
 The path check and rewrite that pkg/http/http.go and
 pkg/mqtt/websocket/websocket.go share, and pkg/transport/path.go.
*/
module Routing {

  predicate HasSuffixSlash(s: string) {
    |s| > 0 && s[|s| - 1] == '/'
  }

  function AddSuffixSlash(path: string): string {
    if HasSuffixSlash(path) then path else path + "/"
  }

  datatype Config = Config(pathPrefix: string, targetPath: string)

  class Request {
    var path: string

    constructor (path: string)
      ensures this.path == path
    {
      this.path := path;
    }
  }

  predicate Routed(cfg: Config, path: string) {
    AddSuffixSlash(cfg.pathPrefix + cfg.targetPath) <= path
  }

  /** `strings.TrimPrefix` */
  function TrimPrefix(s: string, prefix: string): string {
    if prefix <= s then s[|prefix|..] else s
  }

  /** The start of `ServeHTTP`: false means not found, and then the request is as it was. */
  method Route(cfg: Config, r: Request) returns (found: bool)
    modifies r
    ensures found <==> Routed(cfg, old(r.path))
    ensures found ==> old(r.path) == cfg.pathPrefix + r.path
    ensures !found ==> r.path == old(r.path)
  {
    if !(AddSuffixSlash(cfg.pathPrefix + cfg.targetPath) <= r.path) {
      return false;
    }
    PrefixOfTarget(cfg, r.path);
    r.path := TrimPrefix(r.path, cfg.pathPrefix);
    return true;
  }

  lemma PrefixOfTarget(cfg: Config, path: string)
    requires Routed(cfg, path)
    ensures cfg.pathPrefix <= path && path == cfg.pathPrefix + TrimPrefix(path, cfg.pathPrefix)
  {
    var both := cfg.pathPrefix + cfg.targetPath;
    assert both <= AddSuffixSlash(both);
    assert forall i :: 0 <= i < |both| ==> both[i] == path[i];
    assert forall i :: 0 <= i < |cfg.pathPrefix| ==> cfg.pathPrefix[i] == both[i];
  }

  /** The result ends in a slash, and it is the only such path that is the given one or one
      slash longer and not longer than it must be. */
  lemma AddsOneSlash(path: string, r: string)
    ensures r == AddSuffixSlash(path)
       <==> r != "" && r[|r| - 1] == '/' && (r == path || (r == path + "/" && (path == "" || path[|path| - 1] != '/')))
  {
  }

  /** AddSuffixSlash looks at the last part of a path only, if that is not empty. */
  lemma SuffixOfConcat(a: string, b: string)
    ensures b != "" || !HasSuffixSlash(a) ==> AddSuffixSlash(a + b) == a + AddSuffixSlash(b)
    ensures b == "" && HasSuffixSlash(a) ==> AddSuffixSlash(a + b) == a
  {
    if b == "" {
      assert a + b == a;
    } else {
      assert (a + b)[|a + b| - 1] == b[|b| - 1];
    }
  }

  /** Every path that passes the check reaches the target under its target path exactly when
      the target path is not empty or the path prefix does not end in a slash. */
  lemma TargetPathKeptExactlyWhen(cfg: Config)
    ensures (forall path :: Routed(cfg, path) ==> AddSuffixSlash(cfg.targetPath) <= TrimPrefix(path, cfg.pathPrefix))
       <==> (cfg.targetPath != "" || !HasSuffixSlash(cfg.pathPrefix))
  {
    SuffixOfConcat(cfg.pathPrefix, cfg.targetPath);
    if cfg.targetPath != "" || !HasSuffixSlash(cfg.pathPrefix) {
      forall path | Routed(cfg, path)
        ensures AddSuffixSlash(cfg.targetPath) <= TrimPrefix(path, cfg.pathPrefix)
      {
        PrefixOfTarget(cfg, path);
        var t := AddSuffixSlash(cfg.targetPath);
        assert cfg.pathPrefix + t <= path;
        var n := |cfg.pathPrefix|;
        assert forall i :: 0 <= i < |t| ==> t[i] == (cfg.pathPrefix + t)[n + i] == path[n + i];
      }
    } else {
      var path := cfg.pathPrefix;
      assert Routed(cfg, path) && TrimPrefix(path, cfg.pathPrefix) == "";
      assert !(AddSuffixSlash(cfg.targetPath) <= TrimPrefix(path, cfg.pathPrefix));
    }
  }
}
