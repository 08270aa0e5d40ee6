/**
  The per-call credentials a gRPC peer attaches to its requests
  (backend/ssgrpc/cred.go): a bearer token, cached and regenerated when it
  is within five minutes of expiring.
 */
module GrpcCred {
  import opened Wrappers
  import opened Text
  import Token
  import GrpcServer

  /** The user name every peer's token claims. */
  const ClientName: string := "ssgrpcClient"

  /** `time.Hour`, in nanoseconds. */
  const TokenLifetime: int := 3600 * Token.NanosPerSecond

  /** Seconds before expiry at which the cached token is replaced. */
  const RefreshMargin: int := 300

  /** The request metadata for a token: one `authorization` entry. */
  function RequestMetadata(token: string): map<string, string>
  {
    map[GrpcServer.Authorization := GrpcServer.Bearer + " " + token]
  }

  /** A token made at `nowNanos` expires one hour of whole seconds later. */
  lemma RefreshedExpiry(nowNanos: int)
    ensures Token.UnixSeconds(nowNanos + TokenLifetime) == Token.UnixSeconds(nowNanos) + 3600
  {
    var s := Token.UnixSeconds(nowNanos);
    assert (s + 3600) * Token.NanosPerSecond <= nowNanos + TokenLifetime < (s + 3600 + 1) * Token.NanosPerSecond;
    var t := Token.UnixSeconds(nowNanos + TokenLifetime);
    assert t * Token.NanosPerSecond < (s + 3600 + 1) * Token.NanosPerSecond;
    assert (s + 3600) * Token.NanosPerSecond < (t + 1) * Token.NanosPerSecond;
  }

  /**
    A token refreshed at `nowNanos` (after 1970) and sent as this metadata
    passes the receiving server's `checkCreds`, in any second up to its
    expiry, provided the signer and JSON codec invert each other and the
    token text holds no space (compact JWS tokens hold none).
   */
  lemma RefreshedTokenAccepted(key: Bytes, nowNanos: int, checkSecs: int, c: Token.Codecs)
    requires nowNanos >= 0
    requires Token.CodecsInvert(c, Token.GenUserToken(ClientName, TokenLifetime, key, nowNanos, c).claims, key)
    requires ' ' !in Token.GenUserToken(ClientName, TokenLifetime, key, nowNanos, c).token.value
    requires checkSecs <= Token.UnixSeconds(nowNanos) + 3600
    ensures var tok := Token.GenUserToken(ClientName, TokenLifetime, key, nowNanos, c).token.value;
            GrpcServer.CheckCreds(false, key, Some(GrpcServer.BearerMetadata(tok)), checkSecs, c).None?
  {
    var g := Token.GenUserToken(ClientName, TokenLifetime, key, nowNanos, c);
    RefreshedExpiry(nowNanos);
    assert g.claims.exp == Token.UnixSeconds(nowNanos) + 3600;
    Token.GenThenValidate(ClientName, TokenLifetime, key, nowNanos, checkSecs, c);
    GrpcServer.BearerMetadataChecked(key, g.token.value, checkSecs, c);
  }

  class PerRPCCreds {
    var tokenStr: string
    var tokenExpire: int
    const sharedKey: Bytes

    /** The credentials `constructClient` attaches: no token cached yet. */
    constructor (sharedKey: Bytes)
      ensures tokenStr == "" && tokenExpire == 0 && this.sharedKey == sharedKey
    {
      tokenStr, tokenExpire := "", 0;
      this.sharedKey := sharedKey;
    }

    /**
      `GetRequestMetadata` at `nowNanos`: regenerates the token when its
      expiry minus the margin is before the current second, caching the new
      token and its expiry; a generation error returns empty metadata and
      keeps the cache. Otherwise the cached token is sent as it is.
     */
    method GetRequestMetadata(nowNanos: int, c: Token.Codecs) returns (meta: map<string, string>, err: Option<Token.TokenError>)
      modifies this`tokenStr, this`tokenExpire
      ensures var refresh := old(tokenExpire) - RefreshMargin < Token.UnixSeconds(nowNanos);
              var g := Token.GenUserToken(ClientName, TokenLifetime, sharedKey, nowNanos, c);
              && (!refresh ==>
                    tokenStr == old(tokenStr) && tokenExpire == old(tokenExpire)
                    && err.None? && meta == RequestMetadata(tokenStr))
              && (refresh && g.token.Err? ==>
                    tokenStr == old(tokenStr) && tokenExpire == old(tokenExpire)
                    && err == Some(g.token.error) && meta == map[])
              && (refresh && g.token.Ok? ==>
                    tokenStr == g.token.value && tokenExpire == Token.UnixSeconds(nowNanos) + 3600
                    && err.None? && meta == RequestMetadata(tokenStr))
    {
      var exp := tokenExpire;
      var tok := tokenStr;
      meta := map[];
      if exp - RefreshMargin < Token.UnixSeconds(nowNanos) {
        var g := Token.GenUserToken(ClientName, TokenLifetime, sharedKey, nowNanos, c);
        if g.token.Err? {
          return meta, Some(g.token.error);
        }
        RefreshedExpiry(nowNanos);
        exp := g.claims.exp;
        tok := g.token.value;
        tokenExpire := exp;
        tokenStr := tok;
      }
      meta := meta[GrpcServer.Authorization := GrpcServer.Bearer + " " + tok];
      err := None;
    }

    /** `RequireTransportSecurity`: the token is only ever sent over TLS. */
    function RequireTransportSecurity(): (r: bool)
      ensures r
    {
      true
    }
  }
}
