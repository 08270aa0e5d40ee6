/**
  The HMAC-SHA256 bearer tokens the gRPC peers exchange
  (backend/ssgrpc/token/token.go). The jose2go signer and `encoding/json`
  are not part of this model: they are the fields of `Codecs`. The clock is
  a parameter.
 */
module Token {
  import opened Wrappers
  import opened Text

  /** The claims: the user name (`iam`) and the expiry in Unix seconds (`exp`). */
  datatype UserToken = UserToken(iam: string, exp: int)

  const ZeroToken: UserToken := UserToken("", 0)

  datatype TokenError = ErrTokenExpired | ErrBadPayload | ErrNoToken | ErrBadBearerValue | JoseError | JsonError

  /**
    `json.Marshal` of the claims (it cannot fail for this struct), `json.Unmarshal`
    into a zero `UserToken` (None on error), `jose.Sign` with HS256 and
    `jose.Decode` (each None on error).
   */
  datatype Codecs = Codecs(
    marshal: UserToken -> string,
    unmarshal: string -> Option<UserToken>,
    sign: (string, Bytes) -> Option<string>,
    decode: (string, Bytes) -> Option<string>)

  const NanosPerSecond: int := 1_000_000_000

  /** `Time.Unix`: whole seconds, rounded towards the past. */
  function UnixSeconds(nanos: int): (s: int)
    ensures s * NanosPerSecond <= nanos < (s + 1) * NanosPerSecond
  {
    nanos / NanosPerSecond
  }

  datatype Generated = Generated(claims: UserToken, token: Result<string, TokenError>)

  /** `GenUserToken`: claims for `user` expiring `expires` nanoseconds after `nowNanos`, signed. */
  function GenUserToken(user: string, expires: int, signingKey: Bytes, nowNanos: int, c: Codecs): (r: Generated)
    ensures r.claims.iam == user
    ensures r.claims.exp * NanosPerSecond <= nowNanos + expires < (r.claims.exp + 1) * NanosPerSecond
    ensures r.token.Ok? <==> c.sign(c.marshal(r.claims), signingKey).Some?
  {
    var u := UserToken(user, UnixSeconds(nowNanos + expires));
    var signed := c.sign(c.marshal(u), signingKey);
    Generated(u, if signed.Some? then Ok(signed.value) else Err(JoseError))
  }

  datatype Validation = Validation(claims: UserToken, err: Option<TokenError>)

  /**
    `ValidateUserToken`: the checks in order — signature, JSON, completeness,
    expiry — stopping at the first that fails. A token expiring in the
    current second is still accepted.
   */
  function ValidateUserToken(token: string, signingKey: Bytes, nowSecs: int, c: Codecs): (r: Validation)
    ensures c.decode(token, signingKey).None? ==> r.err == Some(JoseError)
    ensures r.err.None? <==>
              && c.decode(token, signingKey).Some?
              && c.unmarshal(c.decode(token, signingKey).value).Some?
              && r.claims == c.unmarshal(c.decode(token, signingKey).value).value
              && r.claims.iam != "" && r.claims.exp != 0 && nowSecs <= r.claims.exp
    ensures c.decode(token, signingKey).Some? && c.unmarshal(c.decode(token, signingKey).value).None? ==>
              r.err == Some(JsonError)
    ensures c.decode(token, signingKey).Some? && c.unmarshal(c.decode(token, signingKey).value).Some? ==>
              var u := c.unmarshal(c.decode(token, signingKey).value).value;
              && r.claims == u
              && ((u.iam == "" || u.exp == 0) ==> r.err == Some(ErrBadPayload))
              && (u.iam != "" && u.exp != 0 && u.exp < nowSecs ==> r.err == Some(ErrTokenExpired))
    ensures r.err == Some(ErrTokenExpired) ==> r.claims.iam != "" && r.claims.exp != 0 && r.claims.exp < nowSecs
  {
    match c.decode(token, signingKey)
    case None => Validation(ZeroToken, Some(JoseError))
    case Some(payload) =>
      match c.unmarshal(payload)
      case None => Validation(ZeroToken, Some(JsonError))
      case Some(u) =>
        if u.iam == "" || u.exp == 0 then Validation(u, Some(ErrBadPayload))
        else if u.exp < nowSecs then Validation(u, Some(ErrTokenExpired))
        else Validation(u, None)
  }

  /** The signer and JSON codec invert each other on the claims `u` under `key`. */
  ghost predicate CodecsInvert(c: Codecs, u: UserToken, key: Bytes)
  {
    && c.sign(c.marshal(u), key).Some?
    && c.decode(c.sign(c.marshal(u), key).value, key) == Some(c.marshal(u))
    && c.unmarshal(c.marshal(u)) == Some(u)
  }

  /**
    A token from `GenUserToken` for a non-empty user validates, with the same
    claims, up to and including its expiry second, and is expired after it.
   */
  lemma GenThenValidate(user: string, expires: int, key: Bytes, genNanos: int, nowSecs: int, c: Codecs)
    requires user != ""
    requires CodecsInvert(c, GenUserToken(user, expires, key, genNanos, c).claims, key)
    requires GenUserToken(user, expires, key, genNanos, c).claims.exp != 0
    ensures var g := GenUserToken(user, expires, key, genNanos, c);
            var v := ValidateUserToken(g.token.value, key, nowSecs, c);
            && v.claims == g.claims
            && (v.err.None? <==> nowSecs <= g.claims.exp)
            && (v.err.Some? ==> v.err == Some(ErrTokenExpired))
  {
  }

  /** Generated with a non-negative lifetime, a token is valid in the second it was made. */
  lemma FreshTokenValid(user: string, expires: int, key: Bytes, genNanos: int, c: Codecs)
    requires user != "" && expires >= 0
    requires CodecsInvert(c, GenUserToken(user, expires, key, genNanos, c).claims, key)
    requires GenUserToken(user, expires, key, genNanos, c).claims.exp != 0
    ensures var g := GenUserToken(user, expires, key, genNanos, c);
            ValidateUserToken(g.token.value, key, UnixSeconds(genNanos), c).err.None?
  {
    var g := GenUserToken(user, expires, key, genNanos, c);
    assert UnixSeconds(genNanos) <= g.claims.exp by {
      MonotoneSeconds(genNanos, genNanos + expires);
    }
    GenThenValidate(user, expires, key, genNanos, UnixSeconds(genNanos), c);
  }

  lemma MonotoneSeconds(a: int, b: int)
    requires a <= b
    ensures UnixSeconds(a) <= UnixSeconds(b)
  {
    var sa, sb := UnixSeconds(a), UnixSeconds(b);
    assert sa * NanosPerSecond < (sb + 1) * NanosPerSecond;
  }
}
