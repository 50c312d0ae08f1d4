/**
 * Bearer-token handling of mpc-server/app.py: the `require_auth` decorator (defined
 * there but applied to no route) and the payload `generate_token` signs. JWT signing
 * and verification are abstract: `decode` stands for `jwt.decode` with the configured
 * key and algorithm, answering `None` where it would raise `JWTError` (bad signature,
 * expired `exp`, malformed token).
 */
module Auth {
  import opened Wrappers
  import Json
  import Text

  type Claims = map<string, Json.Value>

  const BearerPrefix: string := "Bearer "

  /** Rejected: 401 with an error text. Authenticated: the `g.user_id` and `g.tenant_id` set. */
  datatype AuthOutcome =
    | Rejected(status: int, error: string)
    | Authenticated(userId: Json.Value, tenantId: Json.Value)

  /** The token carried by an Authorization header value. */
  function TokenOf(header: string): (t: string)
    ensures Text.StartsWith(header, BearerPrefix) ==> header == BearerPrefix + t
    ensures !Text.StartsWith(header, BearerPrefix) ==> t == header
  {
    if Text.StartsWith(header, BearerPrefix) then header[|BearerPrefix|..] else header
  }

  /**
   * The checks `require_auth` makes before running the view. A missing or empty header
   * is refused with "No token provided"; a token the verifier refuses with "Invalid
   * token"; otherwise `user_id` is read from the claims (Null when absent) and
   * `tenant_id` defaults to "default".
   */
  function Authenticate(header: Option<string>, decode: string -> Option<Claims>): (r: AuthOutcome)
    ensures r.Rejected? ==> r.status == 401
    ensures (header == None || header == Some("")) <==> r == Rejected(401, "No token provided")
    ensures r.Authenticated? ==>
      header.Some? && decode(TokenOf(header.value)).Some?
      && r.userId == Json.Get(decode(TokenOf(header.value)).value, "user_id", Json.Null)
      && r.tenantId == Json.Get(decode(TokenOf(header.value)).value, "tenant_id", Json.Str("default"))
    ensures header.Some? && header.value != "" && decode(TokenOf(header.value)).None? ==>
      r == Rejected(401, "Invalid token")
    ensures header.Some? && header.value != "" && decode(TokenOf(header.value)).Some? ==>
      r == Authenticated(Json.Get(decode(TokenOf(header.value)).value, "user_id", Json.Null),
                         Json.Get(decode(TokenOf(header.value)).value, "tenant_id", Json.Str("default")))
  {
    if header == None || header == Some("") then
      Rejected(401, "No token provided")
    else
      match decode(TokenOf(header.value))
      case None => Rejected(401, "Invalid token")
      case Some(claims) =>
        Authenticated(Json.Get(claims, "user_id", Json.Null), Json.Get(claims, "tenant_id", Json.Str("default")))
  }

  /** What `/auth/token` answers: the claims it signs and `expires_in` in seconds. */
  datatype TokenGrant = TokenGrant(claims: Claims, expiresIn: int)

  /**
   * The payload `generate_token` builds from the request body at time `now` (whole
   * seconds), with `JWT_EXPIRATION_HOURS` = `hours`. A body that is falsy is read as
   * `{}`; a truthy body that is not an object has no `.get` and fails (`None`, a 500).
   */
  function IssueToken(body: Json.Value, now: int, hours: int): (r: Option<TokenGrant>)
    ensures r.Some? <==> (body.Object? || !Json.Truthy(body))
    ensures r.Some? ==> r.value.expiresIn == hours * 3600
    ensures r.Some? ==> r.value.claims.Keys == {"user_id", "tenant_id", "exp"}
    ensures r.Some? ==> r.value.claims["exp"] == Json.Number((now + hours * 3600) as real)
    ensures r.Some? && body.Object? && "user_id" in body.fields ==>
      r.value.claims["user_id"] == body.fields["user_id"]
    ensures r.Some? && !(body.Object? && "user_id" in body.fields) ==>
      r.value.claims["user_id"] == Json.Str("demo-user")
    ensures r.Some? && body.Object? && "tenant_id" in body.fields ==>
      r.value.claims["tenant_id"] == body.fields["tenant_id"]
    ensures r.Some? && !(body.Object? && "tenant_id" in body.fields) ==>
      r.value.claims["tenant_id"] == Json.Str("default")
  {
    if Json.Truthy(body) && !body.Object? then None
    else
      var data := if body.Object? then body.fields else map[];
      var exp := now + hours * 3600;
      Some(TokenGrant(
        map["user_id" := Json.Get(data, "user_id", Json.Str("demo-user")),
            "tenant_id" := Json.Get(data, "tenant_id", Json.Str("default")),
            "exp" := Json.Number(exp as real)],
        hours * 3600))
  }

  /**
   * Issue then present: if the verifier accepts the encoding of the issued claims
   * (correct key, not yet expired), presenting it as "Bearer <token>" authenticates
   * the user and tenant the body named, or "demo-user" and "default".
   */
  lemma IssuedTokenAuthenticates(body: Json.Value, now: int, hours: int,
                                 encode: Claims -> string, decode: string -> Option<Claims>)
    requires IssueToken(body, now, hours).Some?
    requires decode(encode(IssueToken(body, now, hours).value.claims))
          == Some(IssueToken(body, now, hours).value.claims)
    ensures var data := if body.Object? then body.fields else map[];
      Authenticate(Some(BearerPrefix + encode(IssueToken(body, now, hours).value.claims)), decode)
      == Authenticated(Json.Get(data, "user_id", Json.Str("demo-user")),
                       Json.Get(data, "tenant_id", Json.Str("default")))
  {
    var token := encode(IssueToken(body, now, hours).value.claims);
    var header := BearerPrefix + token;
    assert header[..|BearerPrefix|] == BearerPrefix;
    assert TokenOf(header) == token;
  }

  /** A header without the "Bearer " prefix is handed to the verifier unchanged. */
  lemma BareTokenPassedVerbatim(header: string, decode: string -> Option<Claims>)
    requires header != "" && !Text.StartsWith(header, BearerPrefix)
    ensures Authenticate(Some(header), decode) ==
      match decode(header)
      case None => Rejected(401, "Invalid token")
      case Some(c) => Authenticated(Json.Get(c, "user_id", Json.Null), Json.Get(c, "tenant_id", Json.Str("default")))
  {
  }
}
