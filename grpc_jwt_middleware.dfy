/**
 * The store-backed JWT interceptor (modules/grpc/middleware/jwt.go).
 *
 * The roles allowed to call a method are the MethodRoles record stored
 * under the method's name; a method without a readable record is open to
 * everyone. With a record, the first "authorization" token must verify
 * to one of its roles. Unlike the node interceptor the "none" role is not
 * special here.
 */
module JwtMiddleware {
  import opened Wrappers
  import opened JsonConf
  import opened GrpcAuth

  const ErrNoSecret := "JWT Secret not provided"
  const ErrInvalidToken := "invalid token: "
  const ErrInvalidClaims := "invalid token claims"

  /** JwtAuthOptions: the secret the JWT manager signs and verifies with. */
  function JwtAuthOptions(cfg: map<string, Json>): (r: Result<string>)
    ensures r.Err? <==> GetString(cfg, "JWTSecret", "").None?
    ensures r.Err? ==> r.error == ErrNoSecret
    ensures r.Ok? && cfg["JWTSecret"].JStr? ==> r.value == cfg["JWTSecret"].s
  {
    match GetString(cfg, "JWTSecret", "")
    case None => Err(ErrNoSecret)
    case Some(secret) => Ok(secret)
  }

  /** What parsing a token with the secret gives: an error, claims of another type, or the user claims. */
  datatype Parsed = ParseErr(error: string) | OtherClaims | UserClaims(claims: Claims)

  /** JWTManager.Verify over the outcome of parsing the token. */
  function Verify(parsed: Parsed): (r: Result<Claims>)
    ensures r.Ok? <==> parsed.UserClaims?
    ensures r.Ok? ==> r.value == parsed.claims
    ensures parsed.ParseErr? ==> r == Err(ErrInvalidToken + parsed.error)
    ensures parsed.OtherClaims? ==> r == Err(ErrInvalidClaims)
  {
    match parsed
    case ParseErr(e) => Err(ErrInvalidToken + e)
    case OtherClaims => Err(ErrInvalidClaims)
    case UserClaims(c) => Ok(c)
  }

  /**
   * authorize: `records` holds the roles of every method whose MethodRoles
   * record the store can read.
   */
  function Authorize(records: map<string, seq<string>>, rpc: string, md: Option<Metadata>, verify: Verifier): (r: Option<Status>)
    ensures rpc !in records ==> r.None?
    ensures rpc in records ==> r == TokenCheck(records[rpc], md, verify)
  {
    if rpc !in records then None else TokenCheck(records[rpc], md, verify)
  }

  /** A call is let through exactly when the method has no record or the first token verifies to one of its roles. */
  lemma AuthorizeIff(records: map<string, seq<string>>, rpc: string, md: Option<Metadata>, verify: Verifier)
    ensures Authorize(records, rpc, md, verify).None? <==>
      rpc !in records ||
      (FirstToken(md).Some? && verify(FirstToken(md).value).Ok? && verify(FirstToken(md).value).value.role in records[rpc])
  {
    if rpc in records {
      TokenCheckPasses(records[rpc], md, verify);
    }
  }

  /** A stored "none" role does not open a method: a call without metadata is still refused. */
  lemma NoneRoleNotSpecial(rpc: string, verify: Verifier)
    ensures Authorize(map[rpc := ["none"]], rpc, None, verify) == Some(Status(Unauthenticated, ErrNoMetadata))
  {
  }

  /** A token failing to parse is refused with both messages, the interceptor's around the manager's. */
  lemma BadTokenMessage(roles: seq<string>, md: Option<Metadata>, e: string, rpc: string, parse: string -> Parsed)
    requires FirstToken(md).Some? && parse(FirstToken(md).value) == ParseErr(e)
    ensures Authorize(map[rpc := roles], rpc, md, t => Verify(parse(t))) ==
      Some(Status(Unauthenticated, ErrBadTokenPrefix + ErrInvalidToken + e))
  {
    TokenCheckRefusals(roles, md, t => Verify(parse(t)));
    assert ErrBadTokenPrefix + (ErrInvalidToken + e) == ErrBadTokenPrefix + ErrInvalidToken + e;
  }

  /** The unary and stream interceptors of this middleware. */
  function Unary<R>(records: map<string, seq<string>>, rpc: string, md: Option<Metadata>, verify: Verifier, handler: () -> R): (r: Intercepted<R>)
    ensures r.Handled? <==> Authorize(records, rpc, md, verify).None?
  {
    Intercept(Authorize(records, rpc, md, verify), handler)
  }
}
