/**
 * The older public-key JWT interceptor (modules/grpc/jwt.go).
 *
 * Whether it is installed depends on the boolean "use_jwt"; when it is,
 * "pub_key" must hold an RSA public key. Its auth function takes the
 * first "authorization" value of the call's metadata, validates it with
 * the key and puts the token into the call's context under "jwt_token".
 *
 * The configuration here holds arbitrary Go values, read back through
 * type assertions, so its entries are modelled by what the assertion
 * sees. Signature checking is left to an oracle: what jwt.Parse reports
 * for a token.
 */
module GrpcJwt {
  import opened Wrappers
  import GrpcAuth

  /** A configuration entry, as a type assertion sees it. */
  datatype Value = BoolVal(b: bool) | RsaKey(key: nat) | OtherVal

  const ErrNoPubKey := "Public key not specified"
  const ErrNoMetadata := "Metadata not present"
  const ErrNoHeader := "Authorization header not present"
  const ErrInvalid := "Invalid token"

  /** Whether "use_jwt" holds true; an absent or non-boolean entry counts as false. */
  predicate UseJwt(conf: map<string, Value>)
  {
    "use_jwt" in conf && conf["use_jwt"] == BoolVal(true)
  }

  /**
   * JwtAuthOptions: no interceptors without use_jwt, the interceptors
   * built on the public key with it, and an error when the key is missing.
   */
  function JwtAuthOptions(conf: map<string, Value>): (r: Result<Option<nat>>)
    ensures !UseJwt(conf) ==> r == Ok(None)
    ensures UseJwt(conf) && ("pub_key" !in conf || !conf["pub_key"].RsaKey?) ==> r == Err(ErrNoPubKey)
    ensures UseJwt(conf) && "pub_key" in conf && conf["pub_key"].RsaKey? ==> r == Ok(Some(conf["pub_key"].key))
  {
    var useJwt := "use_jwt" in conf && conf["use_jwt"].BoolVal? && conf["use_jwt"].b;
    if !useJwt then Ok(None)
    else if "pub_key" !in conf || !conf["pub_key"].RsaKey? then Err(ErrNoPubKey)
    else Ok(Some(conf["pub_key"].key))
  }

  /** What jwt.Parse reports for a token: its error, and whether the token is Valid. */
  datatype Parsed = Parsed(error: Option<string>, valid: bool)

  datatype Token = Token(raw: string)

  /** validateToken: the token when parsing succeeded and it is valid; otherwise the parse error, which may be nil. */
  function ValidateToken(raw: string, p: Parsed): (r: (Option<Token>, Option<string>))
    ensures r.0.Some? <==> p.error.None? && p.valid
    ensures r.0.Some? ==> r.0.value == Token(raw) && r.1.None?
    ensures r.1 == p.error || r.1.None?
    ensures r.0.None? ==> r.1 == p.error
  {
    if p.error.None? && p.valid then (Some(Token(raw)), None) else (None, p.error)
  }

  /** What the auth function gives: an error, the new context's "jwt_token" value, or a panic indexing an empty list. */
  datatype AuthResult = Denied(msg: string) | Passed(jwtToken: Option<Token>) | IndexPanic

  /** authFunc over the call's metadata and the parser's verdict on each token. */
  function AuthFunc(md: Option<GrpcAuth.Metadata>, parse: string -> Parsed): (r: AuthResult)
    ensures r == IndexPanic <==> md.Some? && "authorization" in md.value && |md.value["authorization"]| == 0
    ensures r.Passed? ==> GrpcAuth.FirstToken(md).Some? && parse(GrpcAuth.FirstToken(md).value).error.None?
  {
    if md.None? then Denied(ErrNoMetadata)
    else if "authorization" !in md.value then Denied(ErrNoHeader)
    else if |md.value["authorization"]| == 0 then IndexPanic
    else
      var raw := md.value["authorization"][0];
      var (token, err) := ValidateToken(raw, parse(raw));
      if err.Some? then Denied(ErrInvalid) else Passed(token)
  }

  /**
   * The auth function's cases: missing metadata or header, a parse error,
   * and success carrying the validated first token.
   */
  lemma AuthFuncCases(md: Option<GrpcAuth.Metadata>, parse: string -> Parsed)
    ensures md.None? <==> AuthFunc(md, parse) == Denied(ErrNoMetadata)
    ensures md.Some? && "authorization" !in md.value <==> AuthFunc(md, parse) == Denied(ErrNoHeader)
    ensures GrpcAuth.FirstToken(md).Some? ==>
      var p := parse(GrpcAuth.FirstToken(md).value);
      (p.error.Some? <==> AuthFunc(md, parse) == Denied(ErrInvalid)) &&
      (p.error.None? && p.valid <==> AuthFunc(md, parse) == Passed(Some(Token(GrpcAuth.FirstToken(md).value))))
  {
    assert ErrNoMetadata[0] != ErrNoHeader[0] && ErrNoMetadata[0] != ErrInvalid[0] && ErrNoHeader[0] != ErrInvalid[0];
  }

  /**
   * validateToken returns no error for a token that parses cleanly but is
   * not Valid, so such a call passes with a nil "jwt_token".
   */
  lemma InvalidWithoutErrorPasses(md: Option<GrpcAuth.Metadata>, parse: string -> Parsed)
    requires GrpcAuth.FirstToken(md).Some? && parse(GrpcAuth.FirstToken(md).value) == Parsed(None, false)
    ensures AuthFunc(md, parse) == Passed(None)
  {
  }

  /** What an intercepted call gives: the error, the handler's result, or the auth function's panic. */
  datatype Call<R> = CallErr(msg: string) | CallOk(out: R) | CallPanic

  /** grpc_auth's interceptors: the handler runs with the new context only when the auth function passes. */
  function Unary<R>(md: Option<GrpcAuth.Metadata>, parse: string -> Parsed, handler: Option<Token> -> R): (r: Call<R>)
    ensures r.CallOk? <==> AuthFunc(md, parse).Passed?
    ensures r.CallOk? ==> r.out == handler(AuthFunc(md, parse).jwtToken)
    ensures r.CallErr? <==> AuthFunc(md, parse).Denied?
    ensures r.CallErr? ==> r.msg == AuthFunc(md, parse).msg
  {
    match AuthFunc(md, parse)
    case Denied(msg) => CallErr(msg)
    case Passed(token) => CallOk(handler(token))
    case IndexPanic => CallPanic
  }
}
