/**
 * What the two gRPC authorisation interceptors have in common
 * (modules/node/grpc/middleware.go and modules/grpc/middleware/jwt.go):
 * the status they fail with, the incoming metadata, and the token check
 * that follows the role lookup.
 *
 * Token verification is cryptography and is left to an oracle: a
 * function from the token to the claims or an error.
 */
module GrpcAuth {
  import opened Wrappers

  datatype Code = Unauthenticated | PermissionDenied

  /** A gRPC status error. */
  datatype Status = Status(code: Code, msg: string)

  /** The incoming metadata of a call: each key holds a list of values. */
  type Metadata = map<string, seq<string>>

  /** The claims a verified token carries; only the role is consulted. */
  datatype Claims = Claims(id: string, role: string)

  type Verifier = string -> Result<Claims>

  const ErrNoMetadata := "metadata is not provided"
  const ErrNoToken := "authorization token is not provided"
  const ErrBadTokenPrefix := "access token is invalid: "
  const ErrNoPermission := "no permission to access this RPC"

  /** The range loop that looks for `want` in `roles`. */
  function Search(roles: seq<string>, want: string): (r: bool)
    ensures r <==> want in roles
  {
    if |roles| == 0 then false
    else if roles[0] == want then true
    else
      var rest := Search(roles[1..], want);
      assert roles == [roles[0]] + roles[1..];
      rest
  }

  /** The first "authorization" value of the metadata, if the metadata was sent and holds one. */
  function FirstToken(md: Option<Metadata>): (r: Option<string>)
    ensures r.Some? <==> md.Some? && "authorization" in md.value && |md.value["authorization"]| > 0
    ensures r.Some? ==> r.value == md.value["authorization"][0]
  {
    if md.None? || "authorization" !in md.value || |md.value["authorization"]| == 0 then None
    else Some(md.value["authorization"][0])
  }

  /**
   * The checks after the role lookup: metadata present, a token present,
   * the first token verified, and its role among `roles`. `None` is the
   * nil error.
   */
  function TokenCheck(roles: seq<string>, md: Option<Metadata>, verify: Verifier): (r: Option<Status>)
    ensures FirstToken(md).None? ==> r.Some? && r.value.code == Unauthenticated
    ensures r.None? ==> FirstToken(md).Some? && verify(FirstToken(md).value).Ok?
  {
    if md.None? then Some(Status(Unauthenticated, ErrNoMetadata))
    else if "authorization" !in md.value || |md.value["authorization"]| == 0 then Some(Status(Unauthenticated, ErrNoToken))
    else
      var claims := verify(md.value["authorization"][0]);
      if claims.Err? then Some(Status(Unauthenticated, ErrBadTokenPrefix + claims.error))
      else if Search(roles, claims.value.role) then None
      else Some(Status(PermissionDenied, ErrNoPermission))
  }

  /** The token check passes exactly when the first token verifies to a listed role. */
  lemma TokenCheckPasses(roles: seq<string>, md: Option<Metadata>, verify: Verifier)
    ensures TokenCheck(roles, md, verify).None? <==>
      FirstToken(md).Some? && verify(FirstToken(md).value).Ok? && verify(FirstToken(md).value).value.role in roles
  {
  }

  /** Each refusal carries its code: missing metadata or token and a bad token are Unauthenticated; a wrong role is PermissionDenied. */
  lemma TokenCheckRefusals(roles: seq<string>, md: Option<Metadata>, verify: Verifier)
    ensures md.None? ==> TokenCheck(roles, md, verify) == Some(Status(Unauthenticated, ErrNoMetadata))
    ensures md.Some? && FirstToken(md).None? ==> TokenCheck(roles, md, verify) == Some(Status(Unauthenticated, ErrNoToken))
    ensures FirstToken(md).Some? && verify(FirstToken(md).value).Err? ==>
      TokenCheck(roles, md, verify) == Some(Status(Unauthenticated, ErrBadTokenPrefix + verify(FirstToken(md).value).error))
    ensures FirstToken(md).Some? && verify(FirstToken(md).value).Ok? && verify(FirstToken(md).value).value.role !in roles ==>
      TokenCheck(roles, md, verify) == Some(Status(PermissionDenied, ErrNoPermission))
  {
  }

  /** Only the first token is looked at: metadata agreeing on it give the same answer. */
  lemma OnlyFirstToken(roles: seq<string>, md1: Option<Metadata>, md2: Option<Metadata>, verify: Verifier)
    requires md1.Some? && md2.Some?
    requires FirstToken(md1).Some? && FirstToken(md1) == FirstToken(md2)
    ensures TokenCheck(roles, md1, verify) == TokenCheck(roles, md2, verify)
  {
  }

  /** What an interceptor returns: the refusal, or whatever the handler returned. */
  datatype Intercepted<R> = Refused(status: Status) | Handled(out: R)

  /**
   * The unary and stream interceptors: the handler runs only when
   * authorize returns nil; otherwise its error is returned as is.
   */
  function Intercept<R>(authorized: Option<Status>, handler: () -> R): (r: Intercepted<R>)
    ensures r.Handled? <==> authorized.None?
    ensures r.Handled? ==> r.out == handler()
    ensures r.Refused? ==> r.status == authorized.value
  {
    if authorized.Some? then Refused(authorized.value) else Handled(handler())
  }
}
