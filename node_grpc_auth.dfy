/**
 * The node's gRPC authorisation interceptor (modules/node/grpc/middleware.go).
 *
 * Which roles may call a method comes from the ACL manager's Allowed; a
 * list holding the "none" role lets everyone in without a token, and
 * otherwise the first "authorization" token of the call must verify to
 * one of the allowed roles.
 */
module NodeGrpcAuth {
  import opened Wrappers
  import opened GrpcAuth
  import AclManager

  /** authorize: `None` is the nil error. */
  function Authorize(roles: seq<string>, md: Option<Metadata>, verify: Verifier): (r: Option<Status>)
    ensures AclManager.NoneRole in roles ==> r.None?
    ensures AclManager.NoneRole !in roles ==> r == TokenCheck(roles, md, verify)
  {
    if Search(roles, AclManager.NoneRole) then None else TokenCheck(roles, md, verify)
  }

  /** A call is let through exactly when "none" is allowed or the first token verifies to an allowed role. */
  lemma AuthorizeIff(roles: seq<string>, md: Option<Metadata>, verify: Verifier)
    ensures Authorize(roles, md, verify).None? <==>
      AclManager.NoneRole in roles ||
      (FirstToken(md).Some? && verify(FirstToken(md).value).Ok? && verify(FirstToken(md).value).value.role in roles)
  {
    TokenCheckPasses(roles, md, verify);
  }

  /**
   * Over the roles Allowed lists for a method: a method without an ACL, or
   * with the lowest stored rank, is open; otherwise the caller's verified
   * role must be a known role the ACL manager authorizes.
   */
  lemma AuthorizeByAcl(acls: map<string, int>, rpc: string, md: Option<Metadata>, verify: Verifier)
    requires forall k :: k in acls ==> 0 <= acls[k] <= AclManager.MaxRank
    ensures var stored := AclManager.StoredIn(acls, rpc);
      Authorize(AclManager.AllowedFor(stored), md, verify).None? <==>
      stored == None || stored == Some(0) ||
      (FirstToken(md).Some? && verify(FirstToken(md).value).Ok? &&
       AclManager.Rank(verify(FirstToken(md).value).value.role).Some? &&
       AclManager.AuthorizedFor(stored, verify(FirstToken(md).value).value.role))
  {
    var stored := AclManager.StoredIn(acls, rpc);
    var roles := AclManager.AllowedFor(stored);
    AuthorizeIff(roles, md, verify);
    AclManager.AllowedIffAuthorized(stored, AclManager.NoneRole);
    if stored.Some? && FirstToken(md).Some? && verify(FirstToken(md).value).Ok? {
      var role := verify(FirstToken(md).value).value.role;
      if AclManager.Rank(role).Some? {
        AclManager.AllowedIffAuthorized(stored, role);
      } else {
        AclManager.UnknownRoleRefused(stored.value, role);
      }
    }
  }

  /** The unary and stream interceptors of this middleware. */
  function Unary<R>(roles: seq<string>, md: Option<Metadata>, verify: Verifier, handler: () -> R): (r: Intercepted<R>)
    ensures r.Handled? <==> Authorize(roles, md, verify).None?
  {
    Intercept(Authorize(roles, md, verify), handler)
  }
}
