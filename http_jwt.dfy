/**
 * The node's HTTP JWT middleware (modules/node/http/middleware.go).
 *
 * The roles allowed for a request come from the ACL manager's Allowed,
 * looked up by the request URL. A list holding "none" passes the request
 * on unchecked; otherwise the Authorization header must split on single
 * spaces into exactly two parts, the second being the token, and the
 * token must verify to an allowed role. Every refusal answers with an
 * error and does not call the next handler.
 */
module HttpJwt {
  import opened Wrappers
  import GrpcAuth
  import AclManager

  const StatusBadRequest := 400
  const StatusUnauthorized := 401
  const ErrTokenAbsent := "token is absent"
  const ErrVerifyPrefix := "failed verifying token: "
  const ErrInvalidRole := "invalid role for resource"

  /** strings.Split(s, " "): the pieces between single spaces; an empty string is one empty piece. */
  function Split(s: string): (r: seq<string>)
    ensures |r| >= 1
  {
    if |s| == 0 then [""]
    else if s[0] == ' ' then [""] + Split(s[1..])
    else
      var rest := Split(s[1..]);
      [[s[0]] + rest[0]] + rest[1..]
  }

  /** strings.Join(parts, " "), the partner of Split. */
  function Join(parts: seq<string>): (r: string)
    requires |parts| >= 1
  {
    if |parts| == 1 then parts[0] else parts[0] + " " + Join(parts[1..])
  }

  /** Joining the pieces back gives the header. */
  lemma {:induction false} JoinSplit(s: string)
    ensures Join(Split(s)) == s
  {
    if |s| > 0 {
      JoinSplit(s[1..]);
      var rest := Split(s[1..]);
      if s[0] == ' ' {
        assert Split(s)[1..] == rest;
        assert s == [' '] + s[1..];
      } else {
        var parts := Split(s);
        assert parts[0] == [s[0]] + rest[0];
        assert parts[1..] == rest[1..];
        if |rest| == 1 {
          assert s == [s[0]] + rest[0];
        } else {
          assert Join(rest) == rest[0] + " " + Join(rest[1..]);
          assert s == [s[0]] + Join(rest);
        }
      }
    }
  }

  /** No piece holds a space. */
  lemma {:induction false} SplitHasNoSpaces(s: string)
    ensures forall k :: 0 <= k < |Split(s)| ==> ' ' !in Split(s)[k]
  {
    if |s| > 0 {
      SplitHasNoSpaces(s[1..]);
      var rest := Split(s[1..]);
      if s[0] != ' ' {
        assert forall c :: c in [s[0]] + rest[0] ==> c == s[0] || c in rest[0];
      }
    }
  }

  /** Splitting a space-free scheme and token joined by one space gives exactly those two parts. */
  lemma SplitTwo(scheme: string, token: string)
    requires ' ' !in scheme && ' ' !in token
    ensures Split(scheme + " " + token) == [scheme, token]
  {
    SplitNoSpace(token);
    SplitPrefix(scheme, token);
  }

  lemma {:induction false} SplitNoSpace(s: string)
    requires ' ' !in s
    ensures Split(s) == [s]
  {
    if |s| > 0 {
      assert ' ' !in s[1..] by {
        assert forall c :: c in s[1..] ==> c in s;
      }
      SplitNoSpace(s[1..]);
      assert [s[0]] + s[1..] == s;
    }
  }

  lemma {:induction false} SplitPrefix(scheme: string, token: string)
    requires ' ' !in scheme && Split(token) == [token]
    ensures Split(scheme + " " + token) == [scheme, token]
  {
    if |scheme| == 0 {
      assert scheme + " " + token == [' '] + token;
      assert (scheme + " " + token)[1..] == token;
    } else {
      assert ' ' !in scheme[1..] by {
        assert forall c :: c in scheme[1..] ==> c in scheme;
      }
      SplitPrefix(scheme[1..], token);
      var s := scheme + " " + token;
      assert s[0] == scheme[0];
      assert s[1..] == scheme[1..] + " " + token;
      assert [scheme[0]] + scheme[1..] == scheme;
    }
  }

  /** What the middleware does with a request. */
  datatype Reply = Next | HttpError(msg: string, code: int)

  /** The JWT middleware: `header` is the request's Authorization header ("" when absent). */
  function Jwt(roles: seq<string>, header: string, verify: GrpcAuth.Verifier): (r: Reply)
    ensures AclManager.NoneRole in roles ==> r == Next
    ensures r.HttpError? ==> r.code == StatusBadRequest || r.code == StatusUnauthorized
    ensures r.HttpError? && r.code == StatusUnauthorized ==> |Split(header)| == 2
  {
    if GrpcAuth.Search(roles, AclManager.NoneRole) then Next
    else
      var parts := Split(header);
      if |parts| != 2 then HttpError(ErrTokenAbsent, StatusBadRequest)
      else
        var claims := verify(parts[1]);
        if claims.Err? then HttpError(ErrVerifyPrefix + claims.error, StatusUnauthorized)
        else if GrpcAuth.Search(roles, claims.value.role) then Next
        else HttpError(ErrInvalidRole, StatusUnauthorized)
  }

  /** The request reaches the next handler exactly when "none" is allowed, or the header has two parts whose second verifies to an allowed role. */
  lemma JwtIff(roles: seq<string>, header: string, verify: GrpcAuth.Verifier)
    ensures Jwt(roles, header, verify).Next? <==>
      AclManager.NoneRole in roles ||
      (|Split(header)| == 2 && verify(Split(header)[1]).Ok? && verify(Split(header)[1]).value.role in roles)
  {
  }

  /** The refusals: 400 for a malformed header, 401 for a bad token or a role not allowed. */
  lemma JwtRefusals(roles: seq<string>, header: string, verify: GrpcAuth.Verifier)
    requires AclManager.NoneRole !in roles
    ensures |Split(header)| != 2 ==> Jwt(roles, header, verify) == HttpError(ErrTokenAbsent, StatusBadRequest)
    ensures |Split(header)| == 2 && verify(Split(header)[1]).Err? ==>
      Jwt(roles, header, verify) == HttpError(ErrVerifyPrefix + verify(Split(header)[1]).error, StatusUnauthorized)
    ensures |Split(header)| == 2 && verify(Split(header)[1]).Ok? && verify(Split(header)[1]).value.role !in roles ==>
      Jwt(roles, header, verify) == HttpError(ErrInvalidRole, StatusUnauthorized)
  {
  }

  /** A "Bearer <token>" header hands exactly the token to the verifier. */
  lemma BearerToken(roles: seq<string>, token: string, verify: GrpcAuth.Verifier)
    requires ' ' !in token && AclManager.NoneRole !in roles
    ensures Jwt(roles, "Bearer " + token, verify).Next? <==> verify(token).Ok? && verify(token).value.role in roles
  {
    SplitTwo("Bearer", token);
    assert "Bearer" + " " + token == "Bearer " + token;
  }

  /** A missing header splits into one empty part and is refused with 400. */
  lemma NoHeaderIsBadRequest(roles: seq<string>, verify: GrpcAuth.Verifier)
    requires AclManager.NoneRole !in roles
    ensures Jwt(roles, "", verify) == HttpError(ErrTokenAbsent, StatusBadRequest)
  {
  }
}
