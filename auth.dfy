/**
  The decisions of the two request gates, `authMiddleware` and
  `adminMiddleware`. The `x-auth-token` header is None when absent; `verify`
  stands for `jwt.verify` with the server's secret and yields the payload's
  `user` object, or None when verification throws.
 */
module Auth {
  import opened Domain

  /** An absent or empty header is falsy in JavaScript: both mean "no token". */
  predicate HasToken(token: Option<string>) {
    token.Some? && token.value != ""
  }

  /** `authMiddleware`: the caller's claims, or the 401 it answers with. */
  function Authenticate(token: Option<string>, verify: string -> Option<Claims>): (r: Result<Claims>)
    ensures !HasToken(token) ==> r == Err(NoToken)
    ensures HasToken(token) ==> (r.Ok? <==> verify(token.value).Some?)
    ensures r.Ok? ==> HasToken(token) && r.value == verify(token.value).value
    ensures r.Err? ==> r.error.status == 401
  {
    if !HasToken(token) then Err(NoToken)
    else match verify(token.value)
      case None => Err(BadToken)
      case Some(claims) => Ok(claims)
  }

  /**
    `adminMiddleware`: the same token checks, then 403 for any role but
    "admin". It admits exactly the authenticated admins and rejects with the
    same 401 wherever authentication fails.
   */
  function AuthorizeAdmin(token: Option<string>, verify: string -> Option<Claims>): (r: Result<Claims>)
    ensures r.Ok? <==> Authenticate(token, verify).Ok? && Authenticate(token, verify).value.role == AdminRole
    ensures r.Ok? ==> r == Authenticate(token, verify)
    ensures r == Err(AdminOnly) <==> Authenticate(token, verify).Ok? && Authenticate(token, verify).value.role != AdminRole
    ensures Authenticate(token, verify).Err? ==> r == Authenticate(token, verify)
  {
    if !HasToken(token) then Err(NoToken)
    else match verify(token.value)
      case None => Err(BadToken)
      case Some(claims) => if claims.role != AdminRole then Err(AdminOnly) else Ok(claims)
  }
}
