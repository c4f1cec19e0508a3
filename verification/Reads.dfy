/** The decisions that are made from one stored record: token validation
    (validate.go), the introspection test (introspect.go), the UserInfo test
    (userinfo.go) and the lookup of a saved authorization request (approve.go). */
module Reads {
  import opened Basics
  import opened Records
  import opened Memory

  const PUSHED_PREFIX := "par:"

  predicate HasPrefix(s: string, prefix: string) {
    |prefix| <= |s| && s[..|prefix|] == prefix
  }

  /** ValidateAccessToken. */
  function ActiveAccessToken(c: Contents, issuer: string, h: Hash, now: Time): Option<Token> {
    if h in c.tokens && c.tokens[h].kind == AccessToken && c.tokens[h].issuer == issuer && c.tokens[h].Unexpired(now)
    then Some(c.tokens[h]) else None
  }

  /** The record an introspection request by `client` is answered from. */
  function Introspected(c: Contents, issuer: string, client: string, allowAll: bool, h: Hash, now: Time):
    Option<Token>
  {
    if h !in c.tokens then None else
      var t := c.tokens[h];
      if && t.issuer == issuer
         && t.Unexpired(now)
         && (t.kind == AccessToken || (t.kind == RefreshToken && t.consumedAt == None))
         && (t.clientID == client || allowAll)
      then Some(t) else None
  }

  datatype BearerError = InvalidToken | InsufficientScope

  /** The token a UserInfo request is answered from. */
  function UserInfoToken(c: Contents, issuer: string, h: Hash, now: Time): Result<Token, BearerError> {
    match ActiveAccessToken(c, issuer, h, now)
    case None => Err(InvalidToken)
    case Some(t) =>
      if "openid" !in t.scopes || t.subject == "" then Err(InsufficientScope) else Ok(t)
  }

  /** loadPending. `binding` is the hash of the binding cookie that was
      presented, empty if there was none. */
  function LoadPending(c: Contents, issuer: string, id: string, binding: string, now: Time):
    Option<AuthorizationRequest>
  {
    if id == "" || HasPrefix(id, PUSHED_PREFIX) || id !in c.requests then None else
      var req := c.requests[id];
      if req.id != id || req.issuer != issuer || now >= req.expiresAt then None
      else if req.bindingHash != "" && binding != req.bindingHash then None
      else Some(req)
  }
}
