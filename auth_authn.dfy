/** The auth service's authentication middleware: the access token comes
    from the Authorization header, or from the `access_token` cookie when
    the header is empty; its "Bearer " prefix is dropped; a token the JWT
    manager verifies puts its payload in the request's locals and passes the
    request on. Verification is the `verify` input. */
module AuthAuthn {
  import opened Common
  import AuthService
  import ErrorHandler

  const AuthUserKey: string := "auth_user"
  const BearerPrefix: string := "Bearer "
  const NotProtected: string := "AuthenticatedUser is only available for protected routes"

  /** A value held in the request's locals: the verified payload, or a value
      of some other type stored under the same key. */
  datatype Local = AuthUser(payload: AuthService.JwtPayload) | Foreign(description: string)

  /** The parts of a `fiber.Ctx` the middleware reads and writes: the header
      and cookie ("" when absent), the locals, and whether `Next` was called. */
  class Ctx {
    const authorization: string
    const accessTokenCookie: string
    var locals: map<string, Local>
    var nextCalled: bool

    constructor (authorization: string, accessTokenCookie: string, locals: map<string, Local>)
      ensures this.authorization == authorization && this.accessTokenCookie == accessTokenCookie
      ensures this.locals == locals && !nextCalled
    {
      this.authorization := authorization;
      this.accessTokenCookie := accessTokenCookie;
      this.locals := locals;
      nextCalled := false;
    }
  }

  /** The token the middleware hands to `Verify`, or `None` when the request
      carries neither a header nor a cookie. */
  function ChosenToken(authorization: string, cookie: string): (t: Option<string>)
    ensures t.None? <==> authorization == "" && cookie == ""
    ensures authorization != "" ==> t == Some(TrimPrefix(authorization, BearerPrefix))
    ensures authorization == "" && cookie != "" ==> t == Some(TrimPrefix(cookie, BearerPrefix))
  {
    var bearer := if authorization == "" then cookie else authorization;
    if bearer == "" then None else Some(TrimPrefix(bearer, BearerPrefix))
  }

  /** `Middleware`: no token, or one that does not verify, is
      `fiber.ErrUnauthorized` and nothing changes; a verified token's payload
      is stored under "auth_user" and `Next` is called. */
  method Middleware(c: Ctx, verify: string -> Result<AuthService.JwtPayload, string>) returns (err: Option<FiberError>)
    modifies c
    ensures var t := ChosenToken(c.authorization, c.accessTokenCookie);
            if t.None? || verify(t.value).Err? then
              err == Some(ErrUnauthorized) && c.locals == old(c.locals) && c.nextCalled == old(c.nextCalled)
            else
              err.None? && c.locals == old(c.locals)[AuthUserKey := AuthUser(verify(t.value).value)] && c.nextCalled
    ensures err.None? ==> GetUserFromContext(c) == Ok(verify(ChosenToken(c.authorization, c.accessTokenCookie).value).value)
  {
    var bearer := c.authorization;
    if bearer == "" {
      bearer := c.accessTokenCookie;
    }
    if bearer == "" {
      return Some(ErrUnauthorized);
    }
    var accessToken := TrimPrefix(bearer, BearerPrefix);
    var payload := verify(accessToken);
    if payload.Err? {
      return Some(ErrUnauthorized);
    }
    c.locals := c.locals[AuthUserKey := AuthUser(payload.value)];
    c.nextCalled := true;
    return None;
  }

  /** `GetUserFromContext`: the payload stored under "auth_user"; an absent
      value, or one of another type, is an error. */
  function GetUserFromContext(c: Ctx): (r: Result<AuthService.JwtPayload, string>)
    reads c
    ensures r.Ok? <==> AuthUserKey in c.locals && c.locals[AuthUserKey].AuthUser?
    ensures r.Ok? ==> c.locals[AuthUserKey] == AuthUser(r.value)
    ensures r.Err? ==> r.error == NotProtected
  {
    if AuthUserKey !in c.locals then Err(NotProtected)
    else
      match c.locals[AuthUserKey]
      case AuthUser(payload) => Ok(payload)
      case Foreign(_) => Err(NotProtected)
  }

  /** A header consisting of the bare prefix hides the cookie: the empty token
      goes to `Verify`. */
  lemma BareBearerHeader(cookie: string)
    ensures ChosenToken(BearerPrefix, cookie) == Some("")
  {
    assert HasPrefix(BearerPrefix, BearerPrefix);
  }

  /** A cookie holding a bearer string is read as the token after it. */
  lemma BearerCookie(token: string)
    ensures ChosenToken("", BearerPrefix + token) == Some(token)
  {
    assert (BearerPrefix + token)[..|BearerPrefix|] == BearerPrefix;
  }

  /** A rejected request is answered 401 by the auth service's error handler. */
  lemma RejectionAnsweredUnauthorized(err: Option<FiberError>)
    requires err == Some(ErrUnauthorized)
    ensures ErrorHandler.HandleError(ErrorHandler.Fiber(err.value)).status == 401
    ensures ErrorHandler.HandleError(ErrorHandler.Fiber(err.value)).messageKey == "errors.401"
  {
    ErrorHandler.UnauthorizedReply();
  }
}
