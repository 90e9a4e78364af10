/** The product service's authentication middleware. It differs from the
    auth service's in the order of its steps: the "Bearer " prefix is dropped
    from the header first, and the `access_token` cookie, taken as it is, is
    used whenever what is left is empty. The payload type of the product
    service's JWT manager is a type parameter, and verification is the
    `verify` input. */
module ProductAuthn {
  import opened Common
  import AuthAuthn

  const AuthUserKey: string := "auth_user"
  const BearerPrefix: string := "Bearer "
  const NotProtected: string := "AuthenticatedUser is only available for protected routes"

  /** A value held in the request's locals: the verified payload, or a value
      of some other type stored under the same key. */
  datatype Local<P> = AuthUser(payload: P) | Foreign(description: string)

  /** The parts of a `fiber.Ctx` the middleware reads and writes. */
  class Ctx<P> {
    const authorization: string
    const accessTokenCookie: string
    var locals: map<string, Local<P>>
    var nextCalled: bool

    constructor (authorization: string, accessTokenCookie: string, locals: map<string, Local<P>>)
      ensures this.authorization == authorization && this.accessTokenCookie == accessTokenCookie
      ensures this.locals == locals && !nextCalled
    {
      this.authorization := authorization;
      this.accessTokenCookie := accessTokenCookie;
      this.locals := locals;
      nextCalled := false;
    }
  }

  /** The token the middleware hands to `Verify`, or `None` when both the
      stripped header and the cookie are empty. */
  function ChosenToken(authorization: string, cookie: string): (t: Option<string>)
    ensures t.None? <==> TrimPrefix(authorization, BearerPrefix) == "" && cookie == ""
    ensures TrimPrefix(authorization, BearerPrefix) != "" ==> t == Some(TrimPrefix(authorization, BearerPrefix))
    ensures TrimPrefix(authorization, BearerPrefix) == "" && cookie != "" ==> t == Some(cookie)
  {
    var accessToken := TrimPrefix(authorization, BearerPrefix);
    var token := if accessToken == "" then cookie else accessToken;
    if token == "" then None else Some(token)
  }

  /** `Middleware`: no token, or one that does not verify, is
      `fiber.ErrUnauthorized` and nothing changes; a verified token's payload
      is stored under "auth_user" and `Next` is called. */
  method Middleware<P>(c: Ctx<P>, verify: string -> Result<P, string>) returns (err: Option<FiberError>)
    modifies c
    ensures var t := ChosenToken(c.authorization, c.accessTokenCookie);
            if t.None? || verify(t.value).Err? then
              err == Some(ErrUnauthorized) && c.locals == old(c.locals) && c.nextCalled == old(c.nextCalled)
            else
              err.None? && c.locals == old(c.locals)[AuthUserKey := AuthUser(verify(t.value).value)] && c.nextCalled
    ensures err.None? ==> GetUserFromContext(c) == Ok(verify(ChosenToken(c.authorization, c.accessTokenCookie).value).value)
  {
    var bearer := c.authorization;
    var accessToken := TrimPrefix(bearer, BearerPrefix);
    if accessToken == "" {
      accessToken := c.accessTokenCookie;
    }
    if accessToken == "" {
      return Some(ErrUnauthorized);
    }
    var payload := verify(accessToken);
    if payload.Err? {
      return Some(ErrUnauthorized);
    }
    c.locals := c.locals[AuthUserKey := AuthUser(payload.value)];
    c.nextCalled := true;
    return None;
  }

  /** `GetUserFromContext`: the payload stored under "auth_user"; an absent
      value, or one of another type, is an error. */
  function GetUserFromContext<P>(c: Ctx<P>): (r: Result<P, string>)
    reads c
    ensures r.Ok? <==> AuthUserKey in c.locals && c.locals[AuthUserKey].AuthUser?
    ensures r.Ok? ==> c.locals[AuthUserKey] == AuthUser(r.value)
    ensures r.Err? ==> r.error == NotProtected
  {
    if AuthUserKey !in c.locals then Err(NotProtected)
    else
      match c.locals[AuthUserKey]
      case AuthUser(payload) => Ok(payload)
      case Foreign(_) => Err(NotProtected)
  }

  /** A header consisting of the bare prefix counts as no header: the cookie is used. */
  lemma BareBearerHeader(cookie: string)
    ensures ChosenToken(BearerPrefix, cookie) == (if cookie == "" then None else Some(cookie))
  {
    assert HasPrefix(BearerPrefix, BearerPrefix);
  }

  /** A header without the prefix is taken whole as the token. */
  lemma HeaderWithoutPrefix(authorization: string, cookie: string)
    requires authorization != "" && !HasPrefix(authorization, BearerPrefix)
    ensures ChosenToken(authorization, cookie) == Some(authorization)
  {
  }

  /** The two services choose the same token whenever the header carries a
      token after its prefix, but part ways on a bare "Bearer " header with a
      cookie set, and on a cookie holding a bearer string: the auth service
      strips the cookie, the product service does not. */
  lemma ServicesDisagree(authorization: string, cookie: string)
    requires TrimPrefix(authorization, BearerPrefix) != ""
    ensures ChosenToken(authorization, cookie) == AuthAuthn.ChosenToken(authorization, cookie)
    ensures ChosenToken(BearerPrefix, "t") == Some("t") && AuthAuthn.ChosenToken(BearerPrefix, "t") == Some("")
    ensures ChosenToken("", BearerPrefix + "t") == Some(BearerPrefix + "t")
    ensures AuthAuthn.ChosenToken("", BearerPrefix + "t") == Some("t")
  {
    assert authorization != "";
    BareBearerHeader("t");
    AuthAuthn.BareBearerHeader("t");
    AuthAuthn.BearerCookie("t");
  }
}
