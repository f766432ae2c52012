/**
 * The session guard in front of `/api/auth/me` (`middleware.JWTAuth`): the
 * `Authorization` header must be `Bearer <token>` with a token the
 * `AuthService` accepts; otherwise the request ends with a 401 and the next
 * handler never runs.
 */
module JwtMiddleware {
  import opened Wrappers
  import opened Models
  import opened Errors
  import opened Jwt
  import opened Store
  import opened Urls
  import opened Http
  import AuthService
  import OAuthService
  import OAuthHandlers
  import AuthHandlers

  /** `c.Abort()` after a reply, or `c.Set("userID", id)` then `c.Next()`. */
  datatype Outcome = Abort(reply: Reply) | Next(userId: nat)

  /** `strings.SplitN(header, " ", 2)`. */
  function SplitFirstSpace(header: string): (parts: seq<string>)
    ensures |parts| == 1 || |parts| == 2
    ensures |parts| == 1 <==> ' ' !in header
    ensures |parts| == 1 ==> parts[0] == header
    ensures |parts| == 2 ==> ' ' !in parts[0] && header == parts[0] + " " + parts[1]
  {
    var i := IndexOf(header, ' ');
    if i == |header| then [header]
    else
      assert header == header[..i] + " " + header[i + 1..];
      [header[..i], header[i + 1..]]
  }

  /** The header starts with the case-sensitive scheme `Bearer` and one space. */
  predicate HasBearerScheme(header: string) {
    |header| >= 7 && header[..7] == "Bearer "
  }

  /** A header with the bearer scheme splits into `Bearer` and everything after the first space. */
  lemma BearerSchemeSplits(header: string)
    requires HasBearerScheme(header)
    ensures SplitFirstSpace(header) == ["Bearer", header[7..]]
  {
    var rest := header[6..];
    assert header == "Bearer" + rest;
    IndexOfConcat("Bearer", rest, ' ');
    assert rest[0] == ' ';
    assert IndexOf(header, ' ') == 6;
  }

  /** A header that splits into `Bearer` and a remainder has the bearer scheme. */
  lemma SplitMeansBearerScheme(header: string)
    requires var parts := SplitFirstSpace(header); |parts| == 2 && parts[0] == "Bearer"
    ensures HasBearerScheme(header)
  {
    var parts := SplitFirstSpace(header);
    assert header == parts[0] + " " + parts[1];
    assert header[..7] == (parts[0] + " " + parts[1])[..7];
  }

  /** The format check passes exactly for headers with the bearer scheme, and the token is everything after it. */
  lemma SplitBearer(header: string)
    ensures var parts := SplitFirstSpace(header);
      (|parts| == 2 && parts[0] == "Bearer") <==> HasBearerScheme(header)
    ensures HasBearerScheme(header) ==> SplitFirstSpace(header) == ["Bearer", header[7..]]
  {
    var parts := SplitFirstSpace(header);
    if HasBearerScheme(header) {
      BearerSchemeSplits(header);
    } else if |parts| == 2 && parts[0] == "Bearer" {
      SplitMeansBearerScheme(header);
    }
  }

  /** `JWTAuth(authService)` applied to one request's `Authorization` header. */
  function JWTAuth(s: AuthService.AuthService, header: string): (r: Outcome)
    ensures header == "" ==> r == Abort(Fail(StatusUnauthorized, "缺少认证令牌", None))
    ensures r.Abort? ==> r.reply.Json? && r.reply.status == StatusUnauthorized && !r.reply.body.success
    ensures r.Next? <==> HasBearerScheme(header) && AuthService.ValidateToken(s, header[7..]).Ok?
    ensures r.Next? ==> HasBearerScheme(header) && r.userId == AuthService.ValidateToken(s, header[7..]).value
  {
    if header == "" then Abort(Fail(StatusUnauthorized, "缺少认证令牌", None))
    else
      var parts := SplitFirstSpace(header);
      SplitBearer(header);
      if |parts| != 2 || parts[0] != "Bearer" then Abort(Fail(StatusUnauthorized, "认证令牌格式错误", None))
      else match AuthService.ValidateToken(s, parts[1])
        case Err(e) => Abort(Fail(StatusUnauthorized, "无效的认证令牌", Some(e)))
        case Ok(userId) => Next(userId)
  }

  /**
   * The token is all that follows `Bearer `, further spaces included, and
   * an empty one is handed to validation rather than refused as malformed;
   * the scheme is case-sensitive.
   */
  lemma BearerTokenVerbatim(s: AuthService.AuthService, t: string)
    ensures JWTAuth(s, "Bearer " + t) ==
      match AuthService.ValidateToken(s, t)
      case Err(e) => Abort(Fail(StatusUnauthorized, "无效的认证令牌", Some(e)))
      case Ok(userId) => Next(userId)
    ensures JWTAuth(s, "bearer " + t) == Abort(Fail(StatusUnauthorized, "认证令牌格式错误", None))
  {
    var h := "Bearer " + t;
    SplitBearer(h);
    assert h[..7] == "Bearer " && h[7..] == t;
    var h' := "bearer " + t;
    assert h' == "bearer" + (" " + t);
    IndexOfConcat("bearer", " " + t, ' ');
    assert SplitFirstSpace(h')[0] == "bearer";
  }

  /**
   * `GET /api/auth/me` as the router chains it: the middleware, then
   * `GetCurrentUser` with the id it stored.
   */
  function CurrentUserRoute(s: AuthService.AuthService, users: seq<User>, header: string): (r: Reply)
    ensures JWTAuth(s, header).Abort? ==> r == JWTAuth(s, header).reply && r.status == StatusUnauthorized
    ensures JWTAuth(s, header).Next? ==> r == AuthHandlers.GetCurrentUser(users, Some(JWTAuth(s, header).userId))
  {
    match JWTAuth(s, header)
    case Abort(reply) => reply
    case Next(userId) => AuthHandlers.GetCurrentUser(users, Some(userId))
  }

  /**
   * End to end: the token of a successful login, sent back as a bearer
   * header, gets the public view of the user who logged in.
   */
  lemma LoginSessionReachesMe(s: AuthService.AuthService, users: seq<User>, req: AuthService.LoginRequest,
                              passwordMatches: (string, string) -> bool, now: Time)
    requires UsersWellKeyed(users)
    requires AuthService.Login(s, users, req, passwordMatches, now).Ok?
    requires var u := UserByEmail(users, req.email).value;
      s.keys.verify(s.keys.sign(AuthService.SessionClaims(u.id, now, s.jwtExpire)))
      == Some(AuthService.SessionClaims(u.id, now, s.jwtExpire))
    ensures var resp := AuthService.Login(s, users, req, passwordMatches, now).value;
      CurrentUserRoute(s, users, "Bearer " + resp.token) == Succeed(StatusOK, "获取成功", UserData(resp.user))
  {
    var resp := AuthService.Login(s, users, req, passwordMatches, now).value;
    var u := UserByEmail(users, req.email).value;
    AuthService.LoginTokenValidates(s, users, req, passwordMatches, now);
    BearerTokenVerbatim(s, resp.token);
    UserByIdOfRow(users, u);
  }

  /**
   * The two kinds of token are told apart in one direction only: an OAuth
   * access token carries a numeric `user_id`, so the session check accepts
   * it, while a session token has no `type` and the access-token check
   * refuses it.
   */
  lemma TokenKindsCrossCheck(userId: nat, clientId: string, now: Time, expire: Duration)
    ensures AuthService.ValidateTokenClaims(OAuthService.AccessTokenClaims(userId, clientId, now, expire)) == Ok(userId)
    ensures OAuthService.ValidateAccessTokenClaims(AuthService.SessionClaims(userId, now, expire)).Err?
  {
  }

  /** Hence an OAuth access token, verified with the same keys, opens a session at the middleware. */
  lemma AccessTokenOpensSession(s: AuthService.AuthService, token: string, userId: nat, clientId: string,
                                now: Time, expire: Duration)
    requires s.keys.verify(token) == Some(OAuthService.AccessTokenClaims(userId, clientId, now, expire))
    ensures JWTAuth(s, "Bearer " + token) == Next(userId)
  {
    TokenKindsCrossCheck(userId, clientId, now, expire);
    BearerTokenVerbatim(s, token);
  }

  /**
   * The userinfo endpoint and the middleware read a bearer header alike,
   * except for `Bearer ` with nothing after it: the endpoint finds no token,
   * the middleware validates the empty one.
   */
  lemma HeaderReadingsAgree(s: AuthService.AuthService, t: string)
    ensures t != "" ==> OAuthHandlers.ExtractToken("", "Bearer " + t) == t && SplitFirstSpace("Bearer " + t)[1] == t
    ensures OAuthHandlers.ExtractToken("", "Bearer ") == ""
    ensures JWTAuth(s, "Bearer ").Next? <==> AuthService.ValidateToken(s, "").Ok?
  {
    OAuthHandlers.ExtractTokenCases("", "", t);
    SplitBearer("Bearer " + t);
    assert ("Bearer " + t)[7..] == t;
    BearerTokenVerbatim(s, "");
    assert "Bearer " + "" == "Bearer ";
  }
}
