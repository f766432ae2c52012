/**
 * The three OAuth endpoints (`handlers.OAuthHandler`): `GET /oauth/authorize`
 * issues a code and redirects back to the client, `POST /oauth/token`
 * exchanges it for an access token, `GET /oauth/userinfo` resolves that token
 * to a user.  Each answers with exactly one reply.
 */
module OAuthHandlers {
  import opened Wrappers
  import opened Models
  import opened Errors
  import opened Store
  import opened Urls
  import opened Http
  import opened OAuthService

  type Values = map<string, seq<string>>

  // ---------------------------------------------------------------- authorize

  datatype AuthorizeRequest = AuthorizeRequest(clientId: string, redirectURI: string, responseType: string, state: string)

  /** `ShouldBindQuery` into `AuthorizeRequest`: `client_id`, `redirect_uri` and `response_type` are required. */
  function BindAuthorize(query: Values): (r: Result<AuthorizeRequest, string>)
    ensures r.Ok? <==> Param(query, "client_id") != "" && Param(query, "redirect_uri") != ""
                       && Param(query, "response_type") != ""
    ensures r.Ok? ==> r.value == AuthorizeRequest(Param(query, "client_id"), Param(query, "redirect_uri"),
                                                  Param(query, "response_type"), Param(query, "state"))
  {
    var req := AuthorizeRequest(Param(query, "client_id"), Param(query, "redirect_uri"),
                                Param(query, "response_type"), Param(query, "state"));
    var fields := [("ClientID", req.clientId), ("RedirectURI", req.redirectURI), ("ResponseType", req.responseType)];
    assert (forall k :: 0 <= k < |fields| ==> fields[k].1 != "") <==>
           req.clientId != "" && req.redirectURI != "" && req.responseType != "" by {
      assert fields[0].1 == req.clientId && fields[1].1 == req.redirectURI && fields[2].1 == req.responseType;
    }
    var missing := RequiredCheck("AuthorizeRequest", fields);
    if missing.Some? then Err(missing.value) else Ok(req)
  }

  /** The client is registered and the redirect URI is its registered one. */
  ghost predicate AuthorizeAccepted(clients: map<string, OAuthClient>, req: AuthorizeRequest) {
    req.responseType == "code" && req.clientId in clients && clients[req.clientId].redirectURI == req.redirectURI
  }

  /**
   * Steps 1 to 5 of `Authorize`: binding, response type, client, redirect
   * URI, logged-in user, in that order.  Either the reply that ends the
   * request, or the request and the user to issue a code for.
   */
  function AuthorizeCheck(clients: map<string, OAuthClient>, query: Values, userId: Option<nat>)
    : (r: Result<(AuthorizeRequest, nat), Reply>)
    ensures BindAuthorize(query).Err? ==> r == Err(BindFail(BindAuthorize(query).error))
    ensures BindAuthorize(query).Ok? && BindAuthorize(query).value.responseType != "code" ==>
              r == Err(Fail(StatusBadRequest, "不支持的响应类型", None))
    ensures r.Err? ==> r.error.Json? && !r.error.body.success
    ensures r.Err? && r.error.status == StatusUnauthorized <==>
              BindAuthorize(query).Ok? && AuthorizeAccepted(clients, BindAuthorize(query).value) && userId.None?
    ensures r.Err? && r.error.status != StatusUnauthorized ==> r.error.status == StatusBadRequest
    ensures r.Ok? <==> BindAuthorize(query).Ok? && AuthorizeAccepted(clients, BindAuthorize(query).value) && userId.Some?
    ensures r.Ok? ==> r.value == (BindAuthorize(query).value, userId.value)
  {
    match BindAuthorize(query)
    case Err(e) => Err(BindFail(e))
    case Ok(req) =>
      if req.responseType != "code" then Err(Fail(StatusBadRequest, "不支持的响应类型", None))
      else match ValidateClientID(clients, req.clientId)
        case Err(e) => Err(Fail(StatusBadRequest, "无效的客户端", Some(e)))
        case Ok(client) =>
          match ValidateRedirectURI(client, req.redirectURI)
          case Some(e) => Err(Fail(StatusBadRequest, "重定向URI不匹配", Some(e)))
          case None =>
            if userId.None? then Err(Fail(StatusUnauthorized, "请先登录", None))
            else Ok((req, userId.value))
  }

  /**
   * Where a successful `Authorize` sends the user: the client's redirect URI
   * with `code` set and, when the request carried one, `state` set (section
   * 4.1.2 of RFC 6749); every other parameter of the URI is kept.
   */
  function CodeRedirect(redirectURI: string, code: string, state: string): (u: Url)
    ensures var given := ParseUrl(redirectURI);
      && u.base == given.base
      && "code" in u.query && u.query["code"] == [code]
      && (state != "" ==> "state" in u.query && u.query["state"] == [state])
      && (state == "" ==> ("state" in u.query <==> "state" in given.query)
                          && ("state" in given.query ==> u.query["state"] == given.query["state"]))
      && (forall k :: k != "code" && k != "state" ==> (k in u.query <==> k in given.query))
      && (forall k :: k != "code" && k != "state" && k in given.query ==> u.query[k] == given.query[k])
  {
    var withCode := SetParam(ParseUrl(redirectURI), "code", code);
    if state != "" then SetParam(withCode, "state", state) else withCode
  }

  /**
   * `Authorize`.  No code is generated unless every check passes; `random`
   * is the draw of `crypto/rand` (`None` when it fails).
   */
  method Authorize(db: Database, query: Values, userId: Option<nat>, random: Option<seq<Byte>>, now: Time)
    returns (reply: Reply)
    requires db.Valid()
    requires random.Some? ==> |random.value| == 32
    modifies db`codes
    ensures db.Valid()
    ensures var check := AuthorizeCheck(old(db.clients), query, userId);
      check.Err? ==> reply == check.error && db.codes == old(db.codes)
    ensures var check := AuthorizeCheck(old(db.clients), query, userId);
      check.Ok? && random.None? ==>
        reply.Json? && reply.status == StatusInternalServerError && db.codes == old(db.codes)
    ensures var check := AuthorizeCheck(old(db.clients), query, userId);
      check.Ok? && random.Some? ==>
        var req := check.value.0;
        var code := HexEncode(random.value);
        && (code in old(db.codes) ==>
              reply.Json? && reply.status == StatusInternalServerError && db.codes == old(db.codes))
        && (code !in old(db.codes) ==>
              && reply == Redirect(StatusFound, CodeRedirect(req.redirectURI, code, req.state))
              && db.codes == old(db.codes)[code := NewCodeRecord(code, req.clientId, check.value.1, req.redirectURI, now)])
  {
    // 1-5. binding, response type, client, redirect URI, user
    var check := AuthorizeCheck(db.clients, query, userId);
    if check.Err? {
      return check.error;
    }
    var req := check.value.0;
    // 6. the code
    var generated := GenerateAuthorizationCode(db, req.clientId, check.value.1, req.redirectURI, random, now);
    if generated.Err? {
      return Fail(StatusInternalServerError, "生成授权码失败", Some(generated.error));
    }
    // 7. the redirect
    var location := ParseUrl(req.redirectURI);
    location := SetParam(location, "code", generated.value);
    if req.state != "" {
      location := SetParam(location, "state", req.state);
    }
    reply := Redirect(StatusFound, location);
  }

  /** An unsupported response type is refused whoever is logged in and whatever clients exist. */
  lemma ResponseTypeCheckedFirst(clients: map<string, OAuthClient>, clients': map<string, OAuthClient>,
                                 query: Values, userId: Option<nat>, userId': Option<nat>)
    requires BindAuthorize(query).Ok? && BindAuthorize(query).value.responseType != "code"
    ensures AuthorizeCheck(clients, query, userId) == AuthorizeCheck(clients', query, userId')
    ensures AuthorizeCheck(clients, query, userId).error.status == StatusBadRequest
  {
  }

  // ---------------------------------------------------------------- token

  datatype TokenRequest = TokenRequest(grantType: string, code: string, redirectURI: string,
                                       clientId: string, clientSecret: string)

  /** `ShouldBind` into `TokenRequest`: all five fields are required. */
  function BindToken(form: Values): (r: Result<TokenRequest, string>)
    ensures r.Ok? <==> Param(form, "grant_type") != "" && Param(form, "code") != "" && Param(form, "redirect_uri") != ""
                       && Param(form, "client_id") != "" && Param(form, "client_secret") != ""
    ensures r.Ok? ==> r.value == TokenRequest(Param(form, "grant_type"), Param(form, "code"), Param(form, "redirect_uri"),
                                              Param(form, "client_id"), Param(form, "client_secret"))
  {
    var req := TokenRequest(Param(form, "grant_type"), Param(form, "code"), Param(form, "redirect_uri"),
                            Param(form, "client_id"), Param(form, "client_secret"));
    var fields := [("GrantType", req.grantType), ("Code", req.code), ("RedirectURI", req.redirectURI),
                   ("ClientID", req.clientId), ("ClientSecret", req.clientSecret)];
    assert (forall k :: 0 <= k < |fields| ==> fields[k].1 != "") <==>
           req.grantType != "" && req.code != "" && req.redirectURI != "" && req.clientId != "" && req.clientSecret != "" by {
      assert fields[0].1 == req.grantType && fields[1].1 == req.code && fields[2].1 == req.redirectURI;
      assert fields[3].1 == req.clientId && fields[4].1 == req.clientSecret;
    }
    var missing := RequiredCheck("TokenRequest", fields);
    if missing.Some? then Err(missing.value) else Ok(req)
  }

  /** Steps 1 and 2 of `Token`: binding, then the grant type; the exchange is only reached past both. */
  function TokenCheck(form: Values): (r: Result<TokenRequest, Reply>)
    ensures BindToken(form).Err? ==> r == Err(BindFail(BindToken(form).error))
    ensures r.Err? ==> r.error.Json? && r.error.status == StatusBadRequest
    ensures r.Ok? <==> BindToken(form).Ok? && BindToken(form).value.grantType == "authorization_code"
    ensures r.Ok? ==> r.value == BindToken(form).value && r.value.code != "" && r.value.clientId != ""
  {
    match BindToken(form)
    case Err(e) => Err(BindFail(e))
    case Ok(req) =>
      if req.grantType != "authorization_code" then Err(Fail(StatusBadRequest, "不支持的授权类型", None))
      else Ok(req)
  }

  /** The four sentinels the exchange can return, and how `Token` reports them. */
  function TokenError(e: ServiceError): (r: Reply)
    ensures r.Json? && !r.body.success && r.body.error == ErrorText(e)
    ensures r.status == StatusUnauthorized <==> e == InvalidClient
    ensures r.status == StatusBadRequest <==>
              e == InvalidRedirectURI || e == InvalidAuthorizationCode || e == AuthorizationCodeUsed
    ensures r.status == StatusInternalServerError <==>
              !(e == InvalidClient || e == InvalidRedirectURI || e == InvalidAuthorizationCode || e == AuthorizationCodeUsed)
  {
    match e
    case InvalidClient => Fail(StatusUnauthorized, "无效的客户端", Some(e))
    case InvalidRedirectURI => Fail(StatusBadRequest, "重定向URI不匹配", Some(e))
    case InvalidAuthorizationCode => Fail(StatusBadRequest, "无效的授权码", Some(e))
    case AuthorizationCodeUsed => Fail(StatusBadRequest, "无效的授权码", Some(e))
    case _ => Fail(StatusInternalServerError, "交换Token失败", Some(e))
  }

  /** `int64(d.Seconds())`: whole seconds, truncated toward zero. */
  function WholeSeconds(d: int): (n: int)
    ensures d >= 0 ==> 0 <= n && n * Second <= d < n * Second + Second
    ensures d < 0 ==> n <= 0 && d < n * Second + Second && n * Second <= d + Second - 1
  {
    if d >= 0 then d / Second else -((-d) / Second)
  }

  /**
   * `Token`.  The reply's `expires_in` is the lifetime of the stored token,
   * `ExpiresAt - CreatedAt` in whole seconds.  `ExpiresAt` is `now +
   * jwtExpire`, but `CreatedAt` is GORM's later clock reading `created`, so
   * the lifetime falls short of `jwtExpire` by the time between the two
   * readings (see `ExpiresInOfHours`).
   */
  method Token(s: OAuthService, db: Database, form: Values, now: Time, created: Time, saveSucceeds: bool)
    returns (reply: Reply)
    requires db.Valid()
    requires now <= created
    modifies db`codes, db`tokens
    ensures db.Valid()
    ensures TokenCheck(form).Err? ==>
              reply == TokenCheck(form).error && db.codes == old(db.codes) && db.tokens == old(db.tokens)
    ensures TokenCheck(form).Ok? ==>
      var req := TokenCheck(form).value;
      var check := ExchangeCheck(old(db.clients), old(db.codes), req.code, req.clientId, req.clientSecret, req.redirectURI, now);
      check.Err? ==> reply == TokenError(check.error) && db.codes == old(db.codes) && db.tokens == old(db.tokens)
    ensures TokenCheck(form).Ok? ==>
      var req := TokenCheck(form).value;
      var check := ExchangeCheck(old(db.clients), old(db.codes), req.code, req.clientId, req.clientSecret, req.redirectURI, now);
      check.Ok? ==>
        var tok := s.keys.sign(AccessTokenClaims(check.value.userId, req.clientId, now, s.jwtExpire));
        && db.codes == (if saveSucceeds then old(db.codes)[req.code := check.value.(used := true)] else old(db.codes))
        && (tok in old(db.tokens) ==>
              reply.Json? && reply.status == StatusInternalServerError && db.tokens == old(db.tokens))
        && (tok !in old(db.tokens) ==>
              && db.tokens == old(db.tokens)[tok := AccessToken(tok, req.clientId, check.value.userId, now + s.jwtExpire, created)]
              && reply == TokenJson(StatusOK, TokenResponse(tok, "Bearer",
                                      WholeSeconds(db.tokens[tok].expiresAt - db.tokens[tok].createdAt))))
  {
    // 1-2. binding, grant type
    var check := TokenCheck(form);
    if check.Err? {
      return check.error;
    }
    var req := check.value;
    // 3. the exchange
    var accessToken := ExchangeAuthorizationCode(s, db, req.code, req.clientId, req.clientSecret, req.redirectURI,
                                                 now, created, saveSucceeds);
    if accessToken.Err? {
      return TokenError(accessToken.error);
    }
    // 4. the reply
    var expiresIn := WholeSeconds(accessToken.value.expiresAt - accessToken.value.createdAt);
    reply := TokenJson(StatusOK, TokenResponse(accessToken.value.token, "Bearer", expiresIn));
  }

  /**
   * The `expires_in` of an expiry of `hours` hours, when GORM's clock reads
   * `created` against `now` for `ExpiresAt`: one second short of the
   * configuration whenever the two readings differ by less than a second,
   * so 86399 with the default one day; only equal readings give 3600 per hour.
   */
  lemma ExpiresInOfHours(hours: nat, now: Time, created: Time)
    requires hours >= 1 && now <= created
    ensures now < created < now + Second ==> WholeSeconds(now + hours * Hour - created) == 3600 * hours - 1
    ensures created == now ==> WholeSeconds(now + hours * Hour - created) == 3600 * hours
  {
  }

  // ---------------------------------------------------------------- userinfo

  /** `Authorization: Bearer <token>` with a non-empty token, as `UserInfo` reads the header. */
  predicate HasBearerToken(header: string) {
    |header| > 7 && header[..7] == "Bearer "
  }

  /**
   * The token `UserInfo` uses: the `access_token` query value when it is
   * non-empty (section 2.3 of RFC 6750), else the rest of a bearer
   * header (section 2.1).
   */
  function ExtractToken(queryToken: string, header: string): string {
    if queryToken != "" then queryToken
    else if HasBearerToken(header) then header[7..]
    else ""
  }

  /**
   * The query parameter wins over the header; a header `Bearer <t>` yields
   * exactly `t`; the scheme is case-sensitive; and a token is found exactly
   * when one of the two places holds a non-empty one.
   */
  lemma ExtractTokenCases(queryToken: string, header: string, t: string)
    ensures queryToken != "" ==> ExtractToken(queryToken, header) == queryToken
    ensures ExtractToken("", "Bearer " + t) == t
    ensures ExtractToken("", "bearer " + t) == ""
    ensures ExtractToken(queryToken, header) == "" <==> queryToken == "" && !HasBearerToken(header)
  {
    assert ("Bearer " + t)[..7] == "Bearer ";
    assert ("Bearer " + t)[7..] == t;
    assert ("bearer " + t)[..7] == "bearer ";
  }

  /**
   * `UserInfo`: 400 without a token, 401 when the token does not resolve to
   * a user, else 200 with the user's public view.
   */
  function UserInfo(s: OAuthService, users: seq<User>, query: Values, header: string): (r: Reply)
    ensures r.Json?
    ensures var t := ExtractToken(Param(query, "access_token"), header);
      && (r.status == StatusBadRequest <==> t == "")
      && (r.status == StatusOK <==>
            t != "" && ValidateAccessToken(s, t).Ok? && UserById(users, ValidateAccessToken(s, t).value.0).Some?)
      && (r.status == StatusUnauthorized <==> t != "" && r.status != StatusOK)
      && (r.status == StatusOK ==>
            exists u :: u in users && u.id == ValidateAccessToken(s, t).value.0
                        && r == Succeed(StatusOK, "获取成功", UserData(UserToResponse(u))))
  {
    var token := ExtractToken(Param(query, "access_token"), header);
    if token == "" then Fail(StatusBadRequest, "缺少 access_token", None)
    else match GetUserInfo(s, users, token)
      case Err(e) => Fail(StatusUnauthorized, "无效的 Token", Some(e))
      case Ok(u) => Succeed(StatusOK, "获取成功", UserData(UserToResponse(u)))
  }

  /**
   * End to end: an issued access token, presented in the query or as a
   * bearer header, gets the public view of the user the code was issued for.
   */
  lemma UserInfoServesIssuedToken(s: OAuthService, users: seq<User>, t: AccessToken, now: Time)
    requires UsersWellKeyed(users) && 1 <= t.userId <= |users| && t.token != ""
    requires s.keys.verify(t.token) == Some(AccessTokenClaims(t.userId, t.clientId, now, s.jwtExpire))
    ensures var expected := Succeed(StatusOK, "获取成功", UserData(UserToResponse(users[t.userId - 1])));
      && UserInfo(s, users, map["access_token" := [t.token]], "") == expected
      && UserInfo(s, users, map[], "Bearer " + t.token) == expected
  {
    ExchangedTokenResolvesToUser(s, users, t, now);
    ExtractTokenCases("", "", t.token);
  }
}
