/**
 * The authorization server's grant logic (`service.OAuthService`): client
 * and redirect-URI checks, issuing an authorization code, exchanging it once
 * for an access token (section 4.1 of RFC 6749), and resolving an access
 * token to its user.
 */
module OAuthService {
  import opened Wrappers
  import opened Models
  import opened Errors
  import opened Jwt
  import opened Store

  /** The service's configuration: the JWT keys and `jwtExpire = expireHours * time.Hour`. */
  datatype OAuthService = OAuthService(keys: Keys, jwtExpire: Duration)

  /** Authorization codes live ten minutes. */
  const CodeLifetime: Duration := 10 * Minute

  // ---------------------------------------------------------------- hex codes

  newtype Byte = x: int | 0 <= x < 256

  const HexDigits: string := "0123456789abcdef"

  /** `hex.EncodeToString`: two lower-case digits per byte, high nibble first. */
  function HexEncode(b: seq<Byte>): (s: string)
    ensures |s| == 2 * |b|
    ensures forall k :: 0 <= k < |s| ==> s[k] in HexDigits
  {
    if b == [] then []
    else [HexDigits[b[0] as int / 16], HexDigits[b[0] as int % 16]] + HexEncode(b[1..])
  }

  function HexDigitValue(c: char): Option<nat> {
    if '0' <= c <= '9' then Some(c as int - '0' as int)
    else if 'a' <= c <= 'f' then Some(c as int - 'a' as int + 10)
    else None
  }

  /** The inverse of `HexEncode` on lower-case digit strings of even length. */
  function HexDecode(s: string): Option<seq<Byte>>
    decreases |s|
  {
    if s == [] then Some([])
    else if |s| == 1 then None
    else match (HexDigitValue(s[0]), HexDigitValue(s[1]), HexDecode(s[2..]))
      case (Some(h), Some(l), Some(rest)) => Some([(16 * h + l) as Byte] + rest)
      case _ => None
  }

  lemma HexDigitRoundTrip(v: nat)
    requires v < 16
    ensures HexDigitValue(HexDigits[v]) == Some(v)
  {
  }

  /** Decoding a two-digit prefix. */
  lemma HexDecodeCons(hi: nat, lo: nat, rest: string)
    requires hi < 16 && lo < 16
    ensures var s := [HexDigits[hi], HexDigits[lo]] + rest;
      HexDecode(s) == if HexDecode(rest).Some? then Some([(16 * hi + lo) as Byte] + HexDecode(rest).value) else None
  {
    var s := [HexDigits[hi], HexDigits[lo]] + rest;
    HexDigitRoundTrip(hi);
    HexDigitRoundTrip(lo);
    assert s[0] == HexDigits[hi] && s[1] == HexDigits[lo] && s[2..] == rest;
  }

  lemma {:induction false} HexRoundTrip(b: seq<Byte>)
    ensures HexDecode(HexEncode(b)) == Some(b)
  {
    if b != [] {
      var hi, lo := b[0] as int / 16, b[0] as int % 16;
      HexRoundTrip(b[1..]);
      HexDecodeCons(hi, lo, HexEncode(b[1..]));
      assert [(16 * hi + lo) as Byte] + b[1..] == b;
    }
  }

  /** Distinct random draws give distinct codes. */
  lemma HexEncodeInjective(a: seq<Byte>, b: seq<Byte>)
    requires HexEncode(a) == HexEncode(b)
    ensures a == b
  {
    HexRoundTrip(a);
    HexRoundTrip(b);
  }

  // ---------------------------------------------------------------- client checks

  /** `ValidateClient`: the client row with that id whose secret also matches. */
  function ValidateClient(clients: map<string, OAuthClient>, clientId: string, clientSecret: string)
    : Result<OAuthClient, ServiceError>
  {
    if clientId in clients && clients[clientId].clientSecret == clientSecret then Ok(clients[clientId])
    else Err(InvalidClient)
  }

  /** `ValidateClientID`: the client row with that id. */
  function ValidateClientID(clients: map<string, OAuthClient>, clientId: string): Result<OAuthClient, ServiceError> {
    if clientId in clients then Ok(clients[clientId]) else Err(InvalidClient)
  }

  /** `ValidateRedirectURI`: nil when the URI matches, else `ErrInvalidRedirectURI`. */
  function ValidateRedirectURI(client: OAuthClient, redirectURI: string): Option<ServiceError> {
    if client.redirectURI != redirectURI then Some(InvalidRedirectURI) else None
  }

  /** Matching is exact string equality: no prefix matching, no normalisation. */
  lemma RedirectUriExactMatch(client: OAuthClient, redirectURI: string, suffix: string)
    ensures ValidateRedirectURI(client, redirectURI).None? <==> redirectURI == client.redirectURI
    ensures suffix != "" ==> ValidateRedirectURI(client, client.redirectURI + suffix) == Some(InvalidRedirectURI)
    ensures suffix != "" && |suffix| <= |client.redirectURI| ==>
              ValidateRedirectURI(client, client.redirectURI[..|client.redirectURI| - |suffix|]) == Some(InvalidRedirectURI)
  {
  }

  // ---------------------------------------------------------------- issuing codes

  /** The record `GenerateAuthorizationCode` stores for a fresh code. */
  function NewCodeRecord(code: string, clientId: string, userId: nat, redirectURI: string, now: Time): (c: AuthorizationCode)
    ensures c.code == code && c.clientId == clientId && c.userId == userId && c.redirectURI == redirectURI
    ensures forall t :: t >= now ==> (c.IsValid(t) <==> t <= now + CodeLifetime)
  {
    AuthorizationCode(code, clientId, userId, redirectURI, now + CodeLifetime, false, now)
  }

  /**
   * `GenerateAuthorizationCode`: 32 random bytes (`None` when the random
   * source fails) become a 64-digit hex code stored unused for ten minutes.
   * Inserting a code already in the table violates its unique index.
   */
  method GenerateAuthorizationCode(db: Database, clientId: string, userId: nat, redirectURI: string,
                                   random: Option<seq<Byte>>, now: Time)
    returns (r: Result<string, ServiceError>)
    requires db.Valid()
    requires random.Some? ==> |random.value| == 32
    modifies db`codes
    ensures db.Valid()
    ensures random.None? ==> r.Err? && r.error.Internal? && db.codes == old(db.codes)
    ensures random.Some? ==>
      var code := HexEncode(random.value);
      && |code| == 64
      && (code in old(db.codes) ==> r.Err? && r.error.Internal? && db.codes == old(db.codes))
      && (code !in old(db.codes) ==>
            r == Ok(code) && db.codes == old(db.codes)[code := NewCodeRecord(code, clientId, userId, redirectURI, now)])
  {
    if random.None? {
      return Err(Internal("生成授权码失败"));
    }
    var code := HexEncode(random.value);
    var authCode := NewCodeRecord(code, clientId, userId, redirectURI, now);
    if code in db.codes {
      return Err(Internal("保存授权码失败"));
    }
    db.codes := db.codes[code := authCode];
    r := Ok(code);
  }

  // ---------------------------------------------------------------- exchanging codes

  /** The requesting client is registered with that secret and that redirect URI. */
  ghost predicate ClientAccepted(clients: map<string, OAuthClient>, clientId: string, clientSecret: string, redirectURI: string) {
    clientId in clients && clients[clientId].clientSecret == clientSecret && clients[clientId].redirectURI == redirectURI
  }

  /** `WHERE code = ? AND client_id = ?`: a code is only found by the client it was issued to. */
  function LookupCode(codes: map<string, AuthorizationCode>, code: string, clientId: string): Option<AuthorizationCode> {
    if code in codes && codes[code].clientId == clientId then Some(codes[code]) else None
  }

  /**
   * Steps 1 to 4 of `ExchangeAuthorizationCode`: client, redirect URI, code
   * lookup, code validity, in that order; the first failure is the answer.
   * The redirect URI is compared with the client's registration, not with the
   * one stored in the code.
   */
  function ExchangeCheck(clients: map<string, OAuthClient>, codes: map<string, AuthorizationCode>,
                         code: string, clientId: string, clientSecret: string, redirectURI: string, now: Time)
    : (r: Result<AuthorizationCode, ServiceError>)
    ensures r.Err? ==> r.error in {InvalidClient, InvalidRedirectURI, InvalidAuthorizationCode, AuthorizationCodeUsed}
    ensures r == Err(InvalidClient) <==> !(clientId in clients && clients[clientId].clientSecret == clientSecret)
    ensures r == Err(InvalidRedirectURI) <==>
              clientId in clients && clients[clientId].clientSecret == clientSecret
              && clients[clientId].redirectURI != redirectURI
    ensures r == Err(AuthorizationCodeUsed) <==>
              ClientAccepted(clients, clientId, clientSecret, redirectURI)
              && code in codes && codes[code].clientId == clientId && codes[code].used
    ensures r.Ok? <==>
              ClientAccepted(clients, clientId, clientSecret, redirectURI)
              && code in codes && codes[code].clientId == clientId
              && !codes[code].used && now <= codes[code].expiresAt
    ensures r.Ok? ==> r.value == codes[code]
  {
    match ValidateClient(clients, clientId, clientSecret)
    case Err(e) => Err(e)
    case Ok(client) =>
      if ValidateRedirectURI(client, redirectURI).Some? then Err(InvalidRedirectURI)
      else match LookupCode(codes, code, clientId)
        case None => Err(InvalidAuthorizationCode)
        case Some(authCode) =>
          if !authCode.IsValid(now) then
            if authCode.used then Err(AuthorizationCodeUsed) else Err(InvalidAuthorizationCode)
          else Ok(authCode)
  }

  /**
   * A freshly issued code is redeemable, for its whole ten minutes, by the
   * client it was issued to presenting its secret and its registered URI.
   */
  lemma IssuedCodeExchangeable(clients: map<string, OAuthClient>, codes: map<string, AuthorizationCode>,
                               code: string, clientId: string, userId: nat, clientSecret: string,
                               redirectURI: string, issued: Time, now: Time)
    requires ClientAccepted(clients, clientId, clientSecret, redirectURI)
    requires issued <= now <= issued + CodeLifetime
    ensures var codes' := codes[code := NewCodeRecord(code, clientId, userId, redirectURI, issued)];
      ExchangeCheck(clients, codes', code, clientId, clientSecret, redirectURI, now)
      == Ok(NewCodeRecord(code, clientId, userId, redirectURI, issued))
  {
  }

  /** A code is only redeemable by the client it was issued to; anyone else is told it is invalid. */
  lemma CodeScopedToClient(clients: map<string, OAuthClient>, codes: map<string, AuthorizationCode>,
                           code: string, clientId: string, clientSecret: string, redirectURI: string, now: Time)
    requires ClientAccepted(clients, clientId, clientSecret, redirectURI)
    requires code in codes && codes[code].clientId != clientId
    ensures ExchangeCheck(clients, codes, code, clientId, clientSecret, redirectURI, now) == Err(InvalidAuthorizationCode)
  {
  }

  /** A used code is reported as used even when it has also expired; an unused expired code is merely invalid. */
  lemma UsedTakesPrecedence(clients: map<string, OAuthClient>, codes: map<string, AuthorizationCode>,
                            code: string, clientId: string, clientSecret: string, redirectURI: string, now: Time)
    requires ClientAccepted(clients, clientId, clientSecret, redirectURI)
    requires code in codes && codes[code].clientId == clientId && codes[code].IsExpired(now)
    ensures ExchangeCheck(clients, codes, code, clientId, clientSecret, redirectURI, now)
            == if codes[code].used then Err(AuthorizationCodeUsed) else Err(InvalidAuthorizationCode)
  {
  }

  /**
   * Single use (section 10.5 of RFC 6749): once a successful exchange has
   * marked the code used, every later exchange of it fails, whoever asks and
   * whenever; the issuing client, properly authenticated, hears that it was used.
   */
  lemma {:induction false} CodeSingleUse(clients: map<string, OAuthClient>, codes: map<string, AuthorizationCode>,
                       code: string, clientId: string, clientSecret: string, redirectURI: string, now: Time,
                       clientId': string, clientSecret': string, redirectURI': string, later: Time)
    requires ExchangeCheck(clients, codes, code, clientId, clientSecret, redirectURI, now).Ok?
    ensures var codes' := codes[code := codes[code].(used := true)];
      var again := ExchangeCheck(clients, codes', code, clientId', clientSecret', redirectURI', later);
      && again.Err?
      && (clientId' == clientId && ClientAccepted(clients, clientId', clientSecret', redirectURI') ==>
            again == Err(AuthorizationCodeUsed))
  {
    var codes' := codes[code := codes[code].(used := true)];
    assert code in codes' && codes'[code].used && codes'[code].clientId == clientId;
  }

  /** The claims `GenerateAccessToken` signs. */
  function AccessTokenClaims(userId: nat, clientId: string, now: Time, expire: Duration): Claims {
    map["user_id" := Num(userId), "client_id" := Str(clientId),
        "exp" := Num(UnixSeconds(now + expire)), "iat" := Num(UnixSeconds(now)),
        "type" := Str(AccessTokenType)]
  }

  /**
   * `ExchangeAuthorizationCode`.  After the checks the code is marked used
   * before the token is created; the error of that `Save` is ignored, so when
   * it fails (`saveSucceeds` false) the code stays unused and a token is
   * issued anyway.  Creating a token string already in the table violates its
   * unique index, after the code has been spent.  The checks, the claims and
   * `ExpiresAt` read the clock as `now`; `CreatedAt` is left to GORM, which
   * stamps it when `Create` runs, at the later reading `created`.
   */
  method ExchangeAuthorizationCode(s: OAuthService, db: Database, code: string, clientId: string,
                                   clientSecret: string, redirectURI: string, now: Time, created: Time,
                                   saveSucceeds: bool)
    returns (r: Result<AccessToken, ServiceError>)
    requires db.Valid()
    requires now <= created
    modifies db`codes, db`tokens
    ensures db.Valid()
    ensures
      var check := ExchangeCheck(old(db.clients), old(db.codes), code, clientId, clientSecret, redirectURI, now);
      check.Err? ==> r == Err(check.error) && db.codes == old(db.codes) && db.tokens == old(db.tokens)
    ensures
      var check := ExchangeCheck(old(db.clients), old(db.codes), code, clientId, clientSecret, redirectURI, now);
      check.Ok? ==>
        var userId := check.value.userId;
        var tok := s.keys.sign(AccessTokenClaims(userId, clientId, now, s.jwtExpire));
        && db.codes == (if saveSucceeds then old(db.codes)[code := check.value.(used := true)] else old(db.codes))
        && (tok in old(db.tokens) ==> r.Err? && r.error.Internal? && db.tokens == old(db.tokens))
        && (tok !in old(db.tokens) ==>
              && r == Ok(AccessToken(tok, clientId, userId, now + s.jwtExpire, created))
              && db.tokens == old(db.tokens)[tok := r.value])
  {
    // 1. client
    var client := ValidateClient(db.clients, clientId, clientSecret);
    if client.Err? {
      return Err(client.error);
    }
    // 2. redirect URI, against the client's registration
    if ValidateRedirectURI(client.value, redirectURI).Some? {
      return Err(InvalidRedirectURI);
    }
    // 3. lookup, scoped to the client
    var found := LookupCode(db.codes, code, clientId);
    if found.None? {
      return Err(InvalidAuthorizationCode);
    }
    var authCode := found.value;
    // 4. validity
    if !authCode.IsValid(now) {
      if authCode.used {
        return Err(AuthorizationCodeUsed);
      }
      return Err(InvalidAuthorizationCode);
    }
    // 5. mark used; the save's error is not looked at
    authCode := authCode.(used := true);
    if saveSucceeds {
      db.codes := db.codes[code := authCode];
    }
    // 6. sign
    var tokenString := s.keys.sign(AccessTokenClaims(authCode.userId, clientId, now, s.jwtExpire));
    // 7. store
    var accessToken := AccessToken(tokenString, clientId, authCode.userId, now + s.jwtExpire, created);
    if tokenString in db.tokens {
      return Err(Internal("保存 Access Token 失败"));
    }
    db.tokens := db.tokens[tokenString := accessToken];
    r := Ok(accessToken);
  }

  /**
   * Two exchanges of one code, the first of which lost its `Save`: the
   * second succeeds too, so the code was redeemed twice.
   */
  method ReplayAfterLostSave(s: OAuthService, db: Database, code: string, clientId: string,
                             clientSecret: string, redirectURI: string, now: Time, created: Time,
                             later: Time, laterCreated: Time)
    returns (first: Result<AccessToken, ServiceError>, second: Result<AccessToken, ServiceError>)
    requires db.Valid()
    requires ExchangeCheck(db.clients, db.codes, code, clientId, clientSecret, redirectURI, now).Ok?
    requires now <= later <= db.codes[code].expiresAt
    requires now <= created && later <= laterCreated
    modifies db`codes, db`tokens
    ensures db.Valid()
    ensures first.Ok? ==>
      var tok := s.keys.sign(AccessTokenClaims(first.value.userId, clientId, later, s.jwtExpire));
      second.Ok? <==> tok !in old(db.tokens).Keys + {first.value.token}
  {
    first := ExchangeAuthorizationCode(s, db, code, clientId, clientSecret, redirectURI, now, created, false);
    second := ExchangeAuthorizationCode(s, db, code, clientId, clientSecret, redirectURI, later, laterCreated, true);
  }

  /**
   * Two exchanges of one code whose first `Save` succeeded: the second fails
   * as used, and the code table then records the code as used.
   */
  method ReplayAfterSave(s: OAuthService, db: Database, code: string, clientId: string,
                         clientSecret: string, redirectURI: string, now: Time, created: Time,
                         later: Time, laterCreated: Time)
    returns (first: Result<AccessToken, ServiceError>, second: Result<AccessToken, ServiceError>)
    requires db.Valid()
    requires ExchangeCheck(db.clients, db.codes, code, clientId, clientSecret, redirectURI, now).Ok?
    requires now <= created && later <= laterCreated
    modifies db`codes, db`tokens
    ensures db.Valid()
    ensures second == Err(AuthorizationCodeUsed)
    ensures code in db.codes && db.codes[code].used
  {
    first := ExchangeAuthorizationCode(s, db, code, clientId, clientSecret, redirectURI, now, created, true);
    CodeSingleUse(old(db.clients), old(db.codes), code, clientId, clientSecret, redirectURI, now,
                  clientId, clientSecret, redirectURI, later);
    second := ExchangeAuthorizationCode(s, db, code, clientId, clientSecret, redirectURI, later, laterCreated, true);
  }

  // ---------------------------------------------------------------- using access tokens

  /**
   * The claim checks of `ValidateAccessToken` after a successful parse: the
   * `type` claim is the access-token type, `user_id` is a number and
   * `client_id` a string, checked in that order.
   */
  function ValidateAccessTokenClaims(claims: Claims): (r: Result<(nat, string), ServiceError>)
    ensures r.Ok? <==>
              && "type" in claims && claims["type"] == Str(AccessTokenType)
              && "user_id" in claims && claims["user_id"].Num?
              && "client_id" in claims && claims["client_id"].Str?
    ensures r.Ok? ==> r.value == (claims["user_id"].n, claims["client_id"].s)
    ensures r.Err? ==> r.error.TokenRejected?
  {
    if !("type" in claims && claims["type"].Str? && claims["type"].s == AccessTokenType) then
      Err(TokenRejected("无效的 Token 类型"))
    else if !("user_id" in claims && claims["user_id"].Num?) then
      Err(TokenRejected("Token 中缺少 user_id"))
    else if !("client_id" in claims && claims["client_id"].Str?) then
      Err(TokenRejected("Token 中缺少 client_id"))
    else
      Ok((claims["user_id"].n, claims["client_id"].s))
  }

  /** The claims of every issued access token pass the check and give back its user and client. */
  lemma IssuedAccessTokenClaimsCheck(userId: nat, clientId: string, now: Time, expire: Duration)
    ensures ValidateAccessTokenClaims(AccessTokenClaims(userId, clientId, now, expire)) == Ok((userId, clientId))
  {
  }

  /** `ValidateAccessToken`: parse and verify, then check the claims. */
  function ValidateAccessToken(s: OAuthService, token: string): Result<(nat, string), ServiceError> {
    match s.keys.verify(token)
    case None => Err(TokenRejected("Token 解析失败"))
    case Some(claims) => ValidateAccessTokenClaims(claims)
  }

  /**
   * `GetUserInfo`: the user named by a valid access token.  The token table
   * is not consulted: a correctly signed, unexpired token is enough.
   */
  function GetUserInfo(s: OAuthService, users: seq<User>, token: string): (r: Result<User, ServiceError>)
    ensures r.Ok? ==> ValidateAccessToken(s, token).Ok? && r.value in users
                      && r.value.id == ValidateAccessToken(s, token).value.0
    ensures ValidateAccessToken(s, token).Err? ==> r == Err(ValidateAccessToken(s, token).error)
    ensures ValidateAccessToken(s, token).Ok? ==>
      (r.Ok? <==> exists u :: u in users && u.id == ValidateAccessToken(s, token).value.0)
    ensures ValidateAccessToken(s, token).Ok? && r.Err? ==> r.error == UserNotFound
  {
    match ValidateAccessToken(s, token)
    case Err(e) => Err(e)
    case Ok((userId, _)) =>
      match UserById(users, userId)
      case None => Err(UserNotFound)
      case Some(u) => Ok(u)
  }

  /**
   * End to end: the token a successful exchange issues, once the keys verify
   * it, resolves to the user the code was issued for.
   */
  lemma {:induction false} ExchangedTokenResolvesToUser(s: OAuthService, users: seq<User>, t: AccessToken, now: Time)
    requires UsersWellKeyed(users) && 1 <= t.userId <= |users|
    requires s.keys.verify(t.token) == Some(AccessTokenClaims(t.userId, t.clientId, now, s.jwtExpire))
    ensures GetUserInfo(s, users, t.token) == Ok(users[t.userId - 1])
  {
    IssuedAccessTokenClaimsCheck(t.userId, t.clientId, now, s.jwtExpire);
    UserByIdPositional(users, t.userId);
  }
}
