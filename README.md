# shadow-oauth in Dafny

This project models shadow-oauth, a small OAuth 2.0 authorization-code demo (section 4.1 of RFC 6749, with bearer tokens as in RFC 6750). Both halves are modelled.

**The Go backend**
- **Account service:** registration, password login and session JWTs.
- **OAuth service:**
  - issuing a one-time authorization code;
  - exchanging it for an access token;
  - resolving that token to a user.
- **Handlers:** the gin handlers that turn these into HTTP replies.
- **Middleware:** the bearer-token middleware in front of `/api/auth/me`.
- **Records:** users, clients, codes and tokens, with their public projections.

**The TypeScript frontend**
- **Session store:** the `token` and `user` keys in `localStorage`.
- **Client:** the axios client and its two interceptors.
- **Pages:** the dashboard guard, the consent screen, the callback relay and the test client's step machine.
- **Forms:** the login and registration forms.

**Modelling choices**
- Time is integer nanoseconds, as in Go's `time`. The current time is a parameter.
- The database is a `Store.Database` object:
  - users are a sequence in insertion order, and row `i` has id `i + 1`;
  - clients, codes and tokens are maps keyed by their unique column.
- JWT signing and verification are a pair of functions (`Jwt.Keys`), and so is bcrypt. The random bytes and the success of a `Save` are parameters.
- A frontend page is a class over a `Session.Browser`. The browser holds:
  - `localStorage` as a map;
  - the current query;
  - a log of the effects the page asked for (navigation, requests, timers).
- Each `async` handler is one step from its start to the end of its `finally` block. The server's answer is a parameter.

**Behaviours modelled as the code has them**
- **The test client never compares the returned `state`** with the one it sent (`TestClient.StateNeverChecked`). The callback relay does not URL-encode the code, so a code holding `&state=` plants a second state (`CallbackPage.UnencodedCodeForgesState`).
- **The token exchange compares `redirect_uri` with the client's registration**, not with the URI stored in the code (`OAuthService.ExchangeCheck`).
- **The error of the `Save` that marks a code used is ignored.** When that save is lost, the same code is redeemed a second time (`OAuthService.ReplayAfterLostSave`).
- **An empty stored token counts as a session, but sends no header.** The backend then answers 401, and the interceptor ends the session (`EndToEnd.EmptyTokenSession`).
- **A refused login is a 401**, so the interceptor clears the session even on the login page (`EndToEnd.RefusedLoginEndsSession`).
- **The two halves check emails and passwords differently.**
  - The forms' email pattern is looser than the backend's (`EndToEnd.FormsEmailLooser`).
  - Password length is counted in UTF-16 code units by the forms and in UTF-8 bytes by the backend (`EndToEnd.PasswordRulesNested`).
- **`expires_in` falls a second short of the configured lifetime.** `ExpiresAt` is computed before the insert, and GORM stamps `CreatedAt` at the insert, so their whole-second difference is 86399 for the default day whenever the two clock readings differ by under a second (`OAuthHandlers.ExpiresInOfHours`).
- **The callback page does not report a callback that carries neither `code` nor `error`.** The page does nothing in that case; the test client shows no error either (`CallbackPage.CallbackTarget`, `TestClient.FirstEffectAction`).

## Model

| member | source | states |
|---|---|---|
| Models.UserToResponse | backend/internal/models/user.go:35-43 | the response serialises exactly as the user's own JSON, which leaves out the password and deletion mark |
| Models.UserSecretsNotSerialised | backend/internal/models/user.go:10-43 | changing the password or deletion mark changes neither the user's JSON nor its response, and no JSON key is `password` |
| Models.ClientToResponse | backend/internal/models/oauth_client.go:37-45 | the response is the client's JSON without the trailing `updated_at` |
| Models.ClientSecretsNotSerialised | backend/internal/models/oauth_client.go:11-45 | the secret is never a JSON key. Responses ignore the secret, update time and deletion mark |
| Models.CodeValidity | backend/internal/models/authorization_code.go:30-37 | a code is valid iff it is unused and now <= ExpiresAt; it is not expired at ExpiresAt, and expired one tick later |
| Models.UsedCodeNeverValid | backend/internal/models/authorization_code.go:35-37 | a used code is invalid at every time |
| Models.CodeExpiryMonotone | backend/internal/models/authorization_code.go:30-37 | once expired, a code stays expired and invalid |
| Models.TokenExpiry | backend/internal/models/access_token.go:28-30 | token expiry is strict, monotone in time, and depends on ExpiresAt alone |
| Models.SuccessResponse | backend/internal/models/response.go:12-18 | success, the message unchanged, the data, and an empty error |
| Models.ErrorResponse | backend/internal/models/response.go:21-31 | failure, the message unchanged, no data, and the error text or "" for a nil error |
| Http.Fail | backend/internal/handlers/oauth.go:41-44 | a JSON failure reply with that status and message, no data, and the error text |
| Http.BindFail | backend/internal/handlers/auth.go:37-40 | an unbindable request gets 400 "请求参数无效" with the validator's text |
| Http.Succeed | backend/internal/handlers/auth.go:57-58 | a JSON success reply with that status, message and data, and an empty error |
| Http.Param | backend/internal/handlers/oauth.go:173 | the first value of a key, or "" when it has none |
| Http.RequiredCheck | backend/internal/handlers/oauth.go:27-32 | binding fails iff some required field is empty |
| Store.Database.constructor | backend/cmd/init_oauth_client/main.go:30-36 | a database holding only the seeded clients satisfies the key invariants |
| Store.UserByEmail | backend/internal/service/auth_service.go:109 | the first row with that email; None iff no row has it |
| Store.UserById | backend/internal/service/auth_service.go:184 | the row with that id; None iff no row has it |
| Store.UserByIdPositional | backend/internal/service/auth_service.go:184 | in a well-keyed table, the lookup by id is row id-1 |
| Store.UserByIdOfRow | backend/internal/service/auth_service.go:184 | every row is found by its own id |
| Store.AppendUserKeepsKeys | backend/internal/service/auth_service.go:92-99 | appending a row with the next id and an unused email keeps the table well keyed |
| Urls.SetParam | frontend/app/oauth/authorize/page.tsx:42-46 | the key gets exactly [value]; every other parameter and the base are kept |
| Urls.PairsToQuery | frontend/app/oauth/test-client/page.tsx:70-75 | the keys are exactly the names of the pairs |
| Urls.PairsToQueryDistinct | frontend/app/oauth/test-client/page.tsx:70-75 | with distinct names, each name maps to exactly its own value |
| OAuthService.HexEncode | backend/internal/service/oauth_service.go:86 | two lower-case hex digits per byte |
| OAuthService.HexRoundTrip | backend/internal/service/oauth_service.go:86 | decoding the encoding gives back the bytes |
| OAuthService.HexEncodeInjective | backend/internal/service/oauth_service.go:82-86 | distinct random draws give distinct codes |
| OAuthService.RedirectUriExactMatch | backend/internal/service/oauth_service.go:71-76 | accepted iff exactly equal to the registered URI; an extended URI or a proper prefix is refused |
| OAuthService.NewCodeRecord | backend/internal/service/oauth_service.go:89-96 | the record carries the code, client, user and URI, and is valid from now exactly until now + 10 min |
| OAuthService.GenerateAuthorizationCode | backend/internal/service/oauth_service.go:80-104 | a random failure stores nothing; otherwise a 64-digit hex code is stored as NewCodeRecord unless it already exists |
| OAuthService.ExchangeCheck | backend/internal/service/oauth_service.go:108-135 | each error holds exactly when its check is the first to fail (client, redirect URI, lookup, used, expiry); success returns the stored code |
| OAuthService.IssuedCodeExchangeable | backend/internal/service/oauth_service.go:80-135 | a fresh code is redeemable for its whole ten minutes by its client with its secret and registered URI |
| OAuthService.CodeScopedToClient | backend/internal/service/oauth_service.go:122-125 | a code issued to another client gives InvalidAuthorizationCode |
| OAuthService.UsedTakesPrecedence | backend/internal/service/oauth_service.go:130-135 | an expired code gives AuthorizationCodeUsed if used, else InvalidAuthorizationCode |
| OAuthService.CodeSingleUse | backend/internal/service/oauth_service.go:130-139 | after a code is marked used, every later exchange fails, and its own client is told it was used |
| OAuthService.ExchangeAuthorizationCode | backend/internal/service/oauth_service.go:108-160 | a failed check changes nothing. Otherwise the code is marked used if the save succeeds, and the token with user, client, ExpiresAt = now + jwtExpire and CreatedAt = GORM's later clock reading at Create is stored unless it exists |
| OAuthService.ReplayAfterLostSave | backend/internal/service/oauth_service.go:137-139 | when the first save is lost, a second exchange also succeeds unless its token string collides |
| OAuthService.ReplayAfterSave | backend/internal/service/oauth_service.go:130-139 | when the save succeeds, the second exchange fails as used |
| OAuthService.ValidateAccessTokenClaims | backend/internal/service/oauth_service.go:199-219 | ok iff type is "oauth_access_token", user_id is numeric and client_id is a string; it returns exactly those two |
| OAuthService.IssuedAccessTokenClaimsCheck | backend/internal/service/oauth_service.go:163-216 | the claims of every issued access token pass the check with their user and client |
| OAuthService.GetUserInfo | backend/internal/service/oauth_service.go:224-241 | a token failure is passed on; for a valid token, Ok iff some row has its user id, and then that row; otherwise UserNotFound |
| OAuthService.ExchangedTokenResolvesToUser | backend/internal/service/oauth_service.go:142-241 | an issued token that the keys verify resolves to the code's user |
| AuthService.EmailMatchesSound | backend/internal/service/auth_service.go:30 | what the matcher accepts fits the regular expression |
| AuthService.EmailMatchesComplete | backend/internal/service/auth_service.go:30 | every split the regular expression allows is accepted by the matcher |
| AuthService.EmailMatchesPattern | backend/internal/service/auth_service.go:30 | the matcher accepts exactly the regular expression's language |
| AuthService.Utf8Len | backend/internal/service/auth_service.go:73 | a byte length is at least the character count |
| AuthService.RegisterCheck | backend/internal/service/auth_service.go:66-83 | the email is checked, then the byte length >= 6, then uniqueness; each error holds exactly when its check is the first to fail |
| AuthService.Register | backend/internal/service/auth_service.go:66-103 | a rejected or unhashable request leaves the table unchanged; otherwise exactly one row with the hash is appended |
| AuthService.Login | backend/internal/service/auth_service.go:106-131 | an unknown email and a wrong password give the same InvalidCredentials; success signs the user's id and returns ToResponse |
| AuthService.ValidateTokenClaims | backend/internal/service/auth_service.go:170-178 | ok iff user_id is numeric, with that value |
| AuthService.LoginTokenValidates | backend/internal/service/auth_service.go:122-175 | the token of a successful login validates to the user who logged in |
| AuthService.GetUserByID | backend/internal/service/auth_service.go:182-191 | Ok iff some row has that id, and then that row; otherwise UserNotFound |
| AuthHandlers.BindRequired | backend/internal/handlers/auth.go:36-39 | decoder errors pass through; a decoded body binds iff every required field is non-empty, and then unchanged |
| AuthHandlers.BindRegister | backend/internal/service/auth_service.go:47-51 | binding succeeds iff the body decodes and email and password are non-empty |
| AuthHandlers.RegisterError | backend/internal/handlers/auth.go:44-54 | 400 iff the error is InvalidEmail or WeakPassword; 409 iff EmailExists; 500 otherwise |
| AuthHandlers.Register | backend/internal/handlers/auth.go:33-59 | a bind failure gives 400; a service error maps through RegisterError with no row added; success is 201 with the new row's view |
| AuthHandlers.BindLogin | backend/internal/service/auth_service.go:54-57 | binding succeeds iff the body decodes and both fields are non-empty |
| AuthHandlers.LoginError | backend/internal/handlers/auth.go:83-91 | 401 iff the error is InvalidCredentials, else 500 |
| AuthHandlers.Login | backend/internal/handlers/auth.go:72-96 | a bind failure gives 400; an unknown email or wrong password gives one 401; success is 200 with a token and the user's view |
| AuthHandlers.GetCurrentUser | backend/internal/handlers/auth.go:107-124 | no id gives 401; an unknown id gives 500; otherwise 200 with that user's view |
| OAuthHandlers.BindAuthorize | backend/internal/handlers/oauth.go:27-44 | ok iff client_id, redirect_uri and response_type are non-empty, carrying the four values |
| OAuthHandlers.AuthorizeCheck | backend/internal/handlers/oauth.go:37-73 | bind, response type, client, URI, then user, in that order. 401 iff all but the user pass; ok iff all pass |
| OAuthHandlers.CodeRedirect | backend/internal/handlers/oauth.go:88-96 | the redirect URI with code set, state set iff non-empty, and every other parameter kept |
| OAuthHandlers.Authorize | backend/internal/handlers/oauth.go:37-97 | a failed check generates no code; otherwise the reply is 302 to CodeRedirect with the code stored, or 500 with nothing stored |
| OAuthHandlers.ResponseTypeCheckedFirst | backend/internal/handlers/oauth.go:47-50 | a wrong response type gives the same 400 whatever the clients and the user |
| OAuthHandlers.BindToken | backend/internal/handlers/oauth.go:100-125 | ok iff all five fields are non-empty, carrying them |
| OAuthHandlers.TokenCheck | backend/internal/handlers/oauth.go:122-131 | the exchange is reached iff binding succeeds and grant_type is authorization_code; otherwise 400 |
| OAuthHandlers.TokenError | backend/internal/handlers/oauth.go:140-152 | InvalidClient gives 401; the redirect and code errors give 400; anything else gives 500 |
| OAuthHandlers.WholeSeconds | backend/internal/handlers/oauth.go:155-160 | the seconds of a duration truncated toward zero |
| OAuthHandlers.Token | backend/internal/handlers/oauth.go:118-161 | a check failure is its reply with nothing changed; success is 200 Bearer with expires_in = whole seconds from the stored token's CreatedAt to its ExpiresAt, alongside the exchange's state change |
| OAuthHandlers.ExpiresInOfHours | backend/internal/handlers/oauth.go:155-160 | an expiry of h >= 1 hours gives expires_in 3600h - 1 when GORM's clock reads less than a second after ExpiresAt's, and 3600h only when the two readings are equal |
| OAuthHandlers.ExtractTokenCases | backend/internal/handlers/oauth.go:173-180 | the query token wins; `Bearer t` gives t; lower-case `bearer` gives nothing; empty iff neither place holds a token |
| OAuthHandlers.UserInfo | backend/internal/handlers/oauth.go:171-196 | 400 iff no token; 200 iff the token validates to an existing user, with that user's view; 401 otherwise |
| OAuthHandlers.UserInfoServesIssuedToken | backend/internal/handlers/oauth.go:171-196 | an issued token in the query or a bearer header gets its user's view |
| JwtMiddleware.SplitFirstSpace | backend/internal/middleware/jwt.go:24 | one part iff there is no space; otherwise the parts rejoin the header at its first space |
| JwtMiddleware.SplitBearer | backend/internal/middleware/jwt.go:24-31 | the format check passes iff the header starts with `Bearer `, and the token is the rest |
| JwtMiddleware.JWTAuth | backend/internal/middleware/jwt.go:13-47 | an empty header aborts with 401; next iff a bearer header's token validates, with its user id; every abort is 401 |
| JwtMiddleware.BearerTokenVerbatim | backend/internal/middleware/jwt.go:24-39 | the token is everything after `Bearer `, spaces and the empty string included; `bearer` is refused as malformed |
| JwtMiddleware.CurrentUserRoute | backend/cmd/server/main.go:84 | an abort is the reply; otherwise GetCurrentUser runs with the stored id |
| JwtMiddleware.LoginSessionReachesMe | backend/internal/handlers/auth.go:72-124 | a login's token sent as a bearer header gets the same user's view from /me |
| JwtMiddleware.TokenKindsCrossCheck | backend/internal/service/auth_service.go:170-175 | an access token's claims pass the session check; session claims fail the access-token check |
| JwtMiddleware.AccessTokenOpensSession | backend/internal/middleware/jwt.go:31-45 | an access token verified with the same keys passes the middleware |
| JwtMiddleware.HeaderReadingsAgree | backend/internal/handlers/oauth.go:176-180 | for a non-empty token, the endpoint and the middleware read `Bearer t` alike; for `Bearer ` only the middleware validates "" |
| Json.StringRoundTrip | frontend/lib/auth.ts:28-38 | JSON.parse inverts JSON.stringify on strings |
| Json.NatRoundTrip | frontend/lib/auth.ts:28-38 | JSON.parse inverts JSON.stringify on non-negative integers |
| Session.UserRoundTrip | frontend/lib/auth.ts:26-46 | the stored text of a user parses back to that user |
| Session.Browser.GetToken | frontend/lib/auth.ts:11-16 | the stored token iff there is a window and a token key |
| Session.Browser.SetToken | frontend/lib/auth.ts:4-8 | getToken then returns the token; the user entry is untouched; without a window nothing changes |
| Session.Browser.RemoveToken | frontend/lib/auth.ts:19-23 | the token is gone and the user is untouched |
| Session.Browser.GetUser | frontend/lib/auth.ts:33-46 | a user iff a window, a non-empty entry and a successful parse |
| Session.Browser.SetUser | frontend/lib/auth.ts:26-30 | getUser then returns the same user; the token is untouched |
| Session.Browser.RemoveUser | frontend/lib/auth.ts:49-53 | the user is gone and the token is untouched |
| Session.Browser.Logout | frontend/lib/auth.ts:61-67 | both keys are removed and the session is over; then navigation to /login in a browser |
| Session.AuthenticatedIffTokenKey | frontend/lib/auth.ts:56-58 | authenticated iff the token key is present, the empty token included; never without a window |
| ApiClient.BaseUrl | frontend/lib/api.ts:4 | the variable when it is set and non-empty, else http://localhost:8080 |
| ApiClient.AttachToken | frontend/lib/api.ts:15-29 | `Bearer <token>` iff a window and a truthy token; otherwise the request is unchanged |
| ApiClient.Call | frontend/lib/api.ts:15-45 | the request is sent with the header; 2xx resolves with the body; otherwise it rejects with the answer, and a 401 in a browser also clears both keys and navigates to /login |
| ApiClient.Register | frontend/lib/api.ts:71-78 | a POST to /api/auth/register with the three fields, settled as in Call |
| ApiClient.Login | frontend/lib/api.ts:81-87 | a POST to /api/auth/login, settled as in Call |
| ApiClient.GetCurrentUser | frontend/lib/api.ts:90-93 | a GET of /api/auth/me, settled as in Call |
| CallbackPage.CallbackTarget | frontend/app/oauth/test-client/callback/page.tsx:10-26 | no target iff neither error nor code; an error wins; a code is forwarded with state, "null" when absent |
| CallbackPage.ErrorTargetReadsBack | frontend/app/oauth/test-client/callback/page.tsx:16-20 | the test client reads back exactly the error |
| CallbackPage.CodeTargetReadsBack | frontend/app/oauth/test-client/callback/page.tsx:22-25 | the test client reads back the code and the state |
| CallbackPage.UnencodedCodeForgesState | frontend/app/oauth/test-client/callback/page.tsx:24 | a code `x&state=f` is read as code x with first state f |
| AuthorizePage.ApproveTarget | frontend/app/oauth/authorize/page.tsx:37-51 | a target iff client and URI are truthy. It sets client, URI and response_type=code, plus state iff truthy; nothing else, one value each |
| AuthorizePage.DenyTarget | frontend/app/oauth/authorize/page.tsx:54-64 | a target iff the URI is truthy. It sets error=access_denied, and state iff truthy; the URI's other parameters are kept |
| AuthorizePage.HandleApprove | frontend/app/oauth/authorize/page.tsx:37-51 | the imperative set calls load ApproveTarget, or do nothing |
| AuthorizePage.HandleDeny | frontend/app/oauth/authorize/page.tsx:54-64 | the imperative set calls load DenyTarget, or do nothing |
| AuthorizePage.ConsentPage.constructor | frontend/app/oauth/authorize/page.tsx:10-12 | loading, with no client and no error |
| AuthorizePage.ConsentPage.CheckParams | frontend/app/oauth/authorize/page.tsx:20-34 | loading ends. Bad parameters show the error; otherwise the client is shown and both buttons have a target |
| TestClient.FailureMessage | frontend/app/oauth/test-client/page.tsx:87-94 | a non-empty message: the body's error, else the answered fallback; the thrown message, else the thrown fallback |
| TestClient.ExchangeError | frontend/app/oauth/test-client/page.tsx:87-94 | a non-empty message: the server's error or the thrown message |
| TestClient.UserInfoError | frontend/app/oauth/test-client/page.tsx:114-121 | a non-empty message: the server's error or the thrown message |
| TestClient.FirstEffectAction | frontend/app/oauth/test-client/page.tsx:38-59 | acts only in a browser at step start; an error wins and ignores the code; with neither, nothing happens |
| TestClient.SecondEffectAction | frontend/app/oauth/test-client/page.tsx:127-138 | never shows an error; accepts a code only at step start |
| TestClient.StateNeverChecked | frontend/app/oauth/test-client/page.tsx:38-58 | replacing the returned state changes neither effect's decision |
| TestClient.EffectsOnlyAtStart | frontend/app/oauth/test-client/page.tsx:39 | away from step start, both effects do nothing |
| TestClient.TestClientPage.constructor | frontend/app/oauth/test-client/page.tsx:14-19 | step start, everything empty, not loading |
| TestClient.TestClientPage.StartOAuth | frontend/app/oauth/test-client/page.tsx:22-35 | the error is cleared, the step is authorizing, and the browser loads the authorization URL with the fixed state |
| TestClient.TestClientPage.Apply | frontend/app/oauth/test-client/page.tsx:44-57 | an error keeps step start; a code sets authCode and step token; either clears the address |
| TestClient.TestClientPage.CallbackEffect | frontend/app/oauth/test-client/page.tsx:38-59 | carries out FirstEffectAction on the current address |
| TestClient.TestClientPage.CodeEffect | frontend/app/oauth/test-client/page.tsx:127-138 | carries out SecondEffectAction on the current address |
| TestClient.TestClientPage.RunEffects | frontend/app/oauth/test-client/page.tsx:38-138 | running both effects equals running the first alone |
| TestClient.TestClientPage.ExchangeToken | frontend/app/oauth/test-client/page.tsx:62-98 | without a code nothing happens. Otherwise the form is posted; 2xx stores the token and moves to userinfo; anything else keeps the step and shows ExchangeError |
| TestClient.TestClientPage.GetUserInfo | frontend/app/oauth/test-client/page.tsx:101-124 | without a token nothing happens; the step never changes. 2xx shows the data; otherwise UserInfoError |
| FormRules.FrontEmailMatchesSound | frontend/components/LoginForm.tsx:34-38 | what the matcher accepts fits `/^[^\s@]+@[^\s@]+\.[^\s@]+$/` |
| FormRules.FrontEmailMatchesComplete | frontend/components/LoginForm.tsx:34-38 | every split the pattern allows is accepted |
| FormRules.FrontEmailMatchesPattern | frontend/components/RegisterForm.tsx:35-39 | the matcher accepts exactly the pattern's language |
| FormRules.Utf16Len | frontend/components/RegisterForm.tsx:42-45 | between one and two code units per character |
| FormRules.RejectionMessage | frontend/components/LoginForm.tsx:67-69 | the reply's error, else its message, else the fallback; never empty |
| FormRules.ResolvedMessage | frontend/components/LoginForm.tsx:64-66 | the reply's error, else the fallback; never empty |
| LoginForm.LoginValidation | frontend/components/LoginForm.tsx:27-41 | passes iff both fields are non-empty and the email matches; emptiness is reported before format |
| LoginForm.Form.constructor | frontend/components/LoginForm.tsx:10-15 | empty fields, no error, not loading |
| LoginForm.Form.HandleChange | frontend/components/LoginForm.tsx:18-24 | only the edited field changes, and the error is cleared |
| LoginForm.Form.HandleSubmit | frontend/components/LoginForm.tsx:44-73 | invalid: the message, nothing sent. Accepted: token, then user, stored, then push /dashboard. Otherwise a message and storage untouched, except a 401's clearing. Loading always ends |
| RegisterForm.RegisterValidation | frontend/components/RegisterForm.tsx:28-54 | checks run in order: empty, email pattern, UTF-16 length >= 6, confirmation; the first failure's message; the name is never checked |
| RegisterForm.Form.constructor | frontend/components/RegisterForm.tsx:9-17 | empty fields, no error, not loading |
| RegisterForm.Form.HandleChange | frontend/components/RegisterForm.tsx:19-25 | only the edited field changes, and the error is cleared |
| RegisterForm.Form.HandleSubmit | frontend/components/RegisterForm.tsx:57-82 | invalid: the message, nothing sent. Success: push /login?registered=true with storage untouched. Otherwise the server's error or the default |
| Dashboard.Page.constructor | frontend/app/dashboard/page.tsx:10-12 | loading, with no user and no error |
| Dashboard.Page.FetchUserData | frontend/app/dashboard/page.tsx:16-44 | unauthenticated: push /login with no request and loading kept. A success with data shows the user. Any failure shows its message and schedules logout. Loading ends |
| Dashboard.Page.HandleLogout | frontend/app/dashboard/page.tsx:50-52 | both keys removed and navigation to /login |
| EndToEnd.BackendEmailPassesForms | backend/internal/service/auth_service.go:30 | every email the backend accepts, the forms accept |
| EndToEnd.FormsEmailLooser | frontend/components/RegisterForm.tsx:35-39 | `a@b.c` passes the forms and not the backend |
| EndToEnd.Utf16NotLongerThanUtf8 | frontend/components/RegisterForm.tsx:42-45 | a string's UTF-16 length never exceeds its UTF-8 length |
| EndToEnd.PasswordRulesNested | backend/internal/service/auth_service.go:73-75 | a password the form accepts has at least 6 bytes, but `ééé` passes the backend and not the form |
| EndToEnd.ApproveBindsAtBackend | frontend/app/oauth/authorize/page.tsx:37-51 | the approve URL binds at the backend to the same client, URI, type and state |
| EndToEnd.StartBindsAtBackend | frontend/app/oauth/test-client/page.tsx:22-35 | the start URL binds to the test client's registration and state |
| EndToEnd.TokenFormBindsAtBackend | frontend/app/oauth/test-client/page.tsx:70-75 | the posted form passes TokenCheck with the code, client, secret and URI |
| EndToEnd.DenialShownByTestClient | frontend/app/oauth/authorize/page.tsx:54-64 | a denial reaches the test client as the error `授权失败: access_denied` |
| EndToEnd.IssuedCodeTakenByTestClient | backend/internal/handlers/oauth.go:88-96 | a code redirected to the test client is accepted by its first effect |
| EndToEnd.UserInfoRequestCarriesToken | frontend/app/oauth/test-client/page.tsx:108-110 | the userinfo request hands the backend exactly the access token |
| EndToEnd.EmptyTokenSession | frontend/lib/auth.ts:56-58 | an empty token counts as a session, sends no header, and the backend answers 401 |
| EndToEnd.RefusedLoginEndsSession | backend/internal/handlers/auth.go:86-87 | a refused login is a 401 that ends the session, and shows the backend's error text |

## Left out

- **Process wiring:**
  - backend/cmd/server/main.go, backend/config/config.go and backend/internal/database/db.go (SQLite, migrations) are not part of this model;
  - the OAuth handlers are modelled standalone, as main.go registers no `/oauth` routes;
  - the seed script backend/cmd/init_oauth_client/main.go is represented only by the test client's constants.
- **Database:** exact-match lookups over maps and a sequence. Covered failures are the unique-index clash on insert and the ignored `Save`; other SQL failures, soft deletes and GORM's timestamps are not modelled, except the access token's `CreatedAt`, which is the clock reading taken when `Create` runs (a parameter).
- **JWT:** signing, parsing, signature and `exp` checks are the `Jwt.Keys` functions. A failure of `SignedString` is not modelled. Only the claim checks after a successful parse are.
- **bcrypt and `crypto/rand`:** parameters. A failing random source is `None`.
- **OAuthHandlers.Token:** `expires_in` is computed with integer truncation of nanoseconds, not through the `float64` of `Duration.Seconds()`.
- **OAuthHandlers.Authorize:** an error from `url.Parse` of the redirect URI is not modelled. `ParseUrl` splits at the first `?` and at `&`.
- **URLs:** percent-encoding, `+` for space, fragments and parameter order are not modelled. Everything the model proves about URLs holds for values without `&`, `=` or `?`, as its lemmas require.
- **JSON:** `JSON.parse` is modelled only for the text `JSON.stringify` writes for a user. Any other stored text reads back as a parse failure. A `\u` escape naming half of a surrogate pair is refused rather than combined.
- **ApiClient.Register:** the `name` field is always sent. When `name` is `undefined`, JavaScript drops it from the body.
- **React and the browser:**
  - rendering, `useEffect` scheduling, and the interleaving of an `await` with other events are not modelled: each handler runs to the end of its `finally` in one step, so `loading` is observed only as its final value;
  - navigation, requests and the 2-second logout timer are recorded effects; the timer never fires in the model;
  - `console.error` is not modelled.
- **AuthorizePage.DenyTarget:** `new URL(redirectUri)` throwing for a relative or malformed URI is not modelled; such a URI is parsed as its text up to `?`.
- **Concurrency:** requests racing on `localStorage` or on the code table are not modelled. Each request is sequential.
- **Presentation pages:** frontend/app/page.tsx, frontend/app/layout.tsx, frontend/app/login/page.tsx and frontend/app/register/page.tsx hold no logic beyond display and are not part of this model.
