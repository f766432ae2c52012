/**
 * Properties that span the two halves of the system: what the frontend
 * sends, read by the backend's binding and checks, and what the backend
 * sends back, read by the frontend's pages.
 */
module EndToEnd {
  import opened Wrappers
  import opened Urls
  import AuthService
  import AuthHandlers
  import Store
  import OAuthHandlers
  import JwtMiddleware
  import Session
  import ApiClient
  import FormRules
  import CallbackPage
  import AuthorizePage
  import TestClient
  import Dashboard
  import Models
  import Http

  // ---------------------------------------------------------------- registration rules

  /** Every address the backend's pattern accepts, the forms' pattern accepts too. */
  lemma BackendEmailPassesForms(s: string)
    requires AuthService.EmailPattern(s)
    ensures FormRules.FrontEmailPattern(s)
  {
    var i, j :| 0 < i && i + 1 < j && j + 2 < |s| && s[i] == '@' && s[j] == '.'
                && AuthService.AllLocal(s[..i]) && AuthService.AllDomain(s[i + 1..j]) && AuthService.AllLetters(s[j + 1..]);
    assert FormRules.AllPlain(s[..i]) by {
      forall k | 0 <= k < i ensures FormRules.IsPlain(s[..i][k]) {
        assert AuthService.IsLocalChar(s[..i][k]);
      }
    }
    var domain, tld := s[i + 1..j], s[j + 1..];
    assert FormRules.AllPlain(domain) by {
      forall k | 0 <= k < |domain| ensures FormRules.IsPlain(domain[k]) {
        assert AuthService.IsDomainChar(domain[k]);
      }
    }
    assert FormRules.AllPlain(tld) by {
      forall k | 0 <= k < |tld| ensures FormRules.IsPlain(tld[k]) {
        assert AuthService.IsLetter(tld[k]);
      }
    }
  }

  /** The converse fails: `a@b.c` passes the forms, and the backend refuses it for its one-letter top-level tld. */
  lemma FormsEmailLooser()
    ensures FormRules.FrontEmailPattern("a@b.c")
    ensures !AuthService.EmailPattern("a@b.c")
  {
    var s := "a@b.c";
    FormRules.FrontEmailMatchesComplete(s, 1, 3);
    AuthService.EmailMatchesPattern(s);
    assert Urls.IndexOf(s, '@') == 1;
    var rest := s[2..];
    assert rest == "b.c";
    assert AuthService.LastIndexOf(rest, '.') == 1;
  }

  /** A UTF-16 length is never more than a UTF-8 one. */
  lemma {:induction false} Utf16NotLongerThanUtf8(p: string)
    ensures FormRules.Utf16Len(p) <= AuthService.Utf8Len(p)
  {
    if p != [] {
      Utf16NotLongerThanUtf8(p[1..]);
    }
  }

  /**
   * So a password long enough for the form is long enough for the backend,
   * but not the other way round: `ééé` is three code units and six bytes.
   */
  lemma PasswordRulesNested(p: string)
    ensures FormRules.Utf16Len(p) >= FormRules.MinPasswordLength ==> AuthService.Utf8Len(p) >= AuthService.MinPasswordBytes
    ensures FormRules.Utf16Len("ééé") < FormRules.MinPasswordLength
    ensures AuthService.Utf8Len("ééé") >= AuthService.MinPasswordBytes
  {
    Utf16NotLongerThanUtf8(p);
    assert "ééé"[1..] == "éé" && "éé"[1..] == "é" && "é"[1..] == "";
  }

  // ---------------------------------------------------------------- the flow's URLs

  /** What the consent screen's approve button sends, the backend binds as the same request. */
  lemma ApproveBindsAtBackend(clientId: Option<string>, redirectUri: Option<string>, state: Option<string>)
    requires Truthy(clientId) && Truthy(redirectUri)
    ensures var target := AuthorizePage.ApproveTarget(clientId, redirectUri, state).value;
      OAuthHandlers.BindAuthorize(target.query)
      == Ok(OAuthHandlers.AuthorizeRequest(clientId.value, redirectUri.value, "code",
                                           if Truthy(state) then state.value else ""))
  {
    var target := AuthorizePage.ApproveTarget(clientId, redirectUri, state).value;
    assert QueryGet(target, "client_id") == clientId;
    assert QueryGet(target, "redirect_uri") == redirectUri;
    assert QueryGet(target, "response_type") == Some("code");
  }

  /** The test client's start link carries its registered client, redirect URI and state to the backend. */
  lemma StartBindsAtBackend()
    ensures OAuthHandlers.BindAuthorize(TestClient.AuthorizeTarget.query)
         == Ok(OAuthHandlers.AuthorizeRequest(TestClient.ClientId, TestClient.RedirectUri, "code", TestClient.TestState))
  {
  }

  /** The test client's token form, as the backend binds it, is a valid token request for the code. */
  lemma TokenFormBindsAtBackend(code: string)
    requires code != ""
    ensures OAuthHandlers.TokenCheck(PairsToQuery(TestClient.TokenForm(code)))
         == Ok(OAuthHandlers.TokenRequest("authorization_code", code, TestClient.RedirectUri,
                                          TestClient.ClientId, TestClient.ClientSecret))
  {
    var form := TestClient.TokenForm(code);
    PairsToQueryDistinct(form);
    var q := PairsToQuery(form);
    assert q[form[0].0] == [form[0].1] && q[form[1].0] == [form[1].1] && q[form[2].0] == [form[2].1]
        && q[form[3].0] == [form[3].1] && q[form[4].0] == [form[4].1];
  }

  /**
   * A denial on the consent screen reaches the test client as an error it
   * shows (the test client's redirect URI has no query of its own).
   */
  lemma DenialShownByTestClient()
    ensures var deny := AuthorizePage.DenyTarget(Some(TestClient.RedirectUri), Some(TestClient.TestState)).value;
      var target := CallbackPage.CallbackTarget(QueryGet(deny, "code"), QueryGet(deny, "error"), QueryGet(deny, "state"));
      && target == Some(CallbackPage.TestClientPath + "?error=" + "access_denied")
      && TestClient.FirstEffectAction(true, TestClient.Start, ParseUrl(target.value).query)
         == TestClient.ShowError("授权失败: " + "access_denied")
  {
    TestClient.RedirectUriPlain();
    var deny := AuthorizePage.DenyTarget(Some(TestClient.RedirectUri), Some(TestClient.TestState)).value;
    assert QueryGet(deny, "code").None?;
    assert QueryGet(deny, "error") == Some("access_denied");
    CallbackPage.ErrorTargetReadsBack(None, Some("access_denied"), QueryGet(deny, "state"));
    var search := map["error" := ["access_denied"]];
    assert TestClient.SearchGet(search, "error") == Some("access_denied");
  }

  /**
   * A code the backend issues for the test client, redirected with the
   * test client's state, is taken up by the test client's first effect.
   * Codes are hexadecimal, so they hold no `&`.
   */
  lemma IssuedCodeTakenByTestClient(code: string)
    requires code != "" && '&' !in code
    ensures var back := OAuthHandlers.CodeRedirect(TestClient.RedirectUri, code, TestClient.TestState);
      var target := CallbackPage.CallbackTarget(QueryGet(back, "code"), QueryGet(back, "error"), QueryGet(back, "state"));
      && target.Some?
      && TestClient.FirstEffectAction(true, TestClient.Start, ParseUrl(target.value).query) == TestClient.AcceptCode(code)
  {
    TestClient.RedirectUriPlain();
    var back := OAuthHandlers.CodeRedirect(TestClient.RedirectUri, code, TestClient.TestState);
    assert QueryGet(back, "code") == Some(code);
    assert QueryGet(back, "error").None?;
    assert QueryGet(back, "state") == Some(TestClient.TestState);
    assert '&' !in TestClient.TestState;
    CallbackPage.CodeTargetReadsBack(Some(code), None, Some(TestClient.TestState));
    var search := map["code" := [code], "state" := [TestClient.TestState]];
    assert TestClient.SearchGet(search, "code") == Some(code);
    assert TestClient.SearchGet(search, "error").None?;
  }

  /** The test client's userinfo request hands the backend exactly its access token. */
  lemma UserInfoRequestCarriesToken(token: string)
    requires token != "" && '&' !in token
    ensures var u := ParseUrl(TestClient.UserInfoRequest(token).url);
      u == Url(TestClient.UserInfoEndpoint, map["access_token" := [token]])
      && OAuthHandlers.ExtractToken(Http.Param(u.query, "access_token"), "") == token
  {
    var path := TestClient.UserInfoEndpoint;
    TestClient.UserInfoEndpointPlain();
    assert TestClient.UserInfoRequest(token).url == path + "?" + "access_token" + "=" + token;
    CallbackPage.OneParam(path, "access_token", token);
    OAuthHandlers.ExtractTokenCases(token, "", "");
  }

  // ---------------------------------------------------------------- the session

  /**
   * An empty stored token: the dashboard counts it as a session, the
   * interceptor sends no header for it, and the backend's guard answers
   * 401 to a request without one, which makes the interceptor end the
   * session.
   */
  lemma EmptyTokenSession(b: Session.Browser, s: AuthService.AuthService, users: seq<Models.User>)
    requires b.hasWindow && Session.TokenKey in b.storage && b.storage[Session.TokenKey] == ""
    ensures b.IsAuthenticated()
    ensures ApiClient.AttachToken(Dashboard.MeCall(b), b.hasWindow, b.storage).authorization.None?
    ensures JwtMiddleware.CurrentUserRoute(s, users, "") == Http.Fail(Http.StatusUnauthorized, "缺少认证令牌", None)
  {
  }

  /**
   * A refused login: the backend answers 401 with the credentials error,
   * so the client's interceptor ends whatever session the browser held,
   * and the form shows the backend's error text.
   */
  lemma RefusedLoginEndsSession(s: AuthService.AuthService, users: seq<Models.User>, req: AuthService.LoginRequest,
                                passwordMatches: (string, string) -> bool, now: Models.Time)
    requires req.email != "" && req.password != ""
    requires var found := Store.UserByEmail(users, req.email);
      found.None? || !passwordMatches(found.value.password, req.password)
    ensures var r := AuthHandlers.Login(s, users, Ok(req), passwordMatches, now);
      var seen: ApiClient.ServerAnswer<ApiClient.LoginData> :=
        ApiClient.Answer(r.status, ApiClient.Envelope(r.body.success, r.body.message, None, r.body.error));
      && r.Json? && r.status == Http.StatusUnauthorized
      && ApiClient.EndsSession(seen, true)
      && FormRules.RejectionMessage(seen, "登录失败，请检查邮箱和密码") == "邮箱或密码错误"
  {
  }
}
