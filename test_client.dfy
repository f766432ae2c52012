/**
 * The test client (`/oauth/test-client`): a page that walks through the
 * authorization-code flow as a registered client would, one step per
 * button, keeping its progress in component state.
 *
 * Each handler is modelled from its start to the end of its `finally`
 * block, with the server's answer as a parameter; `loading` is therefore
 * `false` between handlers.
 */
module TestClient {
  import opened Wrappers
  import opened Urls
  import opened Session

  /** `TEST_CLIENT`: the client as the seed data registers it. */
  const ClientId: string := "test_client_123"
  const ClientSecret: string := "test_secret_456"
  const RedirectUri: string := FrontendBase + "/oauth/test-client/callback"
  const TestState: string := "test_state_123"

  const FrontendBase: string := "http://localhost:3000"
  const BackendBase: string := "http://localhost:8080"
  const SelfPath: string := "/oauth/test-client"

  /** The redirect URI has no query of its own. */
  lemma RedirectUriPlain()
    ensures ParseUrl(RedirectUri) == Url(RedirectUri, map[])
  {
    assert '?' !in FrontendBase;
    assert '?' !in "/oauth/test-client" + "/callback";
  }

  const UserInfoEndpoint: string := BackendBase + "/oauth/userinfo"

  lemma UserInfoEndpointPlain()
    ensures '?' !in UserInfoEndpoint
  {
    assert '?' !in BackendBase;
    assert '?' !in "/oauth/userinfo";
  }

  datatype Step = Start | Authorizing | CallbackStep | TokenStep | UserinfoStep

  /** What `fetch` and `response.json()` came to: a thrown error's message, or a status and the decoded body. */
  datatype Fetched<T> = Threw(message: string) | Responded(status: nat, body: T)

  /** The token endpoint's body as read here; an absent member reads as "". */
  datatype TokenBody = TokenBody(accessToken: string, error: string)

  /** The userinfo endpoint's body as read here. */
  datatype UserInfoBody = UserInfoBody(data: Option<FrontUser>, error: string)

  /** `response.ok`. */
  predicate ResponseOk<T>(f: Fetched<T>) {
    f.Responded? && 200 <= f.status < 300
  }

  /** Where "start" sends the browser: the backend's authorization endpoint, with the fixed state. */
  const AuthorizeTarget: Url := Url(BackendBase + "/oauth/authorize",
    map["client_id" := [ClientId], "redirect_uri" := [RedirectUri], "response_type" := ["code"], "state" := [TestState]])

  /** The form `handleExchangeToken` posts, in the order it appends the fields. */
  function TokenForm(code: string): seq<(string, string)> {
    [("grant_type", "authorization_code"), ("code", code), ("redirect_uri", RedirectUri),
     ("client_id", ClientId), ("client_secret", ClientSecret)]
  }

  /** The token request: a plain `fetch`, so without the session's `Authorization` header. */
  function TokenRequest(code: string): Request {
    Request("POST", BackendBase + "/oauth/token", None, TokenForm(code))
  }

  /** The userinfo request: the access token goes in the query, not URL-encoded. */
  function UserInfoRequest(accessToken: string): Request {
    Request("GET", UserInfoEndpoint + "?access_token=" + accessToken, None, [])
  }

  /**
   * The message a failed call leaves: the server's `error` (read from the
   * body by `errorOf`), else the thrown message, else the call's fixed
   * fallback for that path.
   */
  function FailureMessage<T>(f: Fetched<T>, errorOf: T -> string, thrownFallback: string, answeredFallback: string)
    : (m: string)
    requires thrownFallback != "" && answeredFallback != ""
    ensures m != ""
    ensures f.Responded? ==> m == (if errorOf(f.body) != "" then errorOf(f.body) else answeredFallback)
    ensures f.Threw? ==> m == (if f.message != "" then f.message else thrownFallback)
  {
    match f
    case Threw(message) => if message != "" then message else thrownFallback
    case Responded(_, body) => if errorOf(body) != "" then errorOf(body) else answeredFallback
  }

  /** The message a failed exchange leaves: the server's error, else a fixed text; never empty. */
  function ExchangeError(f: Fetched<TokenBody>): (m: string)
    requires !ResponseOk(f)
    ensures m != ""
    ensures f.Responded? && f.body.error != "" ==> m == f.body.error
    ensures f.Threw? && f.message != "" ==> m == f.message
  {
    FailureMessage(f, (b: TokenBody) => b.error, "交换 Token 失败", "获取 Token 失败")
  }

  /** The message a failed userinfo call leaves: the server's error, else a fixed text; never empty. */
  function UserInfoError(f: Fetched<UserInfoBody>): (m: string)
    requires !ResponseOk(f)
    ensures m != ""
    ensures f.Responded? && f.body.error != "" ==> m == f.body.error
    ensures f.Threw? && f.message != "" ==> m == f.message
  {
    FailureMessage(f, (b: UserInfoBody) => b.error, "获取用户信息失败", "获取用户信息失败")
  }

  // ---------------------------------------------------------------- the callback effects

  /** What one of the two callback effects does with the address it was loaded with. */
  datatype CallbackAction = Ignore | ShowError(message: string) | AcceptCode(code: string)

  function SearchGet(search: map<string, seq<string>>, key: string): Option<string> {
    QueryGet(Url(SelfPath, search), key)
  }

  /**
   * The first effect: in a browser and while the rendered step is "start",
   * an error wins over a code; the state is not looked at.
   */
  function FirstEffectAction(hasWindow: bool, renderedStep: Step, search: map<string, seq<string>>): (a: CallbackAction)
    ensures var error, code := SearchGet(search, "error"), SearchGet(search, "code");
      && (a.ShowError? <==> hasWindow && renderedStep == Start && Truthy(error))
      && (a.ShowError? ==> a.message == "授权失败: " + error.value)
      && (a.AcceptCode? <==> hasWindow && renderedStep == Start && !Truthy(error) && Truthy(code))
      && (a.AcceptCode? ==> a.code == code.value)
  {
    var error, code := SearchGet(search, "error"), SearchGet(search, "code");
    if !(hasWindow && renderedStep == Start) then Ignore
    else if Truthy(error) then ShowError("授权失败: " + error.value)
    else if Truthy(code) then AcceptCode(code.value)
    else Ignore
  }

  /** The second effect: a code alone, while the rendered step is "start"; errors are not looked at. */
  function SecondEffectAction(hasWindow: bool, renderedStep: Step, search: map<string, seq<string>>): (a: CallbackAction)
    ensures !a.ShowError?
    ensures var code := SearchGet(search, "code");
      && (a.AcceptCode? <==> hasWindow && renderedStep == Start && Truthy(code))
      && (a.AcceptCode? ==> a.code == code.value)
  {
    var code := SearchGet(search, "code");
    if hasWindow && Truthy(code) && renderedStep == Start then AcceptCode(code.value) else Ignore
  }

  /** Neither effect reads the `state` parameter: the client never checks the state it sent. */
  lemma StateNeverChecked(hasWindow: bool, renderedStep: Step, search: map<string, seq<string>>, forged: seq<string>)
    ensures FirstEffectAction(hasWindow, renderedStep, search["state" := forged])
         == FirstEffectAction(hasWindow, renderedStep, search)
    ensures SecondEffectAction(hasWindow, renderedStep, search["state" := forged])
         == SecondEffectAction(hasWindow, renderedStep, search)
  {
    assert SearchGet(search["state" := forged], "code") == SearchGet(search, "code");
    assert SearchGet(search["state" := forged], "error") == SearchGet(search, "error");
  }

  /** Once the rendered step has left "start", neither effect does anything. */
  lemma EffectsOnlyAtStart(hasWindow: bool, renderedStep: Step, search: map<string, seq<string>>)
    requires renderedStep != Start
    ensures FirstEffectAction(hasWindow, renderedStep, search) == Ignore
    ensures SecondEffectAction(hasWindow, renderedStep, search) == Ignore
  {
  }

  // ---------------------------------------------------------------- the page

  class TestClientPage {
    const browser: Browser
    var step: Step
    var authCode: string
    var accessToken: string
    var userInfo: Option<FrontUser>
    var error: string
    var loading: bool

    /** The page never reaches the token steps without a code, and is idle between handlers. */
    ghost predicate Valid()
      reads this
    {
      (step == TokenStep || step == UserinfoStep ==> authCode != "") && !loading
    }

    /** The initial state of the component. */
    constructor (browser: Browser)
      ensures Valid()
      ensures this.browser == browser && step == Start && authCode == "" && accessToken == ""
      ensures userInfo.None? && error == "" && !loading
    {
      this.browser := browser;
      step := Start;
      authCode := "";
      accessToken := "";
      userInfo := None;
      error := "";
      loading := false;
    }

    /** `handleStartOAuth`: clears the error, marks the step and loads the backend's authorization endpoint. */
    method StartOAuth()
      requires Valid()
      modifies this`error, this`step, browser`effects
      ensures Valid()
      ensures error == "" && step == Authorizing
      ensures browser.effects == old(browser.effects) + [Navigate(AuthorizeTarget)]
    {
      error := "";
      step := Authorizing;
      var authorizeUrl := Url(BackendBase + "/oauth/authorize", map[]);
      authorizeUrl := SetParam(authorizeUrl, "client_id", ClientId);
      authorizeUrl := SetParam(authorizeUrl, "redirect_uri", RedirectUri);
      authorizeUrl := SetParam(authorizeUrl, "response_type", "code");
      authorizeUrl := SetParam(authorizeUrl, "state", TestState);
      browser.effects := browser.effects + [Navigate(authorizeUrl)];
    }

    /** Carries out what a callback effect decided; the address loses its query either way. */
    method Apply(a: CallbackAction)
      requires Valid()
      requires a.AcceptCode? ==> a.code != ""
      modifies this`error, this`step, this`authCode, browser`search, browser`effects
      ensures Valid()
      ensures a == Ignore ==> unchanged(this) && unchanged(browser)
      ensures a.ShowError? ==> error == a.message && step == Start && authCode == old(authCode)
      ensures a.AcceptCode? ==> authCode == a.code && step == TokenStep && error == old(error)
      ensures a != Ignore ==> browser.search == map[] && browser.effects == old(browser.effects) + [ReplaceState(SelfPath)]
    {
      match a
      case Ignore =>
      case ShowError(message) =>
        error := message;
        step := Start;
        browser.search := map[];
        browser.effects := browser.effects + [ReplaceState(SelfPath)];
      case AcceptCode(code) =>
        authCode := code;
        step := TokenStep;
        browser.search := map[];
        browser.effects := browser.effects + [ReplaceState(SelfPath)];
    }

    /** The first callback effect, run for a render whose step was `renderedStep`. */
    method CallbackEffect(renderedStep: Step)
      requires Valid()
      modifies this`error, this`step, this`authCode, browser`search, browser`effects
      ensures Valid()
      ensures var a := FirstEffectAction(browser.hasWindow, renderedStep, old(browser.search));
        && (a == Ignore ==> unchanged(this) && unchanged(browser))
        && (a.ShowError? ==> error == a.message && step == Start && authCode == old(authCode))
        && (a.AcceptCode? ==> authCode == a.code && step == TokenStep && error == old(error))
        && (a != Ignore ==> browser.search == map[] && browser.effects == old(browser.effects) + [ReplaceState(SelfPath)])
    {
      if browser.hasWindow && renderedStep == Start {
        var code := SearchGet(browser.search, "code");
        var err := SearchGet(browser.search, "error");
        if Truthy(err) {
          Apply(ShowError("授权失败: " + err.value));
          return;
        }
        if Truthy(code) {
          Apply(AcceptCode(code.value));
        }
      }
    }

    /** The second callback effect, run for a render whose step was `renderedStep`. */
    method CodeEffect(renderedStep: Step)
      requires Valid()
      modifies this`error, this`step, this`authCode, browser`search, browser`effects
      ensures Valid()
      ensures var a := SecondEffectAction(browser.hasWindow, renderedStep, old(browser.search));
        && (a == Ignore ==> unchanged(this) && unchanged(browser))
        && (a.AcceptCode? ==> authCode == a.code && step == TokenStep && error == old(error))
        && (a != Ignore ==> browser.search == map[] && browser.effects == old(browser.effects) + [ReplaceState(SelfPath)])
    {
      if browser.hasWindow {
        var code := SearchGet(browser.search, "code");
        if Truthy(code) && renderedStep == Start {
          Apply(AcceptCode(code.value));
        }
      }
    }

    /**
     * Both effects after one render, in the order they are declared: the
     * second never adds anything to what the first did, because the first
     * has already cleared the address whenever it acted on a code.
     */
    method RunEffects()
      requires Valid()
      modifies this`error, this`step, this`authCode, browser`search, browser`effects
      ensures Valid()
      ensures var a := FirstEffectAction(browser.hasWindow, old(step), old(browser.search));
        && (a == Ignore ==> unchanged(this) && unchanged(browser))
        && (a.ShowError? ==> error == a.message && step == Start && authCode == old(authCode))
        && (a.AcceptCode? ==> authCode == a.code && step == TokenStep && error == old(error))
        && (a != Ignore ==> browser.search == map[] && browser.effects == old(browser.effects) + [ReplaceState(SelfPath)])
    {
      var rendered := step;
      CallbackEffect(rendered);
      CodeEffect(rendered);
    }

    /**
     * `handleExchangeToken`: with a code, posts the token form; on success
     * keeps the access token and moves to the userinfo step, otherwise shows
     * the error and stays.  Without a code the click does nothing.
     */
    method ExchangeToken(outcome: Fetched<TokenBody>)
      requires Valid()
      modifies this`loading, this`error, this`accessToken, this`step, browser`effects
      ensures Valid()
      ensures old(authCode) == "" ==> unchanged(this) && unchanged(browser)
      ensures authCode == old(authCode) && userInfo == old(userInfo)
      ensures old(authCode) != "" ==>
        && browser.effects == old(browser.effects) + [Send(TokenRequest(authCode))]
        && (ResponseOk(outcome) ==> accessToken == outcome.body.accessToken && step == UserinfoStep && error == "")
        && (!ResponseOk(outcome) ==> accessToken == old(accessToken) && step == old(step) && error == ExchangeError(outcome))
    {
      if authCode == "" {
        return;
      }
      loading := true;
      error := "";
      browser.effects := browser.effects + [Send(TokenRequest(authCode))];
      if ResponseOk(outcome) {
        accessToken := outcome.body.accessToken;
        step := UserinfoStep;
      } else {
        error := ExchangeError(outcome);
      }
      loading := false;
    }

    /**
     * `handleGetUserInfo`: with an access token, fetches the user; on
     * success shows it, otherwise shows the error.  The step never changes.
     */
    method GetUserInfo(outcome: Fetched<UserInfoBody>)
      requires Valid()
      modifies this`loading, this`error, this`userInfo, browser`effects
      ensures Valid()
      ensures old(accessToken) == "" ==> unchanged(this) && unchanged(browser)
      ensures step == old(step) && authCode == old(authCode)
      ensures old(accessToken) != "" ==>
        && browser.effects == old(browser.effects) + [Send(UserInfoRequest(accessToken))]
        && (ResponseOk(outcome) ==> userInfo == outcome.body.data && error == "")
        && (!ResponseOk(outcome) ==> userInfo == old(userInfo) && error == UserInfoError(outcome))
    {
      if accessToken == "" {
        return;
      }
      loading := true;
      error := "";
      browser.effects := browser.effects + [Send(UserInfoRequest(accessToken))];
      if ResponseOk(outcome) {
        userInfo := outcome.body.data;
      } else {
        error := UserInfoError(outcome);
      }
      loading := false;
    }
  }
}
