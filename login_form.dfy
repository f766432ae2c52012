/**
 * The login form (`LoginForm`): it checks the two fields, calls the login
 * endpoint, and on success stores the session and moves to the dashboard.
 */
module LoginForm {
  import opened Wrappers
  import opened Session
  import opened ApiClient
  import opened FormRules

  datatype Field = EmailField | PasswordField

  const DashboardPath: string := "/dashboard"

  /** `validateForm`: the message it shows, or `None` when the form may be sent. */
  function LoginValidation(email: string, password: string): (r: Option<string>)
    ensures r.None? <==> email != "" && password != "" && FrontEmailPattern(email)
    ensures email == "" || password == "" ==> r == Some("邮箱和密码不能为空")
    ensures email != "" && password != "" && !FrontEmailPattern(email) ==> r == Some("邮箱格式不正确")
  {
    FrontEmailMatchesPattern(email);
    if email == "" || password == "" then Some("邮箱和密码不能为空")
    else if !FrontEmailMatches(email) then Some("邮箱格式不正确")
    else None
  }

  /** A login the form takes as successful: a 2xx reply that says so and carries data. */
  predicate LoginAccepted(answer: ServerAnswer<LoginData>) {
    answer.Answer? && IsSuccess(answer.status) && answer.body.success && answer.body.data.Some?
  }

  /** The request `login(email, password)` puts on the wire, before the interceptor. */
  function LoginCall(b: Browser, email: string, password: string): Request
    reads b
  {
    Request("POST", BaseUrl(b.apiBaseEnv) + LoginPath, None, [("email", email), ("password", password)])
  }

  class Form {
    const browser: Browser
    var email: string
    var password: string
    var error: string
    var loading: bool

    constructor (browser: Browser)
      ensures this.browser == browser && email == "" && password == "" && error == "" && !loading
    {
      this.browser := browser;
      email := "";
      password := "";
      error := "";
      loading := false;
    }

    /** `handleChange`: the edited field takes the new value and the error is cleared. */
    method HandleChange(field: Field, value: string)
      modifies this`email, this`password, this`error
      ensures field == EmailField ==> email == value && password == old(password)
      ensures field == PasswordField ==> password == value && email == old(email)
      ensures error == ""
    {
      match field {
        case EmailField => email := value;
        case PasswordField => password := value;
      }
      error := "";
    }

    /**
     * `handleSubmit` with the server's answer.  An invalid form sends
     * nothing.  An accepted login stores the token and the user, then
     * moves to the dashboard; any other answer shows a message, and a 401
     * also ends the session through the interceptor.
     */
    method HandleSubmit(answer: ServerAnswer<LoginData>)
      requires !loading
      modifies this`error, this`loading, browser`storage, browser`effects
      ensures !loading && email == old(email) && password == old(password)
      ensures LoginValidation(email, password).Some? ==>
                error == LoginValidation(email, password).value && unchanged(browser)
      ensures LoginValidation(email, password).None? ==>
        var sent := [Send(AttachToken(LoginCall(browser, email, password), browser.hasWindow, old(browser.storage)))];
        && (LoginAccepted(answer) ==>
              var data := answer.body.data.value;
              && error == ""
              && browser.storage == (if browser.hasWindow
                                     then old(browser.storage)[TokenKey := data.token][UserKey := StringifyUser(data.user)]
                                     else old(browser.storage))
              && (browser.hasWindow ==> browser.GetToken() == Some(data.token) && browser.GetUser() == Some(data.user))
              && browser.effects == old(browser.effects) + sent + [Push(DashboardPath)])
        && (answer.Answer? && IsSuccess(answer.status) && !LoginAccepted(answer) ==>
              && error == ResolvedMessage(answer.body, "登录失败，请稍后重试")
              && browser.storage == old(browser.storage)
              && browser.effects == old(browser.effects) + sent)
        && (!(answer.Answer? && IsSuccess(answer.status)) ==>
              && error == RejectionMessage(answer, "登录失败，请检查邮箱和密码")
              && browser.storage == (if EndsSession(answer, browser.hasWindow)
                                     then old(browser.storage) - {TokenKey, UserKey} else old(browser.storage))
              && browser.effects == old(browser.effects) + sent
                                    + (if EndsSession(answer, browser.hasWindow) then [Navigate(LoginPage)] else []))
    {
      var invalid := LoginValidation(email, password);
      if invalid.Some? {
        error := invalid.value;
        return;
      }
      loading := true;
      error := "";
      var settled := ApiClient.Login(browser, email, password, answer);
      match settled {
        case Resolved(body) =>
          if body.success && body.data.Some? {
            browser.SetToken(body.data.value.token);
            browser.SetUser(body.data.value.user);
            browser.effects := browser.effects + [Push(DashboardPath)];
          } else {
            error := ResolvedMessage(body, "登录失败，请稍后重试");
          }
        case Rejected(a) =>
          error := RejectionMessage(a, "登录失败，请检查邮箱和密码");
      }
      loading := false;
    }
  }
}
