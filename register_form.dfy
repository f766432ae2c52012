/**
 * The registration form (`RegisterForm`): it checks the fields, calls the
 * register endpoint, and on success moves to the login page without
 * logging in.
 */
module RegisterForm {
  import opened Wrappers
  import opened Session
  import opened ApiClient
  import opened FormRules

  datatype Field = EmailField | PasswordField | ConfirmField | NameField

  const RegisteredPath: string := "/login?registered=true"

  /**
   * `validateForm`, in its order: both required fields, the email pattern,
   * at least six UTF-16 code units of password, and the confirmation.  The
   * name is not checked.
   */
  function RegisterValidation(email: string, password: string, confirm: string): (r: Option<string>)
    ensures r.None? <==> email != "" && password != "" && FrontEmailPattern(email)
                         && Utf16Len(password) >= MinPasswordLength && password == confirm
    ensures email == "" || password == "" ==> r == Some("邮箱和密码不能为空")
    ensures email != "" && password != "" && !FrontEmailPattern(email) ==> r == Some("邮箱格式不正确")
    ensures email != "" && password != "" && FrontEmailPattern(email) && Utf16Len(password) < MinPasswordLength ==>
              r == Some("密码必须至少 6 个字符")
    ensures (email != "" && password != "" && FrontEmailPattern(email) && Utf16Len(password) >= MinPasswordLength
             && password != confirm) ==> r == Some("两次输入的密码不一致")
  {
    FrontEmailMatchesPattern(email);
    if email == "" || password == "" then Some("邮箱和密码不能为空")
    else if !FrontEmailMatches(email) then Some("邮箱格式不正确")
    else if Utf16Len(password) < MinPasswordLength then Some("密码必须至少 6 个字符")
    else if password != confirm then Some("两次输入的密码不一致")
    else None
  }

  /** The request `register(email, password, name)` puts on the wire, before the interceptor. */
  function RegisterCall(b: Browser, email: string, password: string, name: string): Request
    reads b
  {
    Request("POST", BaseUrl(b.apiBaseEnv) + RegisterPath, None, [("email", email), ("password", password), ("name", name)])
  }

  class Form {
    const browser: Browser
    var email: string
    var password: string
    var confirmPassword: string
    var name: string
    var error: string
    var loading: bool

    constructor (browser: Browser)
      ensures this.browser == browser && email == "" && password == "" && confirmPassword == "" && name == ""
      ensures error == "" && !loading
    {
      this.browser := browser;
      email := "";
      password := "";
      confirmPassword := "";
      name := "";
      error := "";
      loading := false;
    }

    /** `handleChange`: the edited field takes the new value and the error is cleared. */
    method HandleChange(field: Field, value: string)
      modifies this`email, this`password, this`confirmPassword, this`name, this`error
      ensures email == (if field == EmailField then value else old(email))
      ensures password == (if field == PasswordField then value else old(password))
      ensures confirmPassword == (if field == ConfirmField then value else old(confirmPassword))
      ensures name == (if field == NameField then value else old(name))
      ensures error == ""
    {
      match field {
        case EmailField => email := value;
        case PasswordField => password := value;
        case ConfirmField => confirmPassword := value;
        case NameField => name := value;
      }
      error := "";
    }

    /**
     * `handleSubmit` with the server's answer.  An invalid form sends
     * nothing.  A reply that reports success moves to the login page and
     * stores nothing; any other answer shows a message, and a 401 also ends
     * the session through the interceptor.
     */
    method HandleSubmit(answer: ServerAnswer<FrontUser>)
      requires !loading
      modifies this`error, this`loading, browser`storage, browser`effects
      ensures !loading && email == old(email) && password == old(password)
      ensures confirmPassword == old(confirmPassword) && name == old(name)
      ensures RegisterValidation(email, password, confirmPassword).Some? ==>
                error == RegisterValidation(email, password, confirmPassword).value && unchanged(browser)
      ensures RegisterValidation(email, password, confirmPassword).None? ==>
        var sent := [Send(AttachToken(RegisterCall(browser, email, password, name), browser.hasWindow,
                                      old(browser.storage)))];
        && (answer.Answer? && IsSuccess(answer.status) ==> browser.storage == old(browser.storage))
        && (answer.Answer? && IsSuccess(answer.status) && answer.body.success ==>
              error == "" && browser.effects == old(browser.effects) + sent + [Push(RegisteredPath)])
        && (answer.Answer? && IsSuccess(answer.status) && !answer.body.success ==>
              error == ResolvedMessage(answer.body, "注册失败，请稍后重试")
              && browser.effects == old(browser.effects) + sent)
        && (!(answer.Answer? && IsSuccess(answer.status)) ==>
              && error == RejectionMessage(answer, "注册失败，请稍后重试")
              && browser.storage == (if EndsSession(answer, browser.hasWindow)
                                     then old(browser.storage) - {TokenKey, UserKey} else old(browser.storage))
              && browser.effects == old(browser.effects) + sent
                                    + (if EndsSession(answer, browser.hasWindow) then [Navigate(LoginPage)] else []))
    {
      var invalid := RegisterValidation(email, password, confirmPassword);
      if invalid.Some? {
        error := invalid.value;
        return;
      }
      loading := true;
      error := "";
      var settled := ApiClient.Register(browser, email, password, name, answer);
      match settled {
        case Resolved(body) =>
          if body.success {
            browser.effects := browser.effects + [Push(RegisteredPath)];
          } else {
            error := ResolvedMessage(body, "注册失败，请稍后重试");
          }
        case Rejected(a) =>
          error := RejectionMessage(a, "注册失败，请稍后重试");
      }
      loading := false;
    }
  }
}
