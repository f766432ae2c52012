/**
 * The dashboard (`/dashboard`): on mount it checks for a session, fetches
 * the current user, and falls back to logging out when that fails.
 */
module Dashboard {
  import opened Wrappers
  import opened Session
  import opened ApiClient

  const LoginRoute: string := "/login"

  /** The delay before the fallback `logout()`, in milliseconds. */
  const LogoutDelayMs: nat := 2000

  /** The request `getCurrentUser()` puts on the wire, before the interceptor. */
  function MeCall(b: Browser): Request
    reads b
  {
    Request("GET", BaseUrl(b.apiBaseEnv) + MePath, None, [])
  }

  class Page {
    const browser: Browser
    var user: Option<FrontUser>
    var loading: bool
    var error: string

    constructor (browser: Browser)
      ensures this.browser == browser && user.None? && loading && error == ""
    {
      this.browser := browser;
      user := None;
      loading := true;
      error := "";
    }

    /**
     * `fetchUserData` with the server's answer.  Without a session it goes
     * to `/login` and the page stays loading.  With one it asks the backend;
     * the user is shown only when the reply says success and carries data,
     * and any failure shows a message and schedules a logout.
     */
    method FetchUserData(answer: ServerAnswer<FrontUser>)
      modifies this`user, this`loading, this`error, browser`storage, browser`effects
      ensures !old(browser.IsAuthenticated()) ==>
        && unchanged(this)
        && browser.storage == old(browser.storage)
        && browser.effects == old(browser.effects) + [Push(LoginRoute)]
      ensures old(browser.IsAuthenticated()) ==>
        var sent := [Send(AttachToken(MeCall(browser), browser.hasWindow, old(browser.storage)))];
        && !loading
        && (answer.Answer? && IsSuccess(answer.status) && answer.body.success && answer.body.data.Some? ==>
              user == answer.body.data && error == old(error)
              && browser.storage == old(browser.storage) && browser.effects == old(browser.effects) + sent)
        && (answer.Answer? && IsSuccess(answer.status) && !(answer.body.success && answer.body.data.Some?) ==>
              user == old(user) && error == "获取用户信息失败"
              && browser.storage == old(browser.storage)
              && browser.effects == old(browser.effects) + sent + [ScheduleLogout(LogoutDelayMs)])
        && (!(answer.Answer? && IsSuccess(answer.status)) ==>
              && user == old(user) && error == "获取用户信息失败，请重新登录"
              && browser.storage == (if EndsSession(answer, browser.hasWindow)
                                     then old(browser.storage) - {TokenKey, UserKey} else old(browser.storage))
              && browser.effects == old(browser.effects) + sent
                                    + (if EndsSession(answer, browser.hasWindow) then [Navigate(LoginPage)] else [])
                                    + [ScheduleLogout(LogoutDelayMs)])
    {
      if !browser.IsAuthenticated() {
        browser.effects := browser.effects + [Push(LoginRoute)];
        return;
      }
      var settled := ApiClient.GetCurrentUser(browser, answer);
      match settled {
        case Resolved(body) =>
          if body.success && body.data.Some? {
            user := body.data;
          } else {
            error := "获取用户信息失败";
            browser.effects := browser.effects + [ScheduleLogout(LogoutDelayMs)];
          }
        case Rejected(_) =>
          error := "获取用户信息失败，请重新登录";
          browser.effects := browser.effects + [ScheduleLogout(LogoutDelayMs)];
      }
      loading := false;
    }

    /** `handleLogout`: the session goes and the browser is sent to `/login`. */
    method HandleLogout()
      modifies browser`storage, browser`effects
      ensures browser.storage == if browser.hasWindow then old(browser.storage) - {TokenKey, UserKey} else old(browser.storage)
      ensures !browser.IsAuthenticated() && browser.GetUser().None?
      ensures browser.effects == old(browser.effects) + (if browser.hasWindow then [Navigate(LoginPage)] else [])
    {
      browser.Logout();
    }
  }
}
