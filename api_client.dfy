/**
 * The frontend's HTTP client (`frontend/lib/api.ts`): an axios instance
 * whose request interceptor attaches the stored token and whose response
 * interceptor ends the session on a 401, and the three account calls built
 * on it.  A call is modelled from the request it sends to the promise it
 * settles, given the server's answer.
 */
module ApiClient {
  import opened Wrappers
  import opened Session

  const DefaultBaseUrl: string := "http://localhost:8080"

  /** `process.env.NEXT_PUBLIC_API_BASE_URL || 'http://localhost:8080'`. */
  function BaseUrl(env: Option<string>): (r: string)
    ensures env.Some? && env.value != "" ==> r == env.value
    ensures env.None? || env.value == "" ==> r == DefaultBaseUrl
  {
    if env.Some? && env.value != "" then env.value else DefaultBaseUrl
  }

  /** `ApiResponse<T>` as decoded from a reply body; an absent `error` reads as "". */
  datatype Envelope<T> = Envelope(success: bool, message: string, data: Option<T>, error: string)

  /** `LoginResponse` of the frontend. */
  datatype LoginData = LoginData(token: string, user: FrontUser)

  /** What the server did with a request: no answer at all, or a status and a body. */
  datatype ServerAnswer<T> = NoResponse | Answer(status: nat, body: Envelope<T>)

  /** The promise a call returns: resolved with the body, or rejected with the axios error carrying the answer. */
  datatype Settled<T> = Resolved(body: Envelope<T>) | Rejected(answer: ServerAnswer<T>)

  /** axios's default `validateStatus`. */
  predicate IsSuccess(status: nat) {
    200 <= status < 300
  }

  /**
   * The request interceptor: `Authorization: Bearer <token>` when there is a
   * window and the stored token is truthy (present and non-empty); otherwise
   * the request goes out as it was.
   */
  function AttachToken(req: Request, hasWindow: bool, storage: map<string, string>): (r: Request)
    ensures r.verb == req.verb && r.url == req.url && r.body == req.body
    ensures hasWindow && TokenKey in storage && storage[TokenKey] != "" ==>
              r.authorization == Some("Bearer " + storage[TokenKey])
    ensures !(hasWindow && TokenKey in storage && storage[TokenKey] != "") ==> r == req
  {
    if hasWindow && TokenKey in storage && storage[TokenKey] != "" then
      req.(authorization := Some("Bearer " + storage[TokenKey]))
    else req
  }

  /** The response interceptor clears the session exactly on a 401 answer in a browser. */
  predicate EndsSession<T>(answer: ServerAnswer<T>, hasWindow: bool) {
    answer.Answer? && answer.status == 401 && hasWindow
  }

  /**
   * One request through both interceptors.  A 401 removes `token` and
   * `user` and sends the browser to `/login`, and the call is still
   * rejected with the original error; any other failure is rejected
   * untouched, and a success passes through.
   */
  method Call<T>(b: Browser, req: Request, answer: ServerAnswer<T>) returns (r: Settled<T>)
    modifies b`storage, b`effects
    ensures b.effects == old(b.effects) + [Send(AttachToken(req, b.hasWindow, old(b.storage)))]
                         + (if EndsSession(answer, b.hasWindow) then [Navigate(LoginPage)] else [])
    ensures b.storage == if EndsSession(answer, b.hasWindow) then old(b.storage) - {TokenKey, UserKey} else old(b.storage)
    ensures answer.Answer? && IsSuccess(answer.status) ==> r == Resolved(answer.body)
    ensures !(answer.Answer? && IsSuccess(answer.status)) ==> r == Rejected(answer)
  {
    // request interceptor
    var sent := req;
    if b.hasWindow {
      if TokenKey in b.storage && b.storage[TokenKey] != "" {
        sent := sent.(authorization := Some("Bearer " + b.storage[TokenKey]));
      }
    }
    b.effects := b.effects + [Send(sent)];
    // response interceptors
    if answer.Answer? && IsSuccess(answer.status) {
      return Resolved(answer.body);
    }
    if answer.Answer? && answer.status == 401 && b.hasWindow {
      b.storage := b.storage - {TokenKey};
      b.storage := b.storage - {UserKey};
      b.effects := b.effects + [Navigate(LoginPage)];
    }
    r := Rejected(answer);
  }

  /** The three endpoints, under the base URL. */
  const RegisterPath: string := "/api/auth/register"
  const LoginPath: string := "/api/auth/login"
  const MePath: string := "/api/auth/me"

  /** `register(email, password, name)`: POST to `/api/auth/register`, resolving with the body. */
  method Register(b: Browser, email: string, password: string, name: string, answer: ServerAnswer<FrontUser>)
    returns (r: Settled<FrontUser>)
    modifies b`storage, b`effects
    ensures var req := Request("POST", BaseUrl(b.apiBaseEnv) + RegisterPath, None,
                               [("email", email), ("password", password), ("name", name)]);
      b.effects == old(b.effects) + [Send(AttachToken(req, b.hasWindow, old(b.storage)))]
                   + (if EndsSession(answer, b.hasWindow) then [Navigate(LoginPage)] else [])
    ensures b.storage == if EndsSession(answer, b.hasWindow) then old(b.storage) - {TokenKey, UserKey} else old(b.storage)
    ensures r == if answer.Answer? && IsSuccess(answer.status) then Resolved(answer.body) else Rejected(answer)
  {
    r := Call(b, Request("POST", BaseUrl(b.apiBaseEnv) + RegisterPath, None,
                         [("email", email), ("password", password), ("name", name)]), answer);
  }

  /** `login(email, password)`: POST to `/api/auth/login`, resolving with the body. */
  method Login(b: Browser, email: string, password: string, answer: ServerAnswer<LoginData>)
    returns (r: Settled<LoginData>)
    modifies b`storage, b`effects
    ensures var req := Request("POST", BaseUrl(b.apiBaseEnv) + LoginPath, None, [("email", email), ("password", password)]);
      b.effects == old(b.effects) + [Send(AttachToken(req, b.hasWindow, old(b.storage)))]
                   + (if EndsSession(answer, b.hasWindow) then [Navigate(LoginPage)] else [])
    ensures b.storage == if EndsSession(answer, b.hasWindow) then old(b.storage) - {TokenKey, UserKey} else old(b.storage)
    ensures r == if answer.Answer? && IsSuccess(answer.status) then Resolved(answer.body) else Rejected(answer)
  {
    r := Call(b, Request("POST", BaseUrl(b.apiBaseEnv) + LoginPath, None, [("email", email), ("password", password)]),
              answer);
  }

  /** `getCurrentUser()`: GET `/api/auth/me`, resolving with the body. */
  method GetCurrentUser(b: Browser, answer: ServerAnswer<FrontUser>) returns (r: Settled<FrontUser>)
    modifies b`storage, b`effects
    ensures var req := Request("GET", BaseUrl(b.apiBaseEnv) + MePath, None, []);
      b.effects == old(b.effects) + [Send(AttachToken(req, b.hasWindow, old(b.storage)))]
                   + (if EndsSession(answer, b.hasWindow) then [Navigate(LoginPage)] else [])
    ensures b.storage == if EndsSession(answer, b.hasWindow) then old(b.storage) - {TokenKey, UserKey} else old(b.storage)
    ensures r == if answer.Answer? && IsSuccess(answer.status) then Resolved(answer.body) else Rejected(answer)
  {
    r := Call(b, Request("GET", BaseUrl(b.apiBaseEnv) + MePath, None, []), answer);
  }
}
