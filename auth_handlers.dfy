/**
 * The account endpoints (`handlers.AuthHandler`): `POST /api/auth/register`,
 * `POST /api/auth/login` and `GET /api/auth/me`.  Each maps the service's
 * result to one status and one envelope.
 */
module AuthHandlers {
  import opened Wrappers
  import opened Models
  import opened Errors
  import opened Store
  import opened Http
  import AuthService

  /**
   * `ShouldBindJSON` into a request struct named `structName`: `body` is the
   * decoded JSON or the decoder's error text, and `fields` lists the
   * required fields of the decoded value with their contents.
   */
  function BindRequired<T>(body: Result<T, string>, structName: string, fields: T -> seq<(string, string)>)
    : (r: Result<T, string>)
    ensures body.Err? ==> r == body
    ensures body.Ok? ==> (r.Ok? <==> forall k :: 0 <= k < |fields(body.value)| ==> fields(body.value)[k].1 != "")
    ensures r.Ok? ==> r == body
  {
    match body
    case Err(e) => Err(e)
    case Ok(req) =>
      var missing := RequiredCheck(structName, fields(req));
      if missing.Some? then Err(missing.value) else Ok(req)
  }

  /** `RegisterRequest`: `email` and `password` are required, `name` is not. */
  function BindRegister(body: Result<AuthService.RegisterRequest, string>): (r: Result<AuthService.RegisterRequest, string>)
    ensures body.Err? ==> r == body
    ensures body.Ok? ==> (r.Ok? <==> body.value.email != "" && body.value.password != "")
    ensures r.Ok? ==> r == body
  {
    var fields := (req: AuthService.RegisterRequest) => [("Email", req.email), ("Password", req.password)];
    assert body.Ok? ==>
      ((forall k :: 0 <= k < |fields(body.value)| ==> fields(body.value)[k].1 != "")
       <==> body.value.email != "" && body.value.password != "") by {
      if body.Ok? {
        assert fields(body.value)[0].1 == body.value.email && fields(body.value)[1].1 == body.value.password;
      }
    }
    BindRequired(body, "RegisterRequest", fields)
  }

  /** How `Register` reports a service error. */
  function RegisterError(e: ServiceError): (r: Reply)
    ensures r.Json? && !r.body.success && r.body.message == "注册失败" && r.body.error == ErrorText(e)
    ensures r.status == StatusBadRequest <==> e == InvalidEmail || e == WeakPassword
    ensures r.status == StatusConflict <==> e == EmailExists
    ensures r.status == StatusInternalServerError <==> !(e == InvalidEmail || e == WeakPassword || e == EmailExists)
  {
    match e
    case InvalidEmail => Fail(StatusBadRequest, "注册失败", Some(e))
    case WeakPassword => Fail(StatusBadRequest, "注册失败", Some(e))
    case EmailExists => Fail(StatusConflict, "注册失败", Some(e))
    case _ => Fail(StatusInternalServerError, "注册失败", Some(e))
  }

  /**
   * `Register`: 400 for an unbindable body or a bad email or password, 409
   * for a taken email, 500 when hashing fails, else 201 with the new user's
   * public view.  Only the 201 path adds a row.
   */
  method Register(s: AuthService.AuthService, db: Database, body: Result<AuthService.RegisterRequest, string>,
                  hash: string -> Option<string>, now: Time)
    returns (reply: Reply)
    requires db.Valid()
    modifies db`users
    ensures db.Valid()
    ensures BindRegister(body).Err? ==> reply == BindFail(BindRegister(body).error) && db.users == old(db.users)
    ensures BindRegister(body).Ok? ==>
      var req := body.value;
      var check := AuthService.RegisterCheck(old(db.users), req.email, req.password);
      && (check.Some? ==> reply == RegisterError(check.value) && db.users == old(db.users))
      && (check.None? && hash(req.password).None? ==>
            reply.Json? && reply.status == StatusInternalServerError && db.users == old(db.users))
      && (check.None? && hash(req.password).Some? ==>
            var u := AuthService.NewUserRow(old(db.users), req, hash(req.password).value, now);
            && reply == Succeed(StatusCreated, "注册成功", UserData(UserToResponse(u)))
            && db.users == old(db.users) + [u])
  {
    // 1. binding
    var bound := BindRegister(body);
    if bound.Err? {
      return BindFail(bound.error);
    }
    // 2. the service
    var user := AuthService.Register(s, db, bound.value, hash, now);
    if user.Err? {
      return RegisterError(user.error);
    }
    // 3. the reply
    reply := Succeed(StatusCreated, "注册成功", UserData(UserToResponse(user.value)));
  }

  /** `LoginRequest`: `email` and `password` are required. */
  function BindLogin(body: Result<AuthService.LoginRequest, string>): (r: Result<AuthService.LoginRequest, string>)
    ensures body.Err? ==> r == body
    ensures body.Ok? ==> (r.Ok? <==> body.value.email != "" && body.value.password != "")
    ensures r.Ok? ==> r == body
  {
    var fields := (req: AuthService.LoginRequest) => [("Email", req.email), ("Password", req.password)];
    assert body.Ok? ==>
      ((forall k :: 0 <= k < |fields(body.value)| ==> fields(body.value)[k].1 != "")
       <==> body.value.email != "" && body.value.password != "") by {
      if body.Ok? {
        assert fields(body.value)[0].1 == body.value.email && fields(body.value)[1].1 == body.value.password;
      }
    }
    BindRequired(body, "LoginRequest", fields)
  }

  /** How `Login` reports a service error. */
  function LoginError(e: ServiceError): (r: Reply)
    ensures r.Json? && !r.body.success && r.body.message == "登录失败" && r.body.error == ErrorText(e)
    ensures r.status == StatusUnauthorized <==> e == InvalidCredentials
    ensures r.status == StatusInternalServerError <==> e != InvalidCredentials
  {
    if e == InvalidCredentials then Fail(StatusUnauthorized, "登录失败", Some(e))
    else Fail(StatusInternalServerError, "登录失败", Some(e))
  }

  /**
   * `Login`: 400 for an unbindable body, one and the same 401 for an unknown
   * email and for a wrong password, else 200 with a session token for the
   * user and the user's public view.
   */
  function Login(s: AuthService.AuthService, users: seq<User>, body: Result<AuthService.LoginRequest, string>,
                 passwordMatches: (string, string) -> bool, now: Time)
    : (r: Reply)
    ensures BindLogin(body).Err? ==> r == BindFail(BindLogin(body).error)
    ensures BindLogin(body).Ok? ==>
      var req := body.value;
      var found := UserByEmail(users, req.email);
      && (found.None? || !passwordMatches(found.value.password, req.password) ==>
            r == Fail(StatusUnauthorized, "登录失败", Some(InvalidCredentials)))
      && (found.Some? && passwordMatches(found.value.password, req.password) ==>
            var token := s.keys.sign(AuthService.SessionClaims(found.value.id, now, s.jwtExpire));
            r == Succeed(StatusOK, "登录成功", LoginData(AuthService.LoginResponse(token, UserToResponse(found.value)))))
  {
    match BindLogin(body)
    case Err(e) => BindFail(e)
    case Ok(req) =>
      match AuthService.Login(s, users, req, passwordMatches, now)
      case Err(e) => LoginError(e)
      case Ok(resp) => Succeed(StatusOK, "登录成功", LoginData(resp))
  }

  /**
   * `GetCurrentUser`, given the id the middleware stored (`None` when it
   * stored none): 401 without one, 500 for any lookup failure, an unknown
   * user included, else 200 with the user's public view.
   */
  function GetCurrentUser(users: seq<User>, userId: Option<nat>): (r: Reply)
    ensures r.Json?
    ensures userId.None? ==> r == Fail(StatusUnauthorized, "未授权", None)
    ensures userId.Some? ==>
      && (r.status == StatusInternalServerError <==> forall k :: 0 <= k < |users| ==> users[k].id != userId.value)
      && (r.status == StatusInternalServerError ==> r.body.error == ErrorText(UserNotFound))
      && (r.status != StatusInternalServerError ==>
            exists u :: u in users && u.id == userId.value
                        && r == Succeed(StatusOK, "获取成功", UserData(UserToResponse(u))))
  {
    match userId
    case None => Fail(StatusUnauthorized, "未授权", None)
    case Some(id) =>
      match AuthService.GetUserByID(users, id)
      case Err(e) => Fail(StatusInternalServerError, "获取用户信息失败", Some(e))
      case Ok(u) => Succeed(StatusOK, "获取成功", UserData(UserToResponse(u)))
  }
}
