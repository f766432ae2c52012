/**
 * Account registration, password login and session tokens
 * (`service.AuthService`).
 */
module AuthService {
  import opened Wrappers
  import opened Models
  import opened Errors
  import opened Jwt
  import opened Store
  import Urls

  /** The service's configuration: the JWT keys and `jwtExpire = expireHours * time.Hour`. */
  datatype AuthService = AuthService(keys: Keys, jwtExpire: Duration)

  datatype RegisterRequest = RegisterRequest(email: string, password: string, name: string)

  datatype LoginRequest = LoginRequest(email: string, password: string)

  datatype LoginResponse = LoginResponse(token: string, user: UserResponse)

  /** `len(password) >= 6` in `Register`. */
  const MinPasswordBytes: nat := 6

  // ---------------------------------------------------------------- the email pattern

  /** `[a-zA-Z0-9._%+\-]` */
  predicate IsLocalChar(c: char) {
    'a' <= c <= 'z' || 'A' <= c <= 'Z' || '0' <= c <= '9' || c in "._%+-"
  }

  /** `[a-zA-Z0-9.\-]` */
  predicate IsDomainChar(c: char) {
    'a' <= c <= 'z' || 'A' <= c <= 'Z' || '0' <= c <= '9' || c in ".-"
  }

  /** `[a-zA-Z]` */
  predicate IsLetter(c: char) {
    'a' <= c <= 'z' || 'A' <= c <= 'Z'
  }

  predicate AllLocal(s: string) { forall k :: 0 <= k < |s| ==> IsLocalChar(s[k]) }
  predicate AllDomain(s: string) { forall k :: 0 <= k < |s| ==> IsDomainChar(s[k]) }
  predicate AllLetters(s: string) { forall k :: 0 <= k < |s| ==> IsLetter(s[k]) }

  /**
   * What `^[a-zA-Z0-9._%+\-]+@[a-zA-Z0-9.\-]+\.[a-zA-Z]{2,}$` accepts: some
   * split of the whole string into a local part, `@`, a domain, `.` and a
   * top-level label of at least two letters.
   */
  ghost predicate EmailPattern(s: string) {
    exists i, j :: 0 < i && i + 1 < j && j + 2 < |s| && s[i] == '@' && s[j] == '.'
                   && AllLocal(s[..i]) && AllDomain(s[i + 1..j]) && AllLetters(s[j + 1..])
  }

  /** Position of the last `c` in `s`, or `|s|` when there is none. */
  function LastIndexOf(s: string, c: char): (i: nat)
    ensures i <= |s|
    ensures i < |s| ==> s[i] == c && forall j :: i < j < |s| ==> s[j] != c
    ensures i == |s| ==> forall j :: 0 <= j < |s| ==> s[j] != c
  {
    if s == [] then 0
    else if s[|s| - 1] == c then |s| - 1
    else
      var k := LastIndexOf(s[..|s| - 1], c);
      if k == |s| - 1 then |s| else k
  }

  /**
   * The matcher `emailRegex.MatchString` runs: neither the local part nor
   * the rest can hold `@`, and the top-level label cannot hold `.`, so the
   * split is at the only `@` and the last `.`.
   */
  predicate EmailMatches(s: string) {
    var i := Urls.IndexOf(s, '@');
    && 0 < i < |s|
    && AllLocal(s[..i])
    && var rest := s[i + 1..];
       var j := LastIndexOf(rest, '.');
       && 0 < j < |rest|
       && |rest| - j - 1 >= 2
       && AllDomain(rest[..j])
       && AllLetters(rest[j + 1..])
  }

  lemma EmailMatchesSound(s: string)
    requires EmailMatches(s)
    ensures EmailPattern(s)
  {
    var i := Urls.IndexOf(s, '@');
    var rest := s[i + 1..];
    var j := LastIndexOf(rest, '.');
    var j' := i + 1 + j;
    assert s[i + 1..j'] == rest[..j];
    assert s[j' + 1..] == rest[j + 1..];
    assert s[j'] == rest[j] == '.';
  }

  /** No character class of the pattern contains `@`, and the last label has no `.`. */
  lemma EmailMatchesComplete(s: string, i: nat, j: nat)
    requires 0 < i && i + 1 < j && j + 2 < |s| && s[i] == '@' && s[j] == '.'
    requires AllLocal(s[..i]) && AllDomain(s[i + 1..j]) && AllLetters(s[j + 1..])
    ensures EmailMatches(s)
  {
    forall k | 0 <= k < i
      ensures s[k] != '@'
    {
      assert s[k] == s[..i][k];
    }
    assert Urls.IndexOf(s, '@') == i;
    var rest := s[i + 1..];
    var jr := j - i - 1;
    assert rest[jr] == '.';
    forall k | jr < k < |rest|
      ensures rest[k] != '.'
    {
      assert rest[k] == s[j + 1..][k - jr - 1];
    }
    assert LastIndexOf(rest, '.') == jr;
    assert rest[..jr] == s[i + 1..j];
    assert rest[jr + 1..] == s[j + 1..];
  }

  /** The matcher accepts exactly the strings the pattern describes. */
  lemma EmailMatchesPattern(s: string)
    ensures EmailMatches(s) <==> EmailPattern(s)
  {
    if EmailMatches(s) {
      EmailMatchesSound(s);
    }
    if EmailPattern(s) {
      var i, j :| 0 < i && i + 1 < j && j + 2 < |s| && s[i] == '@' && s[j] == '.'
                  && AllLocal(s[..i]) && AllDomain(s[i + 1..j]) && AllLetters(s[j + 1..]);
      EmailMatchesComplete(s, i, j);
    }
  }

  // ---------------------------------------------------------------- byte length

  /** The number of bytes UTF-8 needs for one character. */
  function Utf8Width(c: char): nat {
    if c as int < 0x80 then 1 else if c as int < 0x800 then 2 else if c as int < 0x10000 then 3 else 4
  }

  /** Go's `len(s)`: the length of the string's UTF-8 encoding. */
  function Utf8Len(s: string): (n: nat)
    ensures n >= |s|
  {
    if s == [] then 0 else Utf8Width(s[0]) + Utf8Len(s[1..])
  }

  // ---------------------------------------------------------------- register

  /**
   * The validation steps of `Register`, in order: email pattern, password
   * length in bytes, then uniqueness of the email; `None` when all pass.
   */
  function RegisterCheck(users: seq<User>, email: string, password: string): (r: Option<ServiceError>)
    ensures r == Some(InvalidEmail) <==> !EmailPattern(email)
    ensures r == Some(WeakPassword) <==> EmailPattern(email) && Utf8Len(password) < MinPasswordBytes
    ensures r == Some(EmailExists) <==>
              EmailPattern(email) && Utf8Len(password) >= MinPasswordBytes
              && exists k :: 0 <= k < |users| && users[k].email == email
    ensures r.None? <==>
              EmailPattern(email) && Utf8Len(password) >= MinPasswordBytes
              && forall k :: 0 <= k < |users| ==> users[k].email != email
  {
    EmailMatchesPattern(email);
    if !EmailMatches(email) then Some(InvalidEmail)
    else if Utf8Len(password) < MinPasswordBytes then Some(WeakPassword)
    else if UserByEmail(users, email).Some? then Some(EmailExists)
    else None
  }

  /** The row `Register` inserts: the next id, the hash in place of the password. */
  function NewUserRow(users: seq<User>, req: RegisterRequest, hash: string, now: Time): User {
    User(|users| + 1, req.email, hash, req.name, now, now, None)
  }

  /**
   * `Register`.  `hash` is bcrypt (`None` when hashing fails).  A rejected
   * request leaves the table as it was; an accepted one appends one row.
   */
  method Register(s: AuthService, db: Database, req: RegisterRequest, hash: string -> Option<string>, now: Time)
    returns (r: Result<User, ServiceError>)
    requires db.Valid()
    modifies db`users
    ensures db.Valid()
    ensures var check := RegisterCheck(old(db.users), req.email, req.password);
      && (check.Some? ==> r == Err(check.value) && db.users == old(db.users))
      && (check.None? && hash(req.password).None? ==>
            r.Err? && r.error.Internal? && db.users == old(db.users))
      && (check.None? && hash(req.password).Some? ==>
            && r == Ok(NewUserRow(old(db.users), req, hash(req.password).value, now))
            && db.users == old(db.users) + [r.value])
  {
    // 1. email
    if !EmailMatches(req.email) {
      EmailMatchesPattern(req.email);
      return Err(InvalidEmail);
    }
    // 2. password length
    if Utf8Len(req.password) < MinPasswordBytes {
      return Err(WeakPassword);
    }
    // 3. uniqueness
    if UserByEmail(db.users, req.email).Some? {
      return Err(EmailExists);
    }
    // 4. hash
    var hashed := hash(req.password);
    if hashed.None? {
      return Err(Internal("密码加密失败"));
    }
    // 5. create
    var user := NewUserRow(db.users, req, hashed.value, now);
    AppendUserKeepsKeys(db.users, user);
    db.users := db.users + [user];
    r := Ok(user);
  }

  // ---------------------------------------------------------------- login and session tokens

  /** The claims `GenerateToken` signs: no `type`, no `client_id`. */
  function SessionClaims(userId: nat, now: Time, expire: Duration): Claims {
    map["user_id" := Num(userId), "exp" := Num(UnixSeconds(now + expire)), "iat" := Num(UnixSeconds(now))]
  }

  /**
   * `Login`.  `passwordMatches(hash, password)` is bcrypt's comparison.  An
   * unknown email and a wrong password give the same error.
   */
  function Login(s: AuthService, users: seq<User>, req: LoginRequest,
                 passwordMatches: (string, string) -> bool, now: Time)
    : (r: Result<LoginResponse, ServiceError>)
    ensures r.Err? ==> r.error == InvalidCredentials
    ensures r.Err? <==> UserByEmail(users, req.email).None?
                        || !passwordMatches(UserByEmail(users, req.email).value.password, req.password)
    ensures r.Ok? ==>
      var u := UserByEmail(users, req.email).value;
      && u.email == req.email
      && r.value.user == UserToResponse(u)
      && r.value.token == s.keys.sign(SessionClaims(u.id, now, s.jwtExpire))
  {
    match UserByEmail(users, req.email)
    case None => Err(InvalidCredentials)
    case Some(u) =>
      if !passwordMatches(u.password, req.password) then Err(InvalidCredentials)
      else Ok(LoginResponse(s.keys.sign(SessionClaims(u.id, now, s.jwtExpire)), UserToResponse(u)))
  }

  /** The claim check of `ValidateToken` after a successful parse: a numeric `user_id`. */
  function ValidateTokenClaims(claims: Claims): (r: Result<nat, ServiceError>)
    ensures r.Ok? <==> "user_id" in claims && claims["user_id"].Num?
    ensures r.Ok? ==> r.value == claims["user_id"].n
    ensures r.Err? ==> r.error.TokenRejected?
  {
    if "user_id" in claims && claims["user_id"].Num? then Ok(claims["user_id"].n)
    else Err(TokenRejected("Token 中缺少 user_id"))
  }

  /** `ValidateToken`: parse and verify, then read `user_id`. */
  function ValidateToken(s: AuthService, token: string): Result<nat, ServiceError> {
    match s.keys.verify(token)
    case None => Err(TokenRejected("Token 解析失败"))
    case Some(claims) => ValidateTokenClaims(claims)
  }

  /** The token of a successful login, once the keys verify it, names the user who logged in. */
  lemma LoginTokenValidates(s: AuthService, users: seq<User>, req: LoginRequest,
                            passwordMatches: (string, string) -> bool, now: Time)
    requires Login(s, users, req, passwordMatches, now).Ok?
    requires var u := UserByEmail(users, req.email).value;
      s.keys.verify(s.keys.sign(SessionClaims(u.id, now, s.jwtExpire))) == Some(SessionClaims(u.id, now, s.jwtExpire))
    ensures ValidateToken(s, Login(s, users, req, passwordMatches, now).value.token)
            == Ok(UserByEmail(users, req.email).value.id)
  {
  }

  /** `GetUserByID`. */
  function GetUserByID(users: seq<User>, userId: nat): (r: Result<User, ServiceError>)
    ensures r.Ok? ==> r.value in users && r.value.id == userId
    ensures r.Ok? <==> exists u :: u in users && u.id == userId
    ensures r.Err? ==> r.error == UserNotFound
  {
    match UserById(users, userId)
    case None => Err(UserNotFound)
    case Some(u) => Ok(u)
  }
}
