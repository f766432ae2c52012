/**
 * The frontend's session store (`frontend/lib/auth.ts`): the JWT and the
 * logged-in user, kept under the keys `token` and `user` of the browser's
 * `localStorage`.
 *
 * A `Browser` is the environment one page runs in: whether `window` exists
 * (it does not during server-side rendering), `localStorage`, the query of
 * the current address, and the log of what the page has asked the browser
 * to do (navigate, send a request, run a timer), oldest first.
 */
module Session {
  import opened Wrappers
  import opened Json
  import Urls

  const TokenKey: string := "token"
  const UserKey: string := "user"

  /** The `User` interface of `frontend/lib/api.ts`: the backend's user view, with its times as text. */
  datatype FrontUser = FrontUser(id: nat, email: string, name: string, createdAt: string, updatedAt: string)

  /** An HTTP request as the page sends it. */
  datatype Request = Request(verb: string, url: string, authorization: Option<string>, body: seq<(string, string)>)

  datatype Effect =
    /** `window.location.href = ...` (a full page load). */
    | Navigate(target: Urls.Url)
    /** `router.push(path)` (a client-side transition). */
    | Push(path: string)
    /** `window.history.replaceState({}, '', path)`. */
    | ReplaceState(path: string)
    /** A network request (`fetch` or the axios client). */
    | Send(request: Request)
    /** `setTimeout(() => logout(), delayMs)`. */
    | ScheduleLogout(delayMs: nat)

  /** `/login`. */
  const LoginPage: Urls.Url := Urls.Url("/login", map[])

  // ---------------------------------------------------------------- the stored user

  /** `JSON.stringify(user)`: the keys in declaration order, no white space. */
  function StringifyUser(u: FrontUser): string {
    "{\"id\":" + (NatToDigits(u.id) +
    (",\"email\":\"" + (Escape(u.email) + ("\"" +
    (",\"name\":\"" + (Escape(u.name) + ("\"" +
    (",\"created_at\":\"" + (Escape(u.createdAt) + ("\"" +
    (",\"updated_at\":\"" + (Escape(u.updatedAt) + ("\"" + "}")))))))))))))
  }

  /** Reads a string literal's value after its opening quote has been matched as part of `lit`. */
  function ExpectString(lit: string, s: string): Option<(string, string)> {
    match Expect(lit, s)
    case None => None
    case Some(rest) => ParseStringBody(rest)
  }

  /**
   * `JSON.parse` of the stored text, read as a `FrontUser`: the text must
   * have the form `StringifyUser` writes; anything else is a parse failure.
   */
  function ParseUser(s: string): Option<FrontUser> {
    match Expect("{\"id\":", s)
    case None => None
    case Some(r0) =>
      match ParseNat(r0)
      case None => None
      case Some((id, r1)) =>
        match ExpectString(",\"email\":\"", r1)
        case None => None
        case Some((email, r2)) =>
          match ExpectString(",\"name\":\"", r2)
          case None => None
          case Some((name, r3)) =>
            match ExpectString(",\"created_at\":\"", r3)
            case None => None
            case Some((createdAt, r4)) =>
              match ExpectString(",\"updated_at\":\"", r4)
              case None => None
              case Some((updatedAt, r5)) =>
                if r5 == "}" then Some(FrontUser(id, email, name, createdAt, updatedAt)) else None
  }

  lemma ExpectStringRoundTrip(lit: string, x: string, t: string)
    ensures ExpectString(lit, lit + (Escape(x) + ("\"" + t))) == Some((x, t))
  {
    var body := Escape(x) + ("\"" + t);
    ExpectConcat(lit, body);
    assert body == Escape(x) + "\"" + t;
    StringRoundTrip(x, t);
    assert ParseStringBody(body) == Some((x, t));
  }

  /** What `setUser` stores, `getUser` reads back as the same user. */
  lemma UserRoundTrip(u: FrontUser)
    ensures ParseUser(StringifyUser(u)) == Some(u)
  {
    var t4 := "}";
    var t3 := ",\"updated_at\":\"" + (Escape(u.updatedAt) + ("\"" + t4));
    var t2 := ",\"created_at\":\"" + (Escape(u.createdAt) + ("\"" + t3));
    var t1 := ",\"name\":\"" + (Escape(u.name) + ("\"" + t2));
    var t0 := ",\"email\":\"" + (Escape(u.email) + ("\"" + t1));
    assert StringifyUser(u) == "{\"id\":" + (NatToDigits(u.id) + t0);
    ExpectConcat("{\"id\":", NatToDigits(u.id) + t0);
    NatRoundTrip(u.id, t0);
    ExpectStringRoundTrip(",\"email\":\"", u.email, t1);
    ExpectStringRoundTrip(",\"name\":\"", u.name, t2);
    ExpectStringRoundTrip(",\"created_at\":\"", u.createdAt, t3);
    ExpectStringRoundTrip(",\"updated_at\":\"", u.updatedAt, t4);
  }

  // ---------------------------------------------------------------- the browser

  class Browser {
    /** `typeof window !== 'undefined'`. */
    const hasWindow: bool
    /** `process.env.NEXT_PUBLIC_API_BASE_URL`, fixed when the page was built. */
    const apiBaseEnv: Option<string>
    /** `localStorage`. */
    var storage: map<string, string>
    /** `window.location.search` of the current address, as parameter lists. */
    var search: map<string, seq<string>>
    var effects: seq<Effect>

    constructor (hasWindow: bool, apiBaseEnv: Option<string>, storage: map<string, string>, search: map<string, seq<string>>)
      ensures this.hasWindow == hasWindow && this.apiBaseEnv == apiBaseEnv
      ensures this.storage == storage && this.search == search && this.effects == []
    {
      this.hasWindow := hasWindow;
      this.apiBaseEnv := apiBaseEnv;
      this.storage := storage;
      this.search := search;
      this.effects := [];
    }

    /** `getToken`: the stored token, `None` (JavaScript's `null`) without a window or a `token` key. */
    function GetToken(): (r: Option<string>)
      reads this
      ensures r.Some? <==> hasWindow && TokenKey in storage
      ensures r.Some? ==> r.value == storage[TokenKey]
    {
      if hasWindow && TokenKey in storage then Some(storage[TokenKey]) else None
    }

    /** `setToken`: what `getToken` then returns; nothing else is touched. */
    method SetToken(token: string)
      modifies this`storage
      ensures storage == if hasWindow then old(storage)[TokenKey := token] else old(storage)
      ensures hasWindow ==> GetToken() == Some(token)
      ensures GetUser() == old(GetUser())
    {
      if hasWindow {
        storage := storage[TokenKey := token];
      }
    }

    /** `removeToken`: the user entry is left as it was. */
    method RemoveToken()
      modifies this`storage
      ensures storage == if hasWindow then old(storage) - {TokenKey} else old(storage)
      ensures GetToken().None?
      ensures GetUser() == old(GetUser())
    {
      if hasWindow {
        storage := storage - {TokenKey};
      }
    }

    /**
     * `getUser`: `None` without a window, without a `user` entry, for an
     * empty entry, or when the entry does not parse.
     */
    function GetUser(): (r: Option<FrontUser>)
      reads this
      ensures r.Some? ==> hasWindow && UserKey in storage && storage[UserKey] != ""
                          && r == ParseUser(storage[UserKey])
      ensures hasWindow && UserKey in storage && storage[UserKey] != "" && ParseUser(storage[UserKey]).Some? ==> r.Some?
    {
      if hasWindow && UserKey in storage && storage[UserKey] != "" then ParseUser(storage[UserKey]) else None
    }

    /** `setUser`: stores `JSON.stringify(user)`, which `getUser` reads back as `user`. */
    method SetUser(user: FrontUser)
      modifies this`storage
      ensures storage == if hasWindow then old(storage)[UserKey := StringifyUser(user)] else old(storage)
      ensures hasWindow ==> GetUser() == Some(user)
      ensures GetToken() == old(GetToken())
    {
      if hasWindow {
        storage := storage[UserKey := StringifyUser(user)];
        UserRoundTrip(user);
        assert StringifyUser(user) != "" by {
          assert StringifyUser(user)[0] == '{';
        }
      }
    }

    /** `removeUser`: the token entry is left as it was. */
    method RemoveUser()
      modifies this`storage
      ensures storage == if hasWindow then old(storage) - {UserKey} else old(storage)
      ensures GetUser().None?
      ensures GetToken() == old(GetToken())
    {
      if hasWindow {
        storage := storage - {UserKey};
      }
    }

    /**
     * `isAuthenticated`: a `token` entry exists, whatever it holds (the
     * empty string included) and whatever the `user` entry says.
     */
    predicate IsAuthenticated()
      reads this
    {
      GetToken() != None
    }

    /** `logout`: both entries go, then the browser is sent to `/login`. */
    method Logout()
      modifies this`storage, this`effects
      ensures storage == if hasWindow then old(storage) - {TokenKey, UserKey} else old(storage)
      ensures !IsAuthenticated() && GetUser().None?
      ensures effects == old(effects) + (if hasWindow then [Navigate(LoginPage)] else [])
    {
      RemoveToken();
      RemoveUser();
      if hasWindow {
        effects := effects + [Navigate(LoginPage)];
      }
    }
  }

  /** Being logged in, for the frontend, is the presence of the key alone: an empty token counts. */
  lemma AuthenticatedIffTokenKey(b: Browser)
    ensures b.IsAuthenticated() <==> b.hasWindow && TokenKey in b.storage
    ensures b.hasWindow && TokenKey in b.storage && b.storage[TokenKey] == "" ==> b.IsAuthenticated()
    ensures !b.hasWindow ==> !b.IsAuthenticated() && b.GetUser().None?
  {
  }
}
