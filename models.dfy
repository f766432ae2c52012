/**
 * The backend's persistent records and reply envelope (package `models`):
 * users, OAuth clients, authorization codes, access tokens, and the
 * `Response` wrapper every JSON reply is built from.
 *
 * Go's `time.Time` is an instant in integer nanoseconds and
 * `time.Duration` a count of nanoseconds, as in Go itself.  The JSON view of
 * a record is the list of (key, value) pairs `encoding/json` writes, in
 * field-declaration order, with the fields tagged `json:"-"` left out.
 */
module Models {
  import opened Wrappers

  type Time = nat
  type Duration = nat

  const Second: Duration := 1_000_000_000
  const Minute: Duration := 60 * Second
  const Hour: Duration := 60 * Minute

  /** The values that appear in the JSON views of the records. */
  datatype JsonValue = JNum(n: int) | JStr(s: string) | JBool(b: bool) | JTime(t: Time)

  type JsonObject = seq<(string, JsonValue)>

  // ---------------------------------------------------------------- users

  /** A row of the `users` table; `password` holds the bcrypt hash. */
  datatype User = User(
    id: nat,
    email: string,
    password: string,
    name: string,
    createdAt: Time,
    updatedAt: Time,
    deletedAt: Option<Time>)

  /** The user as sent to clients: no password, no deletion mark. */
  datatype UserResponse = UserResponse(
    id: nat,
    email: string,
    name: string,
    createdAt: Time,
    updatedAt: Time)

  /** What `encoding/json` writes for a `User`: `Password` and `DeletedAt` are tagged `json:"-"`. */
  function UserJson(u: User): JsonObject {
    [("id", JNum(u.id)), ("email", JStr(u.email)), ("name", JStr(u.name)),
     ("created_at", JTime(u.createdAt)), ("updated_at", JTime(u.updatedAt))]
  }

  function UserResponseJson(r: UserResponse): JsonObject {
    [("id", JNum(r.id)), ("email", JStr(r.email)), ("name", JStr(r.name)),
     ("created_at", JTime(r.createdAt)), ("updated_at", JTime(r.updatedAt))]
  }

  /** `User.ToResponse`: the projection sent to clients serialises exactly as the user itself does. */
  function UserToResponse(u: User): (r: UserResponse)
    ensures UserResponseJson(r) == UserJson(u)
  {
    UserResponse(u.id, u.email, u.name, u.createdAt, u.updatedAt)
  }

  /** The password hash and the deletion mark never reach a client, whether the user or its response is serialised. */
  lemma UserSecretsNotSerialised(u: User, password: string, deletedAt: Option<Time>)
    ensures UserJson(u.(password := password, deletedAt := deletedAt)) == UserJson(u)
    ensures UserToResponse(u.(password := password, deletedAt := deletedAt)) == UserToResponse(u)
    ensures forall k :: 0 <= k < |UserJson(u)| ==> UserJson(u)[k].0 != "password"
  {
  }

  // ---------------------------------------------------------------- OAuth clients

  /** A row of the `oauth_clients` table. */
  datatype OAuthClient = OAuthClient(
    id: nat,
    clientId: string,
    clientSecret: string,
    name: string,
    redirectURI: string,
    createdAt: Time,
    updatedAt: Time,
    deletedAt: Option<Time>)

  /** The client as sent to clients: no secret, no update time, no deletion mark. */
  datatype OAuthClientResponse = OAuthClientResponse(
    id: nat,
    clientId: string,
    name: string,
    redirectURI: string,
    createdAt: Time)

  /** What `encoding/json` writes for an `OAuthClient`: `ClientSecret` and `DeletedAt` are tagged `json:"-"`. */
  function ClientJson(c: OAuthClient): JsonObject {
    [("id", JNum(c.id)), ("client_id", JStr(c.clientId)), ("name", JStr(c.name)),
     ("redirect_uri", JStr(c.redirectURI)), ("created_at", JTime(c.createdAt)),
     ("updated_at", JTime(c.updatedAt))]
  }

  function ClientResponseJson(r: OAuthClientResponse): JsonObject {
    [("id", JNum(r.id)), ("client_id", JStr(r.clientId)), ("name", JStr(r.name)),
     ("redirect_uri", JStr(r.redirectURI)), ("created_at", JTime(r.createdAt))]
  }

  /** `OAuthClient.ToResponse`: the client's own JSON minus its trailing `updated_at`. */
  function ClientToResponse(c: OAuthClient): (r: OAuthClientResponse)
    ensures ClientJson(c) == ClientResponseJson(r) + [("updated_at", JTime(c.updatedAt))]
  {
    OAuthClientResponse(c.id, c.clientId, c.name, c.redirectURI, c.createdAt)
  }

  /** The secret is never serialised, and the response ignores the secret, update time and deletion mark. */
  lemma ClientSecretsNotSerialised(c: OAuthClient, secret: string, updatedAt: Time, deletedAt: Option<Time>)
    ensures ClientJson(c.(clientSecret := secret, deletedAt := deletedAt)) == ClientJson(c)
    ensures ClientToResponse(c.(clientSecret := secret, updatedAt := updatedAt, deletedAt := deletedAt))
            == ClientToResponse(c)
    ensures forall k :: 0 <= k < |ClientJson(c)| ==> ClientJson(c)[k].0 != "client_secret"
  {
  }

  // ---------------------------------------------------------------- authorization codes

  /**
   * A row of the `authorization_codes` table (its surrogate primary key and
   * deletion mark are not modelled: nothing reads them).
   */
  datatype AuthorizationCode = AuthorizationCode(
    code: string,
    clientId: string,
    userId: nat,
    redirectURI: string,
    expiresAt: Time,
    used: bool,
    createdAt: Time)
  {
    /** `time.Now().After(ExpiresAt)`. */
    predicate IsExpired(now: Time) {
      now > expiresAt
    }

    predicate IsValid(now: Time) {
      !used && !IsExpired(now)
    }
  }

  /** A code is usable exactly when it is unused and its deadline has not passed (the deadline itself included). */
  lemma CodeValidity(c: AuthorizationCode, now: Time)
    ensures c.IsValid(now) <==> !c.used && now <= c.expiresAt
    ensures !c.IsExpired(c.expiresAt) && c.IsExpired(c.expiresAt + 1)
  {
  }

  lemma UsedCodeNeverValid(c: AuthorizationCode, now: Time)
    requires c.used
    ensures !c.IsValid(now)
  {
  }

  /** Once expired, a code stays expired and invalid. */
  lemma CodeExpiryMonotone(c: AuthorizationCode, t: Time, t': Time)
    requires t <= t' && c.IsExpired(t)
    ensures c.IsExpired(t') && !c.IsValid(t')
  {
  }

  // ---------------------------------------------------------------- access tokens

  /** A row of the `access_tokens` table (surrogate key and deletion mark not modelled). */
  datatype AccessToken = AccessToken(
    token: string,
    clientId: string,
    userId: nat,
    expiresAt: Time,
    createdAt: Time)
  {
    predicate IsExpired(now: Time) {
      now > expiresAt
    }
  }

  /** Expiry of a stored token: strict, monotone in time, and a function of `expiresAt` alone. */
  lemma TokenExpiry(t: AccessToken, u: AccessToken, now: Time, later: Time)
    requires now <= later
    ensures !t.IsExpired(t.expiresAt) && t.IsExpired(t.expiresAt + 1)
    ensures t.IsExpired(now) ==> t.IsExpired(later)
    ensures t.expiresAt == u.expiresAt ==> (t.IsExpired(now) <==> u.IsExpired(now))
  {
  }

  // ---------------------------------------------------------------- reply envelope

  /** `models.Response`; an absent `data` is Go's nil interface, an empty `error` is omitted from the JSON. */
  datatype ApiResponse<D> = ApiResponse(success: bool, message: string, data: Option<D>, error: string)

  function SuccessResponse<D>(message: string, data: D): (r: ApiResponse<D>)
    ensures r.success && r.message == message && r.data == Some(data) && r.error == ""
  {
    ApiResponse(true, message, Some(data), "")
  }

  /** `err` is the text of the Go error (`err.Error()`), `None` for a nil error. */
  function ErrorResponse<D>(message: string, err: Option<string>): (r: ApiResponse<D>)
    ensures !r.success && r.message == message && r.data.None?
    ensures r.error == (if err.Some? then err.value else "")
  {
    ApiResponse(false, message, None, if err.Some? then err.value else "")
  }
}
