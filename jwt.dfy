/**
 * JSON Web Tokens as the backend uses them: a claim set, signed into a
 * string and verified back.  Signing and verification (HMAC-SHA256 with the
 * configured secret, plus the library's check of `exp`) are foreign code and
 * are given as a pair of functions; only the claims the services build and
 * inspect are modelled.
 */
module Jwt {
  import opened Wrappers
  import opened Models

  /** A claim value after JSON decoding; numbers are non-negative integers (the only ones the services put in). */
  datatype Claim = Num(n: nat) | Str(s: string) | Flag(b: bool)

  type Claims = map<string, Claim>

  /**
   * `jwt.NewWithClaims(...).SignedString(secret)` and `jwt.Parse(token, keyFunc)`:
   * `verify` yields the claims of a token with a valid signature that has not
   * expired, and `None` otherwise.
   */
  datatype Keys = Keys(sign: Claims -> string, verify: string -> Option<Claims>)

  /** `t.Unix()`: whole seconds. */
  function UnixSeconds(t: Time): nat {
    t / Second
  }

  const AccessTokenType: string := "oauth_access_token"
}
