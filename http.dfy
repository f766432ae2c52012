/**
 * What a gin handler writes back: a status and either a JSON body or a
 * redirect.  JSON bodies are the `models.Response` envelope, except the
 * token endpoint's, which follows section 5.1 of RFC 6749.
 */
module Http {
  import opened Wrappers
  import opened Models
  import opened Errors
  import Urls
  import AuthService

  const StatusOK: nat := 200
  const StatusCreated: nat := 201
  const StatusFound: nat := 302
  const StatusBadRequest: nat := 400
  const StatusUnauthorized: nat := 401
  const StatusConflict: nat := 409
  const StatusInternalServerError: nat := 500

  /** `handlers.TokenResponse`. */
  datatype TokenResponse = TokenResponse(accessToken: string, tokenType: string, expiresIn: int)

  /** The `data` a success envelope carries. */
  datatype Payload = UserData(user: UserResponse) | LoginData(login: AuthService.LoginResponse)

  datatype Reply =
    | Json(status: nat, body: ApiResponse<Payload>)
    | TokenJson(status: nat, token: TokenResponse)
    | Redirect(status: nat, location: Urls.Url)

  /** `c.JSON(status, models.ErrorResponse(message, err))`; `None` is a nil error. */
  function Fail(status: nat, message: string, err: Option<ServiceError>): (r: Reply)
    ensures r.Json? && r.status == status && !r.body.success && r.body.message == message && r.body.data.None?
    ensures r.body.error == if err.Some? then ErrorText(err.value) else ""
  {
    Json(status, ErrorResponse(message, if err.Some? then Some(ErrorText(err.value)) else None))
  }

  /**
   * The 400 reply to a request gin cannot bind (a `binding:"required"`
   * field empty or missing, or a malformed body), with the validator's text.
   */
  function BindFail(validationError: string): (r: Reply)
    ensures r.Json? && r.status == StatusBadRequest && !r.body.success && r.body.message == "请求参数无效"
    ensures r.body.error == validationError
  {
    Json(StatusBadRequest, ErrorResponse("请求参数无效", Some(validationError)))
  }

  /** `c.JSON(status, models.SuccessResponse(message, data))`. */
  function Succeed(status: nat, message: string, data: Payload): (r: Reply)
    ensures r.Json? && r.status == status && r.body.success && r.body.message == message
    ensures r.body.data == Some(data) && r.body.error == ""
  {
    Json(status, SuccessResponse(message, data))
  }

  /**
   * A request's form or query values.  `c.Query(key)` and gin's binding of a
   * `string` field read the first value, and "" when the key is absent.
   */
  function Param(values: map<string, seq<string>>, key: string): (v: string)
    ensures key in values && |values[key]| > 0 ==> v == values[key][0]
    ensures !(key in values && |values[key]| > 0) ==> v == ""
  {
    if key in values && |values[key]| > 0 then values[key][0] else ""
  }

  /** The validator's message for one empty `binding:"required"` field. */
  function RequiredFieldError(structName: string, field: string): string {
    "Key: '" + structName + "." + field + "' Error:Field validation for '" + field + "' failed on the 'required' tag"
  }

  /**
   * Binding a struct whose `required` fields, in declaration order, are
   * `fields` (Go field name, bound value): the message of every empty one,
   * one per line, or `None` when none is empty.
   */
  function RequiredCheck(structName: string, fields: seq<(string, string)>): (r: Option<string>)
    ensures r.None? <==> forall k :: 0 <= k < |fields| ==> fields[k].1 != ""
    decreases |fields|
  {
    if fields == [] then None
    else
      var rest := RequiredCheck(structName, fields[1..]);
      if fields[0].1 != "" then rest
      else
        var msg := RequiredFieldError(structName, fields[0].0);
        Some(if rest.Some? then msg + "\n" + rest.value else msg)
  }
}
