/**
 * The consent screen (`/oauth/authorize` of the frontend): it checks the
 * request's parameters, then sends the browser either to the backend's
 * authorization endpoint (approve) or back to the client with an error
 * (deny).
 */
module AuthorizePage {
  import opened Wrappers
  import opened Urls
  import opened Session

  /** `new URL('/oauth/authorize', 'http://localhost:8080')`. */
  const BackendAuthorize: Url := Url("http://localhost:8080/oauth/authorize", map[])

  /** The page shows "缺少必要的授权参数" instead of the consent screen. */
  predicate ParamsError(clientId: Option<string>, redirectUri: Option<string>, responseType: Option<string>) {
    !Truthy(clientId) || !Truthy(redirectUri) || responseType != Some("code")
  }

  /**
   * Where approving sends the browser: the backend's authorization endpoint
   * with the client, its redirect URI, `response_type=code` and the state
   * when there is one; `None` (the click does nothing) without a client or a
   * redirect URI.
   */
  function ApproveTarget(clientId: Option<string>, redirectUri: Option<string>, state: Option<string>): (r: Option<Url>)
    ensures r.Some? <==> Truthy(clientId) && Truthy(redirectUri)
    ensures r.Some? ==>
      && r.value.base == BackendAuthorize.base
      && QueryGet(r.value, "client_id") == clientId
      && QueryGet(r.value, "redirect_uri") == redirectUri
      && QueryGet(r.value, "response_type") == Some("code")
      && ("state" in r.value.query <==> Truthy(state))
      && (Truthy(state) ==> QueryGet(r.value, "state") == state)
      && (forall k :: k in r.value.query ==> |r.value.query[k]| == 1)
      && (forall k :: k in r.value.query ==> k == "client_id" || k == "redirect_uri" || k == "response_type" || k == "state")
  {
    if !Truthy(clientId) || !Truthy(redirectUri) then None
    else
      var u := SetParam(SetParam(SetParam(BackendAuthorize, "client_id", clientId.value),
                                 "redirect_uri", redirectUri.value), "response_type", "code");
      Some(if Truthy(state) then SetParam(u, "state", state.value) else u)
  }

  /**
   * Where denying sends the browser (section 4.1.2.1 of RFC 6749): the
   * redirect URI with `error=access_denied` and, when there is one, the
   * state; the URI's other parameters are kept.  `None` (the click does
   * nothing) without a redirect URI.
   */
  function DenyTarget(redirectUri: Option<string>, state: Option<string>): (r: Option<Url>)
    ensures r.Some? <==> Truthy(redirectUri)
    ensures r.Some? ==> var given := ParseUrl(redirectUri.value);
      && r.value.base == given.base
      && "error" in r.value.query && r.value.query["error"] == ["access_denied"]
      && (Truthy(state) ==> "state" in r.value.query && r.value.query["state"] == [state.value])
      && (!Truthy(state) ==> ("state" in r.value.query <==> "state" in given.query)
                             && ("state" in given.query ==> r.value.query["state"] == given.query["state"]))
      && (forall k :: k != "error" && k != "state" ==> (k in r.value.query <==> k in given.query))
      && (forall k :: k != "error" && k != "state" && k in given.query ==> r.value.query[k] == given.query[k])
  {
    if !Truthy(redirectUri) then None
    else
      var u := SetParam(ParseUrl(redirectUri.value), "error", "access_denied");
      Some(if Truthy(state) then SetParam(u, "state", state.value) else u)
  }

  /** `handleApprove`: the URL is built by successive `searchParams.set` calls, then loaded. */
  method HandleApprove(b: Browser, clientId: Option<string>, redirectUri: Option<string>, state: Option<string>)
    modifies b`effects
    ensures var target := ApproveTarget(clientId, redirectUri, state);
      b.effects == old(b.effects) + (if target.Some? then [Navigate(target.value)] else [])
  {
    if !Truthy(clientId) || !Truthy(redirectUri) {
      return;
    }
    var authorizeUrl := BackendAuthorize;
    authorizeUrl := SetParam(authorizeUrl, "client_id", clientId.value);
    authorizeUrl := SetParam(authorizeUrl, "redirect_uri", redirectUri.value);
    authorizeUrl := SetParam(authorizeUrl, "response_type", "code");
    if Truthy(state) {
      authorizeUrl := SetParam(authorizeUrl, "state", state.value);
    }
    b.effects := b.effects + [Navigate(authorizeUrl)];
  }

  /** `handleDeny`: the redirect URI is parsed, its parameters set, then loaded. */
  method HandleDeny(b: Browser, redirectUri: Option<string>, state: Option<string>)
    modifies b`effects
    ensures var target := DenyTarget(redirectUri, state);
      b.effects == old(b.effects) + (if target.Some? then [Navigate(target.value)] else [])
  {
    if !Truthy(redirectUri) {
      return;
    }
    var denyUrl := ParseUrl(redirectUri.value);
    denyUrl := SetParam(denyUrl, "error", "access_denied");
    if Truthy(state) {
      denyUrl := SetParam(denyUrl, "state", state.value);
    }
    b.effects := b.effects + [Navigate(denyUrl)];
  }

  /** The client as the consent screen shows it. */
  datatype ClientInfo = ClientInfo(name: string, clientId: string)

  const MissingParamsMessage: string := "缺少必要的授权参数"

  /** The consent screen's component state. */
  class ConsentPage {
    var clientInfo: Option<ClientInfo>
    var loading: bool
    var error: string

    constructor ()
      ensures clientInfo.None? && loading && error == ""
    {
      clientInfo := None;
      loading := true;
      error := "";
    }

    /**
     * The mount effect: a request that lacks a client or a redirect URI, or
     * asks for another response type, shows an error; otherwise the client
     * is shown, and then both buttons lead somewhere.
     */
    method CheckParams(clientId: Option<string>, redirectUri: Option<string>, responseType: Option<string>,
                       state: Option<string>)
      modifies this
      ensures !loading
      ensures ParamsError(clientId, redirectUri, responseType) ==>
                error == MissingParamsMessage && clientInfo == old(clientInfo)
      ensures !ParamsError(clientId, redirectUri, responseType) ==>
                && error == old(error)
                && clientInfo == Some(ClientInfo("测试应用", clientId.value))
                && ApproveTarget(clientId, redirectUri, state).Some?
                && DenyTarget(redirectUri, state).Some?
    {
      if !Truthy(clientId) || !Truthy(redirectUri) || responseType != Some("code") {
        error := MissingParamsMessage;
        loading := false;
        return;
      }
      clientInfo := Some(ClientInfo("测试应用", clientId.value));
      loading := false;
    }
  }
}
