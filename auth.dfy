/**
 * The authentication calls of `iam/auth.ts`: free functions over a
 * configuration object, each a single request. The two OAuth2 URL calls
 * build their query by conditional property assignment.
 */
module Auth {
  import opened Options
  import opened Js
  import opened Config
  import opened Base
  import FormUrlencoded

  const LoginPath := "/api/iam/v1/login"
  const LogoutPath := "/api/iam/v1/logout"
  const AuthPath := "/api/iam/v1/auth"
  const AuthzUrlPath := "/api/iam/v1/oauth2/authz/url"
  const AuthzUrlLinkPath := "/api/iam/v1/oauth2/authz/url/link"
  const MfaPath := "/api/iam/v1/mfa"
  const PasswordPath := "/api/iam/v1/password"
  const PasswordTokenPath := "/api/iam/v1/password/token"
  const ConfirmUsersPath := "/api/iam/v1/password/confirm/users/"
  const JoinInvitePath := "/api/iam/v1/join/invites/token"

  const ProviderKey := "provider"
  const RedirectUriKey := "redirect_uri"
  const StateKey := "state"

  /** The identity providers an OAuth2 flow can use. */
  datatype Provider = GitHub | LinkedIn | Okta

  function ProviderName(p: Provider): string {
    match p
    case GitHub => "github"
    case LinkedIn => "linkedin"
    case Okta => "okta"
  }

  function Login(config: RequestConfig, request: Json): Call {
    Call(config, LoginPath, RequestOptions(Some("POST"), Some(request), None, None))
  }

  function Logout(config: RequestConfig): Call {
    Call(config, LogoutPath, NoOptions)
  }

  function CheckAuth(config: RequestConfig): Call {
    Call(config, AuthPath, NoOptions)
  }

  /**
   * The query of the authorization URL, entry by entry: the provider first,
   * then the redirect URI and the state, each only when non-empty.
   */
  function AuthzQuery(provider: Provider, redirectUri: Option<string>, state: Option<string>): Record<Scalar> {
    [(ProviderKey, SStr(ProviderName(provider)))]
    + (if Present(redirectUri) then [(RedirectUriKey, SStr(redirectUri.value))] else [])
    + (if Present(state) then [(StateKey, SStr(state.value))] else [])
  }

  lemma KeysDistinct()
    ensures ProviderKey != RedirectUriKey && ProviderKey != StateKey && RedirectUriKey != StateKey
  {
    assert ProviderKey[0] == 'p' && RedirectUriKey[0] == 'r' && StateKey[0] == 's';
  }

  /** `getOAuth2AuthzUrl`: the query record starts as `{ provider }` and gains keys in place. */
  method GetOAuth2AuthzUrl(config: RequestConfig, provider: Provider, redirectUri: Option<string>, state: Option<string>)
    returns (c: Call)
    ensures c == Call(config, AuthzUrlPath, RequestOptions(None, None, None, Some(AuthzQuery(provider, redirectUri, state))))
  {
    KeysDistinct();
    var query: Record<Scalar> := [(ProviderKey, SStr(ProviderName(provider)))];
    if Present(redirectUri) {
      assert !HasKey(query, RedirectUriKey);
      query := Assign(query, RedirectUriKey, SStr(redirectUri.value));
    }
    assert query == AuthzLinkQuery(provider, redirectUri);
    if Present(state) {
      assert !HasKey(query, StateKey);
      query := Assign(query, StateKey, SStr(state.value));
    }
    assert query == AuthzQuery(provider, redirectUri, state);
    c := Call(config, AuthzUrlPath, RequestOptions(None, None, None, Some(query)));
  }

  /** The query of the account-linking URL: the provider, then the redirect URI when non-empty. */
  function AuthzLinkQuery(provider: Provider, redirectUri: Option<string>): Record<Scalar> {
    [(ProviderKey, SStr(ProviderName(provider)))]
    + (if Present(redirectUri) then [(RedirectUriKey, SStr(redirectUri.value))] else [])
  }

  /** `getOAuth2AuthzUrlForLink`. */
  method GetOAuth2AuthzUrlForLink(config: RequestConfig, provider: Provider, redirectUri: Option<string>)
    returns (c: Call)
    ensures c == Call(config, AuthzUrlLinkPath, RequestOptions(None, None, None, Some(AuthzLinkQuery(provider, redirectUri))))
  {
    KeysDistinct();
    var query: Record<Scalar> := [(ProviderKey, SStr(ProviderName(provider)))];
    if Present(redirectUri) {
      assert !HasKey(query, RedirectUriKey);
      query := Assign(query, RedirectUriKey, SStr(redirectUri.value));
    }
    assert query == AuthzLinkQuery(provider, redirectUri);
    c := Call(config, AuthzUrlLinkPath, RequestOptions(None, None, None, Some(query)));
  }

  function SetupMfa(config: RequestConfig): Call {
    Call(config, MfaPath, RequestOptions(Some("PUT"), None, None, None))
  }

  function ValidateMfa(config: RequestConfig, request: Json): Call {
    Call(config, MfaPath, RequestOptions(Some("POST"), Some(request), None, None))
  }

  function RemoveMfa(config: RequestConfig): Call {
    Call(config, MfaPath, RequestOptions(Some("DELETE"), None, None, None))
  }

  function RequestPasswordReset(config: RequestConfig, request: Json): Call {
    Call(config, PasswordPath, RequestOptions(Some("PUT"), Some(request), None, None))
  }

  function RequestPasswordToken(config: RequestConfig, request: Json): Call {
    Call(config, PasswordTokenPath, RequestOptions(Some("POST"), Some(request), None, None))
  }

  function ConfirmPasswordReset(config: RequestConfig, handle: string, token: string, request: Json): Call {
    Call(config, ConfirmUsersPath + handle + "/tokens/" + token, RequestOptions(Some("PUT"), Some(request), None, None))
  }

  function JoinWithInvite(config: RequestConfig, request: Json): Call {
    Call(config, JoinInvitePath, RequestOptions(Some("POST"), Some(request), None, None))
  }

  // ---------------------------------------------------------------------
  // What the calls send

  /**
   * The authorization query always holds the provider, first; it holds
   * `redirect_uri` exactly when that argument is non-empty and `state`
   * exactly when that one is, in that order, each key once.
   */
  lemma AuthzQueryKeys(provider: Provider, redirectUri: Option<string>, state: Option<string>)
    ensures var q := AuthzQuery(provider, redirectUri, state);
      && q[0] == (ProviderKey, SStr(ProviderName(provider)))
      && (HasKey(q, RedirectUriKey) <==> Present(redirectUri))
      && (HasKey(q, StateKey) <==> Present(state))
      && (Present(redirectUri) ==> q[1] == (RedirectUriKey, SStr(redirectUri.value)))
      && (Present(state) ==> q[|q| - 1] == (StateKey, SStr(state.value)))
      && DistinctKeys(q)
  {
    KeysDistinct();
    var q := AuthzQuery(provider, redirectUri, state);
    if Present(redirectUri) {
      assert q[1].0 == RedirectUriKey;
    }
    if Present(state) {
      assert q[|q| - 1].0 == StateKey;
    }
  }

  /** The linking query holds the provider first, `redirect_uri` exactly when given, and never `state`. */
  lemma AuthzLinkQueryKeys(provider: Provider, redirectUri: Option<string>)
    ensures var q := AuthzLinkQuery(provider, redirectUri);
      && q[0] == (ProviderKey, SStr(ProviderName(provider)))
      && (HasKey(q, RedirectUriKey) <==> Present(redirectUri))
      && !HasKey(q, StateKey)
      && DistinctKeys(q)
  {
    KeysDistinct();
    var q := AuthzLinkQuery(provider, redirectUri);
    if Present(redirectUri) {
      assert q[1].0 == RedirectUriKey;
    }
  }

  /**
   * The authorization call is a bodiless GET whose URL carries the query,
   * which parses back to its entries in order.
   */
  lemma AuthzUrlRequest(config: RequestConfig, provider: Provider, redirectUri: Option<string>, state: Option<string>,
                        stringify: Json -> string)
    ensures var q := AuthzQuery(provider, redirectUri, state);
      var d := Describe(Call(config, AuthzUrlPath, RequestOptions(None, None, None, Some(q))), stringify);
      && d.httpMethod == "GET"
      && d.body.None?
      && d.url == config.baseUrl + AuthzUrlPath + QueryString(q)
      && QueryString(q)[0] == '?'
      && FormUrlencoded.ParseString(QueryString(q)[1..]) == Some(QueryPairs(q))
  {
    QueryStringRoundTrip(AuthzQuery(provider, redirectUri, state));
  }

  /** `logout` and `checkAuth` send a GET (the default method) with neither body nor query. */
  lemma SessionRequests(config: RequestConfig, stringify: Json -> string)
    ensures var d := Describe(Logout(config), stringify);
      d.httpMethod == "GET" && d.body.None? && d.url == config.baseUrl + LogoutPath
    ensures var d := Describe(CheckAuth(config), stringify);
      d.httpMethod == "GET" && d.body.None? && d.url == config.baseUrl + AuthPath
  {
  }

  /** The three MFA calls share one path with PUT, POST and DELETE; only validation sends a body. */
  lemma MfaRequests(config: RequestConfig, request: Json, stringify: Json -> string)
    requires Truthy(request)
    ensures var d := Describe(SetupMfa(config), stringify);
      d.httpMethod == "PUT" && d.body.None? && d.url == config.baseUrl + MfaPath
    ensures var d := Describe(ValidateMfa(config, request), stringify);
      d.httpMethod == "POST" && d.body == Some(stringify(request)) && d.url == config.baseUrl + MfaPath
    ensures var d := Describe(RemoveMfa(config), stringify);
      d.httpMethod == "DELETE" && d.body.None? && d.url == config.baseUrl + MfaPath
  {
  }

  /** `confirmPasswordReset` PUTs the request to a path with the handle and token inserted verbatim. */
  lemma ConfirmPasswordResetRequest(config: RequestConfig, handle: string, token: string, request: Json,
                                    stringify: Json -> string)
    requires Truthy(request)
    ensures var d := Describe(ConfirmPasswordReset(config, handle, token, request), stringify);
      && d.httpMethod == "PUT"
      && d.url == config.baseUrl + (ConfirmUsersPath + handle + "/tokens/" + token)
      && d.body == Some(stringify(request))
  {
  }

  /** `login` POSTs the request unchanged to its fixed path. */
  lemma LoginRequest(config: RequestConfig, request: Json, stringify: Json -> string)
    requires Truthy(request)
    ensures var d := Describe(Login(config, request), stringify);
      d.httpMethod == "POST" && d.url == config.baseUrl + LoginPath && d.body == Some(stringify(request))
  {
  }

  /** `joinWithInvite` POSTs the request unchanged to its fixed path. */
  lemma JoinWithInviteRequest(config: RequestConfig, request: Json, stringify: Json -> string)
    requires Truthy(request)
    ensures var d := Describe(JoinWithInvite(config, request), stringify);
      d.httpMethod == "POST" && d.url == config.baseUrl + JoinInvitePath && d.body == Some(stringify(request))
  {
  }

  /** The password-reset request is a PUT to the password path, the token request a POST below it. */
  lemma PasswordRequests(config: RequestConfig, request: Json, stringify: Json -> string)
    requires Truthy(request)
    ensures var d := Describe(RequestPasswordReset(config, request), stringify);
      d.httpMethod == "PUT" && d.url == config.baseUrl + PasswordPath && d.body == Some(stringify(request))
    ensures var d := Describe(RequestPasswordToken(config, request), stringify);
      d.httpMethod == "POST" && d.url == config.baseUrl + PasswordTokenPath && d.body == Some(stringify(request))
  {
  }
}
