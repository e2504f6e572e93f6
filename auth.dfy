/**
 * The OAuth2 token lifecycle: capturing the authorization code on a local
 * redirect listener, exchanging it (or the stored refresh token) at the
 * identity provider's token endpoint, and the per-request hook that keeps
 * a cached token and attaches it as a bearer header.
 *
 * What the outside world does is passed in: `redirect` is the redirect
 * URI as parsed by the URL library (`None` when it does not parse),
 * `callbackPath` is the path of the one request the listener receives,
 * `send` answers the token endpoint, and `now` is the clock in whole seconds.
 */
module Auth {
  import opened Wrappers
  import opened Text
  import opened Enums
  import opened Token
  import opened BaseClient
  import opened Query

  /** Everything the token lifecycle can raise. */
  datatype AuthError =
    | MissingClientId            // ValueError: no client id from the arguments or the settings
    | MissingClientSecret        // ValueError: no client secret from the arguments or the settings
    | InvalidRedirectUri         // the redirect URI does not parse as an HTTP URL
    | InvalidRedirectParams      // ValueError: the redirect lacked `code` or `state`
    | StateMismatch              // the redirect's `state` is not the one sent
    | HttpStatusError(status: int)
    | BodyNotJson
    | NetworkError
    | ResponseValidationError(cause: ValidationError)

  /** The identity provider's endpoints, from its well-known configuration document. */
  datatype OpenID = OpenID(authorizationEndpoint: string, tokenEndpoint: string)

  /** The environment-derived auth settings, passed in as a record. */
  datatype AuthSettings = AuthSettings(
    baseUrl: string,
    audience: string,
    redirectUri: string,
    clientId: Option<string>,
    clientSecret: Option<string>,
    timeout: real,
    retries: int,
    state: string,
    refreshToken: Option<string>,
    openid: OpenID)

  /** The explicit constructor arguments of the token provider; `None` is an omitted argument. */
  datatype AuthArgs = AuthArgs(
    baseUrl: Option<string>,
    audience: Option<string>,
    clientId: Option<string>,
    clientSecret: Option<string>,
    redirectUri: Option<string>,
    responseType: Option<string>,
    state: Option<string>,
    scopes: Option<seq<Scope>>,
    timeout: Option<real>,
    retries: Option<int>)

  const NoArgs: AuthArgs := AuthArgs(None, None, None, None, None, None, None, None, None, None)

  /** The arguments after defaulting, as handed to the auth client base class. */
  datatype AuthParams = AuthParams(
    baseUrl: string,
    audience: string,
    clientId: string,
    clientSecret: string,
    redirectUri: string,
    responseType: string,
    state: string,
    scopes: seq<Scope>,
    timeout: real,
    retries: int)

  /** An auth client holding exactly the resolved configuration. */
  predicate Configured(c: BaseAuthClient, p: AuthParams)
  {
    && c.baseUrl == p.baseUrl && c.audience == p.audience
    && c.clientId == p.clientId && c.clientSecret == p.clientSecret
    && c.redirectUri == p.redirectUri && c.responseType == p.responseType
    && c.state == p.state && c.scopes == p.scopes
    && c.timeout == p.timeout && c.retries == p.retries
  }

  const DefaultResponseType: string := "code"
  const DefaultScopes: seq<Scope> := [OpenId, Profile, OfflineAccess, MarketData, ReadAccount]

  /**
   * The provider's argument defaulting: an explicit argument wins over the
   * setting, missing response type and scopes take fixed defaults, and a
   * client id or secret that is still absent raises (the id is checked first).
   */
  function ResolveAuthArgs(args: AuthArgs, settings: AuthSettings): (r: Result<AuthParams, AuthError>)
    ensures r == Err(MissingClientId) <==> args.clientId.None? && settings.clientId.None?
    ensures r == Err(MissingClientSecret) <==>
      (args.clientId.Some? || settings.clientId.Some?) && args.clientSecret.None? && settings.clientSecret.None?
    ensures r.Ok? <==>
      (args.clientId.Some? || settings.clientId.Some?) && (args.clientSecret.Some? || settings.clientSecret.Some?)
    ensures r.Ok? ==>
      && (args.clientId.Some? ==> r.value.clientId == args.clientId.value)
      && (args.clientId.None? ==> r.value.clientId == settings.clientId.value)
      && (args.clientSecret.Some? ==> r.value.clientSecret == args.clientSecret.value)
      && (args.clientSecret.None? ==> r.value.clientSecret == settings.clientSecret.value)
      && (args.baseUrl.Some? ==> r.value.baseUrl == args.baseUrl.value)
      && (args.baseUrl.None? ==> r.value.baseUrl == settings.baseUrl)
      && (args.audience.Some? ==> r.value.audience == args.audience.value)
      && (args.audience.None? ==> r.value.audience == settings.audience)
      && (args.redirectUri.Some? ==> r.value.redirectUri == args.redirectUri.value)
      && (args.redirectUri.None? ==> r.value.redirectUri == settings.redirectUri)
      && (args.state.Some? ==> r.value.state == args.state.value)
      && (args.state.None? ==> r.value.state == settings.state)
      && (args.timeout.Some? ==> r.value.timeout == args.timeout.value)
      && (args.timeout.None? ==> r.value.timeout == settings.timeout)
      && (args.retries.Some? ==> r.value.retries == args.retries.value)
      && (args.retries.None? ==> r.value.retries == settings.retries)
      && (args.responseType.Some? ==> r.value.responseType == args.responseType.value)
      && (args.responseType.None? ==> r.value.responseType == DefaultResponseType)
      && (args.scopes.Some? ==> r.value.scopes == args.scopes.value)
      && (args.scopes.None? ==> r.value.scopes == DefaultScopes)
  {
    var clientId := if args.clientId.Some? then args.clientId else settings.clientId;
    var clientSecret := if args.clientSecret.Some? then args.clientSecret else settings.clientSecret;
    if clientId.None? then Err(MissingClientId)
    else if clientSecret.None? then Err(MissingClientSecret)
    else
      Ok(AuthParams(
        args.baseUrl.GetOr(settings.baseUrl),
        args.audience.GetOr(settings.audience),
        clientId.value,
        clientSecret.value,
        args.redirectUri.GetOr(settings.redirectUri),
        args.responseType.GetOr(DefaultResponseType),
        args.state.GetOr(settings.state),
        args.scopes.GetOr(DefaultScopes),
        args.timeout.GetOr(settings.timeout),
        args.retries.GetOr(settings.retries)))
  }

  // ---------------------------------------------------------------------
  // The authorization URL

  function ScopeValues(scopes: seq<Scope>): (names: seq<string>)
    ensures |names| == |scopes|
    ensures forall i :: 0 <= i < |scopes| ==> names[i] == scopes[i].Value()
  {
    if |scopes| == 0 then [] else [scopes[0].Value()] + ScopeValues(scopes[1..])
  }

  /** The `scope` parameter: the scopes' names joined by single spaces. */
  function ScopeString(scopes: seq<Scope>): (s: string)
    ensures s == "" <==> |scopes| == 0
  {
    Join(ScopeValues(scopes), " ")
  }

  /** The scope string names exactly the requested scopes, in order. */
  lemma ScopeStringSplits(scopes: seq<Scope>)
    requires |scopes| > 0
    ensures Split(ScopeString(scopes), ' ') == ScopeValues(scopes)
    ensures forall s :: s in Split(ScopeString(scopes), ' ') <==> exists t :: t in scopes && t.Value() == s
  {
    var names := ScopeValues(scopes);
    forall i | 0 <= i < |names| ensures ' ' !in names[i] {
      ScopeValueIsWord(scopes[i]);
    }
    SplitJoin(names, ' ');
    forall s ensures s in names <==> exists t :: t in scopes && t.Value() == s {
      if s in names {
        var i :| 0 <= i < |names| && names[i] == s;
        assert scopes[i] in scopes;
      }
      if t :| t in scopes && t.Value() == s {
        var i :| 0 <= i < |scopes| && scopes[i] == t;
        assert names[i] == s;
      }
    }
  }

  /** The browser URL that starts the interactive authorization, written out as the source does. */
  function AuthorizationUrl(endpoint: string, client: BaseAuthClient): (url: string)
    ensures |url| > |endpoint| && url[..|endpoint| + 1] == endpoint + "?"
  {
    endpoint
      + "?response_type=" + client.responseType
      + "&client_id=" + client.clientId
      + "&redirect_uri=" + client.redirectUri
      + "&audience=" + client.audience
      + "&state=" + client.state
      + "&scope=" + ScopeString(client.scopes)
  }

  /** The six query parameters of the authorization URL, in order. */
  function AuthorizationQuery(client: BaseAuthClient): (pairs: Pairs)
    ensures |pairs| == 6
  {
    [("response_type", client.responseType),
     ("client_id", client.clientId),
     ("redirect_uri", client.redirectUri),
     ("audience", client.audience),
     ("state", client.state),
     ("scope", ScopeString(client.scopes))]
  }

  /** One `&name=value` step of the URL: the literal piece `"&name="` followed by the value. */
  lemma FieldStep(prefix: string, piece: string, sep: char, name: string, value: string)
    requires piece == [sep] + name + "="
    ensures prefix + piece + value == prefix + [sep] + (name + "=" + value)
  {
  }

  lemma Regroup(a: string, s1: string, b: string, s2: string, c: string)
    ensures a + s1 + b + s2 + c == a + s1 + (b + s2 + c)
  {
  }

  lemma AuthorizationUrlShape(endpoint: string, client: BaseAuthClient)
    ensures AuthorizationUrl(endpoint, client) == endpoint + "?" + Join(EncodeFields(AuthorizationQuery(client)), "&")
  {
    var f := EncodeFields(AuthorizationQuery(client));
    // the URL as written, field by field
    FieldStep(endpoint, "?response_type=", '?', "response_type", client.responseType);
    var p0 := endpoint + "?" + f[0];
    FieldStep(p0, "&client_id=", '&', "client_id", client.clientId);
    var p1 := p0 + "&" + f[1];
    FieldStep(p1, "&redirect_uri=", '&', "redirect_uri", client.redirectUri);
    var p2 := p1 + "&" + f[2];
    FieldStep(p2, "&audience=", '&', "audience", client.audience);
    var p3 := p2 + "&" + f[3];
    FieldStep(p3, "&state=", '&', "state", client.state);
    var p4 := p3 + "&" + f[4];
    FieldStep(p4, "&scope=", '&', "scope", ScopeString(client.scopes));
    assert AuthorizationUrl(endpoint, client) == p4 + "&" + f[5];
    // the joined query, from the right
    var r5 := Join(f[5..], "&");
    assert f[5..] == [f[5]];
    var r4 := Join(f[4..], "&");
    assert f[4..][1..] == f[5..];
    var r3 := Join(f[3..], "&");
    assert f[3..][1..] == f[4..];
    var r2 := Join(f[2..], "&");
    assert f[2..][1..] == f[3..];
    var r1 := Join(f[1..], "&");
    assert f[1..][1..] == f[2..];
    assert r4 == f[4] + "&" + r5;
    assert r3 == f[3] + "&" + r4;
    assert r2 == f[2] + "&" + r3;
    assert r1 == f[1] + "&" + r2;
    assert Join(f, "&") == f[0] + "&" + r1;
    // regroup the written URL into the endpoint, `?` and the joined query
    Regroup(p3, "&", f[4], "&", r5);
    Regroup(p2, "&", f[3], "&", r4);
    Regroup(p1, "&", f[2], "&", r3);
    Regroup(p0, "&", f[1], "&", r2);
    Regroup(endpoint, "?", f[0], "&", r1);
  }

  /** The six parameter names are plain words; with plain values every pair survives query-string parsing. */
  lemma AuthorizationQueryPlain(client: BaseAuthClient)
    requires forall i :: 0 <= i < 6 ==> |AuthorizationQuery(client)[i].1| > 0 && '&' !in AuthorizationQuery(client)[i].1
    ensures forall i :: 0 <= i < 6 ==> PlainPair(AuthorizationQuery(client)[i])
  {
    var q := AuthorizationQuery(client);
    forall i | 0 <= i < 6 ensures PlainPair(q[i]) {
      var name := q[i].0;
      assert forall j :: 0 <= j < |name| ==> 'a' <= name[j] <= 'z' || name[j] == '_';
    }
  }

  /**
   * Read with query-string parsing, the authorization URL carries exactly
   * the six parameters, in order, provided the endpoint has no `?` and no
   * value is empty or holds an `&`.
   */
  lemma AuthorizationUrlParses(endpoint: string, client: BaseAuthClient)
    requires '?' !in endpoint
    requires forall i :: 0 <= i < 6 ==> |AuthorizationQuery(client)[i].1| > 0 && '&' !in AuthorizationQuery(client)[i].1
    ensures ParseQsl(AfterFirst(AuthorizationUrl(endpoint, client), '?')) == AuthorizationQuery(client)
  {
    var q := AuthorizationQuery(client);
    var query := Join(EncodeFields(q), "&");
    AuthorizationUrlShape(endpoint, client);
    AuthorizationQueryPlain(client);
    BeforeFirstOf(endpoint, '?', query);
    assert endpoint + "?" + query == endpoint + ['?'] + query;
    assert (endpoint + "?" + query)[|endpoint| + 1..] == query;
    ParseQslEncode(q);
  }

  // ---------------------------------------------------------------------
  // The redirect listener

  /** The redirect URI's host and port, as the URL library reports them. */
  datatype RedirectUrl = RedirectUrl(host: Option<string>, port: Option<int>)

  const DefaultListenerHost: string := "127.0.0.1"
  const DefaultListenerPort: int := 8080

  /** Where the listener binds: the URI's host and port when they are set (truthy), the loopback defaults otherwise. */
  function ListenerAddress(redirect: RedirectUrl): (address: (string, int))
    ensures redirect.host.Some? && redirect.host.value != "" ==> address.0 == redirect.host.value
    ensures redirect.host.None? || redirect.host.value == "" ==> address.0 == DefaultListenerHost
    ensures redirect.port.Some? && redirect.port.value != 0 ==> address.1 == redirect.port.value
    ensures redirect.port.None? || redirect.port.value == 0 ==> address.1 == DefaultListenerPort
  {
    var host := if redirect.host.Some? && redirect.host.value != "" then redirect.host.value else DefaultListenerHost;
    var port := if redirect.port.Some? && redirect.port.value != 0 then redirect.port.value else DefaultListenerPort;
    (host, port)
  }

  /** Keeps, for every name, the first of its values. */
  function Flatten(grouped: map<string, seq<string>>): (flat: map<string, string>)
    requires forall name :: name in grouped ==> |grouped[name]| > 0
    ensures flat.Keys == grouped.Keys
    ensures forall name :: name in flat ==> flat[name] == grouped[name][0]
  {
    map name | name in grouped :: grouped[name][0]
  }

  /** Every name of `pairs` mapped to the value of its first pair. */
  function FirstValues(pairs: Pairs): (received: map<string, string>)
    ensures received.Keys == Names(pairs)
    ensures forall name :: name in received ==> received[name] == FirstValue(pairs, name)
  {
    map name | name in Names(pairs) :: FirstValue(pairs, name)
  }

  /** Flattening the grouped query keeps exactly the names received, each with its first value. */
  lemma FlattenGroupedIsFirstValues(pairs: Pairs, grouped: map<string, seq<string>>)
    requires grouped.Keys == Names(pairs)
    requires forall name :: name in grouped ==> grouped[name] == ValuesOf(pairs, name)
    ensures forall name :: name in grouped ==> |grouped[name]| > 0
    ensures Flatten(grouped) == FirstValues(pairs)
  {
    forall name | name in grouped
      ensures |grouped[name]| > 0 && grouped[name][0] == FirstValue(pairs, name)
    {
      ValuesOfFirst(pairs, name);
    }
  }

  /** The single-use loopback listener; it records the query of the one request it serves. */
  class AuthHTTPServer {
    const address: (string, int)
    var receivedParams: map<string, string>

    constructor(address: (string, int))
      ensures this.address == address && receivedParams == map[]
    {
      this.address := address;
      receivedParams := map[];
    }

    /** Serves the redirect: parses the query of `path` and keeps the first value of every parameter. */
    method DoGet(path: string)
      modifies this
      ensures receivedParams == FirstValues(ParseQsl(QueryOf(path)))
    {
      var pairs := ParseQsl(QueryOf(path));
      var grouped := ParseQs(pairs);
      FlattenGroupedIsFirstValues(pairs, grouped);
      receivedParams := Flatten(grouped);
    }
  }

  /**
   * The checks on the redirect's parameters: both `code` and `state` must
   * be present, checked before anything else; then `state` must be the one
   * sent; then the code is returned as received.
   */
  function ValidateReceivedParams(received: map<string, string>, expectedState: string): (r: Result<string, AuthError>)
    ensures r == Err(InvalidRedirectParams) <==> "code" !in received || "state" !in received
    ensures r == Err(StateMismatch) <==> "code" in received && "state" in received && received["state"] != expectedState
    ensures r.Ok? <==> "code" in received && "state" in received && received["state"] == expectedState
    ensures r.Ok? ==> r.value == received["code"]
  {
    if |received| == 0 || "code" !in received || "state" !in received then Err(InvalidRedirectParams)
    else if received["state"] != expectedState then Err(StateMismatch)
    else Ok(received["code"])
  }

  /** What one run of the interactive code capture did: the URL opened, where it listened, and its outcome. */
  datatype CodeCapture = CodeCapture(browserUrl: string, listener: Option<(string, int)>, result: Result<string, AuthError>)

  /**
   * The code capture: the browser is sent to the authorization URL; a
   * redirect URI that does not parse raises before any listener is bound;
   * otherwise the listener serves `callbackPath` and the code is the first
   * `code` value of its query, provided the first `state` value is the one sent.
   */
  function CodeFlow(client: BaseAuthClient, openid: OpenID, redirect: Option<RedirectUrl>, callbackPath: string)
    : (c: CodeCapture)
    ensures c.browserUrl == AuthorizationUrl(openid.authorizationEndpoint, client)
    ensures redirect.None? ==> c.listener.None? && c.result == Err(InvalidRedirectUri)
    ensures redirect.Some? ==> c.listener == Some(ListenerAddress(redirect.value))
    ensures redirect.Some? ==>
      var pairs := ParseQsl(QueryOf(callbackPath));
      && (c.result == Err(InvalidRedirectParams) <==> "code" !in Names(pairs) || "state" !in Names(pairs))
      && (c.result == Err(StateMismatch) <==>
            "code" in Names(pairs) && "state" in Names(pairs) && FirstValue(pairs, "state") != client.state)
      && (c.result.Ok? <==> "code" in Names(pairs) && "state" in Names(pairs) && FirstValue(pairs, "state") == client.state)
      && (c.result.Ok? ==> c.result.value == FirstValue(pairs, "code"))
    ensures redirect.Some? ==> c.result == ValidateReceivedParams(FirstValues(ParseQsl(QueryOf(callbackPath))), client.state)
  {
    var url := AuthorizationUrl(openid.authorizationEndpoint, client);
    match redirect
    case None => CodeCapture(url, None, Err(InvalidRedirectUri))
    case Some(r) =>
      var received := FirstValues(ParseQsl(QueryOf(callbackPath)));
      CodeCapture(url, Some(ListenerAddress(r)), ValidateReceivedParams(received, client.state))
  }

  // ---------------------------------------------------------------------
  // The token exchange

  const FormHeaders: Fields := map["content-type" := "application/x-www-form-urlencoded"]

  /** The call the provider makes for a token request: a form POST that follows redirects. */
  function TokenCall(url: string, data: Fields): (call: RequestCall)
    requires |data| > 0
    ensures call.verb == "POST" && call.url == url && call.followRedirects
    ensures call.kwargs.Keys == {"data", "headers"}
    ensures call.kwargs["data"] == data && call.kwargs["headers"] == FormHeaders
  {
    assert |FormHeaders| > 0 by { assert "content-type" in FormHeaders; }
    RequestCall("POST", url, RequestKwargs(None, None, Some(data), Some(FormHeaders)), true)
  }

  /** The form fields every token request starts from. */
  function ClientCredentials(client: BaseAuthClient): Fields
  {
    map["client_id" := client.clientId, "client_secret" := client.clientSecret]
  }

  /** The authorization-code grant's form fields. */
  function AuthorizationCodeData(client: BaseAuthClient, code: string): (data: Fields)
    ensures data.Keys == {"client_id", "client_secret", "code", "grant_type", "redirect_uri"}
    ensures data["client_id"] == client.clientId && data["client_secret"] == client.clientSecret
    ensures data["code"] == code && data["grant_type"] == "authorization_code"
    ensures data["redirect_uri"] == client.redirectUri
  {
    ClientCredentials(client)["code" := code]["grant_type" := "authorization_code"]["redirect_uri" := client.redirectUri]
  }

  /** The refresh grant's form fields. */
  function RefreshGrantData(client: BaseAuthClient, refreshToken: string): (data: Fields)
    ensures data.Keys == {"client_id", "client_secret", "grant_type", "refresh_token"}
    ensures data["client_id"] == client.clientId && data["client_secret"] == client.clientSecret
    ensures data["grant_type"] == "refresh_token" && data["refresh_token"] == refreshToken
  {
    ClientCredentials(client)["grant_type" := "refresh_token"]["refresh_token" := refreshToken]
  }

  /** The request sent, then `raise_for_status`, then decoding and validation of the body. */
  function Exchange(call: RequestCall, model: ResponseModel, send: RequestCall -> HttpResponse, now: int)
    : (r: Result<TokenInfo, AuthError>)
    ensures r == Err(NetworkError) <==> send(call).TransportFailure?
    ensures send(call).HttpResponse? ==>
      (!IsSuccess(send(call).status) <==> r == Err(HttpStatusError(send(call).status)))
    ensures r.Ok? <==>
      && send(call).HttpResponse? && IsSuccess(send(call).status) && send(call).body.Some?
      && Validate(model, send(call).body.value, now).Ok?
    ensures r.Ok? ==> r.value == Validate(model, send(call).body.value, now).value
  {
    match send(call)
    case TransportFailure => Err(NetworkError)
    case HttpResponse(status, body) =>
      if !IsSuccess(status) then Err(HttpStatusError(status))
      else if body.None? then Err(BodyNotJson)
      else
        match Validate(model, body.value, now)
        case Ok(info) => Ok(info)
        case Err(e) => Err(ResponseValidationError(e))
  }

  /** One `get_token_info` call: what it returned, what it did, and the refresh token afterwards. */
  datatype TokenFlowOutcome = TokenFlowOutcome(
    result: Result<TokenInfo, AuthError>,
    capture: Option<CodeCapture>,
    sent: Option<RequestCall>,
    refreshToken: Option<string>)

  /** The form fields of a token request as sent: always the client credentials, then the grant's own fields. */
  predicate CarriesClientCredentials(call: RequestCall, client: BaseAuthClient)
  {
    && "data" in call.kwargs
    && "client_id" in call.kwargs["data"] && call.kwargs["data"]["client_id"] == client.clientId
    && "client_secret" in call.kwargs["data"] && call.kwargs["data"]["client_secret"] == client.clientSecret
  }

  /**
   * The token provider's two-state machine. Without a (truthy) refresh
   * token it runs the code capture and, when that yields a code, the
   * authorization-code grant, and on success stores the refresh token it
   * receives. With one it runs the refresh grant only, never the capture,
   * and keeps its refresh token. A failure anywhere leaves the refresh token as it was.
   */
  function TokenFlow(client: BaseAuthClient, openid: OpenID, refreshToken: Option<string>,
                     redirect: Option<RedirectUrl>, callbackPath: string,
                     send: RequestCall -> HttpResponse, now: int): (f: TokenFlowOutcome)
    ensures f.sent.Some? ==>
      && f.sent.value.verb == "POST" && f.sent.value.url == openid.tokenEndpoint && f.sent.value.followRedirects
      && f.sent.value.kwargs.Keys == {"data", "headers"} && f.sent.value.kwargs["headers"] == FormHeaders
      && CarriesClientCredentials(f.sent.value, client)
    ensures TruthyString(refreshToken) ==>
      && f.capture.None?
      && f.sent.Some?
      && f.sent.value.kwargs["data"].Keys == {"client_id", "client_secret", "grant_type", "refresh_token"}
      && f.sent.value.kwargs["data"]["grant_type"] == "refresh_token"
      && f.sent.value.kwargs["data"]["refresh_token"] == refreshToken.value
      && f.result == Exchange(f.sent.value, TokenInfoModel, send, now)
      && f.refreshToken == refreshToken
    ensures !TruthyString(refreshToken) ==>
      && f.capture == Some(CodeFlow(client, openid, redirect, callbackPath))
      && (f.sent.Some? <==> f.capture.value.result.Ok?)
      && (f.capture.value.result.Err? ==> f.result == Err(f.capture.value.result.error))
      && (f.sent.Some? ==>
            && f.sent.value.kwargs["data"].Keys == {"client_id", "client_secret", "code", "grant_type", "redirect_uri"}
            && f.sent.value.kwargs["data"]["code"] == f.capture.value.result.value
            && f.sent.value.kwargs["data"]["grant_type"] == "authorization_code"
            && f.sent.value.kwargs["data"]["redirect_uri"] == client.redirectUri
            && f.result == Exchange(f.sent.value, TokenInfoWithRefreshModel, send, now))
      && (f.result.Ok? ==> f.result.value.TokenInfoWithRefresh? && f.refreshToken == Some(f.result.value.refreshToken))
    ensures f.result.Ok? ==> (f.result.value.TokenInfoWithRefresh? <==> !TruthyString(refreshToken))
    ensures f.result.Err? ==> f.refreshToken == refreshToken
  {
    if !TruthyString(refreshToken) then
      var capture := CodeFlow(client, openid, redirect, callbackPath);
      match capture.result
      case Err(e) => TokenFlowOutcome(Err(e), Some(capture), None, refreshToken)
      case Ok(code) =>
        var data := AuthorizationCodeData(client, code);
        assert "code" in data;
        var call := TokenCall(openid.tokenEndpoint, data);
        var r := Exchange(call, TokenInfoWithRefreshModel, send, now);
        TokenFlowOutcome(r, Some(capture), Some(call), if r.Ok? then Some(r.value.refreshToken) else refreshToken)
    else
      var data := RefreshGrantData(client, refreshToken.value);
      assert "grant_type" in data;
      var call := TokenCall(openid.tokenEndpoint, data);
      TokenFlowOutcome(Exchange(call, TokenInfoModel, send, now), None, Some(call), refreshToken)
  }

  /**
   * Once a refresh token is held the provider stays in the refresh state:
   * the next call again sends the refresh grant and never runs the capture.
   */
  lemma RefreshStateIsAbsorbing(client: BaseAuthClient, openid: OpenID, refreshToken: Option<string>,
                                redirect: Option<RedirectUrl>, callbackPath: string,
                                send: RequestCall -> HttpResponse, now: int)
    requires TruthyString(refreshToken)
    ensures var f := TokenFlow(client, openid, refreshToken, redirect, callbackPath, send, now);
            TruthyString(f.refreshToken) && f.capture.None?
  {
  }

  /**
   * After an authorization-code exchange that returns refresh token `R`,
   * the next call sends the refresh grant with `R` and runs no capture,
   * whatever the redirect and the callback would have been.
   */
  lemma AuthorizationCodeThenRefresh(client: BaseAuthClient, openid: OpenID, redirect: Option<RedirectUrl>,
                                     callbackPath: string, send: RequestCall -> HttpResponse, now: int,
                                     redirect2: Option<RedirectUrl>, callbackPath2: string,
                                     send2: RequestCall -> HttpResponse, now2: int)
    requires var f := TokenFlow(client, openid, None, redirect, callbackPath, send, now);
             f.result.Ok? && |f.result.value.refreshToken| > 0
    ensures var f := TokenFlow(client, openid, None, redirect, callbackPath, send, now);
            var g := TokenFlow(client, openid, f.refreshToken, redirect2, callbackPath2, send2, now2);
            && f.sent.value.kwargs["data"]["grant_type"] == "authorization_code"
            && g.capture.None?
            && g.sent.value.kwargs["data"]["grant_type"] == "refresh_token"
            && g.sent.value.kwargs["data"]["refresh_token"] == f.result.value.refreshToken
  {
  }

  // ---------------------------------------------------------------------
  // The token provider and the authenticator

  class OAuth2PasswordBearer {
    /** The configuration stored by the auth client base class. */
    const client: BaseAuthClient
    const settings: AuthSettings
    /** The only state that changes: the refresh token, carried across renewals. */
    var refreshToken: Option<string>

    constructor(client: BaseAuthClient, settings: AuthSettings)
      ensures this.client == client && this.settings == settings
      ensures refreshToken == settings.refreshToken
    {
      this.client := client;
      this.settings := settings;
      refreshToken := settings.refreshToken;
    }

    /** Construction from explicit arguments over the settings; raises when no client id or secret is found. */
    static method Create(args: AuthArgs, settings: AuthSettings) returns (r: Result<OAuth2PasswordBearer, AuthError>)
      ensures ResolveAuthArgs(args, settings).Err? ==> r == Err(ResolveAuthArgs(args, settings).error)
      ensures ResolveAuthArgs(args, settings).Ok? ==>
        var p := ResolveAuthArgs(args, settings).value;
        && r.Ok? && fresh(r.value) && fresh(r.value.client)
        && r.value.settings == settings && r.value.refreshToken == settings.refreshToken
        && Configured(r.value.client, p)
    {
      match ResolveAuthArgs(args, settings)
      case Err(e) =>
        r := Err(e);
      case Ok(p) =>
        var base := new BaseAuthClient(p.baseUrl, p.audience, p.clientId, p.clientSecret, p.redirectUri,
                                       p.responseType, p.state, p.scopes, p.timeout, p.retries);
        var bearer := new OAuth2PasswordBearer(base, settings);
        r := Ok(bearer);
    }

    /** The interactive code capture, with the listener as an object serving one request. */
    method GetCode(redirect: Option<RedirectUrl>, callbackPath: string) returns (capture: CodeCapture)
      ensures capture == CodeFlow(client, settings.openid, redirect, callbackPath)
    {
      var url := AuthorizationUrl(settings.openid.authorizationEndpoint, client);
      if redirect.None? {
        return CodeCapture(url, None, Err(InvalidRedirectUri));
      }
      var address := ListenerAddress(redirect.value);
      var httpd := new AuthHTTPServer(address);
      httpd.DoGet(callbackPath);
      var result := ValidateReceivedParams(httpd.receivedParams, client.state);
      capture := CodeCapture(url, Some(address), result);
    }

    /** The inherited request helper: filters the keyword arguments, sends, checks the status, validates. */
    method MakeRequest(verb: string, url: string, model: ResponseModel,
                       params: Option<Fields>, json: Option<Fields>, data: Option<Fields>, headers: Option<Fields>,
                       send: RequestCall -> HttpResponse, now: int)
      returns (r: Result<TokenInfo, AuthError>, call: RequestCall)
      ensures call == RequestCall(verb, url, RequestKwargs(params, json, data, headers), true)
      ensures r == Exchange(call, model, send, now)
    {
      var kwargs := BuildRequestKwargs(params, json, data, headers);
      call := RequestCall(verb, url, kwargs, true);
      var response := send(call);
      if response.TransportFailure? {
        return Err(NetworkError), call;
      }
      if !IsSuccess(response.status) {
        return Err(HttpStatusError(response.status)), call;
      }
      if response.body.None? {
        return Err(BodyNotJson), call;
      }
      match Validate(model, response.body.value, now)
      case Ok(info) =>
        r := Ok(info);
      case Err(e) =>
        r := Err(ResponseValidationError(e));
    }

    /** `get_token_info`: one step of the token state machine. */
    method GetTokenInfo(redirect: Option<RedirectUrl>, callbackPath: string, send: RequestCall -> HttpResponse, now: int)
      returns (r: Result<TokenInfo, AuthError>, capture: Option<CodeCapture>, sent: Option<RequestCall>)
      modifies this
      ensures TokenFlowOutcome(r, capture, sent, refreshToken)
           == TokenFlow(client, settings.openid, old(refreshToken), redirect, callbackPath, send, now)
    {
      var data: Fields := map["client_id" := client.clientId, "client_secret" := client.clientSecret];
      var headers := FormHeaders;
      if !TruthyString(refreshToken) {
        var code := GetCode(redirect, callbackPath);
        capture := Some(code);
        if code.result.Err? {
          r, sent := Err(code.result.error), None;
          return;
        }
        data := data["code" := code.result.value];
        data := data["grant_type" := "authorization_code"];
        data := data["redirect_uri" := client.redirectUri];
        var call;
        r, call := MakeRequest("POST", settings.openid.tokenEndpoint, TokenInfoWithRefreshModel,
                               None, None, Some(data), Some(headers), send, now);
        sent := Some(call);
        if r.Ok? {
          refreshToken := Some(r.value.refreshToken);
        }
      } else {
        data := data["grant_type" := "refresh_token"];
        data := data["refresh_token" := refreshToken.value];
        var call;
        r, call := MakeRequest("POST", settings.openid.tokenEndpoint, TokenInfoModel,
                               None, None, Some(data), Some(headers), send, now);
        capture, sent := None, Some(call);
      }
    }
  }

  const DefaultBufferSeconds: int := 180

  /**
   * Whether the hook renews: when nothing is cached, or when the clock has
   * reached the cached expiry plus the buffer. The buffer is added, so it
   * extends the token's use past its expiry instead of renewing early.
   */
  function NeedsRenewal(cached: Option<TokenInfo>, now: int, bufferSeconds: int): (r: bool)
    ensures cached.None? ==> r
    ensures cached.Some? && bufferSeconds >= 0 && r ==> now >= cached.value.expiresAt
  {
    cached.None? || now >= cached.value.expiresAt + bufferSeconds
  }

  class TradeStationAuth {
    const oauthClient: OAuth2PasswordBearer
    const bufferSeconds: int
    /** The most recent token, replaced whole on renewal. */
    var tokenInfo: Option<TokenInfo>

    constructor(oauthClient: OAuth2PasswordBearer, bufferSeconds: int := DefaultBufferSeconds)
      ensures this.oauthClient == oauthClient && this.bufferSeconds == bufferSeconds
      ensures tokenInfo == None
    {
      this.oauthClient := oauthClient;
      this.bufferSeconds := bufferSeconds;
      tokenInfo := None;
    }

    /** Construction with the provider optional: without one, a provider is built from the settings alone. */
    static method Create(oauthClient: OAuth2PasswordBearer?, settings: AuthSettings,
                         bufferSeconds: int := DefaultBufferSeconds)
      returns (r: Result<TradeStationAuth, AuthError>)
      ensures oauthClient != null ==> r.Ok? && r.value.oauthClient == oauthClient
      ensures oauthClient == null ==>
        && (r.Ok? <==> ResolveAuthArgs(NoArgs, settings).Ok?)
        && (r.Err? ==> r.error == ResolveAuthArgs(NoArgs, settings).error)
        && (r.Ok? ==> fresh(r.value.oauthClient) && r.value.oauthClient.settings == settings
                      && r.value.oauthClient.refreshToken == settings.refreshToken
                      && Configured(r.value.oauthClient.client, ResolveAuthArgs(NoArgs, settings).value))
      ensures r.Ok? ==> fresh(r.value) && r.value.bufferSeconds == bufferSeconds && r.value.tokenInfo == None
    {
      var provider := oauthClient;
      if provider == null {
        var made := OAuth2PasswordBearer.Create(NoArgs, settings);
        if made.Err? {
          return Err(made.error);
        }
        provider := made.value;
      }
      var auth := new TradeStationAuth(provider, bufferSeconds);
      r := Ok(auth);
    }

    /**
     * The per-request hook: renews the cached token when `NeedsRenewal`
     * says so, then sets `Authorization: Bearer <access token>` on the
     * request and lets it proceed. A failed renewal raises; the cache and
     * the request are then left as they were. Also returns what the provider
     * did (its code capture and its token call), neither when no renewal was due.
     */
    method SyncAuthFlow(request: Request, now: int, redirect: Option<RedirectUrl>, callbackPath: string,
                        send: RequestCall -> HttpResponse)
      returns (r: Result<Request, AuthError>, capture: Option<CodeCapture>, sent: Option<RequestCall>)
      modifies this, oauthClient, request
      ensures !NeedsRenewal(old(tokenInfo), now, bufferSeconds) ==>
        && tokenInfo == old(tokenInfo)
        && oauthClient.refreshToken == old(oauthClient.refreshToken)
        && capture.None? && sent.None?
        && r.Ok?
      ensures NeedsRenewal(old(tokenInfo), now, bufferSeconds) ==>
        var f := TokenFlow(oauthClient.client, oauthClient.settings.openid, old(oauthClient.refreshToken),
                           redirect, callbackPath, send, now);
        && oauthClient.refreshToken == f.refreshToken
        && capture == f.capture && sent == f.sent && (capture.Some? || sent.Some?)
        && (r.Ok? <==> f.result.Ok?)
        && (f.result.Ok? ==> tokenInfo == Some(f.result.value))
        && (f.result.Err? ==> tokenInfo == old(tokenInfo) && r == Err(f.result.error))
      ensures r.Ok? ==>
        && r.value == request && tokenInfo.Some?
        && request.headers == old(request.headers)["Authorization" := "Bearer " + tokenInfo.value.accessToken]
      ensures r.Err? ==> request.headers == old(request.headers)
    {
      capture, sent := None, None;
      if NeedsRenewal(tokenInfo, now, bufferSeconds) {
        var info;
        info, capture, sent := oauthClient.GetTokenInfo(redirect, callbackPath, send, now);
        if info.Err? {
          r := Err(info.error);
          return;
        }
        tokenInfo := Some(info.value);
      }
      request.headers := request.headers["Authorization" := "Bearer " + tokenInfo.value.accessToken];
      r := Ok(request);
    }
  }

  /** With expiry `T` and buffer `B`, the hook reuses the token while the clock is below `T + B` and renews from then on. */
  lemma RenewalThreshold(token: TokenInfo, bufferSeconds: int, now: int, later: int)
    ensures NeedsRenewal(Some(token), now, bufferSeconds) <==> now >= token.expiresAt + bufferSeconds
    ensures NeedsRenewal(Some(token), now, bufferSeconds) && now <= later ==> NeedsRenewal(Some(token), later, bufferSeconds)
  {
  }

  /** A token validated at `now` is reused by the hook until `now + expires_in + buffer`. */
  lemma FreshTokenLifetime(body: Json, now: int, bufferSeconds: int, later: int)
    requires Validate(TokenInfoModel, body, now).Ok?
    ensures var token := Validate(TokenInfoModel, body, now).value;
            !NeedsRenewal(Some(token), later, bufferSeconds) <==> later < now + token.expiresIn + bufferSeconds
  {
  }

  // ---------------------------------------------------------------------
  // The renewal check with `expires_at` read lazily, as the source does.

  /**
   * The renewal check as written: the cached record's `expires_at` is a
   * cached property, so when it has not been read yet this check stamps it
   * with the current clock. Returns the decision and the record's cache afterwards:
   * a stamped record is compared with its stamp and kept, while an unstamped one
   * is stamped `now + expires_in`, so the clock cancels out of its comparison.
   */
  function NeedsRenewalAsWritten(cached: Option<(int, ExpiresAtCache)>, now: int, bufferSeconds: int)
    : (r: (bool, Option<ExpiresAtCache>))
    ensures cached.None? ==> r == (true, None)
    ensures cached.Some? && cached.value.1.Cached? ==>
      r == (now >= cached.value.1.expiresAt + bufferSeconds, Some(cached.value.1))
    ensures cached.Some? && cached.value.1.Unread? ==>
      r == (cached.value.0 + bufferSeconds <= 0, Some(Cached(now + cached.value.0)))
  {
    match cached
    case None => (true, None)
    case Some((expiresIn, cache)) =>
      var (expiresAt, cache') := ReadExpiresAt(cache, expiresIn, now);
      (now >= expiresAt + bufferSeconds, Some(cache'))
  }

  /**
   * As written, the first check after a token is stored never renews it
   * (when `expires_in + buffer > 0`), however long ago it was issued: the
   * expiry is stamped from that check's own clock.
   */
  lemma AsWrittenFirstCheckNeverRenews(expiresIn: int, now: int, bufferSeconds: int)
    requires expiresIn + bufferSeconds > 0
    ensures !NeedsRenewalAsWritten(Some((expiresIn, Unread)), now, bufferSeconds).0
  {
  }

  /**
   * Counterexample: a token issued at second 0 with `expires_in = 3600`,
   * first re-checked at second 10000 with the default buffer. As written it
   * is reused (its expiry is stamped 13600); with the expiry fixed at
   * issuance it is renewed.
   */
  lemma LazyExpiryReusesExpiredToken()
    ensures var body := JObject(map["access_token" := JString("a"), "id_token" := JString("i"),
                                    "scope" := JString("s"), "expires_in" := JInt(3600)]);
            && Validate(TokenInfoModel, body, 0).Ok?
            && NeedsRenewal(Some(Validate(TokenInfoModel, body, 0).value), 10000, DefaultBufferSeconds)
            && NeedsRenewalAsWritten(Some((3600, Unread)), 10000, DefaultBufferSeconds) == (false, Some(Cached(13600)))
  {
    var body := JObject(map["access_token" := JString("a"), "id_token" := JString("i"),
                            "scope" := JString("s"), "expires_in" := JInt(3600)]);
    assert InvalidFieldsOf(body.fields, TokenInfoModel) == {} by {
      assert HasString(body.fields, "access_token") && HasString(body.fields, "id_token");
      assert HasString(body.fields, "scope") && HasInt(body.fields, "expires_in");
    }
  }
}
