/**
 * The client base classes' shared machinery: the stored configuration of
 * an auth client, which keyword arguments reach the HTTP library, what a
 * request call and a response are, and when a status code raises.
 */
module BaseClient {
  import opened Wrappers
  import opened Enums
  import Token

  const DefaultTimeout: real := 30.0
  const DefaultRetries: int := 3

  /** The configuration an auth client is built with; every argument is stored as given. */
  class BaseAuthClient {
    const baseUrl: string
    const audience: string
    const clientId: string
    const clientSecret: string
    const redirectUri: string
    const responseType: string
    const state: string
    const scopes: seq<Scope>
    const timeout: real
    const retries: int

    constructor(baseUrl: string, audience: string, clientId: string, clientSecret: string, redirectUri: string,
                responseType: string, state: string, scopes: seq<Scope>,
                timeout: real := DefaultTimeout, retries: int := DefaultRetries)
      ensures this.baseUrl == baseUrl && this.audience == audience
      ensures this.clientId == clientId && this.clientSecret == clientSecret
      ensures this.redirectUri == redirectUri && this.responseType == responseType
      ensures this.state == state && this.scopes == scopes
      ensures this.timeout == timeout && this.retries == retries
    {
      this.baseUrl := baseUrl;
      this.audience := audience;
      this.clientId := clientId;
      this.clientSecret := clientSecret;
      this.redirectUri := redirectUri;
      this.responseType := responseType;
      this.state := state;
      this.scopes := scopes;
      this.timeout := timeout;
      this.retries := retries;
    }
  }

  /** A string-to-string dictionary: query parameters, form data, a JSON object or headers. */
  type Fields = map<string, string>

  /** Python truthiness of an optional dictionary argument: present and non-empty. */
  predicate Truthy(arg: Option<Fields>)
  {
    arg.Some? && |arg.value| > 0
  }

  /** Python truthiness of an optional string: present and non-empty. */
  predicate TruthyString(s: Option<string>)
  {
    s.Some? && |s.value| > 0
  }

  /** The names under which the optional arguments are passed on. */
  const KwargNames: set<string> := {"params", "json", "data", "headers"}

  /** Adds `arg` under `name` when it is truthy. */
  function InsertIfTruthy(kwargs: map<string, Fields>, name: string, arg: Option<Fields>): map<string, Fields>
  {
    if Truthy(arg) then kwargs[name := arg.value] else kwargs
  }

  /**
   * The keyword arguments handed to the HTTP library: each of `params`,
   * `json`, `data` and `headers` appears exactly when it is truthy, with
   * the caller's dictionary as its value, and nothing else appears.
   */
  function RequestKwargs(params: Option<Fields>, json: Option<Fields>, data: Option<Fields>, headers: Option<Fields>)
    : (kwargs: map<string, Fields>)
    ensures kwargs.Keys <= KwargNames
    ensures ("params" in kwargs <==> Truthy(params)) && ("params" in kwargs ==> kwargs["params"] == params.value)
    ensures ("json" in kwargs <==> Truthy(json)) && ("json" in kwargs ==> kwargs["json"] == json.value)
    ensures ("data" in kwargs <==> Truthy(data)) && ("data" in kwargs ==> kwargs["data"] == data.value)
    ensures ("headers" in kwargs <==> Truthy(headers)) && ("headers" in kwargs ==> kwargs["headers"] == headers.value)
  {
    InsertIfTruthy(InsertIfTruthy(InsertIfTruthy(InsertIfTruthy(map[], "params", params), "json", json), "data", data),
                   "headers", headers)
  }

  /** The `request_kwargs` dictionary, filled by one conditional insertion per argument. */
  method BuildRequestKwargs(params: Option<Fields>, json: Option<Fields>, data: Option<Fields>, headers: Option<Fields>)
    returns (kwargs: map<string, Fields>)
    ensures kwargs == RequestKwargs(params, json, data, headers)
  {
    kwargs := map[];
    if Truthy(params) {
      kwargs := kwargs["params" := params.value];
    }
    if Truthy(json) {
      kwargs := kwargs["json" := json.value];
    }
    if Truthy(data) {
      kwargs := kwargs["data" := data.value];
    }
    if Truthy(headers) {
      kwargs := kwargs["headers" := headers.value];
    }
  }

  /** A request carrying only non-empty query parameters passes exactly those to the HTTP library. */
  lemma ParamsOnlyKwargs(params: Fields)
    requires |params| > 0
    ensures RequestKwargs(Some(params), None, None, None) == map["params" := params]
  {
    var kwargs := RequestKwargs(Some(params), None, None, None);
    assert kwargs.Keys == {"params"} by {
      forall k | k in kwargs.Keys ensures k == "params" {
        assert k in KwargNames;
      }
    }
  }

  /** One call into the HTTP library: verb, URL, the keyword arguments, and whether redirects are followed. */
  datatype RequestCall = RequestCall(verb: string, url: string, kwargs: map<string, Fields>, followRedirects: bool)

  /**
   * What came back: a status with the body decoded as JSON (`None` when it
   * is not JSON), or a failure to reach the server at all.
   */
  datatype HttpResponse =
    | HttpResponse(status: int, body: Option<Token.Json>)
    | TransportFailure

  /** `raise_for_status` lets a response through exactly when its status is 2xx. */
  predicate IsSuccess(status: int)
  {
    200 <= status < 300
  }

  /** An outgoing request as the authentication hook sees it: its headers can still be changed. */
  class Request {
    const verb: string
    const url: string
    var headers: map<string, string>

    constructor(verb: string, url: string, headers: map<string, string>)
      ensures this.verb == verb && this.url == url && this.headers == headers
    {
      this.verb := verb;
      this.url := url;
      this.headers := headers;
    }
  }
}
