/**
 * The synchronous API client: where its requests go and which headers it
 * sends by default.
 */
module ApiClient {
  import opened Wrappers
  import opened Text
  import opened BaseClient
  import Auth

  predicate AllSlashes(s: string)
  {
    forall i :: 0 <= i < |s| ==> s[i] == '/'
  }

  /**
   * The request URL: the base URL without its trailing slashes, exactly one
   * slash, then the endpoint without its leading slashes.
   */
  function ApiUrl(baseUrl: string, endpoint: string): (url: string)
    ensures var base := RStrip(baseUrl, '/');
            && |url| == |base| + 1 + |LStrip(endpoint, '/')|
            && url[..|base|] == baseUrl[..|base|] && (|base| == 0 || url[|base| - 1] != '/')
            && url[|base|] == '/'
            && url[|base| + 1..] == LStrip(endpoint, '/') && (|url| == |base| + 1 || url[|base| + 1] != '/')
  {
    RStrip(baseUrl, '/') + "/" + LStrip(endpoint, '/')
  }

  lemma {:induction false} RStripSlashes(s: string, tail: string)
    requires AllSlashes(tail)
    ensures RStrip(s + tail, '/') == RStrip(s, '/')
  {
    if |tail| > 0 {
      var t := s + tail;
      assert t[..|t| - 1] == s + tail[..|tail| - 1];
      RStripSlashes(s, tail[..|tail| - 1]);
    } else {
      assert s + tail == s;
    }
  }

  lemma {:induction false} LStripSlashes(head: string, s: string)
    requires AllSlashes(head)
    ensures LStrip(head + s, '/') == LStrip(s, '/')
  {
    if |head| > 0 {
      assert (head + s)[1..] == head[1..] + s;
      LStripSlashes(head[1..], s);
    } else {
      assert head + s == s;
    }
  }

  /** Slashes at the seam do not matter: any run of them after the base or before the endpoint gives the same URL. */
  lemma ApiUrlIgnoresSeamSlashes(baseUrl: string, endpoint: string, tail: string, head: string)
    requires AllSlashes(tail) && AllSlashes(head)
    ensures ApiUrl(baseUrl + tail, head + endpoint) == ApiUrl(baseUrl, endpoint)
  {
    RStripSlashes(baseUrl, tail);
    LStripSlashes(head, endpoint);
  }

  const JsonContentType: string := "application/json"

  class SyncAPIClient {
    const baseUrl: string
    const timeout: real
    const retries: int
    const headers: map<string, string>
    const auth: Auth.TradeStationAuth?

    /** Stores the base URL without trailing slashes and builds the default headers. */
    constructor(baseUrl: string, apiKey: Option<string> := None, auth: Auth.TradeStationAuth? := null,
                timeout: real := DefaultTimeout, retries: int := DefaultRetries)
      ensures this.baseUrl == RStrip(baseUrl, '/')
      ensures this.timeout == timeout && this.retries == retries && this.auth == auth
      ensures "Content-Type" in headers && headers["Content-Type"] == JsonContentType
      ensures "Authorization" in headers <==> TruthyString(apiKey)
      ensures "Authorization" in headers ==> headers["Authorization"] == "Bearer " + apiKey.value
      ensures headers.Keys <= {"Content-Type", "Authorization"}
    {
      this.baseUrl := RStrip(baseUrl, '/');
      this.timeout := timeout;
      this.retries := retries;
      var h := map["Content-Type" := JsonContentType];
      if TruthyString(apiKey) {
        h := h["Authorization" := "Bearer " + apiKey.value];
      }
      this.headers := h;
      this.auth := auth;
    }

    /** The call `_make_request` hands to the HTTP library; redirects are not followed. */
    method MakeRequest(verb: string, endpoint: string, params: Option<Fields> := None, json: Option<Fields> := None,
                       data: Option<Fields> := None, headers: Option<Fields> := None)
      returns (call: RequestCall)
      ensures call.verb == verb && call.url == ApiUrl(baseUrl, endpoint) && !call.followRedirects
      ensures call.kwargs == RequestKwargs(params, json, data, headers)
    {
      var url := ApiUrl(baseUrl, endpoint);
      var kwargs := BuildRequestKwargs(params, json, data, headers);
      call := RequestCall(verb, url, kwargs, false);
    }
  }
}
