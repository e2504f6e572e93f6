# TradeStation client: OAuth2 token lifecycle and request building

A Dafny model of the core of the `tradestation-python` client:

- **Token provider** (`OAuth2PasswordBearer`). It resolves its configuration from
  arguments and settings. With no refresh token held, it runs the authorization-code
  capture:
  - builds the browser authorization URL;
  - listens on the redirect host and port;
  - flattens the callback query;
  - checks `code` and `state`.

  It then exchanges the code for a token record with a refresh token and keeps that
  refresh token. With a refresh token held, it sends the refresh grant instead.
- **Authenticator hook** (`TradeStationAuth.sync_auth_flow`). It renews the cached
  token once the clock reaches `expires_at + buffer_seconds`, then stamps
  `Authorization: Bearer <access token>` on the outgoing request.
- **Token records** (`TokenInfo`, `TokenInfoWithRefresh`). Validation is modelled
  field by field; `expires_at = now + expires_in`.
- **Request helpers** of the HTTP base clients:
  - the keyword-argument dictionary that keeps only truthy arguments;
  - redirects followed only by the auth client;
  - the API URL joining the base URL and the endpoint with exactly one slash;
  - default headers.
- **Bar-chart request** (`MarketData.bars`): its query parameters, the
  `%Y-%m-%dT%H:%M:%SZ` timestamp format and the endpoint.

Modules follow the source files:

| module | file |
|---|---|
| `Token` | `types/responses/token.py` |
| `BaseClient` | `_base_client.py`, auth half |
| `ApiClient` | `_base_client.py`, API half |
| `Auth` | `_auth.py` |
| `MarketData` | `resources/market_data/market_data.py` |
| `Enums` | the `Scope`, `SessionTemplate` and bar-unit enumerations |
| `Query` | the parts of `urllib.parse` the callback handler uses |
| `Text` | string helpers: split/join, strip, decimal rendering, zero padding |
| `Wrappers` | `Option` and `Result` |

The outside world becomes parameters:

- The HTTP transport is a function `send: RequestCall -> HttpResponse`. A
  `RequestCall` records the verb, URL, keyword arguments and whether redirects
  are followed.
- The wall clock is an integer `now`.
- The parsed redirect URI is an optional host/port pair; `None` means the URI
  failed to parse.
- The callback path received by the local listener is a string.

Three behaviours of the code that the model keeps as they are:

- The callback flattening keeps the **first** value of a repeated query name
  (`_auth.py:38` takes `v[0]`).
- A client id or secret is rejected only when it is absent (`None`). An empty
  string passes (`_auth.py:97-108`).
- The renewal test adds the buffer to the expiry (`now >= expires_at + buffer`).
  The buffer therefore extends the token's use past its expiry rather than
  renewing early. `Auth.NeedsRenewal` and `Auth.RenewalThreshold` state this.

One behaviour the model changes:

- `expires_at` is a cached property, so it is computed at its first read, not when
  the record is validated. This is reported under Findings. Only
  `Auth.NeedsRenewalAsWritten` models the lazy read; the rest of the model,
  `Auth.TradeStationAuth.SyncAuthFlow` included, uses the value fixed at validation.

## Model

| member | source | states |
|---|---|---|
| Enums.ScopeValueIsWord | tradestation-python/src/tradestation_python/types/enums/scope.py:4-13 | every scope value is non-empty and contains no space, `&` or `=`, so the space-joined scope string and the query string keep them apart |
| Enums.ScopeValueInjective | tradestation-python/src/tradestation_python/types/enums/scope.py:4-13 | distinct scopes have distinct string values |
| Token.Validate | tradestation-python/src/tradestation_python/types/responses/token.py:7-21 | a body validates iff it is an object whose required fields have the right types; the error names exactly the bad fields; on success the record carries the body's fields, `expiresAt == now + expiresIn`, and it has the refresh variant iff that model was asked for |
| Token.WithRefreshExtendsTokenInfo | tradestation-python/src/tradestation_python/types/responses/token.py:20-21 | a body validates as `TokenInfoWithRefresh` iff it validates as `TokenInfo` and carries a string `refresh_token`; the shared fields then agree |
| Token.ReadExpiresAt | tradestation-python/src/tradestation_python/types/responses/token.py:14-17 | the first read of `expires_at` returns `now + expires_in` and caches it; a read after that returns the cached value |
| Token.ReadExpiresAtStable | tradestation-python/src/tradestation_python/types/responses/token.py:14-17 | once read, `expires_at` is the same at any later clock |
| BaseClient.BaseAuthClient.constructor | tradestation-python/src/tradestation_python/_base_client.py:16-38 | every configuration field holds its argument; timeout and retries default to 30.0 and 3 |
| BaseClient.RequestKwargs | tradestation-python/src/tradestation_python/_base_client.py:59-67 | `params`/`json`/`data`/`headers` is a key iff that argument is truthy (present and non-empty), then with the argument as value; no other keys |
| BaseClient.BuildRequestKwargs | tradestation-python/src/tradestation_python/_base_client.py:59-67 | the conditional insertions build exactly `RequestKwargs` |
| BaseClient.ParamsOnlyKwargs | tradestation-python/src/tradestation_python/_base_client.py:130-138 | a request with only non-empty query parameters hands exactly `{"params": params}` to the HTTP library |
| Query.BeforeFirst | tradestation-python/src/tradestation_python/_auth.py:36 | the result is the longest prefix without the separator; the separator follows it when the input is longer |
| Query.AfterFirst | tradestation-python/src/tradestation_python/_auth.py:36 | the result is what follows the first separator, or empty when there is none |
| Query.QueryOf | tradestation-python/src/tradestation_python/_auth.py:36 | the query of a path holds no `#` and is empty when the path has no `?` |
| Query.QueryOfPath | tradestation-python/src/tradestation_python/_auth.py:36 | the query of `path?query`, with or without a `#fragment`, is `query` when the path part has no `?` or `#` and the query no `#` |
| Query.ParseQsl | tradestation-python/src/tradestation_python/_auth.py:37 | every parsed pair has a name free of `=` and `&` and a non-empty value free of `&`: blank values are dropped |
| Query.ParseQslEncode | tradestation-python/src/tradestation_python/_auth.py:37 | parsing `n1=v1&...&nk=vk` gives back the pairs in order when names are free of `&` and `=` and values are non-empty and free of `&`; no pairs give the empty query and parse back to none |
| Query.ParseQs | tradestation-python/src/tradestation_python/_auth.py:37 | grouping the parsed pairs gives exactly the names that occur, each with all its values in order |
| Query.ValuesOfFirst | tradestation-python/src/tradestation_python/_auth.py:38 | a name that occurs has at least one value, and the first of its values is its first occurrence |
| Auth.ResolveAuthArgs | tradestation-python/src/tradestation_python/_auth.py:90-126 | an argument wins over the setting; missing client id (neither given) and missing client secret are errors, checked in that order; response type defaults to `code`, scopes to openid, profile, offline_access, MarketData, ReadAccount |
| Auth.ScopeString | tradestation-python/src/tradestation_python/_auth.py:145 | the scope parameter is empty exactly when no scope is requested |
| Auth.ScopeValues | tradestation-python/src/tradestation_python/_auth.py:145 | one scope string per scope, in order |
| Auth.ScopeStringSplits | tradestation-python/src/tradestation_python/_auth.py:145 | splitting the scope string on spaces gives back the scope values; a word occurs in it iff it is some requested scope's value |
| Text.SplitJoin | tradestation-python/src/tradestation_python/_auth.py:145 | splitting a joined list on its separator returns the list when no element holds the separator |
| Auth.AuthorizationUrl | tradestation-python/src/tradestation_python/_auth.py:146-154 | the browser URL begins with the authorization endpoint followed by `?` |
| Auth.AuthorizationQuery | tradestation-python/src/tradestation_python/_auth.py:146-154 | the authorization URL carries six parameters |
| Auth.AuthorizationUrlShape | tradestation-python/src/tradestation_python/_auth.py:146-154 | the URL is the endpoint, `?`, and the six `name=value` fields joined by `&` in the order response_type, client_id, redirect_uri, audience, state, scope |
| Auth.AuthorizationQueryPlain | tradestation-python/src/tradestation_python/_auth.py:146-154 | with non-empty values free of `&`, every one of the six name/value pairs survives query-string parsing (names free of `=` and `&`) |
| Auth.AuthorizationUrlParses | tradestation-python/src/tradestation_python/_auth.py:146-154 | when the endpoint has no `?` and the values are non-empty and free of `&`, parsing the URL's query gives back exactly the six parameters |
| Auth.ListenerAddress | tradestation-python/src/tradestation_python/_auth.py:157-160 | the listener uses the redirect host and port when truthy, else `127.0.0.1` and `8080` |
| Auth.Flatten | tradestation-python/src/tradestation_python/_auth.py:38 | same keys as the grouped query, each mapped to its first value |
| Auth.FirstValues | tradestation-python/src/tradestation_python/_auth.py:36-38 | the received parameters are the names that occur in the query, each with its first value |
| Auth.FlattenGroupedIsFirstValues | tradestation-python/src/tradestation_python/_auth.py:36-38 | flattening the `parse_qs` grouping equals taking each name's first occurrence |
| Auth.AuthHTTPServer.constructor | tradestation-python/src/tradestation_python/_auth.py:19-24 | a new server has no received parameters |
| Auth.AuthHTTPServer.DoGet | tradestation-python/src/tradestation_python/_auth.py:30-38 | after a callback the server holds the first value of each query parameter of the path |
| Auth.ValidateReceivedParams | tradestation-python/src/tradestation_python/_auth.py:165-176 | missing `code` or `state` is an invalid-parameters error; a wrong state is a state-mismatch error; otherwise the code is returned; all three as iffs |
| Auth.CodeFlow | tradestation-python/src/tradestation_python/_auth.py:143-176 | the browser gets the authorization URL; an unparsable redirect URI fails before listening; otherwise the listener address is the redirect's and the result is `ValidateReceivedParams` of the callback's first values: missing `code` or `state` is an invalid-parameters error, a first `state` other than the one sent is a state-mismatch error, else the first `code` is returned |
| Auth.TokenCall | tradestation-python/src/tradestation_python/_auth.py:183-207 | token requests are POSTs to the token endpoint, following redirects, carrying the form data and the form-urlencoded content type and nothing else |
| Auth.AuthorizationCodeData | tradestation-python/src/tradestation_python/_auth.py:179-189 | the code grant sends exactly client id, client secret, code, `grant_type=authorization_code` and the redirect URI |
| Auth.RefreshGrantData | tradestation-python/src/tradestation_python/_auth.py:179-200 | the refresh grant sends exactly client id, client secret, `grant_type=refresh_token` and the refresh token |
| Auth.Exchange | tradestation-python/src/tradestation_python/_base_client.py:69-72 | a transport failure is a network error; a non-2xx status is a status error; a 2xx JSON body is validated against the model; success iff 2xx with a body that validates |
| Auth.TokenFlow | tradestation-python/src/tradestation_python/_auth.py:178-208 | with no truthy refresh token: capture, then a code-grant exchange only after a code is captured, keeping the returned refresh token on success; with one: only the refresh grant, the token kept; any failure leaves the refresh token unchanged |
| Auth.RefreshStateIsAbsorbing | tradestation-python/src/tradestation_python/_auth.py:185-208 | once a refresh token is held, the next run holds one too and runs no capture |
| Auth.AuthorizationCodeThenRefresh | tradestation-python/src/tradestation_python/_auth.py:185-208 | after a successful code exchange returning refresh token R, the next run sends the refresh grant with R and no capture |
| Auth.OAuth2PasswordBearer.constructor | tradestation-python/src/tradestation_python/_auth.py:128-141 | stores the resolved configuration and takes the refresh token from the settings |
| Auth.OAuth2PasswordBearer.Create | tradestation-python/src/tradestation_python/_auth.py:77-141 | construction fails exactly as `ResolveAuthArgs` does, else yields a provider whose client is `Configured` with the resolved arguments |
| Auth.OAuth2PasswordBearer.GetCode | tradestation-python/src/tradestation_python/_auth.py:143-176 | the capture run through a listener object is `CodeFlow` |
| Auth.OAuth2PasswordBearer.MakeRequest | tradestation-python/src/tradestation_python/_base_client.py:48-72 | the call sent follows redirects with the truthy keyword arguments; the result is `Exchange` of that call |
| Auth.OAuth2PasswordBearer.GetTokenInfo | tradestation-python/src/tradestation_python/_auth.py:178-208 | the result, the capture, the call sent and the new refresh token are those of `TokenFlow` from the old refresh token |
| Auth.TradeStationAuth.constructor | tradestation-python/src/tradestation_python/_auth.py:214-219 | no token cached; buffer defaults to 180 seconds |
| Auth.TradeStationAuth.Create | tradestation-python/src/tradestation_python/_auth.py:214-219 | a given provider is used as is; without one a provider built from the settings alone is used: it fails exactly as `ResolveAuthArgs` with no arguments does, and otherwise holds that resolved configuration and the settings' refresh token |
| Auth.TradeStationAuth.SyncAuthFlow | tradestation-python/src/tradestation_python/_auth.py:221-228 | the provider is called iff `NeedsRenewal` holds: no renewal opens no browser, sends no token request and leaves the cache and the refresh token untouched; a renewal runs `TokenFlow`, returns its capture and token call, and caches its token; on success the request gets `Authorization: Bearer <cached access token>`; on failure the cache and the headers are unchanged |
| Auth.NeedsRenewal | tradestation-python/src/tradestation_python/_auth.py:222-224 | the hook renews when no token is cached; with a non-negative buffer it never renews a held token before its expiry |
| Auth.RenewalThreshold | tradestation-python/src/tradestation_python/_auth.py:222-226 | a cached token is renewed iff `now >= expires_at + buffer`, and once due it stays due as the clock advances |
| Auth.FreshTokenLifetime | tradestation-python/src/tradestation_python/_auth.py:222-226 | a token validated at `now` is reused exactly while the clock is below `now + expires_in + buffer` |
| Auth.NeedsRenewalAsWritten | tradestation-python/src/tradestation_python/_auth.py:222-225 | the renewal test with `expires_at` read lazily: renew when nothing is cached; a stamped record is compared with its stamp and kept; an unstamped record is stamped `now + expires_in`, so it is renewed only when `expires_in + buffer <= 0`, whatever the clock |
| Auth.AsWrittenFirstCheckNeverRenews | tradestation-python/src/tradestation_python/types/responses/token.py:14-17 | as written, the first check after a token is stored never renews it when `expires_in + buffer > 0` |
| Auth.LazyExpiryReusesExpiredToken | tradestation-python/src/tradestation_python/types/responses/token.py:14-17 | a token issued at 0 with `expires_in` 3600 and checked at 10000 is renewed by the corrected test but reused as written (stamped 13600) |
| Text.RStrip | tradestation-python/src/tradestation_python/_base_client.py:97 | the result is a prefix without a trailing separator, and only separators were removed |
| Text.LStrip | tradestation-python/src/tradestation_python/_base_client.py:128 | the result is a suffix without a leading separator, and only separators were removed |
| ApiClient.ApiUrl | tradestation-python/src/tradestation_python/_base_client.py:128 | the URL is the base without trailing slashes, exactly one slash, then the endpoint without leading slashes |
| ApiClient.ApiUrlIgnoresSeamSlashes | tradestation-python/src/tradestation_python/_base_client.py:128 | appending any run of slashes to the base, or prepending one to the endpoint, gives the same URL |
| ApiClient.SyncAPIClient.constructor | tradestation-python/src/tradestation_python/_base_client.py:89-105 | the base URL loses its trailing slashes; headers hold `Content-Type: application/json`, plus `Authorization: Bearer <key>` iff the API key is truthy, and nothing else |
| ApiClient.SyncAPIClient.MakeRequest | tradestation-python/src/tradestation_python/_base_client.py:117-140 | the call goes to `ApiUrl(base, endpoint)` with the truthy keyword arguments and does not follow redirects |
| Text.IntToDecimalRoundTrip | tradestation-python/src/tradestation_python/resources/market_data/market_data.py:49 | `str` of an integer parses back to that integer |
| Text.ZeroPadValue | tradestation-python/src/tradestation_python/resources/market_data/market_data.py:52 | a zero-padded field is all digits and reads back as the number modulo `10^width`, so a number that fits its width reads back unchanged |
| MarketData.ReadZeroPad | tradestation-python/src/tradestation_python/resources/market_data/market_data.py:52 | a number below `10^width`, zero-padded to `width`, reads back as itself |
| MarketData.FormatBarDate | tradestation-python/src/tradestation_python/resources/market_data/market_data.py:52-60 | timestamps are 20 characters with `-`, `-`, `T`, `:`, `:`, `Z` at fixed positions |
| MarketData.TimestampFields | tradestation-python/src/tradestation_python/resources/market_data/market_data.py:52-60 | each of the six fixed-position fields of a formatted timestamp reads back as its date or time component |
| MarketData.FormatBarDateRoundTrip | tradestation-python/src/tradestation_python/resources/market_data/market_data.py:52-60 | parsing a formatted timestamp gives back the date and time, so distinct dates format differently |
| MarketData.OptionalParamsContents | tradestation-python/src/tradestation_python/resources/market_data/market_data.py:48-62 | the dictionary built by the insertions holds interval and unit, and each optional entry exactly when its value is given, with that value; no other key |
| MarketData.BarsParams | tradestation-python/src/tradestation_python/resources/market_data/market_data.py:48-62 | the parameters always hold `interval` and `unit` and no key outside the six of `bars` |
| MarketData.BarsParamsContents | tradestation-python/src/tradestation_python/resources/market_data/market_data.py:48-62 | interval and unit are always sent; `barsback` (zero included), `firstdate`, `lastdate` and `sessiontemplate` are sent iff given, formatted (`str` for numbers, the timestamp format for dates, the enumeration value for the session template); no other parameter |
| MarketData.BuildBarsParams | tradestation-python/src/tradestation_python/resources/market_data/market_data.py:48-62 | the conditional insertions build exactly `BarsParams` |
| MarketData.MarketData.constructor | tradestation-python/src/tradestation_python/resources/market_data/market_data.py:14-16 | the resource is bound to the client it is given |
| MarketData.MarketData.Bars | tradestation-python/src/tradestation_python/resources/market_data/market_data.py:64-69 | a GET to `ApiUrl(base, "marketdata/barcharts/" + symbol)`, not following redirects, whose only keyword argument is `params = BarsParams(...)` |

## Left out

- The local HTTP server's threading, the `serve_forever`/`shutdown` loop, the HTML reply and the `TypeError` guard on the server type. The model is one callback path delivered to `DoGet`.
- Opening the browser (`webbrowser.open_new`): the URL it would open is recorded in the capture.
- httpx internals: connection handling, retries (stored, never used by the source), timeouts (carried as a `real`), case-insensitive header names, and the merging of client-level headers and auth into a request.
- The asynchronous API client and the context-manager methods that close the HTTP clients.
- Token.Validate: does not model Pydantic's lax coercions (numeric strings accepted as `expires_in`, and the like). Only string and integer JSON values are accepted. Extra fields are allowed and ignored.
- Query.ParseQs: does not model percent-decoding or `+`-to-space in `parse_qs`. Fields without `=` and fields with an empty value are dropped, as `parse_qs` does by default.
- Auth.ListenerAddress: the redirect URI's parsing (`HttpUrl`, which fills the default port of http and https) is an input. An unparsable URI is `None`.
- The settings module (`_config.py`): environment and `.env` loading, the default values, the random default `state`, and the OpenID discovery fetch. Settings are a record passed in.
- Auth.TradeStationAuth.SyncAuthFlow: its renewal check compares against the expiry fixed when the token was validated, not the one the source stamps at the first read of `expires_at` (`types/responses/token.py:14-17`, `_auth.py:224`); `Auth.NeedsRenewalAsWritten` models the latter. The two clock reads (the renewal check and the token's validation) are one `now`.
- Auth.AuthorizationUrlParses: the URL is built without percent-encoding, as the source builds it. A value holding `&` (a redirect URI with a query of its own, say) breaks the query, so the round trip is stated only for values free of `&`; percent-encoding and `parse_qs`'s decoding are not modelled.
- MarketData.FormatBarDate: years below 1000 are rendered zero-padded to four digits, as some platforms' `strftime` does; others print them unpadded. Days beyond the month's length and time zones are not modelled. Dates range over years 1..9999 and days 1..31.
- The response schemas of bars, accounts and OpenID, and validation of `BarsResponse`: `Bars` returns the call it sends.
- The client facade (`_client.py`), the resource base class beyond holding its client (`_resource.py`), and the brokerage and order-execution resources.
- The bar-unit enumeration's definition is not part of this model. Its values (Minute, Daily, Weekly, Monthly) follow the documentation of `bars`.

## Findings

| source | as written | input that shows it | evidently intended | confidence | as-written member | corrected member |
|---|---|---|---|---|---|---|
| tradestation-python/src/tradestation_python/types/responses/token.py:14-17 | `expires_at` is a cached property evaluated at its first read: the renewal check stamps it with its own clock | token validated at second 0 with `expires_in = 3600`, next request at second 10000: expiry is stamped 13600, so the expired token is reused (and the check never renews on its first read) | `expires_at` fixed when the token is received, so the token is renewed from `expires_in + buffer` seconds after issue | medium, not executed | Auth.NeedsRenewalAsWritten, Auth.LazyExpiryReusesExpiredToken | Token.Validate, Auth.FreshTokenLifetime |
