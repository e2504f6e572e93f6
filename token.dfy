/**
 * The token endpoint's response, `TokenInfo` and `TokenInfoWithRefresh`,
 * and its validation from a decoded JSON body.
 */
module Token {
  import opened Wrappers

  /** A decoded JSON value, as far as the token schema looks into it. */
  datatype Json =
    | JNull
    | JBool(b: bool)
    | JInt(i: int)
    | JString(s: string)
    | JOther
    | JObject(fields: map<string, Json>)

  /**
   * A validated token response. The refresh-grant response has no refresh
   * token; the authorization-code response carries one. `expiresAt` is the
   * absolute expiry in whole seconds, fixed when the record is made.
   */
  datatype TokenInfo =
    | TokenInfo(accessToken: string, idToken: string, scope: string, expiresIn: int, expiresAt: int)
    | TokenInfoWithRefresh(accessToken: string, idToken: string, scope: string, expiresIn: int, expiresAt: int,
                           refreshToken: string)

  /** The response model a request asks to be validated against. */
  datatype ResponseModel = TokenInfoModel | TokenInfoWithRefreshModel

  /** A schema violation: the body is not an object, or these fields are missing or of the wrong type. */
  datatype ValidationError = NotAnObject | InvalidFields(fields: set<string>)

  const StringFields: set<string> := {"access_token", "id_token", "scope"}

  function RequiredStrings(model: ResponseModel): set<string>
  {
    match model
    case TokenInfoModel => StringFields
    case TokenInfoWithRefreshModel => StringFields + {"refresh_token"}
  }

  predicate HasString(fields: map<string, Json>, name: string)
  {
    name in fields && fields[name].JString?
  }

  predicate HasInt(fields: map<string, Json>, name: string)
  {
    name in fields && fields[name].JInt?
  }

  /** Every required field of `model` that the body lacks or gives the wrong type. */
  function InvalidFieldsOf(fields: map<string, Json>, model: ResponseModel): (bad: set<string>)
    ensures forall n :: n in bad <==>
      (n in RequiredStrings(model) && !HasString(fields, n)) || (n == "expires_in" && !HasInt(fields, n))
  {
    (set n | n in RequiredStrings(model) && !HasString(fields, n))
      + (if HasInt(fields, "expires_in") then {} else {"expires_in"})
  }

  /**
   * `model.model_validate(body)` followed by the first read of `expires_at`,
   * made eager: `now` is the clock, in whole seconds, when the response is
   * validated. Fields outside the schema are accepted and ignored.
   */
  function Validate(model: ResponseModel, body: Json, now: int): (r: Result<TokenInfo, ValidationError>)
    ensures r == Err(NotAnObject) <==> !body.JObject?
    ensures r.Ok? <==> body.JObject? && InvalidFieldsOf(body.fields, model) == {}
    ensures r.Err? && body.JObject? ==> r.error == InvalidFields(InvalidFieldsOf(body.fields, model))
    ensures r.Ok? ==>
      && r.value.accessToken == body.fields["access_token"].s
      && r.value.idToken == body.fields["id_token"].s
      && r.value.scope == body.fields["scope"].s
      && r.value.expiresIn == body.fields["expires_in"].i
      && r.value.expiresAt == now + r.value.expiresIn
      && (r.value.TokenInfoWithRefresh? <==> model == TokenInfoWithRefreshModel)
      && (r.value.TokenInfoWithRefresh? ==> r.value.refreshToken == body.fields["refresh_token"].s)
  {
    if !body.JObject? then Err(NotAnObject)
    else
      var f := body.fields;
      var bad := InvalidFieldsOf(f, model);
      if bad != {} then Err(InvalidFields(bad))
      else
        assert "access_token" !in bad && "id_token" !in bad && "scope" !in bad && "expires_in" !in bad;
        var expiresIn := f["expires_in"].i;
        match model
        case TokenInfoModel =>
          Ok(TokenInfo(f["access_token"].s, f["id_token"].s, f["scope"].s, expiresIn, now + expiresIn))
        case TokenInfoWithRefreshModel =>
          assert "refresh_token" !in bad;
          Ok(TokenInfoWithRefresh(f["access_token"].s, f["id_token"].s, f["scope"].s, expiresIn, now + expiresIn,
                                  f["refresh_token"].s))
  }

  /**
   * `TokenInfoWithRefresh` is `TokenInfo` plus one required field: whatever
   * validates as the former validates as the latter with the same shared
   * fields, and a body that validates as `TokenInfo` validates as
   * `TokenInfoWithRefresh` exactly when it also carries a string `refresh_token`.
   */
  lemma WithRefreshExtendsTokenInfo(body: Json, now: int)
    ensures var base := Validate(TokenInfoModel, body, now);
            var full := Validate(TokenInfoWithRefreshModel, body, now);
            && (full.Ok? <==> base.Ok? && HasString(body.fields, "refresh_token"))
            && (full.Ok? ==>
                  && full.value.accessToken == base.value.accessToken
                  && full.value.idToken == base.value.idToken
                  && full.value.scope == base.value.scope
                  && full.value.expiresIn == base.value.expiresIn
                  && full.value.expiresAt == base.value.expiresAt)
  {
    if body.JObject? {
      var f := body.fields;
      if HasString(f, "refresh_token") {
        assert InvalidFieldsOf(f, TokenInfoWithRefreshModel) == InvalidFieldsOf(f, TokenInfoModel);
      } else {
        assert "refresh_token" in InvalidFieldsOf(f, TokenInfoWithRefreshModel);
      }
    }
  }

  // ---------------------------------------------------------------------
  // `expires_at` as the source writes it: a cached property, evaluated on
  // its first read rather than when the record is validated.

  /** The instance's cache slot for `expires_at`. */
  datatype ExpiresAtCache = Unread | Cached(expiresAt: int)

  /** One read of `expires_at` at clock `now`: the value returned and the cache afterwards. */
  function ReadExpiresAt(cache: ExpiresAtCache, expiresIn: int, now: int): (read: (int, ExpiresAtCache))
    ensures read.1 == Cached(read.0)
    ensures cache.Cached? ==> read.0 == cache.expiresAt
    ensures cache.Unread? ==> read.0 == now + expiresIn
  {
    match cache
    case Unread => (now + expiresIn, Cached(now + expiresIn))
    case Cached(at) => (at, cache)
  }

  /** Once read, `expires_at` no longer depends on the clock: a second read at any time returns the first value. */
  lemma ReadExpiresAtStable(cache: ExpiresAtCache, expiresIn: int, first: int, later: int)
    ensures var (v, c) := ReadExpiresAt(cache, expiresIn, first);
            ReadExpiresAt(c, expiresIn, later) == (v, c)
  {
  }
}
