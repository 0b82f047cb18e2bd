/**
 * `GraphApiError` (errors/graph_api_error.py). Its `__init__` assigns every
 * field once and nothing reassigns them, so an error is a value here: `New`
 * is the constructor (with the exceptions it can raise), `FromResponse` the
 * class method that reads an error body, and the predicates and `ToDict`
 * read the stored fields.
 */
module GraphApiErrors {
  import opened Wrappers
  import opened JsonValues
  import opened Categorize
  import opened Retry
  import opened PyText

  /** The message of an error body without one. */
  const DefaultMessage := "Unknown Graph API error"

  /**
   * The key that `code in _CODE_TO_CATEGORY` looks up. Python compares by
   * value: `True`/`False` are 1/0 and an integral float equals its integer.
   * A string, a fractional float or `None` matches no entry (`None` means
   * that here); a list or dict is unhashable and raises TypeError.
   */
  function CodeKey(code: Json): (r: Result<Option<int>>)
    ensures r.Err? <==> code.JArr? || code.JObj?
    ensures r.Err? ==> r.fault == TypeError
    ensures code.JInt? ==> r == Ok(Some(code.i))
    ensures code.JBool? ==> r == Ok(Some(if code.b then 1 else 0))
    ensures code.JFloat? ==> r == Ok(if code.r == code.r.Floor as real then Some(code.r.Floor) else None)
    ensures code.JNull? || code.JStr? ==> r == Ok(None)
  {
    match code
    case JNull => Ok(None)
    case JBool(b) => Ok(Some(if b then 1 else 0))
    case JInt(i) => Ok(Some(i))
    case JFloat(x) => Ok(if x == x.Floor as real then Some(x.Floor) else None)
    case JStr(_) => Ok(None)
    case JArr(_) => Err(TypeError)
    case JObj(_) => Err(TypeError)
  }

  /**
   * The fields of a `GraphApiError`. The `Json` fields hold whatever the
   * caller or the error body supplied (`JNull` for Python `None`);
   * `category` and `retry` are derived once, at construction.
   */
  datatype GraphApiError = GraphApiError(
    message: Json,
    httpStatus: int,
    code: Json,
    errorType: Json,
    details: Json,
    errorSubcode: Json,
    fbtraceId: Json,
    errorData: Json,
    raw: Json,
    category: ErrorCategory,
    retry: RetryHint)
  {
    /** What the constructor guarantees about the derived fields. */
    predicate Derived(retryAfterHeader: Option<string>) {
      CodeKey(code).Ok? &&
      category == CategorizeError(CodeKey(code).value, Some(httpStatus)) &&
      GetRetryHint(category, retryAfterHeader) == Ok(retry)
    }

    /** `is_auth_error()`: the one category whose action is a token refresh. */
    predicate IsAuthError()
      ensures IsAuthError() <==> CategoryRetry(category) == RefreshToken
    {
      category == Authorization
    }

    /** `is_rate_limit()`: the one category whose action is to wait. */
    predicate IsRateLimit()
      ensures IsRateLimit() <==> CategoryRetry(category) == RetryAfter
    {
      category == Throttling
    }

    /** `is_template_error()`: a template error is fixed and retried. */
    predicate IsTemplateError()
      ensures IsTemplateError() ==> CategoryRetry(category) == FixAndRetry
    {
      category == Template
    }

    /**
     * `requires_token_refresh()`: reads the hint, so it agrees with
     * `is_auth_error()` whenever the hint carries the category's action.
     */
    predicate RequiresTokenRefresh()
      ensures retry.action == CategoryRetry(category) ==> (RequiresTokenRefresh() <==> IsAuthError())
    {
      retry.action == RefreshToken
    }

    /** `str(self)`: the message the exception was raised with. */
    function Text(): string {
      PyStr(message)
    }

    /** `to_dict()`: seven keys in this order, the retry hint as a nested dict. */
    function ToDict(): (r: Json)
      ensures r.JObj? && Keys(r.fields) == ["message", "http_status", "code", "type", "category", "retry", "fbtrace_id"]
      ensures r.fields[0].1 == JStr(Text()) && r.fields[1].1 == JInt(httpStatus)
      ensures r.fields[2].1 == code && r.fields[3].1 == errorType && r.fields[6].1 == fbtraceId
      ensures r.fields[4].1 == JStr(CategoryName(category))
      ensures r.fields[5].1 == JObj([("action", JStr(ActionName(retry.action))),
                                     ("retry_after_ms", if retry.retryAfterMs.Some? then JInt(retry.retryAfterMs.value) else JNull)])
    {
      JObj([
        ("message", JStr(Text())),
        ("http_status", JInt(httpStatus)),
        ("code", code),
        ("type", errorType),
        ("category", JStr(CategoryName(category))),
        ("retry", JObj([
          ("action", JStr(ActionName(retry.action))),
          ("retry_after_ms", match retry.retryAfterMs case Some(ms) => JInt(ms) case None => JNull)])),
        ("fbtrace_id", fbtraceId)])
    }
  }

  /**
   * `GraphApiError(message, http_status=…, code=…, …)`: stores the fields,
   * then derives the category from the code and status and the retry hint
   * from the category and the `Retry-After` header. An unhashable code
   * raises TypeError, and a header that is infinite or whose value times
   * 1000 leaves the double range raises OverflowError.
   */
  function New(message: Json, httpStatus: int, code: Json, errorType: Json, details: Json,
               errorSubcode: Json, fbtraceId: Json, errorData: Json,
               retryAfterHeader: Option<string>, raw: Json): (r: Result<GraphApiError>)
    ensures r.Ok? ==> r.value.Derived(retryAfterHeader)
    ensures r.Ok? ==> r.value.message == message && r.value.httpStatus == httpStatus && r.value.code == code
    ensures r.Ok? ==> r.value.errorType == errorType && r.value.details == details
    ensures r.Ok? ==> r.value.errorSubcode == errorSubcode && r.value.fbtraceId == fbtraceId
    ensures r.Ok? ==> r.value.errorData == errorData && r.value.raw == raw
    ensures CodeKey(code).Err? ==> r == Err(TypeError)
  {
    var key :- CodeKey(code);
    var category := CategorizeError(key, Some(httpStatus));
    var retry :- GetRetryHint(category, retryAfterHeader);
    Ok(GraphApiError(message, httpStatus, code, errorType, details, errorSubcode, fbtraceId, errorData,
                     raw, category, retry))
  }

  /** Construction fails only for an unhashable code or an overflowing header. */
  lemma NewFails(message: Json, httpStatus: int, code: Json, errorType: Json, details: Json,
                 errorSubcode: Json, fbtraceId: Json, errorData: Json,
                 retryAfterHeader: Option<string>, raw: Json)
    ensures New(message, httpStatus, code, errorType, details, errorSubcode, fbtraceId, errorData,
                retryAfterHeader, raw).Err?
      <==> code.JArr? || code.JObj? || (retryAfterHeader.Some? && Overflows(ParseFloat(retryAfterHeader.value)))
  {
    if !(code.JArr? || code.JObj?) {
      RetryHintSpec(CategorizeError(CodeKey(code).value, Some(httpStatus)), retryAfterHeader);
    }
  }

  /**
   * `GraphApiError("…")` with every keyword at its default: status 0 and no
   * code give the category unknown and the action retry, with no delay.
   */
  lemma DefaultsGiveUnknown(message: Json)
    ensures New(message, 0, JNull, JStr(""), JNull, JNull, JNull, JNull, None, JNull) ==
      Ok(GraphApiError(message, 0, JNull, JStr(""), JNull, JNull, JNull, JNull, JNull, Unknown, RetryHint(RetryNow, None)))
  {
    RetryHintSpec(Unknown, None);
  }

  /** `requires_token_refresh()` holds exactly when `is_auth_error()` does. */
  lemma TokenRefreshIffAuth(e: GraphApiError, retryAfterHeader: Option<string>)
    requires e.Derived(retryAfterHeader)
    ensures e.RequiresTokenRefresh() <==> e.IsAuthError()
  {
    RetryHintSpec(e.category, retryAfterHeader);
  }

  /** A throttling error always carries a delay. */
  lemma RateLimitHasDelay(e: GraphApiError, retryAfterHeader: Option<string>)
    requires e.Derived(retryAfterHeader) && e.IsRateLimit()
    ensures e.retry.action == RetryAfter && e.retry.retryAfterMs.Some?
  {
    RetryHintSpec(e.category, retryAfterHeader);
  }

  /** `to_dict()["category"]` and `["retry"]["action"]` read back as the stored category and action. */
  lemma ToDictReadsBack(e: GraphApiError)
    ensures e.ToDict().fields[4].1.JStr? && ParseCategory(e.ToDict().fields[4].1.s) == Some(e.category)
    ensures e.ToDict().fields[5].1.JObj? && ParseAction(e.ToDict().fields[5].1.fields[0].1.s) == Some(e.retry.action)
  {
    CategoryNameRoundTrip(e.category);
    ActionNameRoundTrip(e.retry.action);
  }

  /** `body.get("error", body)`: the nested error dict when present, else the body itself. */
  function ErrorSource(body: Fields): (r: Json)
    ensures Get(body, "error").Some? ==> r == Get(body, "error").value
    ensures Get(body, "error").None? ==> r == JObj(body)
  {
    GetOr(body, "error", JObj(body))
  }

  /** `err.get("error_user_msg") or err.get("details")`. */
  function Details(err: Fields): (r: Json)
    ensures Get(err, "error_user_msg").Some? && Truthy(Get(err, "error_user_msg").value) ==>
      r == Get(err, "error_user_msg").value
    ensures !(Get(err, "error_user_msg").Some? && Truthy(Get(err, "error_user_msg").value)) ==>
      r == GetOr(err, "details", JNull)
  {
    var userMsg := GetOr(err, "error_user_msg", JNull);
    if Truthy(userMsg) then userMsg else GetOr(err, "details", JNull)
  }

  /**
   * `GraphApiError.from_response(http_status, body, retry_after_header=…)`.
   * `.get` on a body or an error entry that is not a dict raises
   * AttributeError.
   */
  function FromResponse(httpStatus: int, body: Json, retryAfterHeader: Option<string>): (r: Result<GraphApiError>)
    ensures body.JObj? && ErrorSource(body.fields).JObj? && CodeKey(GetOr(ErrorSource(body.fields).fields, "code", JNull)).Ok? ==>
      r.Ok? || (retryAfterHeader.Some? && Overflows(ParseFloat(retryAfterHeader.value)))
    ensures !body.JObj? || !ErrorSource(body.fields).JObj? ==> r == Err(AttributeError)
  {
    var b :- AsDict(body);
    var err :- AsDict(ErrorSource(b));
    New(GetOr(err, "message", JStr(DefaultMessage)), httpStatus, GetOr(err, "code", JNull),
        GetOr(err, "type", JStr("")), Details(err), GetOr(err, "error_subcode", JNull),
        GetOr(err, "fbtrace_id", JNull), GetOr(err, "error_data", JNull), retryAfterHeader, body)
  }

  /**
   * What `from_response` stores: each field read from the error source with
   * its default, the whole body as `raw`, the status as given, and the
   * category and hint derived from them.
   */
  lemma FromResponseFields(httpStatus: int, body: Json, retryAfterHeader: Option<string>)
    requires FromResponse(httpStatus, body, retryAfterHeader).Ok?
    ensures body.JObj? && ErrorSource(body.fields).JObj?
    ensures var e := FromResponse(httpStatus, body, retryAfterHeader).value;
      var err := ErrorSource(body.fields).fields;
      && e.message == GetOr(err, "message", JStr(DefaultMessage))
      && e.code == GetOr(err, "code", JNull)
      && e.errorType == GetOr(err, "type", JStr(""))
      && e.details == Details(err)
      && e.errorSubcode == GetOr(err, "error_subcode", JNull)
      && e.fbtraceId == GetOr(err, "fbtrace_id", JNull)
      && e.errorData == GetOr(err, "error_data", JNull)
      && e.raw == body && e.httpStatus == httpStatus
      && e.Derived(retryAfterHeader)
  {
  }

  /** An empty body gives every default; a 5xx status makes it a server error. */
  lemma EmptyBodyDefaults(httpStatus: int)
    ensures FromResponse(httpStatus, JObj([]), None) ==
      Ok(GraphApiError(JStr(DefaultMessage), httpStatus, JNull, JStr(""), JNull, JNull, JNull, JNull, JObj([]),
                       if httpStatus >= 500 then Server else Unknown,
                       RetryHint(RetryNow, None)))
  {
    var c := if httpStatus >= 500 then Server else Unknown;
    RetryHintSpec(c, None);
  }
}
