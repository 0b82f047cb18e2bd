/**
 * `WhatsAppClient` (client.py): URL building, the bearer header and its
 * merge with caller headers, and what `request` does with a response. The
 * HTTP transport is an `Http` object that records every call it is given
 * and answers from an oracle, so a caller's effect is the list of calls it
 * made.
 */
module Client {
  import opened Wrappers
  import opened JsonValues
  import opened CaseDeep
  import opened GraphApiErrors
  import CaseDeepProps

  const DefaultBaseUrl: string := "https://graph.facebook.com"
  const DefaultVersion: string := "v23.0"

  // ---------------------------------------------------------------------
  // URLs
  // ---------------------------------------------------------------------

  predicate StartsWith(s: string, prefix: string) {
    |prefix| <= |s| && s[..|prefix|] == prefix
  }

  /** `s.rstrip("/")`. */
  function RStripSlash(s: string): (r: string)
    ensures |r| <= |s| && r == s[..|r|]
    ensures r == [] || r[|r| - 1] != '/'
    ensures forall i :: |r| <= i < |s| ==> s[i] == '/'
  {
    if |s| > 0 && s[|s| - 1] == '/' then RStripSlash(s[..|s| - 1]) else s
  }

  /** `s.lstrip("/")`. */
  function LStripSlash(s: string): (r: string)
    ensures |r| <= |s| && r == s[|s| - |r|..]
    ensures r == [] || r[0] != '/'
    ensures forall i :: 0 <= i < |s| - |r| ==> s[i] == '/'
  {
    if |s| > 0 && s[0] == '/' then LStripSlash(s[1..]) else s
  }

  /**
   * `_url(path)` for a client whose base URL was stripped when it was built.
   * An absolute path is used as given; any other is placed under the base
   * URL and version with exactly one "/" between the parts, whatever
   * slashes the path started with.
   */
  function Url(baseUrl: string, version: string, path: string): (r: string)
    ensures StartsWith(path, "http") ==> r == path
    ensures !StartsWith(path, "http") ==> (
      exists k :: 0 <= k <= |path| &&
        (forall i :: 0 <= i < k ==> path[i] == '/') &&
        (k == |path| || path[k] != '/') &&
        r == baseUrl + "/" + version + "/" + path[k..])
  {
    if StartsWith(path, "http") then path
    else
      var k := |path| - |LStripSlash(path)|;
      assert LStripSlash(path) == path[k..];
      baseUrl + "/" + version + "/" + LStripSlash(path)
  }

  /** The stripped base URL ends in no "/", so the separator before the version is never doubled. */
  lemma StrippedBase(baseUrl: string)
    ensures var b := RStripSlash(baseUrl); b == [] || b[|b| - 1] != '/'
    ensures RStripSlash(RStripSlash(baseUrl)) == RStripSlash(baseUrl)
  {
  }

  /** The default Graph endpoint, with and without a leading slash on the path. */
  lemma DefaultUrlExample()
    ensures Url(RStripSlash(DefaultBaseUrl + "/"), DefaultVersion, "/123/messages") ==
      "https://graph.facebook.com/v23.0/123/messages"
    ensures Url(DefaultBaseUrl, DefaultVersion, "https://cdn.example/x") == "https://cdn.example/x"
  {
    var b := DefaultBaseUrl + "/";
    assert b[..|b| - 1] == DefaultBaseUrl;
    assert RStripSlash(b) == RStripSlash(DefaultBaseUrl);
    assert RStripSlash(DefaultBaseUrl) == DefaultBaseUrl;
    assert LStripSlash("/123/messages") == LStripSlash("123/messages") == "123/messages";
    assert !StartsWith("/123/messages", "http");
    assert StartsWith("https://cdn.example/x", "http") by {
      assert "https://cdn.example/x"[..4] == "http";
    }
  }

  // ---------------------------------------------------------------------
  // Headers
  // ---------------------------------------------------------------------

  /** A `dict[str, str]` of headers, in insertion order. */
  type Headers = seq<(string, string)>

  function HeaderNames(h: Headers): seq<string> {
    seq(|h|, i requires 0 <= i < |h| => h[i].0)
  }

  predicate UniqueNames(h: Headers) {
    forall i, j :: 0 <= i < j < |h| ==> h[i].0 != h[j].0
  }

  function HGet(h: Headers, k: string): Option<string> {
    if |h| == 0 then None
    else if h[0].0 == k then Some(h[0].1)
    else HGet(h[1..], k)
  }

  /** `h[k] = v`: an existing key keeps its place, a new one goes last. */
  function HPut(h: Headers, k: string, v: string): Headers {
    if |h| == 0 then [(k, v)]
    else if h[0].0 == k then [(k, v)] + h[1..]
    else [h[0]] + HPut(h[1..], k, v)
  }

  /**
   * `{**a, **b}`: every key of `b` is present afterwards, and a key `b`
   * does not name keeps `a`'s value.
   */
  function Merge(a: Headers, b: Headers): (r: Headers)
    ensures forall k :: k in HeaderNames(b) ==> HGet(r, k).Some?
    ensures forall k :: k !in HeaderNames(b) ==> HGet(r, k) == HGet(a, k)
    decreases |b|
  {
    if |b| == 0 then a
    else
      var a' := HPut(a, b[0].0, b[0].1);
      HPutLookup(a, b[0].0, b[0].1);
      assert forall k :: k in HeaderNames(b) ==> k == b[0].0 || k in HeaderNames(b[1..]) by {
        forall k | k in HeaderNames(b) ensures k == b[0].0 || k in HeaderNames(b[1..]) {
          var i :| 0 <= i < |b| && HeaderNames(b)[i] == k;
          if i > 0 { assert HeaderNames(b[1..])[i - 1] == k; }
        }
      }
      assert forall k :: k in HeaderNames(b[1..]) ==> k in HeaderNames(b) by {
        forall k | k in HeaderNames(b[1..]) ensures k in HeaderNames(b) {
          var i :| 0 <= i < |b[1..]| && HeaderNames(b[1..])[i] == k;
          assert HeaderNames(b)[i + 1] == k;
        }
      }
      assert b[0].0 in HeaderNames(b) by { assert HeaderNames(b)[0] == b[0].0; }
      Merge(a', b[1..])
  }

  /** `HGet` after `HPut`, for every key at once. */
  lemma HPutLookup(h: Headers, k: string, v: string)
    ensures forall k' :: HGet(HPut(h, k, v), k') == if k' == k then Some(v) else HGet(h, k')
  {
    forall k' ensures HGet(HPut(h, k, v), k') == if k' == k then Some(v) else HGet(h, k') {
      HGetPut(h, k, v, k');
    }
  }

  /** `_auth_headers`: the bearer header and nothing else. */
  function AuthHeaders(token: string): (r: Headers)
    ensures HeaderNames(r) == ["Authorization"]
    ensures HGet(r, "Authorization") == Some("Bearer " + token)
  {
    [("Authorization", "Bearer " + token)]
  }

  lemma {:induction false} HGetPut(h: Headers, k: string, v: string, k': string)
    ensures HGet(HPut(h, k, v), k') == if k' == k then Some(v) else HGet(h, k')
  {
    if |h| > 0 && h[0].0 != k {
      HGetPut(h[1..], k, v, k');
    }
  }

  /** In `{**a, **b}` every key of `b` takes `b`'s value; other keys keep `a`'s. */
  lemma {:induction false} MergeLookup(a: Headers, b: Headers, k: string)
    requires UniqueNames(b)
    ensures HGet(Merge(a, b), k) == if HGet(b, k).Some? then HGet(b, k) else HGet(a, k)
    decreases |b|
  {
    if |b| > 0 {
      HGetPut(a, b[0].0, b[0].1, k);
      assert UniqueNames(b[1..]) by {
        forall i, j | 0 <= i < j < |b[1..]| ensures b[1..][i].0 != b[1..][j].0 {
          assert b[1..][i] == b[i + 1] && b[1..][j] == b[j + 1];
        }
      }
      MergeLookup(HPut(a, b[0].0, b[0].1), b[1..], k);
      if b[0].0 == k {
        assert HGet(b[1..], k).None? by {
          forall i | 0 <= i < |b[1..]| ensures b[1..][i].0 != k {
            assert b[1..][i] == b[i + 1];
          }
          HGetAbsent(b[1..], k);
        }
      }
    }
  }

  lemma {:induction false} HGetAbsent(h: Headers, k: string)
    requires forall i :: 0 <= i < |h| ==> h[i].0 != k
    ensures HGet(h, k).None?
  {
    if |h| > 0 {
      HGetAbsent(h[1..], k);
    }
  }

  /**
   * The merged request headers: a caller's `Authorization` replaces the
   * bearer header, every other caller header is sent as given, and with no
   * caller headers only the bearer header is sent.
   */
  lemma CallerHeadersWin(token: string, headers: Headers, k: string)
    requires UniqueNames(headers)
    ensures HGet(Merge(AuthHeaders(token), headers), "Authorization") ==
      if HGet(headers, "Authorization").Some? then HGet(headers, "Authorization") else Some("Bearer " + token)
    ensures k != "Authorization" ==> HGet(Merge(AuthHeaders(token), headers), k) == HGet(headers, k)
    ensures Merge(AuthHeaders(token), []) == AuthHeaders(token)
  {
    MergeLookup(AuthHeaders(token), headers, "Authorization");
    MergeLookup(AuthHeaders(token), headers, k);
  }

  // ---------------------------------------------------------------------
  // The transport
  // ---------------------------------------------------------------------

  /** A form field: plain text, or the text `json.dumps` gives for a value. */
  datatype FormValue = Text(text: string) | JsonText(value: Json)

  /** The content of an uploaded file: bytes, or `json.dumps(value).encode()`. */
  datatype FileContent = Bytes(bytes: seq<bv8>) | EncodedJson(value: Json)

  /** `(filename, content, content_type)`. */
  datatype FilePart = FilePart(filename: string, content: FileContent, mimeType: string)

  /** One call on the HTTP client: what was asked, with what. */
  datatype Call = Call(
    verb: string, url: string,
    json: Option<Json>, params: Option<Json>,
    data: Option<seq<(string, FormValue)>>, files: Option<seq<(string, FilePart)>>,
    headers: Headers)

  /** What the transport hands back: status, body bytes and the `retry-after` header. */
  datatype Response = Response(status: int, content: seq<bv8>, retryAfter: Option<string>)

  /** `httpx.AsyncClient`, reduced to the calls made on it and whether it is closed. */
  class Http {
    var calls: seq<Call>
    var closed: bool
    /** The server: the answer to the last call, given every call so far. */
    const serve: seq<Call> -> Response

    constructor(serve: seq<Call> -> Response)
      ensures calls == [] && !closed && this.serve == serve
    {
      calls := [];
      closed := false;
      this.serve := serve;
    }

    method Send(c: Call) returns (resp: Response)
      modifies this
      ensures calls == old(calls) + [c] && closed == old(closed)
      ensures resp == serve(calls)
    {
      calls := calls + [c];
      resp := serve(calls);
    }

    method Close()
      modifies this
      ensures closed && calls == old(calls)
    {
      closed := true;
    }
  }

  // ---------------------------------------------------------------------
  // Responses
  // ---------------------------------------------------------------------

  /** What a client call can raise: a Python exception, or a `GraphApiError`. */
  datatype ClientError = PyError(fault: Fault) | GraphError(error: GraphApiError)

  datatype Outcome<+T> = Success(value: T) | Failure(error: ClientError) {
    predicate IsFailure() { Failure? }
    function PropagateFailure<U>(): Outcome<U>
      requires Failure?
    {
      Failure(error)
    }
    function Extract(): T
      requires Success?
    {
      value
    }
  }

  /**
   * A model validation after a call: a failed call fails as it was, and a
   * successful one succeeds exactly when its body validates, or else raises
   * the validation's exception.
   */
  function Validated<T>(o: Outcome<Json>, validate: Json -> Result<T>): (r: Outcome<T>)
    ensures o.Failure? ==> r == Failure(o.error)
    ensures r.Success? <==> o.Success? && validate(o.value).Ok?
    ensures r.Success? ==> validate(o.value) == Ok(r.value)
    ensures o.Success? && validate(o.value).Err? ==> r == Failure(PyError(validate(o.value).fault))
  {
    match o
    case Failure(e) => Failure(e)
    case Success(j) =>
      match validate(j)
      case Ok(v) => Success(v)
      case Err(f) => Failure(PyError(f))
  }

  /**
   * `body = {}; if resp.content: body = resp.json()`: empty content is the
   * empty object, and content that is not JSON raises ValueError.
   */
  function DecodeBody(content: seq<bv8>, parseJson: seq<bv8> -> Option<Json>): (r: Outcome<Json>)
    ensures |content| == 0 ==> r == Success(JObj([]))
    ensures r.Failure? <==> |content| > 0 && parseJson(content).None?
    ensures r.Failure? ==> r.error == PyError(ValueError)
    ensures |content| > 0 && parseJson(content).Some? ==> r == Success(parseJson(content).value)
  {
    if |content| == 0 then Success(JObj([]))
    else
      match parseJson(content)
      case None => Failure(PyError(ValueError))
      case Some(j) => Success(j)
  }

  /**
   * The part of `request` after the response has arrived, when
   * `raw_response` is false: a status below 400 returns the snake_cased body
   * (`{}` for empty content); 400 and above never returns; a Graph error body
   * becomes a `GraphApiError` carrying the status and the body as received;
   * text that is not JSON raises ValueError, before the status is looked at.
   */
  function Finish(resp: Response, parseJson: seq<bv8> -> Option<Json>): (r: Outcome<Json>)
    ensures r.Success? ==> resp.status < 400
    ensures resp.status < 400 && |resp.content| == 0 ==> r == Success(JObj([]))
    ensures resp.status < 400 && |resp.content| > 0 && parseJson(resp.content).Some? ==>
      r == Success(ToSnakeDeep(parseJson(resp.content).value))
    ensures |resp.content| > 0 && parseJson(resp.content).None? ==> r == Failure(PyError(ValueError))
    ensures r.Failure? && r.error.GraphError? ==> (
      r.error.error.httpStatus == resp.status &&
      r.error.error.raw == DecodeBody(resp.content, parseJson).value)
  {
    var body :- DecodeBody(resp.content, parseJson);
    if resp.status >= 400 then
      match FromResponse(resp.status, body, resp.retryAfter)
      case Ok(e) =>
        FromResponseFields(resp.status, body, resp.retryAfter);
        Failure(GraphError(e))
      case Err(f) => Failure(PyError(f))
    else Success(ToSnakeDeep(body))
  }

  /** An error status with an empty body gives the default Graph error for that status. */
  lemma EmptyErrorResponse(status: int, parseJson: seq<bv8> -> Option<Json>)
    requires status >= 400
    ensures var r := Finish(Response(status, [], None), parseJson);
      r.Failure? && r.error.GraphError? && r.error.error.httpStatus == status &&
      r.error.error.code == JNull
  {
    EmptyBodyDefaults(status);
    FromResponseFields(status, JObj([]), None);
  }

  /** What a successful call returns is already snake_case: converting it again changes nothing. */
  lemma SuccessIsSnakeCase(resp: Response, parseJson: seq<bv8> -> Option<Json>)
    ensures Finish(resp, parseJson).Success? ==>
      ToSnakeDeep(Finish(resp, parseJson).value) == Finish(resp, parseJson).value
  {
    if Finish(resp, parseJson).Success? {
      CaseDeepProps.ToSnakeDeepIdempotent(DecodeBody(resp.content, parseJson).value);
    }
  }

  /** What `request` returns: the response itself, or its decoded body. */
  datatype Reply = Raw(response: Response) | Decoded(body: Json)

  function AsReply(o: Outcome<Json>): Outcome<Reply> {
    match o
    case Success(j) => Success(Decoded(j))
    case Failure(e) => Failure(e)
  }

  // ---------------------------------------------------------------------
  // The client
  // ---------------------------------------------------------------------

  class WhatsAppClient {
    const accessToken: string
    const baseUrl: string
    const version: string
    const http: Http
    const ownsClient: bool
    /** `resp.json()`: the JSON text decoder, `None` where it raises. */
    const parseJson: seq<bv8> -> Option<Json>

    /**
     * `WhatsAppClient(access_token=..., base_url=..., graph_version=...,
     * http_client=...)`: a given HTTP client is used and not owned; without
     * one a new client is made (answering through `serve`) and owned.
     */
    constructor(accessToken: string, baseUrl: string, graphVersion: string, httpClient: Http?,
                serve: seq<Call> -> Response, parseJson: seq<bv8> -> Option<Json>)
      ensures this.accessToken == accessToken && this.baseUrl == RStripSlash(baseUrl)
      ensures version == graphVersion && this.parseJson == parseJson
      ensures ownsClient <==> httpClient == null
      ensures httpClient != null ==> http == httpClient
      ensures httpClient == null ==> fresh(http) && http.calls == [] && !http.closed && http.serve == serve
    {
      this.accessToken := accessToken;
      this.baseUrl := RStripSlash(baseUrl);
      version := graphVersion;
      this.parseJson := parseJson;
      if httpClient != null {
        http := httpClient;
        ownsClient := false;
      } else {
        http := new Http(serve);
        ownsClient := true;
      }
    }

    function UrlOf(path: string): string {
      Url(baseUrl, version, path)
    }

    /** The call `request` makes: the built URL and the merged headers. */
    function RequestCall(verb: string, path: string, json: Option<Json>, params: Option<Json>,
                         data: Option<seq<(string, FormValue)>>, files: Option<seq<(string, FilePart)>>,
                         headers: Headers): Call {
      Call(verb, UrlOf(path), json, params, data, files, Merge(AuthHeaders(accessToken), headers))
    }

    /** The answer to the last call made. */
    function LastResponse(): Response
      reads http
    {
      http.serve(http.calls)
    }

    /** `request(method, path, json=..., params=..., data=..., files=..., headers=..., raw_response=...)`. */
    method Request(verb: string, path: string, json: Option<Json>, params: Option<Json>,
                   data: Option<seq<(string, FormValue)>>, files: Option<seq<(string, FilePart)>>,
                   headers: Headers, rawResponse: bool) returns (r: Outcome<Reply>)
      modifies http
      ensures http.calls == old(http.calls) + [RequestCall(verb, path, json, params, data, files, headers)]
      ensures http.closed == old(http.closed)
      ensures rawResponse ==> r == Success(Raw(LastResponse()))
      ensures !rawResponse ==> r == AsReply(Finish(LastResponse(), parseJson))
    {
      var merged := Merge(AuthHeaders(accessToken), headers);
      var resp := http.Send(Call(verb, UrlOf(path), json, params, data, files, merged));
      if rawResponse {
        return Success(Raw(resp));
      }
      var body: Json := JObj([]);
      if |resp.content| > 0 {
        match parseJson(resp.content)
        case None =>
          return Failure(PyError(ValueError));
        case Some(j) =>
          body := j;
      }
      assert DecodeBody(resp.content, parseJson) == Success(body);
      if resp.status >= 400 {
        match FromResponse(resp.status, body, resp.retryAfter)
        case Ok(e) =>
          return Failure(GraphError(e));
        case Err(f) =>
          return Failure(PyError(f));
      }
      return Success(Reply.Decoded(ToSnakeDeep(body)));
    }

    /** `request` without `raw_response`: the decoded body, or what it raised. */
    method RequestDecoded(verb: string, path: string, json: Option<Json>, params: Option<Json>,
                   data: Option<seq<(string, FormValue)>>, files: Option<seq<(string, FilePart)>>)
      returns (r: Outcome<Json>)
      modifies http
      ensures http.calls == old(http.calls) + [RequestCall(verb, path, json, params, data, files, [])]
      ensures http.closed == old(http.closed)
      ensures r == Finish(LastResponse(), parseJson)
    {
      var reply := Request(verb, path, json, params, data, files, [], false);
      match reply
      case Failure(e) =>
        r := Failure(e);
      case Success(rep) =>
        r := if rep.Decoded? then Success(rep.body) else Failure(PyError(TypeError));
    }

    /** `get(path, params=...)`. */
    method Get(path: string, params: Option<Json>) returns (r: Outcome<Json>)
      modifies http
      ensures http.calls == old(http.calls) + [RequestCall("GET", path, None, params, None, None, [])]
      ensures http.closed == old(http.closed)
      ensures r == Finish(LastResponse(), parseJson)
    {
      r := RequestDecoded("GET", path, None, params, None, None);
    }

    /** `post(path, json=..., data=..., files=...)`. */
    method Post(path: string, json: Option<Json>, data: Option<seq<(string, FormValue)>>,
                files: Option<seq<(string, FilePart)>>) returns (r: Outcome<Json>)
      modifies http
      ensures http.calls == old(http.calls) + [RequestCall("POST", path, json, None, data, files, [])]
      ensures http.closed == old(http.closed)
      ensures r == Finish(LastResponse(), parseJson)
    {
      r := RequestDecoded("POST", path, json, None, data, files);
    }

    /** `delete(path, params=...)`. */
    method Delete(path: string, params: Option<Json>) returns (r: Outcome<Json>)
      modifies http
      ensures http.calls == old(http.calls) + [RequestCall("DELETE", path, None, params, None, None, [])]
      ensures http.closed == old(http.closed)
      ensures r == Finish(LastResponse(), parseJson)
    {
      r := RequestDecoded("DELETE", path, None, params, None, None);
    }

    /** `fetch_raw(url, headers=...)`: a GET of the URL as given, with the caller's headers only. */
    method FetchRaw(url: string, headers: Headers) returns (resp: Response)
      modifies http
      ensures http.calls == old(http.calls) + [Call("GET", url, None, None, None, None, headers)]
      ensures http.closed == old(http.closed)
      ensures resp == LastResponse()
    {
      resp := http.Send(Call("GET", url, None, None, None, None, headers));
    }

    /** `fetch_authenticated(url, headers=...)`: the same GET with the bearer header merged in. */
    method FetchAuthenticated(url: string, headers: Headers) returns (resp: Response)
      modifies http
      ensures http.calls == old(http.calls) + [Call("GET", url, None, None, None, None, Merge(AuthHeaders(accessToken), headers))]
      ensures http.closed == old(http.closed)
      ensures resp == LastResponse()
    {
      resp := http.Send(Call("GET", url, None, None, None, None, Merge(AuthHeaders(accessToken), headers)));
    }

    /** `aclose()`: closes the HTTP client only if this client created it. */
    method Aclose()
      modifies http
      ensures http.calls == old(http.calls)
      ensures http.closed == (old(http.closed) || ownsClient)
    {
      if ownsClient {
        http.Close();
      }
    }
  }
}
