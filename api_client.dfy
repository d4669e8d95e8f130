/** The browser's REST client (class PortfolioAPI in frontend/src/services/api.js):
    one timed request turned into a JSON body or an APIError, the retry policy
    around it, the table of resource operations, and the health probe.

    The network is an oracle: `network(req, k)` is how the k-th call of `fetch`
    for request `req` goes (how long it takes and how it settles). The abort
    timer is the comparison of that duration with the configured timeout. */
module ApiClient {
  import opened Wrappers
  import opened JsValue

  // API_CONFIG and ERROR_MESSAGES (frontend/src/utils/constants.js)
  const DEFAULT_BASE_URL: string := "http://localhost:8000/api"
  const TIMEOUT: nat := 10000
  const RETRY_ATTEMPTS: nat := 3
  const RETRY_DELAY: nat := 1000
  const NETWORK_ERROR: string := "Failed to connect to the server. Please check your internet connection."
  const TIMEOUT_ERROR: string := "Request timed out. Please try again."

  /** The static fields `baseURL` and `timeout` of the client. */
  datatype Config = Config(baseURL: string, timeout: nat)

  /** The client as configured: REACT_APP_API_URL when it is set and not
      empty, the local default otherwise. */
  function DefaultConfig(envApiUrl: Option<string>): Config {
    Config(if envApiUrl.Some? && envApiUrl.value != "" then envApiUrl.value else DEFAULT_BASE_URL, TIMEOUT)
  }

  // ---------------------------------------------------------------------
  // Errors

  /** A JavaScript exception that is not an APIError, known by its `name`. */
  datatype JsError = JsError(name: string, message: string)

  /** The `data` of an APIError: none, the parsed error body, or the original exception. */
  datatype ErrorData = NoData | Body(body: Json) | Cause(cause: JsError)

  datatype APIError = APIError(message: string, status: int, data: ErrorData)

  /** What the `try` block of fetchWithTimeout can throw. */
  datatype Thrown = ThrownApi(err: APIError) | ThrownJs(e: JsError)

  const ABORT_ERROR: JsError := JsError("AbortError", "The operation was aborted.")
  /** Reading `.detail` of an error body that parsed to `null`. */
  const NULL_BODY_ERROR: JsError := JsError("TypeError", "Cannot read properties of null (reading 'detail')")
  /** `response.json()` on a 2xx body that is not JSON. */
  const BODY_SYNTAX_ERROR: JsError := JsError("SyntaxError", "Unexpected token in JSON")

  // ---------------------------------------------------------------------
  // The network oracle

  /** A response as `fetch` delivers it. `parsed` is what JSON.parse makes of
      `text` (None when it throws); both `response.json()` and the parse of an
      error body read it. */
  datatype Response = Response(status: int, statusText: string, text: string, parsed: Option<Json>)

  /** How the `fetch` promise settles when nothing aborts it. */
  datatype Settled = Resolved(response: Response) | Rejected(reason: JsError)

  /** One call of `fetch`: the milliseconds until it would settle, and how. */
  datatype Attempt = Attempt(elapsed: nat, settled: Settled)

  /** `response.ok`. */
  predicate IsOk(status: int) { 200 <= status <= 299 }

  /** How the call settles once the abort timer, armed for `cfg.timeout` ms,
      is taken into account: a response that has not arrived by then is
      aborted, whatever the connection would have done. */
  function Settle(cfg: Config, a: Attempt): Settled {
    if a.elapsed >= cfg.timeout then Rejected(ABORT_ERROR) else a.settled
  }

  // ---------------------------------------------------------------------
  // fetchWithTimeout

  /** The parsed error body: the JSON of the text, or `{ message: text || statusText }`
      when the text is not JSON. */
  function ErrorBody(r: Response): Json {
    if r.parsed.Some? then r.parsed.value
    else Obj(map["message" := Str(if r.text != "" then r.text else r.statusText)])
  }

  /** `parsed.detail || parsed.message || "HTTP " + status`, as a string. */
  function HttpErrorMessage(body: Json, status: int): string {
    ToJsString(Or(Prop(body, "detail"), Or(Prop(body, "message"), Str("HTTP " + IntText(status)))))
  }

  /** The `try` block once `fetch` has resolved with `r`. */
  function ReadResponse(r: Response): Result<Json, Thrown> {
    if !IsOk(r.status) then
      var body := ErrorBody(r);
      if body.Null? then Err(ThrownJs(NULL_BODY_ERROR))
      else Err(ThrownApi(APIError(HttpErrorMessage(body, r.status), r.status, Body(body))))
    else if r.parsed.Some? then Ok(r.parsed.value)
    else Err(ThrownJs(BODY_SYNTAX_ERROR))
  }

  /** The `catch` block: an abort becomes a timeout, an APIError passes
      unchanged, anything else becomes a network error. */
  function Rethrow(t: Thrown): APIError {
    match t
    case ThrownApi(e) => e
    case ThrownJs(e) =>
      if e.name == "AbortError" then APIError(TIMEOUT_ERROR, 408, NoData)
      else APIError(NETWORK_ERROR, 0, Cause(e))
  }

  /** fetchWithTimeout(url, options) for one call of `fetch`. */
  function FetchWithTimeout(cfg: Config, a: Attempt): (r: Result<Json, APIError>)
    // the timer takes precedence over whatever the connection does
    ensures a.elapsed >= cfg.timeout ==> r == Err(APIError(TIMEOUT_ERROR, 408, NoData))
    // a 2xx response returns its JSON body
    ensures r.Ok? <==>
      a.elapsed < cfg.timeout && a.settled.Resolved?
      && IsOk(a.settled.response.status) && a.settled.response.parsed.Some?
    ensures r.Ok? ==> r.value == a.settled.response.parsed.value
    // a non-2xx response: detail, then message, then "HTTP <status>"; its status; the body as data
    ensures a.elapsed < cfg.timeout && a.settled.Resolved? && !IsOk(a.settled.response.status) ==>
      var resp := a.settled.response;
      var body := ErrorBody(resp);
      r == if body.Null? then Err(APIError(NETWORK_ERROR, 0, Cause(NULL_BODY_ERROR)))
           else Err(APIError(HttpErrorMessage(body, resp.status), resp.status, Body(body)))
    // any other failure of the call itself is a network error, unless it is an abort
    ensures a.elapsed < cfg.timeout && a.settled.Rejected? ==>
      r == Err(if a.settled.reason.name == "AbortError" then APIError(TIMEOUT_ERROR, 408, NoData)
               else APIError(NETWORK_ERROR, 0, Cause(a.settled.reason)))
    // the status of a failure is 0, 408, or the status the server sent
    ensures r.Err? ==>
      r.error.status == 0 || r.error.status == 408
      || (a.settled.Resolved? && !IsOk(a.settled.response.status) && r.error.status == a.settled.response.status)
    // which failures carry a server-error status (the ones withRetry retries)
    ensures (r.Err? && r.error.status >= 500) <==>
      a.elapsed < cfg.timeout && a.settled.Resolved? && a.settled.response.status >= 500
      && ErrorBody(a.settled.response) != Null
  {
    match Settle(cfg, a)
    case Rejected(e) => Err(Rethrow(ThrownJs(e)))
    case Resolved(resp) =>
      match ReadResponse(resp)
      case Ok(v) => Ok(v)
      case Err(t) => Err(Rethrow(t))
  }

  // ---------------------------------------------------------------------
  // withRetry

  /** A failure that withRetry retries while budget remains (status >= 500). */
  predicate Transient(r: Result<Json, APIError>) {
    r.Err? && r.error.status >= 500
  }

  /** withRetry(requestFn, retries) as the source writes it, by recursion on
      the remaining budget. `request(k)` is what the k-th call of requestFn
      settles to, `k` the number of calls made so far; the result is the
      final outcome and the number of calls made. */
  function RetryFrom(request: nat -> Result<Json, APIError>, retries: nat, k: nat): (Result<Json, APIError>, nat)
    decreases retries
  {
    var r := request(k);
    if retries > 0 && Transient(r) then RetryFrom(request, retries - 1, k + 1) else (r, k + 1)
  }

  /** What RetryFrom does: it stops at the first call that is not a transient
      failure, or when the budget is spent, and passes that call's outcome on
      unchanged. */
  lemma {:induction false} RetryFromSpec(request: nat -> Result<Json, APIError>, retries: nat, k: nat)
    ensures var (r, n) := RetryFrom(request, retries, k);
      && k + 1 <= n <= k + retries + 1
      && r == request(n - 1)
      && (forall j :: k <= j < n - 1 ==> Transient(request(j)))
      && (!Transient(r) || n == k + retries + 1)
    decreases retries
  {
    if retries > 0 && Transient(request(k)) {
      RetryFromSpec(request, retries - 1, k + 1);
    }
  }

  /** A call that does not fail transiently is the only call made. */
  lemma {:induction false} NoRetryUnlessTransient(request: nat -> Result<Json, APIError>, retries: nat)
    requires !Transient(request(0))
    ensures RetryFrom(request, retries, 0) == (request(0), 1)
  {
  }

  /** The scenario of three 503 responses and then a success: the success is
      the result and four calls are made. */
  lemma ThreeServerErrorsThenSuccess(request: nat -> Result<Json, APIError>, body: Json, e: APIError)
    requires e.status == 503
    requires request(0) == request(1) == request(2) == Err(e)
    requires request(3) == Ok(body)
    ensures RetryFrom(request, RETRY_ATTEMPTS, 0) == (Ok(body), 4)
  {
    assert RetryFrom(request, 0, 3) == (Ok(body), 4);
    assert RetryFrom(request, 1, 2) == (Ok(body), 4);
  }

  /** withRetry: calls `request` until a call does not fail transiently or
      the budget of retries is spent, waiting RETRY_DELAY before each retry. */
  method WithRetry(request: nat -> Result<Json, APIError>, retries: nat)
      returns (r: Result<Json, APIError>, attempts: nat, waited: nat)
    ensures (r, attempts) == RetryFrom(request, retries, 0)
    ensures 1 <= attempts <= retries + 1
    ensures r == request(attempts - 1)
    ensures forall j :: 0 <= j < attempts - 1 ==> Transient(request(j))
    ensures !Transient(r) || attempts == retries + 1
    ensures waited == (attempts - 1) * RETRY_DELAY
  {
    var left := retries;
    r := request(0);
    attempts, waited := 1, 0;
    while left > 0 && Transient(r)
      invariant attempts + left == retries + 1
      invariant r == request(attempts - 1)
      invariant RetryFrom(request, retries, 0) == RetryFrom(request, left, attempts - 1)
      invariant waited == (attempts - 1) * RETRY_DELAY
    {
      waited := waited + RETRY_DELAY;
      left := left - 1;
      r := request(attempts);
      attempts := attempts + 1;
    }
    RetryFromSpec(request, retries, 0);
  }

  // ---------------------------------------------------------------------
  // The resource operations

  datatype Verb = GET | POST | PUT | DELETE

  datatype Resource = Skills | Experience | Projects | Achievements | Publications

  function ResourcePath(res: Resource): string {
    match res
    case Skills => "skills"
    case Experience => "experience"
    case Projects => "projects"
    case Achievements => "achievements"
    case Publications => "publications"
  }

  /** One public method of the client each; the JSON values are the
      arguments that the method serialises as the request body. */
  datatype Operation =
    | FetchPortfolio
    | UpdatePersonalInfo(updates: Json)
    | UpdateAboutSection(updates: Json)
    | FetchAll(resource: Resource)
    | Create(resource: Resource, data: Json)
    | Update(resource: Resource, id: string, updates: Json)
    | Delete(resource: Resource, id: string)
    | MigrateMockData(mockData: Json)
    | ExportData
    | GetStatus

  /** The `url` and `options` given to fetchWithTimeout. `headers` are the
      caller's own; `body` is the value that is sent as JSON. */
  datatype Request = Request(url: string, verb: Verb, body: Option<Json>, headers: map<string, string>)

  /** The path below the base URL, segment by segment. */
  function Segments(op: Operation): seq<string> {
    match op
    case FetchPortfolio => ["portfolio"]
    case UpdatePersonalInfo(_) => ["portfolio", "personal"]
    case UpdateAboutSection(_) => ["portfolio", "about"]
    case FetchAll(res) => [ResourcePath(res)]
    case Create(res, _) => [ResourcePath(res)]
    case Update(res, id, _) => [ResourcePath(res), id]
    case Delete(res, id) => [ResourcePath(res), id]
    case MigrateMockData(_) => ["migrate"]
    case ExportData => ["export"]
    case GetStatus => ["status"]
  }

  function VerbOf(op: Operation): Verb {
    match op
    case UpdatePersonalInfo(_) => PUT
    case UpdateAboutSection(_) => PUT
    case Create(_, _) => POST
    case Update(_, _, _) => PUT
    case Delete(_, _) => DELETE
    case MigrateMockData(_) => POST
    case _ => GET
  }

  function BodyOf(op: Operation): Option<Json> {
    match op
    case UpdatePersonalInfo(u) => Some(u)
    case UpdateAboutSection(u) => Some(u)
    case Create(_, d) => Some(d)
    case Update(_, _, u) => Some(u)
    case MigrateMockData(m) => Some(m)
    case _ => None
  }

  /** Segments joined by "/". */
  function JoinPath(segs: seq<string>): string {
    if segs == [] then "" else if |segs| == 1 then segs[0] else segs[0] + "/" + JoinPath(segs[1..])
  }

  /** The request each operation hands to fetchWithTimeout:
      `${baseURL}/<resource>[/<id>]` with the operation's fixed verb. */
  function RequestFor(cfg: Config, op: Operation): (req: Request)
    ensures req.url == cfg.baseURL + "/" + JoinPath(Segments(op))
    ensures req.headers == map[]
    ensures req.verb == POST <==> op.Create? || op.MigrateMockData?
    ensures req.verb == PUT <==> op.Update? || op.UpdatePersonalInfo? || op.UpdateAboutSection?
    ensures req.verb == DELETE <==> op.Delete?
    ensures req.body.Some? <==> req.verb == POST || req.verb == PUT
    ensures op.UpdatePersonalInfo? || op.UpdateAboutSection? || op.Update? ==> req.body == Some(op.updates)
    ensures op.Create? ==> req.body == Some(op.data)
    ensures op.MigrateMockData? ==> req.body == Some(op.mockData)
    ensures SegmentId(op) ==> MatchRoute(Segments(op), req.verb) == Some(Shape(op))
  {
    assert SegmentId(op) ==> MatchRoute(Segments(op), VerbOf(op)) == Some(Shape(op)) by {
      if SegmentId(op) { MatchesOwnRoute(op); }
    }
    Request(cfg.baseURL + "/" + JoinPath(Segments(op)), VerbOf(op), BodyOf(op), map[])
  }

  /** Splits a path at every "/" (the inverse of JoinPath). */
  function SplitPath(s: string): (segs: seq<string>)
    ensures |segs| >= 1
    decreases |s|
  {
    if s == [] then [""]
    else
      var rest := SplitPath(s[1..]);
      if s[0] == '/' then [""] + rest else [[s[0]] + rest[0]] + rest[1..]
  }

  lemma {:induction false} SplitSegment(a: string)
    requires '/' !in a
    ensures SplitPath(a) == [a]
    decreases |a|
  {
    if a != [] {
      assert '/' !in a[1..] by { forall c | c in a[1..] ensures c in a { } }
      SplitSegment(a[1..]);
      assert [a[0]] + a[1..] == a;
    }
  }

  lemma {:induction false} SplitAfterSegment(a: string, b: string)
    requires '/' !in a
    ensures SplitPath(a + "/" + b) == [a] + SplitPath(b)
    decreases |a|
  {
    if a == [] {
      assert a + "/" + b == "/" + b;
      assert ("/" + b)[1..] == b;
    } else {
      assert '/' !in a[1..] by { forall c | c in a[1..] ensures c in a { } }
      SplitAfterSegment(a[1..], b);
      assert (a + "/" + b)[1..] == a[1..] + "/" + b;
      assert [a[0]] + a[1..] == a;
    }
  }

  /** Joining segments that contain no "/" and splitting the result gives
      the segments back. */
  lemma {:induction false} SplitJoin(segs: seq<string>)
    requires |segs| >= 1
    requires forall i :: 0 <= i < |segs| ==> '/' !in segs[i]
    ensures SplitPath(JoinPath(segs)) == segs
    decreases |segs|
  {
    if |segs| == 1 {
      SplitSegment(segs[0]);
    } else {
      SplitJoin(segs[1..]);
      SplitAfterSegment(segs[0], JoinPath(segs[1..]));
      assert [segs[0]] + segs[1..] == segs;
    }
  }

  function ResourceNamed(name: string): Option<Resource> {
    if name == "skills" then Some(Skills)
    else if name == "experience" then Some(Experience)
    else if name == "projects" then Some(Projects)
    else if name == "achievements" then Some(Achievements)
    else if name == "publications" then Some(Publications)
    else None
  }

  /** The operation with its request body left out (replaced by null). */
  function Shape(op: Operation): Operation {
    match op
    case UpdatePersonalInfo(_) => UpdatePersonalInfo(Null)
    case UpdateAboutSection(_) => UpdateAboutSection(Null)
    case Create(res, _) => Create(res, Null)
    case Update(res, id, _) => Update(res, id, Null)
    case MigrateMockData(_) => MigrateMockData(Null)
    case _ => op
  }

  /** The endpoint the server's router (backend/routes/portfolio_routes.py)
      selects for a path below the API prefix and a verb. */
  function MatchRoute(segs: seq<string>, verb: Verb): Option<Operation> {
    if segs == ["portfolio"] && verb == GET then Some(FetchPortfolio)
    else if segs == ["portfolio", "personal"] && verb == PUT then Some(UpdatePersonalInfo(Null))
    else if segs == ["portfolio", "about"] && verb == PUT then Some(UpdateAboutSection(Null))
    else if segs == ["migrate"] && verb == POST then Some(MigrateMockData(Null))
    else if segs == ["export"] && verb == GET then Some(ExportData)
    else if segs == ["status"] && verb == GET then Some(GetStatus)
    else if |segs| == 1 && ResourceNamed(segs[0]).Some? && verb == GET then Some(FetchAll(ResourceNamed(segs[0]).value))
    else if |segs| == 1 && ResourceNamed(segs[0]).Some? && verb == POST then Some(Create(ResourceNamed(segs[0]).value, Null))
    else if |segs| == 2 && ResourceNamed(segs[0]).Some? && segs[1] != "" && verb == PUT then Some(Update(ResourceNamed(segs[0]).value, segs[1], Null))
    else if |segs| == 2 && ResourceNamed(segs[0]).Some? && segs[1] != "" && verb == DELETE then Some(Delete(ResourceNamed(segs[0]).value, segs[1]))
    else None
  }

  /** Routing a URL: strip `${baseURL}/`, split the rest, match. */
  function RouteOf(cfg: Config, url: string, verb: Verb): Option<Operation> {
    var prefix := cfg.baseURL + "/";
    if |prefix| <= |url| && url[..|prefix|] == prefix then MatchRoute(SplitPath(url[|prefix|..]), verb) else None
  }

  /** An id that a URL carries unchanged as one path segment: not empty (the
      router matches no empty segment), not a dot segment (the URL parser
      resolves those), free of the characters that end or escape a path
      ("/", "?", "#", "%"), of "\\" (which the parser reads as "/" in an
      http(s) path) and of tab, line feed and carriage return (which it
      deletes), and not ending in a space or control character (which it
      strips from the end of the URL, where the id stands). Ids made by
      uuid4() are all of this kind. */
  predicate PlainId(id: string) {
    id != "" && id != "." && id != ".."
    && '/' !in id && '?' !in id && '#' !in id && '%' !in id
    && '\\' !in id && '\t' !in id && '\n' !in id && '\r' !in id
    && id[|id| - 1] > ' '
  }

  /** An operation whose id, if it has one, is plain. */
  predicate SegmentId(op: Operation) {
    (op.Update? || op.Delete?) ==> PlainId(op.id)
  }

  /** The URL and verb of every operation lead back to that operation: no two
      operations share an endpoint, and each reaches the route it is meant for. */
  lemma RequestRoutesBack(cfg: Config, op: Operation)
    requires SegmentId(op)
    ensures RouteOf(cfg, RequestFor(cfg, op).url, RequestFor(cfg, op).verb) == Some(Shape(op))
  {
    var segs := Segments(op);
    var prefix := cfg.baseURL + "/";
    var url := RequestFor(cfg, op).url;
    assert url[..|prefix|] == prefix && url[|prefix|..] == JoinPath(segs);
    SegmentsPlain(op);
    SplitJoin(segs);
    MatchesOwnRoute(op);
  }

  /** A resource's path names that resource and none of the fixed endpoints. */
  lemma ResourcePathNamed(res: Resource)
    ensures ResourceNamed(ResourcePath(res)) == Some(res)
    ensures ResourcePath(res) != "portfolio" && ResourcePath(res) != "migrate"
    ensures ResourcePath(res) != "export" && ResourcePath(res) != "status"
    ensures '/' !in ResourcePath(res)
  {
    match res
    case Skills =>
    case Experience =>
    case Projects =>
    case Achievements =>
    case Publications =>
  }

  /** No segment of an operation's path holds a "/". */
  lemma SegmentsPlain(op: Operation)
    requires SegmentId(op)
    ensures |Segments(op)| >= 1
    ensures forall i :: 0 <= i < |Segments(op)| ==> '/' !in Segments(op)[i]
  {
    match op
    case Update(res, id, _) => ResourcePathNamed(res);
    case Delete(res, id) => ResourcePathNamed(res);
    case FetchAll(res) => ResourcePathNamed(res);
    case Create(res, _) => ResourcePathNamed(res);
    case _ =>
  }

  lemma MatchesOwnRoute(op: Operation)
    requires SegmentId(op)
    ensures MatchRoute(Segments(op), VerbOf(op)) == Some(Shape(op))
  {
    match op
    case Update(res, id, _) => ResourcePathNamed(res);
    case Delete(res, id) => ResourcePathNamed(res);
    case FetchAll(res) => ResourcePathNamed(res);
    case Create(res, _) => ResourcePathNamed(res);
    case _ =>
  }

  /** The headers fetchWithTimeout sends: `Content-Type: application/json`
      unless the caller gives its own, then every header of the caller's. */
  function SentHeaders(callerHeaders: map<string, string>): (h: map<string, string>)
    ensures h.Keys == callerHeaders.Keys + {"Content-Type"}
    ensures forall k :: k in callerHeaders ==> h[k] == callerHeaders[k]
    ensures "Content-Type" !in callerHeaders ==> h["Content-Type"] == "application/json"
  {
    map["Content-Type" := "application/json"] + callerHeaders
  }

  /** The calls of `fetch` that one operation makes: the k-th one. */
  function Calls(cfg: Config, req: Request, network: (Request, nat) -> Attempt): nat -> Result<Json, APIError> {
    (k: nat) => FetchWithTimeout(cfg, network(req, k))
  }

  /** Every operation but getStatus: withRetry(() => fetchWithTimeout(url, options))
      with the default budget of RETRY_ATTEMPTS retries. */
  method Call(cfg: Config, op: Operation, network: (Request, nat) -> Attempt)
      returns (r: Result<Json, APIError>, attempts: nat, waited: nat)
    requires !op.GetStatus?
    ensures (r, attempts) == RetryFrom(Calls(cfg, RequestFor(cfg, op), network), RETRY_ATTEMPTS, 0)
    ensures 1 <= attempts <= RETRY_ATTEMPTS + 1
    ensures r == Calls(cfg, RequestFor(cfg, op), network)(attempts - 1)
    ensures forall j :: 0 <= j < attempts - 1 ==> Transient(Calls(cfg, RequestFor(cfg, op), network)(j))
    ensures !Transient(r) || attempts == RETRY_ATTEMPTS + 1
    ensures waited == (attempts - 1) * RETRY_DELAY
  {
    r, attempts, waited := WithRetry(Calls(cfg, RequestFor(cfg, op), network), RETRY_ATTEMPTS);
  }

  /** getStatus(): one fetchWithTimeout, without retry: the outcome of a
      retry policy with no budget, so even a 5xx failure is final. */
  function Status(cfg: Config, network: (Request, nat) -> Attempt): (r: Result<Json, APIError>)
    ensures (r, 1) == RetryFrom(Calls(cfg, RequestFor(cfg, GetStatus), network), 0, 0)
    ensures RequestFor(cfg, GetStatus).verb == GET && RequestFor(cfg, GetStatus).url == cfg.baseURL + "/status"
  {
    FetchWithTimeout(cfg, network(RequestFor(cfg, GetStatus), 0))
  }

  /** The request of healthCheck(): a GET of `${baseURL}/`. */
  function HealthRequest(cfg: Config): Request {
    Request(cfg.baseURL + "/", GET, None, map[])
  }

  /** healthCheck(): one plain `fetch`, without retry and without the abort
      timer (`fetch` ignores its `timeout` option). It never fails: it is
      `response.ok` when the call resolves and false when it rejects. */
  function HealthCheck(cfg: Config, network: (Request, nat) -> Attempt): (healthy: bool)
    ensures var a := network(HealthRequest(cfg), 0);
      healthy <==> a.settled.Resolved? && IsOk(a.settled.response.status)
  {
    var a := network(HealthRequest(cfg), 0);
    match a.settled
    case Resolved(resp) => IsOk(resp.status)
    case Rejected(_) => false
  }
}
