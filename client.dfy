/**
 * The REST client: the retrying request executor `_request` and the page
 * operations built on it.
 *
 * The HTTP session is a script: the sequence of outcomes its successive
 * `request` calls produce (a network-level exception, or a completed response).
 * The client records every request it sends and every delay it sleeps, so
 * that the contracts can say what was sent and how long was waited. When the
 * script has no outcome left, the model stops with ScriptExhausted; the source
 * has no such case (a real session always answers).
 */
module Client {
  import opened Wrappers
  import opened Strings
  import opened JsonValues
  import opened Errors

  /** A completed response. `json` is None when the body does not parse as JSON. */
  datatype Response = Response(status: int, json: Option<Json>, text: string, retryAfter: Option<nat>)

  /** What one `session.request` does. */
  datatype Outcome = NetworkError(text: string) | Completed(resp: Response)

  /** What a request raises: the network exception unchanged, a ConfluenceError, or the end of the script. */
  datatype Failure = Network(text: string) | Api(error: ConfluenceError) | ScriptExhausted

  /** `str(e)` of a raised failure. */
  function FailureText(f: Failure): string {
    match f
    case Network(text) => text
    case Api(e) => e.detail
    case ScriptExhausted => ""
  }

  /** One HTTP request as sent on the wire. */
  datatype Call = Call(verb: string, url: string, params: Dict, body: Option<Json>)

  /** The arguments of one `_request` call. */
  datatype RequestArgs = RequestArgs(verb: string, path: string, params: Dict, body: Option<Json>, expected: Option<set<int>>)

  /** The session: the outcomes still to come, the requests sent and the delays slept so far. */
  datatype Session = Session(script: seq<Outcome>, sent: seq<Call>, slept: seq<nat>)

  /** The read-only configuration of a client. */
  datatype Settings = Settings(baseUrl: string, retries: int, backoff: nat)

  /** Statuses retried while the budget lasts. */
  const Transient: set<int> := {429, 500, 502, 503, 504}

  /** The statuses a request accepts: the given set, or 200 and 201 when none (or an empty one) is given. */
  function ExpectedSet(expected: Option<set<int>>): set<int> {
    if expected.Some? && expected.value != {} then expected.value else {200, 201}
  }

  /** The base URL with its trailing slashes removed. */
  function StripSlashes(s: string): (r: string)
    ensures r <= s
    ensures r == [] || r[|r| - 1] != '/'
    ensures forall i :: |r| <= i < |s| ==> s[i] == '/'
  {
    RStripWhile(s, c => c == '/')
  }

  /** The URL of a path: one '/' is inserted between base and path only when the path lacks one. */
  function Url(baseUrl: string, path: string): (url: string)
    ensures |url| > |baseUrl| && url[..|baseUrl|] == baseUrl && url[|baseUrl|] == '/'
    ensures url[|baseUrl|..] == path <==> StartsWith(path, "/")
    ensures !StartsWith(path, "/") ==> url[|baseUrl| + 1..] == path
  {
    if StartsWith(path, "/") then baseUrl + path else baseUrl + "/" + path
  }

  function Pow2(n: nat): (r: nat)
    ensures r >= 1
  {
    if n == 0 then 1 else 2 * Pow2(n - 1)
  }

  /** `backoff * 2 ** (attempt - 1)`, in whole delay units. */
  function Backoff(backoff: nat, attempt: nat): nat
    requires attempt >= 1
  {
    backoff * Pow2(attempt - 1)
  }

  /** The delay before retrying a response: its Retry-After value when present, else the backoff. */
  function RetryDelay(resp: Response, backoff: nat, attempt: nat): nat
    requires attempt >= 1
  {
    match resp.retryAfter
    case Some(d) => d
    case None => Backoff(backoff, attempt)
  }

  /** What a request with an expected status returns: the JSON body, or the raw text and status. */
  function Parsed(resp: Response): Json {
    match resp.json
    case Some(j) => j
    case None => JObj([("raw", JStr(resp.text)), ("status", JInt(resp.status))])
  }

  /** The payload handed to `raise_for_status`: the JSON body, or `{}`. */
  function ErrorPayload(resp: Response): Json {
    match resp.json
    case Some(j) => j
    case None => JObj([])
  }

  /** What the request loop produced: its result, how many outcomes it used, the delays it slept. */
  datatype Run = Run(result: Result<Json, Failure>, used: nat, delays: seq<nat>)

  function Retried(d: nat, r: Run): Run {
    Run(r.result, r.used + 1, [d] + r.delays)
  }

  function Reissued(r: Run): Run {
    Run(r.result, r.used + 1, r.delays)
  }

  function Shift(r: Run, k: nat, ds: seq<nat>): Run {
    Run(r.result, r.used + k, ds + r.delays)
  }

  /** What the loop of `_request` does with one outcome at attempt number `a`. */
  datatype Step = Stop(result: Result<Json, Failure>) | RetryAfter(delay: nat) | Reissue

  function StepOf(o: Outcome, a: nat, retries: int, backoff: nat, expected: set<int>, message: string): Step
    requires a >= 1
  {
    match o
    case NetworkError(text) =>
      if a <= retries then RetryAfter(Backoff(backoff, a)) else Stop(Failure(Network(text)))
    case Completed(resp) =>
      if resp.status in expected then Stop(Success(Parsed(resp)))
      else if resp.status in Transient && a <= retries then RetryAfter(RetryDelay(resp, backoff, a))
      else
        match RaiseForStatus(resp.status, message, ErrorPayload(resp))
        case Some(e) => Stop(Failure(Api(e)))
        case None => Reissue
  }

  /**
   * The loop of `_request`, entered after `attempt` requests, over the
   * outcomes the session will produce. `message` is the request description
   * "METHOD url" used as the error detail.
   */
  function Attempts(script: seq<Outcome>, attempt: nat, retries: int, backoff: nat,
                    expected: set<int>, message: string): (r: Run)
    ensures r.used <= |script|
    ensures script != [] ==> r.used >= 1
    decreases |script|
  {
    if script == [] then Run(Failure(ScriptExhausted), 0, [])
    else
      match StepOf(script[0], attempt + 1, retries, backoff, expected, message)
      case Stop(result) => Run(result, 1, [])
      case RetryAfter(d) => Retried(d, Attempts(script[1..], attempt + 1, retries, backoff, expected, message))
      case Reissue => Reissued(Attempts(script[1..], attempt + 1, retries, backoff, expected, message))
  }

  /** How one step of the loop advances the run still to come. */
  lemma AttemptsStep(total: Run, rest: seq<Outcome>, k: nat, delays: seq<nat>, retries: int, backoff: nat,
                     expected: set<int>, message: string)
    requires rest != []
    requires total == Shift(Attempts(rest, k, retries, backoff, expected, message), k, delays)
    ensures var step := StepOf(rest[0], k + 1, retries, backoff, expected, message);
            && (step.Stop? ==> total == Run(step.result, k + 1, delays))
            && (step.RetryAfter? ==>
                  total == Shift(Attempts(rest[1..], k + 1, retries, backoff, expected, message), k + 1, delays + [step.delay]))
            && (step.Reissue? ==>
                  total == Shift(Attempts(rest[1..], k + 1, retries, backoff, expected, message), k + 1, delays))
  {
  }

  function Repeat<T>(x: T, n: nat): (r: seq<T>)
    ensures |r| == n && forall i :: 0 <= i < n ==> r[i] == x
  {
    seq(n, _ => x)
  }

  lemma RepeatSnoc<T>(x: T, n: nat)
    ensures Repeat(x, n) + [x] == Repeat(x, n + 1)
  {
    assert Repeat(x, n) + [x] == Repeat(x, n + 1);
  }

  /** One `_request` call from session state `s`: its result and the session after it. */
  function Exec(cfg: Settings, s: Session, req: RequestArgs): (r: (Result<Json, Failure>, Session))
    ensures |r.1.script| <= |s.script|
    ensures r.0.Success? ==> |r.1.script| < |s.script|
  {
    var url := Url(cfg.baseUrl, req.path);
    var run := Attempts(s.script, 0, cfg.retries, cfg.backoff, ExpectedSet(req.expected), req.verb + " " + url);
    (run.result,
     Session(s.script[run.used..], s.sent + Repeat(Call(req.verb, url, req.params, req.body), run.used),
             s.slept + run.delays))
  }

  // ---------------- requests issued by the page operations ----------------

  /** The page size sent to the server: the requested limit, clamped to 1..100. */
  function LimitParam(limit: int): (r: int)
    ensures 1 <= r <= 100
    ensures 1 <= limit <= 100 ==> r == limit
    ensures limit > 100 ==> r == 100
    ensures limit < 1 ==> r == 1
  {
    if limit < 1 then 1 else if limit > 100 then 100 else limit
  }

  /** The offset sent to the server: the requested start, or 0 when it is negative. */
  function StartParam(start: int): (r: int)
    ensures r >= 0
    ensures start >= 0 ==> r == start
    ensures start < 0 ==> r == 0
  {
    if start < 0 then 0 else start
  }

  function NotifyParams(notifyWatchers: bool): Dict {
    [("notifyWatchers", JStr(if notifyWatchers then "true" else "false"))]
  }

  function StorageBody(bodyHtml: string): Json {
    JObj([("storage", JObj([("value", JStr(bodyHtml)), ("representation", JStr("storage"))]))])
  }

  function HomepageRequest(spaceKey: string): RequestArgs {
    RequestArgs("GET", "/rest/api/space/" + spaceKey, [("expand", JStr("homepage"))], None, None)
  }

  /** The payload of `create_page`: an ancestor entry only for a non-empty parent id. */
  function CreatePayload(title: string, spaceKey: string, bodyHtml: string, parentId: Option<string>): Json {
    var fields := [("type", JStr("page")), ("title", JStr(title)), ("space", JObj([("key", JStr(spaceKey))])),
                   ("body", StorageBody(bodyHtml))];
    if parentId.Some? && parentId.value != "" then
      JObj(fields + [("ancestors", JArr([JObj([("id", JStr(parentId.value))])]))])
    else JObj(fields)
  }

  function CreateRequest(title: string, spaceKey: string, bodyHtml: string, parentId: Option<string>,
                         notifyWatchers: bool): RequestArgs {
    RequestArgs("POST", "/rest/api/content", NotifyParams(notifyWatchers),
                Some(CreatePayload(title, spaceKey, bodyHtml, parentId)), None)
  }

  function GetPageRequest(pageId: string): RequestArgs {
    RequestArgs("GET", "/rest/api/content/" + pageId, [("expand", JStr("version,ancestors,body.storage,_links"))], None, None)
  }

  function RenderedRequest(pageId: string, exportView: bool): RequestArgs {
    RequestArgs("GET", "/rest/api/content/" + pageId,
                [("expand", JStr(if exportView then "body.export_view" else "body.view"))], None, None)
  }

  function FindRequest(title: string, spaceKey: string): RequestArgs {
    RequestArgs("GET", "/rest/api/content",
                [("type", JStr("page")), ("spaceKey", JStr(spaceKey)), ("title", JStr(title)),
                 ("expand", JStr("ancestors,version,_links")), ("status", JStr("current")), ("limit", JInt(25))],
                None, None)
  }

  function PutRequest(pageId: string, payload: Json, notifyWatchers: bool): RequestArgs {
    RequestArgs("PUT", "/rest/api/content/" + pageId, NotifyParams(notifyWatchers), Some(payload), Some({200}))
  }

  function SpacePagesRequest(spaceKey: string, limit: int, start: int, titleContains: Option<string>): RequestArgs {
    var params := [("type", JStr("page")), ("spaceKey", JStr(spaceKey)), ("limit", JInt(LimitParam(limit))),
                   ("start", JInt(StartParam(start))), ("expand", JStr("_links")), ("status", JStr("current"))];
    RequestArgs("GET", "/rest/api/content",
                if titleContains.Some? && titleContains.value != "" then params + [("title", JStr(titleContains.value))]
                else params,
                None, None)
  }

  function ChildrenRequest(pageId: string, limit: int, start: int): RequestArgs {
    RequestArgs("GET", "/rest/api/content/" + pageId + "/child/page",
                [("limit", JInt(LimitParam(limit))), ("start", JInt(StartParam(start))),
                 ("expand", JStr("_links")), ("status", JStr("current"))],
                None, None)
  }

  function SearchRequest(cql: string, limit: int, start: int): RequestArgs {
    RequestArgs("GET", "/rest/api/search",
                [("cql", JStr(cql)), ("limit", JInt(LimitParam(limit))), ("start", JInt(StartParam(start))),
                 ("expand", JStr("content._links"))],
                None, None)
  }

  // ---------------- reading responses ----------------

  /** The `results` list of a response, empty when it has none. */
  function ResultsOf(res: Json): seq<Json> {
    Items(GetOr(res, "results", JArr([])))
  }

  /** The homepage id of a space response, as a string, when the response has a truthy one. */
  function HomepageId(res: Json): Option<string> {
    var home := GetOrNull(res, "homepage");
    if Truthy(home) && Truthy(GetOrNull(home, "id")) then Some(PyStr(GetOrNull(home, "id"))) else None
  }

  /** The rendered HTML of a page response: `body.export_view.value` or `body.view.value`, else "". */
  function RenderedHtml(res: Json, exportView: bool): string {
    var body := GetOr(res, "body", JObj([]));
    var view := Or(GetOrNull(body, if exportView then "export_view" else "view"), JObj([]));
    var html := GetOr(view, "value", JStr(""));
    if Truthy(html) then AsText(html) else ""
  }

  function Ancestors(page: Json): seq<Json> {
    Items(GetOr(page, "ancestors", JArr([])))
  }

  /** Some ancestor of the page has an id whose string form is `parentId`. */
  predicate HasAncestor(page: Json, parentId: string) {
    exists k :: 0 <= k < |Ancestors(page)| && PyStr(GetOrNull(Ancestors(page)[k], "id")) == parentId
  }

  /** `found` is the first result, in order, under the parent; None when no result is. */
  predicate FirstUnder(results: seq<Json>, parentId: string, found: Option<Json>) {
    match found
    case None => forall i :: 0 <= i < |results| ==> !HasAncestor(results[i], parentId)
    case Some(page) =>
      exists i :: 0 <= i < |results| && results[i] == page && HasAncestor(results[i], parentId)
               && forall j :: 0 <= j < i ==> !HasAncestor(results[j], parentId)
  }

  /** What `find_page_by_title` returns for the results of its query. */
  predicate FoundPage(results: seq<Json>, parentId: Option<string>, found: Option<Json>) {
    if results == [] then found == None
    else if parentId.None? then found == Some(results[0])
    else FirstUnder(results, parentId.value, found)
  }

  /** The scan of `find_page_by_title`: the first result with an ancestor whose id is the parent id. */
  method SelectUnderParent(results: seq<Json>, parentId: string) returns (found: Option<Json>)
    ensures FirstUnder(results, parentId, found)
  {
    var i := 0;
    while i < |results|
      invariant 0 <= i <= |results|
      invariant forall j :: 0 <= j < i ==> !HasAncestor(results[j], parentId)
    {
      var ancestors := Ancestors(results[i]);
      var k := 0;
      while k < |ancestors|
        invariant 0 <= k <= |ancestors|
        invariant forall m :: 0 <= m < k ==> PyStr(GetOrNull(ancestors[m], "id")) != parentId
      {
        if PyStr(GetOrNull(ancestors[k], "id")) == parentId {
          assert HasAncestor(results[i], parentId);
          return Some(results[i]);
        }
        k := k + 1;
      }
      assert !HasAncestor(results[i], parentId);
      i := i + 1;
    }
    return None;
  }

  /**
   * The current version number of a page response: the `number` of its
   * `version` object, 0 when either is missing; a boolean counts as 0 or 1,
   * and any other value as 0.
   */
  function CurrentVersion(current: Json): int {
    match GetOr(Or(GetOrNull(current, "version"), JObj([])), "number", JInt(0))
    case JInt(n) => n
    case JBool(b) => if b then 1 else 0
    case _ => 0
  }

  /** The payload `update_page` PUTs, with the given version number. */
  function UpdatePayload(pageId: string, current: Json, title: Option<string>, minorEdit: bool,
                         bodyHtml: string, version: int): Json {
    JObj([("id", JStr(pageId)),
          ("type", GetOr(current, "type", JStr("page"))),
          ("title", if title.Some? && title.value != "" then JStr(title.value) else GetOrNull(current, "title")),
          ("version", JObj([("number", JInt(version)), ("minorEdit", JBool(minorEdit))])),
          ("body", StorageBody(bodyHtml))])
  }

  /** `payload["version"]["number"] = version`. */
  function SetVersion(payload: Json, version: int): Json {
    JObj(Put(Fields(payload), "version", JObj(Put(Fields(GetOr(payload, "version", JObj([]))), "number", JInt(version)))))
  }

  /** The version number a payload carries. */
  function PayloadVersion(payload: Json): int {
    CurrentVersion(payload)
  }

  // ---------------- the operations composed of several requests ----------------

  /** The result of `update_page` together with the results of its reads and of its PUTs, with their payloads. */
  datatype UpdateRun = UpdateRun(result: Result<Json, Failure>, session: Session, fetched: seq<Result<Json, Failure>>,
                                 puts: seq<(Json, Result<Json, Failure>)>)

  /** Which failed PUTs `update_page` answers with a fresh read and a second PUT. */
  datatype ConflictRule =
    | TextHas409   // the error text contains "409", as the source tests it
    | StatusIs409  // the error is the Conflict kind, which status 409 raises

  predicate RetriesAfter(rule: ConflictRule, put: Result<Json, Failure>) {
    put.Failure? &&
    match rule
    case TextHas409 => Contains(FailureText(put.error), "409")
    case StatusIs409 => put.error.Api? && put.error.error.kind == Conflict
  }

  /**
   * `update_page`: read the page, PUT version+1; when the PUT failed in a way
   * the rule retries (and `_retry` is set), read again and PUT once more, with
   * the refreshed version and everything else unchanged.
   */
  function UpdateSpec(cfg: Settings, s: Session, pageId: string, bodyHtml: string, title: Option<string>,
                      minorEdit: bool, notifyWatchers: bool, retry: bool, rule: ConflictRule): UpdateRun
  {
    var (g1, s1) := Exec(cfg, s, GetPageRequest(pageId));
    if g1.Failure? then UpdateRun(g1, s1, [g1], [])
    else
      PutPhase(cfg, s1, pageId, g1.value,
               UpdatePayload(pageId, g1.value, title, minorEdit, bodyHtml, CurrentVersion(g1.value) + 1),
               notifyWatchers, retry, rule)
  }

  /** The first PUT of `update_page`, after the page was read as `current`. */
  function PutPhase(cfg: Settings, s1: Session, pageId: string, current: Json, payload: Json,
                    notifyWatchers: bool, retry: bool, rule: ConflictRule): UpdateRun
  {
    var (p1, s2) := Exec(cfg, s1, PutRequest(pageId, payload, notifyWatchers));
    if retry && RetriesAfter(rule, p1) then ConflictPhase(cfg, s2, pageId, current, payload, p1, notifyWatchers)
    else UpdateRun(p1, s2, [Success(current)], [(payload, p1)])
  }

  /** The second read and PUT of `update_page`, after the first PUT failed with `p1`. */
  function ConflictPhase(cfg: Settings, s2: Session, pageId: string, current: Json, payload: Json,
                         p1: Result<Json, Failure>, notifyWatchers: bool): UpdateRun
  {
    var (g2, s3) := Exec(cfg, s2, GetPageRequest(pageId));
    if g2.Failure? then UpdateRun(g2, s3, [Success(current), g2], [(payload, p1)])
    else SecondPut(cfg, s3, pageId, current, payload, p1, g2.value, notifyWatchers)
  }

  /** The second PUT: the first payload with the version read the second time, plus one. */
  function SecondPut(cfg: Settings, s3: Session, pageId: string, current: Json, payload: Json,
                     p1: Result<Json, Failure>, refreshed: Json, notifyWatchers: bool): UpdateRun
  {
    var payload2 := SetVersion(payload, CurrentVersion(refreshed) + 1);
    var (p2, s4) := Exec(cfg, s3, PutRequest(pageId, payload2, notifyWatchers));
    UpdateRun(p2, s4, [Success(current), Success(refreshed)], [(payload, p1), (payload2, p2)])
  }

  lemma UpdateSpecStep(cfg: Settings, s: Session, pageId: string, bodyHtml: string, title: Option<string>,
                       minorEdit: bool, notifyWatchers: bool, retry: bool, rule: ConflictRule,
                       g1: Result<Json, Failure>, s1: Session)
    requires (g1, s1) == Exec(cfg, s, GetPageRequest(pageId))
    ensures UpdateSpec(cfg, s, pageId, bodyHtml, title, minorEdit, notifyWatchers, retry, rule)
         == if g1.Failure? then UpdateRun(g1, s1, [g1], [])
            else PutPhase(cfg, s1, pageId, g1.value,
                          UpdatePayload(pageId, g1.value, title, minorEdit, bodyHtml, CurrentVersion(g1.value) + 1),
                          notifyWatchers, retry, rule)
  {
  }

  lemma PutPhaseStep(cfg: Settings, s1: Session, pageId: string, current: Json, payload: Json,
                     notifyWatchers: bool, retry: bool, rule: ConflictRule, p1: Result<Json, Failure>, s2: Session)
    requires (p1, s2) == Exec(cfg, s1, PutRequest(pageId, payload, notifyWatchers))
    ensures PutPhase(cfg, s1, pageId, current, payload, notifyWatchers, retry, rule)
         == if retry && RetriesAfter(rule, p1) then ConflictPhase(cfg, s2, pageId, current, payload, p1, notifyWatchers)
            else UpdateRun(p1, s2, [Success(current)], [(payload, p1)])
  {
  }

  lemma ConflictReadFails(cfg: Settings, s2: Session, pageId: string, current: Json, payload: Json,
                          p1: Result<Json, Failure>, notifyWatchers: bool, g2: Result<Json, Failure>, s3: Session)
    requires (g2, s3) == Exec(cfg, s2, GetPageRequest(pageId))
    requires g2.Failure?
    ensures ConflictPhase(cfg, s2, pageId, current, payload, p1, notifyWatchers)
         == UpdateRun(g2, s3, [Success(current), g2], [(payload, p1)])
  {
  }

  lemma ConflictPhaseStep(cfg: Settings, s2: Session, pageId: string, current: Json, payload: Json,
                          p1: Result<Json, Failure>, notifyWatchers: bool, g2: Result<Json, Failure>, s3: Session)
    requires (g2, s3) == Exec(cfg, s2, GetPageRequest(pageId))
    requires g2.Success?
    ensures ConflictPhase(cfg, s2, pageId, current, payload, p1, notifyWatchers)
         == SecondPut(cfg, s3, pageId, current, payload, p1, g2.value, notifyWatchers)
  {
  }

  lemma SecondPutStep(cfg: Settings, s3: Session, pageId: string, current: Json, payload: Json,
                      p1: Result<Json, Failure>, refreshed: Json, notifyWatchers: bool,
                      payload2: Json, p2: Result<Json, Failure>, s4: Session)
    requires payload2 == SetVersion(payload, CurrentVersion(refreshed) + 1)
    requires (p2, s4) == Exec(cfg, s3, PutRequest(pageId, payload2, notifyWatchers))
    ensures SecondPut(cfg, s3, pageId, current, payload, p1, refreshed, notifyWatchers)
         == UpdateRun(p2, s4, [Success(current), Success(refreshed)], [(payload, p1), (payload2, p2)])
  {
  }

  /** Prepends `out` to a successful listing result. */
  function Prefixed(out: seq<Json>, r: (Result<seq<Json>, Failure>, Session)): (Result<seq<Json>, Failure>, Session) {
    (if r.0.Success? then Success(out + r.0.value) else r.0, r.1)
  }

  lemma PrefixedNothing(r: (Result<seq<Json>, Failure>, Session))
    ensures Prefixed([], r) == r
  {
    if r.0.Success? {
      assert [] + r.0.value == r.0.value;
    }
  }

  lemma PrefixedTwice(a: seq<Json>, b: seq<Json>, r: (Result<seq<Json>, Failure>, Session))
    ensures Prefixed(a, Prefixed(b, r)) == Prefixed(a + b, r)
  {
    if r.0.Success? {
      assert a + (b + r.0.value) == (a + b) + r.0.value;
    }
  }

  /** `list_all_children` from offset `start`: chunks of 100 until an empty or short one. */
  function AllChildrenSpec(cfg: Settings, s: Session, pageId: string, start: int): (Result<seq<Json>, Failure>, Session)
    decreases |s.script|
  {
    var (res, s1) := Exec(cfg, s, ChildrenRequest(pageId, 100, start));
    if res.Failure? then (Failure(res.error), s1)
    else
      var chunk := ResultsOf(res.value);
      if chunk == [] || |chunk| < 100 then (Success(chunk), s1)
      else Prefixed(chunk, AllChildrenSpec(cfg, s1, pageId, start + 100))
  }

  lemma AllChildrenStep(cfg: Settings, s: Session, pageId: string, start: int, chunk: Result<seq<Json>, Failure>, s1: Session)
    requires var (res, t) := Exec(cfg, s, ChildrenRequest(pageId, 100, start));
             s1 == t && chunk == if res.Success? then Success(ResultsOf(res.value)) else Failure(res.error)
    ensures chunk.Success? ==> |s1.script| < |s.script|
    ensures AllChildrenSpec(cfg, s, pageId, start)
         == if chunk.Failure? then (Failure(chunk.error), s1)
            else if chunk.value == [] || |chunk.value| < 100 then (Success(chunk.value), s1)
            else Prefixed(chunk.value, AllChildrenSpec(cfg, s1, pageId, start + 100))
  {
  }

  /** The `content` of a search hit (`r.get("content") or {}`) and whether it is a page. */
  function ContentOf(hit: Json): Json {
    Or(GetOrNull(hit, "content"), JObj([]))
  }

  predicate IsPage(content: Json) {
    GetOrNull(content, "type") == JStr("page")
  }

  /** The contents of the search hits that are pages, in order. */
  function PageContents(hits: seq<Json>): (r: seq<Json>)
    decreases |hits|
  {
    if hits == [] then []
    else
      var last := ContentOf(hits[|hits| - 1]);
      PageContents(hits[..|hits| - 1]) + (if IsPage(last) then [last] else [])
  }

  /** The title test of `list_pages_in_space`: case-insensitive substring. */
  predicate TitleMatches(page: Json, needle: string) {
    Contains(Lower(AsText(GetOr(page, "title", JStr("")))), Lower(needle))
  }

  /** The items `keep` accepts, in their order. */
  function Filter(items: seq<Json>, keep: Json -> bool): seq<Json>
    decreases |items|
  {
    if items == [] then []
    else (if keep(items[0]) then [items[0]] else []) + Filter(items[1..], keep)
  }

  /** The client-side title filter of `list_pages_in_space`. */
  function TitleFilter(items: seq<Json>, needle: string): seq<Json> {
    Filter(items, p => TitleMatches(p, needle))
  }

  // ---------------- the client object ----------------

  class ConfluenceClient {
    const baseUrl: string
    const retries: int
    const backoff: nat
    var script: seq<Outcome>
    var sent: seq<Call>
    var slept: seq<nat>

    function Cfg(): Settings {
      Settings(baseUrl, retries, backoff)
    }

    function State(): Session
      reads this
    {
      Session(script, sent, slept)
    }

    /** A client over a session that will produce `script`; the base URL loses its trailing slashes. */
    constructor (baseUrl: string, retries: int, backoff: nat, script: seq<Outcome>)
      ensures this.baseUrl == StripSlashes(baseUrl)
      ensures this.retries == retries && this.backoff == backoff
      ensures State() == Session(script, [], [])
    {
      this.baseUrl := StripSlashes(baseUrl);
      this.retries := retries;
      this.backoff := backoff;
      this.script := script;
      this.sent := [];
      this.slept := [];
    }

    /** `session.request`: the next scripted outcome, with the request recorded. */
    method Send(call: Call) returns (o: Option<Outcome>)
      modifies this
      ensures old(script) == [] ==> o == None && State() == old(State())
      ensures old(script) != [] ==>
                o == Some(old(script)[0]) && script == old(script)[1..] && sent == old(sent) + [call] && slept == old(slept)
    {
      if script == [] {
        o := None;
      } else {
        o := Some(script[0]);
        script := script[1..];
        sent := sent + [call];
      }
    }

    /** `time.sleep(d)`, recorded. */
    method Sleep(d: nat)
      modifies this
      ensures script == old(script) && sent == old(sent) && slept == old(slept) + [d]
    {
      slept := slept + [d];
    }

    /** `_request`. */
    method Request(req: RequestArgs) returns (r: Result<Json, Failure>)
      modifies this
      ensures (r, State()) == Exec(Cfg(), old(State()), req)
    {
      var url := Url(baseUrl, req.path);
      var expected := ExpectedSet(req.expected);
      var message := req.verb + " " + url;
      var call := Call(req.verb, url, req.params, req.body);
      ghost var s0 := State();
      ghost var total := Attempts(s0.script, 0, retries, backoff, expected, message);
      assert Exec(Cfg(), s0, req)
          == (total.result, Session(s0.script[total.used..], s0.sent + Repeat(call, total.used), s0.slept + total.delays));
      ghost var delays: seq<nat> := [];
      var attempt: nat := 0;
      while true
        invariant attempt <= |s0.script| && script == s0.script[attempt..]
        invariant sent == s0.sent + Repeat(call, attempt)
        invariant slept == s0.slept + delays
        invariant total == Shift(Attempts(script, attempt, retries, backoff, expected, message), attempt, delays)
        decreases |script|
      {
        ghost var rest := script;
        attempt := attempt + 1;
        var o := Send(call);
        if o.None? {
          r := Failure(ScriptExhausted);
          assert total == Run(r, attempt - 1, delays);
          return;
        }
        RepeatSnoc(call, attempt - 1);
        var step := StepOf(o.value, attempt, retries, backoff, expected, message);
        AttemptsStep(total, rest, attempt - 1, delays, retries, backoff, expected, message);
        match step
        case Stop(result) =>
          r := result;
          assert State() == Session(s0.script[total.used..], s0.sent + Repeat(call, total.used), s0.slept + total.delays);
          return;
        case RetryAfter(d) =>
          Sleep(d);
          delays := delays + [d];
        case Reissue =>
      }
    }

    /** `page_link`: webui (after `base` or the base URL), else tinyui, else a link built from the id. */
    function PageLink(page: Json): Option<string> {
      if !Truthy(page) then None
      else
        var base := StripSlashes(baseUrl);
        if WebUi(page) != "" then
          if LinkBase(page) != "" then Some(LinkBase(page) + WebUi(page)) else Some(Url(base, WebUi(page)))
        else if TinyUi(page) != "" then Some(Url(base, TinyUi(page)))
        else
          var id := GetOrNull(page, "id");
          if !Truthy(id) then None
          else if EndsWith(base, "/wiki") && Truthy(SpaceKeyOf(page)) then
            Some(base + "/spaces/" + PyStr(SpaceKeyOf(page)) + "/pages/" + PyStr(id))
          else Some(base + "/pages/" + PyStr(id))
    }

    /** `get_space_homepage`. */
    method GetSpaceHomepage(spaceKey: string) returns (r: Result<Option<string>, Failure>)
      modifies this
      ensures var (res, s) := Exec(Cfg(), old(State()), HomepageRequest(spaceKey));
              State() == s && r == if res.Success? then Success(HomepageId(res.value)) else Failure(res.error)
    {
      var res := Request(HomepageRequest(spaceKey));
      if res.Failure? {
        return Failure(res.error);
      }
      return Success(HomepageId(res.value));
    }

    /** `create_page`: one POST of the page payload. */
    method CreatePage(title: string, spaceKey: string, bodyHtml: string, parentId: Option<string>, notifyWatchers: bool)
      returns (r: Result<Json, Failure>)
      modifies this
      ensures (r, State()) == Exec(Cfg(), old(State()), CreateRequest(title, spaceKey, bodyHtml, parentId, notifyWatchers))
    {
      r := Request(CreateRequest(title, spaceKey, bodyHtml, parentId, notifyWatchers));
    }

    /** `get_page`. */
    method GetPage(pageId: string) returns (r: Result<Json, Failure>)
      modifies this
      ensures (r, State()) == Exec(Cfg(), old(State()), GetPageRequest(pageId))
    {
      r := Request(GetPageRequest(pageId));
    }

    /** `get_page_rendered_html`. */
    method GetPageRenderedHtml(pageId: string, exportView: bool) returns (r: Result<string, Failure>)
      modifies this
      ensures var (res, s) := Exec(Cfg(), old(State()), RenderedRequest(pageId, exportView));
              State() == s && r == if res.Success? then Success(RenderedHtml(res.value, exportView)) else Failure(res.error)
    {
      var res := Request(RenderedRequest(pageId, exportView));
      if res.Failure? {
        return Failure(res.error);
      }
      return Success(RenderedHtml(res.value, exportView));
    }

    /** `find_page_by_title`. */
    method FindPageByTitle(title: string, spaceKey: string, parentId: Option<string>) returns (r: Result<Option<Json>, Failure>)
      modifies this
      ensures var (res, s) := Exec(Cfg(), old(State()), FindRequest(title, spaceKey));
              State() == s
              && (res.Failure? ==> r == Failure(res.error))
              && (res.Success? ==> r.Success? && FoundPage(ResultsOf(res.value), parentId, r.value))
    {
      var res := Request(FindRequest(title, spaceKey));
      if res.Failure? {
        return Failure(res.error);
      }
      var results := ResultsOf(res.value);
      if results == [] {
        return Success(None);
      }
      if parentId.None? {
        return Success(Some(results[0]));
      }
      var found := SelectUnderParent(results, parentId.value);
      return Success(found);
    }

    /**
     * `update_page`, with `_retry` as `retry`. `rule` says which failed PUT is
     * answered with a fresh read and a second PUT: `TextHas409` is the test
     * as written (the error text contains "409"), `StatusIs409` the corrected
     * one (the error is a Conflict).
     */
    method UpdatePage(pageId: string, bodyHtml: string, title: Option<string>, minorEdit: bool,
                      notifyWatchers: bool, retry: bool, rule: ConflictRule) returns (r: Result<Json, Failure>)
      modifies this
      ensures var u := UpdateSpec(Cfg(), old(State()), pageId, bodyHtml, title, minorEdit, notifyWatchers, retry, rule);
              r == u.result && State() == u.session
    {
      ghost var s0 := State();
      var current := GetPage(pageId);
      UpdateSpecStep(Cfg(), s0, pageId, bodyHtml, title, minorEdit, notifyWatchers, retry, rule, current, State());
      if current.Failure? {
        return current;
      }
      ghost var first := current.value;
      ghost var s1 := State();
      var payload := UpdatePayload(pageId, current.value, title, minorEdit, bodyHtml, CurrentVersion(current.value) + 1);
      r := Request(PutRequest(pageId, payload, notifyWatchers));
      PutPhaseStep(Cfg(), s1, pageId, first, payload, notifyWatchers, retry, rule, r, State());
      if retry && RetriesAfter(rule, r) {
        r := RefetchAndPut(pageId, first, payload, r, notifyWatchers);
      }
    }

    /** The conflict branch of `update_page`: read the page again and PUT the payload with the fresh version + 1. */
    method RefetchAndPut(pageId: string, ghost first: Json, payload: Json, p1: Result<Json, Failure>, notifyWatchers: bool)
      returns (r: Result<Json, Failure>)
      modifies this
      ensures var u := ConflictPhase(Cfg(), old(State()), pageId, first, payload, p1, notifyWatchers);
              r == u.result && State() == u.session
    {
      ghost var s2 := State();
      var current := GetPage(pageId);
      if current.Failure? {
        ConflictReadFails(Cfg(), s2, pageId, first, payload, p1, notifyWatchers, current, State());
        return current;
      }
      ConflictPhaseStep(Cfg(), s2, pageId, first, payload, p1, notifyWatchers, current, State());
      var payload2 := SetVersion(payload, CurrentVersion(current.value) + 1);
      ghost var s3 := State();
      r := Request(PutRequest(pageId, payload2, notifyWatchers));
      SecondPutStep(Cfg(), s3, pageId, first, payload, p1, current.value, notifyWatchers, payload2, r, State());
    }

    /** `list_pages_in_space`. */
    method ListPagesInSpace(spaceKey: string, limit: int, start: int, titleContains: Option<string>)
      returns (r: Result<seq<Json>, Failure>)
      modifies this
      ensures var (res, s) := Exec(Cfg(), old(State()), SpacePagesRequest(spaceKey, limit, start, titleContains));
              State() == s
              && (res.Failure? ==> r == Failure(res.error))
              && (res.Success? && titleContains.Some? && titleContains.value != "" ==>
                    r == Success(TitleFilter(ResultsOf(res.value), titleContains.value)))
              && (res.Success? && (titleContains.None? || titleContains.value == "") ==> r == Success(ResultsOf(res.value)))
    {
      var res := Request(SpacePagesRequest(spaceKey, limit, start, titleContains));
      if res.Failure? {
        return Failure(res.error);
      }
      var items := ResultsOf(res.value);
      if titleContains.Some? && titleContains.value != "" {
        items := TitleFilter(items, titleContains.value);
      }
      return Success(items);
    }

    /** `list_children`. */
    method ListChildren(pageId: string, limit: int, start: int) returns (r: Result<seq<Json>, Failure>)
      modifies this
      ensures var (res, s) := Exec(Cfg(), old(State()), ChildrenRequest(pageId, limit, start));
              State() == s && r == if res.Success? then Success(ResultsOf(res.value)) else Failure(res.error)
    {
      var res := Request(ChildrenRequest(pageId, limit, start));
      if res.Failure? {
        return Failure(res.error);
      }
      return Success(ResultsOf(res.value));
    }

    /** `list_all_children`. */
    method ListAllChildren(pageId: string) returns (r: Result<seq<Json>, Failure>)
      modifies this
      ensures (r, State()) == AllChildrenSpec(Cfg(), old(State()), pageId, 0)
    {
      var out: seq<Json> := [];
      var start := 0;
      PrefixedNothing(AllChildrenSpec(Cfg(), State(), pageId, start));
      while true
        invariant AllChildrenSpec(Cfg(), old(State()), pageId, 0) == Prefixed(out, AllChildrenSpec(Cfg(), State(), pageId, start))
        decreases |script|
      {
        ghost var before := State();
        var chunk := ListChildren(pageId, 100, start);
        AllChildrenStep(Cfg(), before, pageId, start, chunk, State());
        if chunk.Failure? {
          return Failure(chunk.error);
        }
        if chunk.value == [] {
          assert out + chunk.value == out;
          break;
        }
        PrefixedTwice(out, chunk.value, AllChildrenSpec(Cfg(), State(), pageId, start + 100));
        out := out + chunk.value;
        if |chunk.value| < 100 {
          break;
        }
        start := start + 100;
      }
      r := Success(out);
    }

    /** `search_cql`: the contents of the hits whose type is "page", in order. */
    method SearchCql(cql: string, limit: int, start: int) returns (r: Result<seq<Json>, Failure>)
      modifies this
      ensures var (res, s) := Exec(Cfg(), old(State()), SearchRequest(cql, limit, start));
              State() == s && r == if res.Success? then Success(PageContents(ResultsOf(res.value))) else Failure(res.error)
    {
      var res := Request(SearchRequest(cql, limit, start));
      if res.Failure? {
        return Failure(res.error);
      }
      var hits := ResultsOf(res.value);
      var results: seq<Json> := [];
      var i := 0;
      while i < |hits|
        invariant 0 <= i <= |hits|
        invariant results == PageContents(hits[..i])
      {
        var content := ContentOf(hits[i]);
        if IsPage(content) {
          results := results + [content];
        }
        assert hits[..i + 1][..i] == hits[..i];
        i := i + 1;
      }
      assert hits[..|hits|] == hits;
      return Success(results);
    }
  }

  // ---------------- the link fields of a page ----------------

  function LinksOf(page: Json): Json {
    Or(GetOr(page, "_links", JObj([])), JObj([]))
  }

  function WebUi(page: Json): string {
    AsText(GetOrNull(LinksOf(page), "webui"))
  }

  function LinkBase(page: Json): string {
    AsText(GetOrNull(LinksOf(page), "base"))
  }

  function TinyUi(page: Json): string {
    AsText(GetOrNull(LinksOf(page), "tinyui"))
  }

  /** `page["space"]["key"]` when `space` is a dict, else None. */
  function SpaceKeyOf(page: Json): Json {
    var space := GetOrNull(page, "space");
    if space.JObj? then GetOrNull(space, "key") else JNull
  }
}
