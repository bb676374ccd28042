/**
 * Properties of the REST client: the retry budget and delays of `_request`,
 * the two scenarios of the client's unit tests, the protocol of `update_page`,
 * the completeness of `list_all_children`, and what the page helpers return.
 */
module ClientProps {
  import opened Wrappers
  import opened Strings
  import opened JsonValues
  import opened Errors
  import opened Client

  // ---------------- _request: retries ----------------

  /** An outcome the loop retries while the budget lasts: a network error or a transient status. */
  predicate TransientFailure(o: Outcome, expected: set<int>) {
    o.NetworkError? || (o.resp.status in Transient && o.resp.status !in expected)
  }

  /** How many requests the loop sends, from attempt count `attempt` on, before it gives up on transient failures. */
  function Budget(attempt: nat, retries: int): nat {
    if attempt < retries then retries - attempt + 1 else 1
  }

  /** What the loop raises when it gives up on the outcome `o`. */
  function GiveUp(o: Outcome, message: string): Result<Json, Failure> {
    match o
    case NetworkError(text) => Failure(Network(text))
    case Completed(resp) =>
      match RaiseForStatus(resp.status, message, ErrorPayload(resp))
      case Some(e) => Failure(Api(e))
      case None => Failure(ScriptExhausted)
  }

  /** The delay slept after outcome `o` at attempt `a` when the loop retries it. */
  function OutcomeDelay(o: Outcome, backoff: nat, a: nat): nat
    requires a >= 1
  {
    match o
    case NetworkError(_) => Backoff(backoff, a)
    case Completed(resp) => RetryDelay(resp, backoff, a)
  }

  /**
   * What the loop does facing only transient failures, from attempt count
   * `attempt` on: it sends exactly the budget of requests (or fewer when the
   * session runs out), sleeps the backoff or Retry-After delay between
   * consecutive ones, and then raises the last failure itself: the network
   * exception, or the error of its status.
   */
  predicate ExhaustsBudget(script: seq<Outcome>, attempt: nat, retries: int, backoff: nat, message: string, r: Run) {
    var n := Budget(attempt, retries);
    && (n <= |script| ==>
          r.used == n && r.result == GiveUp(script[n - 1], message)
          && r.result.Failure? && !r.result.error.ScriptExhausted?)
    && (|script| < n ==> r.used == |script| && r.result == Failure(ScriptExhausted))
    && |r.delays| == (if n <= |script| then n - 1 else |script|)
    && forall i :: 0 <= i < |r.delays| ==> r.delays[i] == OutcomeDelay(script[i], backoff, attempt + i + 1)
  }

  /** Facing only transient failures, the loop exhausts its budget. */
  lemma {:induction false} TransientFailuresExhaustBudget(script: seq<Outcome>, attempt: nat, retries: int, backoff: nat,
                                                          expected: set<int>, message: string)
    requires forall i :: 0 <= i < |script| ==> TransientFailure(script[i], expected)
    ensures ExhaustsBudget(script, attempt, retries, backoff, message, Attempts(script, attempt, retries, backoff, expected, message))
    decreases |script|
  {
    if script != [] {
      var a := attempt + 1;
      TransientStep(script[0], a, retries, backoff, expected, message);
      if a <= retries {
        var tail := Attempts(script[1..], a, retries, backoff, expected, message);
        TransientFailuresExhaustBudget(script[1..], a, retries, backoff, expected, message);
        RetryKeepsExhausting(script, attempt, retries, backoff, message, tail);
      }
    }
  }

  /** One retried transient failure in front of a run that exhausts the rest of the budget. */
  lemma RetryKeepsExhausting(script: seq<Outcome>, attempt: nat, retries: int, backoff: nat, message: string, tail: Run)
    requires script != [] && attempt + 1 <= retries
    requires ExhaustsBudget(script[1..], attempt + 1, retries, backoff, message, tail)
    ensures ExhaustsBudget(script, attempt, retries, backoff, message, Retried(OutcomeDelay(script[0], backoff, attempt + 1), tail))
  {
    var n := Budget(attempt, retries);
    assert n == Budget(attempt + 1, retries) + 1;
    if n <= |script| {
      assert script[n - 1] == script[1..][n - 2];
    }
    DelaysShifted(script, tail.delays, backoff, attempt);
  }

  /** A transient failure is retried while the budget lasts, and given up on, as a real error, after. */
  lemma TransientStep(o: Outcome, a: nat, retries: int, backoff: nat, expected: set<int>, message: string)
    requires a >= 1 && TransientFailure(o, expected)
    ensures StepOf(o, a, retries, backoff, expected, message)
         == if a <= retries then RetryAfter(OutcomeDelay(o, backoff, a)) else Stop(GiveUp(o, message))
    ensures GiveUp(o, message).Failure? && !GiveUp(o, message).error.ScriptExhausted?
  {
    if o.Completed? {
      assert RaiseForStatus(o.resp.status, message, ErrorPayload(o.resp)).Some?;
    }
  }

  /** The delay after the first outcome, then the delays after the others. */
  lemma DelaysShifted(script: seq<Outcome>, ds: seq<nat>, backoff: nat, attempt: nat)
    requires |ds| < |script|
    requires forall i :: 0 <= i < |ds| ==> ds[i] == OutcomeDelay(script[1..][i], backoff, attempt + 1 + i + 1)
    ensures forall i :: 0 <= i < |ds| + 1 ==>
              ([OutcomeDelay(script[0], backoff, attempt + 1)] + ds)[i] == OutcomeDelay(script[i], backoff, attempt + i + 1)
  {
    forall i | 0 <= i < |ds| + 1
      ensures ([OutcomeDelay(script[0], backoff, attempt + 1)] + ds)[i] == OutcomeDelay(script[i], backoff, attempt + i + 1)
    {
      if i > 0 {
        assert script[i] == script[1..][i - 1];
      }
    }
  }

  /**
   * At the level of one request: with `retries` >= 0 and only transient
   * failures ahead, the request is sent `retries + 1` times, `retries` delays
   * are slept, and the last failure is raised.
   */
  lemma RequestGivesUpAfterRetries(cfg: Settings, s: Session, req: RequestArgs)
    requires cfg.retries >= 0 && |s.script| > cfg.retries
    requires forall i :: 0 <= i < |s.script| ==> TransientFailure(s.script[i], ExpectedSet(req.expected))
    ensures var (r, s1) := Exec(cfg, s, req);
            && |s1.sent| == |s.sent| + cfg.retries + 1
            && |s1.slept| == |s.slept| + cfg.retries
            && r == GiveUp(s.script[cfg.retries], req.verb + " " + Url(cfg.baseUrl, req.path))
            && forall i :: 0 <= i < cfg.retries ==> s1.slept[|s.slept| + i] == OutcomeDelay(s.script[i], cfg.backoff, i + 1)
  {
    TransientFailuresExhaustBudget(s.script, 0, cfg.retries, cfg.backoff, ExpectedSet(req.expected),
                                   req.verb + " " + Url(cfg.baseUrl, req.path));
  }

  /** After fewer transient failures than the budget allows, the expected response is returned. */
  lemma {:induction false} SucceedsAfterTransientFailures(failures: seq<Outcome>, resp: Response, rest: seq<Outcome>,
                                                          attempt: nat, retries: int, backoff: nat,
                                                          expected: set<int>, message: string)
    requires forall i :: 0 <= i < |failures| ==> TransientFailure(failures[i], expected)
    requires attempt + |failures| <= retries
    requires resp.status in expected
    ensures var r := Attempts(failures + [Completed(resp)] + rest, attempt, retries, backoff, expected, message);
            r.result == Success(Parsed(resp)) && r.used == |failures| + 1 && |r.delays| == |failures|
    decreases |failures|
  {
    var script := failures + [Completed(resp)] + rest;
    if failures == [] {
      assert script[0] == Completed(resp);
    } else {
      assert script[0] == failures[0];
      assert script[1..] == failures[1..] + [Completed(resp)] + rest;
      if failures[0].Completed? {
        assert RaiseForStatus(failures[0].resp.status, message, ErrorPayload(failures[0].resp)).Some?;
      }
      SucceedsAfterTransientFailures(failures[1..], resp, rest, attempt + 1, retries, backoff, expected, message);
    }
  }

  /**
   * A status that is neither expected nor in 400..599 (a 204 answering a PUT
   * that expects 200, say) neither returns nor raises: the request is sent
   * again at once, with no delay and whatever the budget, for as long as such
   * responses come.
   */
  lemma {:induction false} NeutralStatusIsResent(resp: Response, n: nat, attempt: nat, retries: int, backoff: nat,
                                                 expected: set<int>, message: string)
    requires resp.status !in expected && !(400 <= resp.status < 600)
    ensures Attempts(Repeat(Completed(resp), n), attempt, retries, backoff, expected, message)
         == Run(Failure(ScriptExhausted), n, [])
    decreases n
  {
    if n > 0 {
      assert Repeat(Completed(resp), n)[1..] == Repeat(Completed(resp), n - 1);
      assert StepOf(Completed(resp), attempt + 1, retries, backoff, expected, message) == Reissue;
      NeutralStatusIsResent(resp, n - 1, attempt + 1, retries, backoff, expected, message);
    }
  }

  /** A raised error's detail always starts with the request description "METHOD url". */
  lemma {:induction false} ApiFailureStartsWithMessage(script: seq<Outcome>, attempt: nat, retries: int, backoff: nat,
                                                       expected: set<int>, message: string)
    requires message != [] && !IsSpace(message[0]) && !IsSpace(message[|message| - 1])
    ensures var r := Attempts(script, attempt, retries, backoff, expected, message);
            r.result.Failure? && r.result.error.Api? ==> StartsWith(r.result.error.error.detail, message)
    decreases |script|
  {
    if script != [] {
      ApiFailureStartsWithMessage(script[1..], attempt + 1, retries, backoff, expected, message);
      if script[0].Completed? {
        DetailStartsWithMessage(message, ErrorPayload(script[0].resp));
      }
    }
  }

  // ---------------- _request: one decisive outcome ----------------

  /** The request description "METHOD url" that errors of a request carry. */
  function Message(cfg: Settings, req: RequestArgs): string {
    req.verb + " " + Url(cfg.baseUrl, req.path)
  }

  /** When the first outcome decides the request, the request uses exactly that outcome. */
  lemma ExecStops(cfg: Settings, s: Session, req: RequestArgs, result: Result<Json, Failure>)
    requires s.script != []
    requires StepOf(s.script[0], 1, cfg.retries, cfg.backoff, ExpectedSet(req.expected), Message(cfg, req)) == Stop(result)
    ensures Exec(cfg, s, req).0 == result && Exec(cfg, s, req).1.script == s.script[1..]
    ensures Exec(cfg, s, req).1.slept == s.slept && |Exec(cfg, s, req).1.sent| == |s.sent| + 1
  {
    assert s.slept + [] == s.slept;
  }

  /** A raised error's detail starts with the request description, when that has no blanks at its ends. */
  lemma ExecApiFailureStartsWithMessage(cfg: Settings, s: Session, req: RequestArgs)
    requires req.verb != [] && !IsSpace(req.verb[0])
    requires req.path != [] && !IsSpace(req.path[|req.path| - 1])
    ensures var r := Exec(cfg, s, req).0;
            r.Failure? && r.error.Api? ==> StartsWith(r.error.error.detail, Message(cfg, req))
  {
    var m := Message(cfg, req);
    var url := Url(cfg.baseUrl, req.path);
    assert url[|url| - 1] == req.path[|req.path| - 1];
    assert m[|m| - 1] == url[|url| - 1] && m[0] == req.verb[0];
    ApiFailureStartsWithMessage(s.script, 0, cfg.retries, cfg.backoff, ExpectedSet(req.expected), m);
  }

  /** A status in 400..599 that is not expected, and not retried, raises its error at once. */
  lemma ErrorStatusRaises(cfg: Settings, s: Session, req: RequestArgs, resp: Response)
    requires s.script != [] && s.script[0] == Completed(resp)
    requires resp.status !in ExpectedSet(req.expected) && 400 <= resp.status < 600
    requires resp.status !in Transient || cfg.retries < 1
    ensures var e := RaiseForStatus(resp.status, Message(cfg, req), ErrorPayload(resp));
            e.Some? && Exec(cfg, s, req).0 == Failure(Api(e.value)) && Exec(cfg, s, req).1.script == s.script[1..]
  {
    var e := RaiseForStatus(resp.status, Message(cfg, req), ErrorPayload(resp));
    assert StepOf(Completed(resp), 1, cfg.retries, cfg.backoff, ExpectedSet(req.expected), Message(cfg, req))
        == Stop(Failure(Api(e.value)));
    ExecStops(cfg, s, req, Failure(Api(e.value)));
  }

  // ---------------- _request: the unit-test scenarios ----------------

  /** With two retries, a 500 followed by a 200 carrying `{"ok": true}` returns `{"ok": true}` after one retry. */
  lemma RetryThenSuccessScenario()
    ensures var s := Session([Completed(Response(500, None, "", None)),
                              Completed(Response(200, Some(JObj([("ok", JBool(true))])), "", None))], [], []);
            var r := Exec(Settings("https://x", 2, 0), s, RequestArgs("GET", "/rest/api/content", [], None, None));
            r.0 == Success(JObj([("ok", JBool(true))])) && |r.1.sent| == 2 && r.1.slept == [0] && r.1.script == []
  {
    var ok := JObj([("ok", JBool(true))]);
    var script := [Completed(Response(500, None, "", None)), Completed(Response(200, Some(ok), "", None))];
    var m := "GET " + Url("https://x", "/rest/api/content");
    assert StepOf(script[0], 1, 2, 0, {200, 201}, m) == RetryAfter(0);
    assert StepOf(script[1], 2, 2, 0, {200, 201}, m) == Stop(Success(ok));
    assert script[1..][1..] == [];
    assert Attempts(script[1..], 1, 2, 0, {200, 201}, m) == Run(Success(ok), 1, []);
    assert Attempts(script, 0, 2, 0, {200, 201}, m) == Run(Success(ok), 2, [0]);
  }

  /** With no retries, a 404 raises NotFound whose detail is the request description. */
  lemma NotFoundScenario()
    ensures var s := Session([Completed(Response(404, None, "", None))], [], []);
            Exec(Settings("https://x", 0, 1), s, RequestArgs("GET", "/nope", [], None, None)).0
              == Failure(Api(ConfluenceError(NotFound, "GET https://x/nope")))
  {
    var cfg := Settings("https://x", 0, 1);
    var req := RequestArgs("GET", "/nope", [], None, None);
    var resp := Response(404, None, "", None);
    NotFoundMessage();
    ErrorStatusRaises(cfg, Session([Completed(resp)], [], []), req, resp);
    NotFoundWithoutPayload(Message(cfg, req), ErrorPayload(resp));
  }

  /** The description of `GET /nope` against `https://x`. */
  lemma NotFoundMessage()
    ensures Message(Settings("https://x", 0, 1), RequestArgs("GET", "/nope", [], None, None)) == "GET https://x/nope"
  {
    assert StartsWith("/nope", "/");
    assert Url("https://x", "/nope") == "https://x" + "/nope";
  }

  /** A 404 with an empty payload raises NotFound carrying the description alone. */
  lemma NotFoundWithoutPayload(m: string, payload: Json)
    requires payload == JObj([])
    ensures RaiseForStatus(404, m, payload) == Some(ConfluenceError(NotFound, m))
  {
  }

  // ---------------- update_page ----------------

  lemma UpdatePayloadVersion(pageId: string, current: Json, title: Option<string>, minorEdit: bool, bodyHtml: string, v: int)
    ensures PayloadVersion(UpdatePayload(pageId, current, title, minorEdit, bodyHtml, v)) == v
  {
    var p := UpdatePayload(pageId, current, title, minorEdit, bodyHtml, v);
    LookupAt(p.fields, "version", 3);
    LookupAt(p.fields[3].1.fields, "number", 0);
  }

  /**
   * The update payload names the page, keeps the read page's type ("page"
   * when it has none), takes the given title when it is non-empty and the
   * read page's title otherwise, and carries the new HTML as its storage
   * body, with the minor-edit flag beside the version.
   */
  lemma UpdatePayloadFields(pageId: string, current: Json, title: Option<string>, minorEdit: bool, bodyHtml: string, v: int)
    ensures var p := UpdatePayload(pageId, current, title, minorEdit, bodyHtml, v);
            && GetOrNull(p, "id") == JStr(pageId)
            && GetOrNull(p, "type") == GetOr(current, "type", JStr("page"))
            && GetOrNull(p, "title") == (if title.Some? && title.value != "" then JStr(title.value) else GetOrNull(current, "title"))
            && GetOrNull(GetOrNull(p, "version"), "minorEdit") == JBool(minorEdit)
            && GetOrNull(GetOrNull(GetOrNull(p, "body"), "storage"), "value") == JStr(bodyHtml)
            && GetOrNull(GetOrNull(GetOrNull(p, "body"), "storage"), "representation") == JStr("storage")
  {
    var typ := GetOr(current, "type", JStr("page"));
    var ttl := if title.Some? && title.value != "" then JStr(title.value) else GetOrNull(current, "title");
    var ver := JObj([("number", JInt(v)), ("minorEdit", JBool(minorEdit))]);
    assert UpdatePayload(pageId, current, title, minorEdit, bodyHtml, v)
        == JObj([("id", JStr(pageId)), ("type", typ), ("title", ttl), ("version", ver), ("body", StorageBody(bodyHtml))]);
    PayloadFieldsAt(pageId, typ, ttl, ver, StorageBody(bodyHtml));
    assert GetOrNull(ver, "minorEdit") == JBool(minorEdit) by {
      LookupAt(ver.fields, "minorEdit", 1);
    }
    StorageBodyFields(bodyHtml);
  }

  /** Each field of a five-field update payload reads its own value. */
  lemma PayloadFieldsAt(pageId: string, typ: Json, ttl: Json, ver: Json, body: Json)
    ensures var p := JObj([("id", JStr(pageId)), ("type", typ), ("title", ttl), ("version", ver), ("body", body)]);
            && GetOrNull(p, "id") == JStr(pageId) && GetOrNull(p, "type") == typ && GetOrNull(p, "title") == ttl
            && GetOrNull(p, "version") == ver && GetOrNull(p, "body") == body
  {
    var f := [("id", JStr(pageId)), ("type", typ), ("title", ttl), ("version", ver), ("body", body)];
    LookupAt(f, "id", 0);
    LookupAt(f, "type", 1);
    LookupAt(f, "title", 2);
    LookupAt(f, "version", 3);
    LookupAt(f, "body", 4);
  }

  /** Setting the version of a payload is what its version then reads. */
  lemma SetVersionVersion(payload: Json, v: int)
    ensures PayloadVersion(SetVersion(payload, v)) == v
  {
    var inner := Put(Fields(GetOr(payload, "version", JObj([]))), "number", JInt(v));
    PutThenLookup(Fields(GetOr(payload, "version", JObj([]))), "number", JInt(v));
    PutThenLookup(Fields(payload), "version", JObj(inner));
  }

  /**
   * The second PUT is the first payload with only the version changed: type,
   * title and body still come from the first read.
   */
  lemma SetVersionOfUpdatePayload(pageId: string, current: Json, title: Option<string>, minorEdit: bool,
                                  bodyHtml: string, v: int, w: int)
    ensures SetVersion(UpdatePayload(pageId, current, title, minorEdit, bodyHtml, v), w)
         == UpdatePayload(pageId, current, title, minorEdit, bodyHtml, w)
  {
    var p := UpdatePayload(pageId, current, title, minorEdit, bodyHtml, v);
    var inner := p.fields[3].1;
    LookupAt(p.fields, "version", 3);
    PutAt(inner.fields, "number", JInt(w), 0);
    var inner2 := JObj(Put(inner.fields, "number", JInt(w)));
    PutAt(p.fields, "version", inner2, 3);
    var q := UpdatePayload(pageId, current, title, minorEdit, bodyHtml, w);
    assert inner.fields[0 := ("number", JInt(w))] == q.fields[3].1.fields;
    assert p.fields[3 := ("version", q.fields[3].1)] == q.fields;
  }

  /**
   * The protocol `update_page` keeps, stated on its record `u`: at most two
   * reads and two PUTs; every PUT carries the version of the read before it
   * plus one; the result is the last PUT's, or the failure of the read that
   * stopped it; a second round happens exactly when the first PUT failed in
   * a way the rule retries and `_retry` is set; and the second payload is the
   * first with a new version.
   */
  predicate Protocol(u: UpdateRun, retry: bool, rule: ConflictRule) {
    && 1 <= |u.fetched| <= 2 && |u.puts| <= |u.fetched| <= |u.puts| + 1
    && (|u.puts| >= 1 ==> u.fetched[0].Success? && PayloadVersion(u.puts[0].0) == CurrentVersion(u.fetched[0].value) + 1)
    && (|u.puts| == 2 ==> u.fetched[1].Success? && PayloadVersion(u.puts[1].0) == CurrentVersion(u.fetched[1].value) + 1)
    && (|u.fetched| == |u.puts| + 1 ==> u.fetched[|u.puts|].Failure? && u.result == u.fetched[|u.puts|])
    && (|u.fetched| == |u.puts| ==> u.result == u.puts[|u.puts| - 1].1)
    && (|u.fetched| == 2 ==> retry && RetriesAfter(rule, u.puts[0].1))
    && (|u.puts| >= 1 && retry && RetriesAfter(rule, u.puts[0].1) ==> |u.fetched| == 2)
    && (|u.puts| == 2 ==> u.puts[1].0 == SetVersion(u.puts[0].0, CurrentVersion(u.fetched[1].value) + 1))
  }

  lemma ProtocolAfterOnePut(s2: Session, current: Json, payload: Json, p1: Result<Json, Failure>, retry: bool, rule: ConflictRule)
    requires PayloadVersion(payload) == CurrentVersion(current) + 1
    requires !(retry && RetriesAfter(rule, p1))
    ensures Protocol(UpdateRun(p1, s2, [Success(current)], [(payload, p1)]), retry, rule)
  {
  }

  lemma ProtocolAfterFailedReread(s3: Session, current: Json, payload: Json, p1: Result<Json, Failure>,
                                  g2: Result<Json, Failure>, retry: bool, rule: ConflictRule)
    requires PayloadVersion(payload) == CurrentVersion(current) + 1
    requires retry && RetriesAfter(rule, p1) && g2.Failure?
    ensures Protocol(UpdateRun(g2, s3, [Success(current), g2], [(payload, p1)]), retry, rule)
  {
  }

  lemma ProtocolAfterTwoPuts(s4: Session, current: Json, payload: Json, p1: Result<Json, Failure>, refreshed: Json,
                             payload2: Json, p2: Result<Json, Failure>, retry: bool, rule: ConflictRule)
    requires PayloadVersion(payload) == CurrentVersion(current) + 1
    requires retry && RetriesAfter(rule, p1)
    requires payload2 == SetVersion(payload, CurrentVersion(refreshed) + 1)
    ensures Protocol(UpdateRun(p2, s4, [Success(current), Success(refreshed)], [(payload, p1), (payload2, p2)]), retry, rule)
  {
    SetVersionVersion(payload, CurrentVersion(refreshed) + 1);
  }

  /** Every run of `update_page` keeps its protocol, whichever conflict rule it follows. */
  lemma UpdateProtocol(cfg: Settings, s: Session, pageId: string, bodyHtml: string, title: Option<string>,
                       minorEdit: bool, notifyWatchers: bool, retry: bool, rule: ConflictRule)
    ensures Protocol(UpdateSpec(cfg, s, pageId, bodyHtml, title, minorEdit, notifyWatchers, retry, rule), retry, rule)
  {
    var g1, s1 := FirstRead(cfg, s, pageId, bodyHtml, title, minorEdit, notifyWatchers, retry, rule);
    if g1.Success? {
      UpdatePayloadVersion(pageId, g1.value, title, minorEdit, bodyHtml, CurrentVersion(g1.value) + 1);
      PutPhaseProtocol(cfg, s1, pageId, g1.value,
                       UpdatePayload(pageId, g1.value, title, minorEdit, bodyHtml, CurrentVersion(g1.value) + 1),
                       notifyWatchers, retry, rule);
    }
  }

  /** The first read of `update_page`, named: what it returned and the session after it. */
  lemma FirstRead(cfg: Settings, s: Session, pageId: string, bodyHtml: string, title: Option<string>,
                  minorEdit: bool, notifyWatchers: bool, retry: bool, rule: ConflictRule)
    returns (g1: Result<Json, Failure>, s1: Session)
    ensures g1 == Exec(cfg, s, GetPageRequest(pageId)).0 && s1 == Exec(cfg, s, GetPageRequest(pageId)).1
    ensures UpdateSpec(cfg, s, pageId, bodyHtml, title, minorEdit, notifyWatchers, retry, rule)
         == if g1.Failure? then UpdateRun(g1, s1, [g1], [])
            else PutPhase(cfg, s1, pageId, g1.value,
                          UpdatePayload(pageId, g1.value, title, minorEdit, bodyHtml, CurrentVersion(g1.value) + 1),
                          notifyWatchers, retry, rule)
  {
    var e1 := Exec(cfg, s, GetPageRequest(pageId));
    g1, s1 := e1.0, e1.1;
    UpdateSpecStep(cfg, s, pageId, bodyHtml, title, minorEdit, notifyWatchers, retry, rule, g1, s1);
  }

  /** The protocol from the first PUT on. */
  lemma PutPhaseProtocol(cfg: Settings, s1: Session, pageId: string, current: Json, payload: Json,
                         notifyWatchers: bool, retry: bool, rule: ConflictRule)
    requires PayloadVersion(payload) == CurrentVersion(current) + 1
    ensures Protocol(PutPhase(cfg, s1, pageId, current, payload, notifyWatchers, retry, rule), retry, rule)
  {
    var e2 := Exec(cfg, s1, PutRequest(pageId, payload, notifyWatchers));
    PutPhaseStep(cfg, s1, pageId, current, payload, notifyWatchers, retry, rule, e2.0, e2.1);
    if retry && RetriesAfter(rule, e2.0) {
      ConflictPhaseProtocol(cfg, e2.1, pageId, current, payload, e2.0, notifyWatchers, retry, rule);
    } else {
      ProtocolAfterOnePut(e2.1, current, payload, e2.0, retry, rule);
    }
  }

  /** The protocol from the second read on, after a first PUT the rule retries. */
  lemma ConflictPhaseProtocol(cfg: Settings, s2: Session, pageId: string, current: Json, payload: Json,
                              p1: Result<Json, Failure>, notifyWatchers: bool, retry: bool, rule: ConflictRule)
    requires PayloadVersion(payload) == CurrentVersion(current) + 1
    requires retry && RetriesAfter(rule, p1)
    ensures Protocol(ConflictPhase(cfg, s2, pageId, current, payload, p1, notifyWatchers), retry, rule)
  {
    var e3 := Exec(cfg, s2, GetPageRequest(pageId));
    if e3.0.Failure? {
      ConflictReadFails(cfg, s2, pageId, current, payload, p1, notifyWatchers, e3.0, e3.1);
      ProtocolAfterFailedReread(e3.1, current, payload, p1, e3.0, retry, rule);
    } else {
      ConflictPhaseStep(cfg, s2, pageId, current, payload, p1, notifyWatchers, e3.0, e3.1);
      SecondPutProtocol(cfg, e3.1, pageId, current, payload, p1, e3.0.value, notifyWatchers, retry, rule);
    }
  }

  /** The protocol of the second PUT. */
  lemma SecondPutProtocol(cfg: Settings, s3: Session, pageId: string, current: Json, payload: Json,
                          p1: Result<Json, Failure>, refreshed: Json, notifyWatchers: bool, retry: bool, rule: ConflictRule)
    requires PayloadVersion(payload) == CurrentVersion(current) + 1
    requires retry && RetriesAfter(rule, p1)
    ensures Protocol(SecondPut(cfg, s3, pageId, current, payload, p1, refreshed, notifyWatchers), retry, rule)
  {
    var payload2 := SetVersion(payload, CurrentVersion(refreshed) + 1);
    var e4 := Exec(cfg, s3, PutRequest(pageId, payload2, notifyWatchers));
    SecondPutStep(cfg, s3, pageId, current, payload, p1, refreshed, notifyWatchers, payload2, e4.0, e4.1);
    ProtocolAfterTwoPuts(e4.1, current, payload, p1, refreshed, payload2, e4.0, retry, rule);
  }

  /** A successful read of `page`. */
  function ReadAnswer(page: Json): Outcome {
    Completed(Response(200, Some(page), "", None))
  }

  /**
   * The 409 Confluence answers to a PUT with a stale version: a JSON body with
   * a status code, a message (such as "Version must be incremented on update.
   * Current version is: 5") and a reason (such as "Conflict").
   */
  function StaleVersionConflict(message: string, reason: string): Outcome {
    Completed(Response(409, Some(JObj([("statusCode", JInt(409)), ("message", JStr(message)), ("reason", JStr(reason))])),
                       "", None))
  }

  /** The description of a PUT of page `pageId`. */
  function PutMessage(cfg: Settings, pageId: string): string {
    "PUT " + Url(cfg.baseUrl, "/rest/api/content/" + pageId)
  }

  lemma PutMessageOf(cfg: Settings, pageId: string, payload: Json, notifyWatchers: bool)
    ensures Message(cfg, PutRequest(pageId, payload, notifyWatchers)) == PutMessage(cfg, pageId)
  {
    assert "PUT" + " " == "PUT ";
  }

  /** The text of the error the stale-version conflict raises for a PUT of page `pageId`. */
  function StaleDetail(cfg: Settings, pageId: string, message: string, reason: string): string {
    Detail(PutMessage(cfg, pageId), ErrorPayload(StaleVersionConflict(message, reason).resp))
  }

  lemma PageReadSucceeds(cfg: Settings, s: Session, pageId: string, page: Json)
    requires s.script != [] && s.script[0] == ReadAnswer(page)
    ensures Exec(cfg, s, GetPageRequest(pageId)).0 == Success(page)
    ensures Exec(cfg, s, GetPageRequest(pageId)).1.script == s.script[1..]
  {
    ExecStops(cfg, s, GetPageRequest(pageId), Success(page));
  }

  /** A 409 answering a PUT raises Conflict at once, whatever the budget. */
  lemma ConflictPutFails(cfg: Settings, s: Session, pageId: string, payload: Json, notifyWatchers: bool, resp: Response)
    requires s.script != [] && s.script[0] == Completed(resp) && resp.status == 409
    ensures Exec(cfg, s, PutRequest(pageId, payload, notifyWatchers)).0
         == Failure(Api(ConfluenceError(Conflict, Detail(PutMessage(cfg, pageId), ErrorPayload(resp)))))
    ensures Exec(cfg, s, PutRequest(pageId, payload, notifyWatchers)).1.script == s.script[1..]
  {
    var req := PutRequest(pageId, payload, notifyWatchers);
    PutMessageOf(cfg, pageId, payload, notifyWatchers);
    var e := ConfluenceError(Conflict, Detail(PutMessage(cfg, pageId), ErrorPayload(resp)));
    assert ExpectedSet(req.expected) == {200};
    assert RaiseForStatus(409, Message(cfg, req), ErrorPayload(resp)) == Some(e);
    assert StepOf(Completed(resp), 1, cfg.retries, cfg.backoff, {200}, Message(cfg, req)) == Stop(Failure(Api(e)));
    ExecStops(cfg, s, req, Failure(Api(e)));
  }

  /** The stale-version error text has no "409" in it when none of the base URL, the page id, the message and the reason has a '4'. */
  lemma StaleDetailLacks409(cfg: Settings, pageId: string, message: string, reason: string)
    requires message != ""
    requires '4' !in cfg.baseUrl && '4' !in pageId && '4' !in message && '4' !in reason
    ensures !Contains(StaleDetail(cfg, pageId, message, reason), "409")
  {
    var path := "/rest/api/content/" + pageId;
    assert '4' !in PutMessage(cfg, pageId) by {
      assert StartsWith(path, "/");
      assert PutMessage(cfg, pageId) == "PUT " + cfg.baseUrl + path;
      assert '4' !in "PUT " && '4' !in "/rest/api/content/";
    }
    var full := PutMessage(cfg, pageId) + Extra(JStr(message), JStr(reason));
    assert '4' !in full by {
      assert full == PutMessage(cfg, pageId) + " " + message + " " + reason;
    }
    StaleDetailIs(cfg, pageId, message, reason);
    NotContainsFirstChar(StaleDetail(cfg, pageId, message, reason), "409");
  }

  /** The stale-version error text: the request, the body's message and its reason, stripped. */
  lemma StaleDetailIs(cfg: Settings, pageId: string, message: string, reason: string)
    requires message != ""
    ensures StaleDetail(cfg, pageId, message, reason) == Strip(PutMessage(cfg, pageId) + Extra(JStr(message), JStr(reason)))
  {
    var payload := ErrorPayload(StaleVersionConflict(message, reason).resp);
    assert GetOrNull(payload, "message") == JStr(message) by {
      LookupAt(payload.fields, "message", 1);
    }
    assert GetOrNull(payload, "reason") == JStr(reason) by {
      LookupAt(payload.fields, "reason", 2);
    }
    assert Truthy(payload);
    DetailPrefersMessage(PutMessage(cfg, pageId), payload);
    assert Or(JStr(reason), JStr("")) == JStr(reason);
  }

  /**
   * As written, `update_page` does not retry the conflict it was written for:
   * the stale-version 409 raises Conflict, but its text has no "409" in it
   * (the text is the request description plus the body's message and reason),
   * so the error propagates after a single PUT.
   */
  lemma StaleVersionConflictIsNotRetried(cfg: Settings, s: Session, pageId: string, page: Json, message: string, reason: string)
    requires message != ""
    requires '4' !in cfg.baseUrl && '4' !in pageId && '4' !in message && '4' !in reason
    requires |s.script| >= 2 && s.script[0] == ReadAnswer(page) && s.script[1] == StaleVersionConflict(message, reason)
    ensures var u := UpdateSpec(cfg, s, pageId, "", None, false, true, true, TextHas409);
            && |u.puts| == 1 && |u.fetched| == 1
            && u.result == Failure(Api(ConfluenceError(Conflict, StaleDetail(cfg, pageId, message, reason))))
  {
    var e1 := Exec(cfg, s, GetPageRequest(pageId));
    PageReadSucceeds(cfg, s, pageId, page);
    UpdateSpecStep(cfg, s, pageId, "", None, false, true, true, TextHas409, e1.0, e1.1);
    var payload := UpdatePayload(pageId, page, None, false, "", CurrentVersion(page) + 1);
    var e2 := Exec(cfg, e1.1, PutRequest(pageId, payload, true));
    ConflictPutFails(cfg, e1.1, pageId, payload, true, StaleVersionConflict(message, reason).resp);
    StaleDetailLacks409(cfg, pageId, message, reason);
    PutPhaseStep(cfg, e1.1, pageId, page, payload, true, true, TextHas409, e2.0, e2.1);
  }

  /**
   * As written, the text test also fires on errors that are no conflict at
   * all: when the page id contains "409", every error the first PUT raises
   * (a 403, a 500 after the retries, ...) is followed by a second read.
   */
  lemma IdWith409RetriesAnyError(cfg: Settings, s: Session, pageId: string, bodyHtml: string, title: Option<string>,
                                 minorEdit: bool, notifyWatchers: bool)
    requires forall i :: 0 <= i < |pageId| ==> '0' <= pageId[i] <= '9'
    requires Contains(pageId, "409")
    ensures var u := UpdateSpec(cfg, s, pageId, bodyHtml, title, minorEdit, notifyWatchers, true, TextHas409);
            |u.puts| >= 1 && u.puts[0].1.Failure? && u.puts[0].1.error.Api? ==> |u.fetched| == 2
  {
    UpdateProtocol(cfg, s, pageId, bodyHtml, title, minorEdit, notifyWatchers, true, TextHas409);
    var e1 := Exec(cfg, s, GetPageRequest(pageId));
    UpdateSpecStep(cfg, s, pageId, bodyHtml, title, minorEdit, notifyWatchers, true, TextHas409, e1.0, e1.1);
    if e1.0.Success? {
      var current := e1.0.value;
      var payload := UpdatePayload(pageId, current, title, minorEdit, bodyHtml, CurrentVersion(current) + 1);
      var e2 := Exec(cfg, e1.1, PutRequest(pageId, payload, notifyWatchers));
      PutPhaseStep(cfg, e1.1, pageId, current, payload, notifyWatchers, true, TextHas409, e2.0, e2.1);
      PutErrorMentionsId(cfg, e1.1, pageId, payload, notifyWatchers);
    }
  }

  /** The text of every error a PUT raises contains the page id, so with a "409" in the id the text rule fires. */
  lemma PutErrorMentionsId(cfg: Settings, s1: Session, pageId: string, payload: Json, notifyWatchers: bool)
    requires forall i :: 0 <= i < |pageId| ==> '0' <= pageId[i] <= '9'
    requires Contains(pageId, "409")
    ensures var p := Exec(cfg, s1, PutRequest(pageId, payload, notifyWatchers)).0;
            p.Failure? && p.error.Api? ==> RetriesAfter(TextHas409, p)
  {
    PutRequestMentionsId(cfg, pageId, payload, notifyWatchers);
    TextRuleFiresOn(cfg, s1, PutRequest(pageId, payload, notifyWatchers));
  }

  /** A PUT of a page whose id ends in a digit and contains "409" is described with a "409" in it. */
  lemma PutRequestMentionsId(cfg: Settings, pageId: string, payload: Json, notifyWatchers: bool)
    requires forall i :: 0 <= i < |pageId| ==> '0' <= pageId[i] <= '9'
    requires Contains(pageId, "409")
    ensures var req := PutRequest(pageId, payload, notifyWatchers);
            && req.verb != [] && !IsSpace(req.verb[0])
            && req.path != [] && !IsSpace(req.path[|req.path| - 1])
            && Contains(Message(cfg, req), "409")
  {
    var req := PutRequest(pageId, payload, notifyWatchers);
    assert pageId != [] by {
      assert !Contains([], "409");
    }
    assert req.path[|req.path| - 1] == pageId[|pageId| - 1];
    PutMessageOf(cfg, pageId, payload, notifyWatchers);
    PutMessageMentionsId(cfg, pageId);
  }

  /** Every API error a request raises is retried under the text rule when its description contains "409". */
  lemma TextRuleFiresOn(cfg: Settings, s: Session, req: RequestArgs)
    requires req.verb != [] && !IsSpace(req.verb[0])
    requires req.path != [] && !IsSpace(req.path[|req.path| - 1])
    requires Contains(Message(cfg, req), "409")
    ensures var p := Exec(cfg, s, req).0;
            p.Failure? && p.error.Api? ==> RetriesAfter(TextHas409, p)
  {
    ExecApiFailureStartsWithMessage(cfg, s, req);
    TextRuleFires(Exec(cfg, s, req).0, Message(cfg, req));
  }

  /** An API error whose text starts with a description containing "409" is retried under the text rule. */
  lemma TextRuleFires(p: Result<Json, Failure>, m: string)
    requires Contains(m, "409")
    requires p.Failure? && p.error.Api? ==> StartsWith(p.error.error.detail, m)
    ensures p.Failure? && p.error.Api? ==> RetriesAfter(TextHas409, p)
  {
    if p.Failure? && p.error.Api? {
      ContainsInPrefix(m, p.error.error.detail, "409");
    }
  }

  lemma PutMessageMentionsId(cfg: Settings, pageId: string)
    requires Contains(pageId, "409")
    ensures Contains(PutMessage(cfg, pageId), "409")
  {
    var pre := "PUT " + cfg.baseUrl + "/rest/api/content/";
    assert PutMessage(cfg, pageId) == pre + pageId by {
      assert StartsWith("/rest/api/content/" + pageId, "/");
    }
    ContainsInSuffix(pre, pageId, "409");
  }

  /**
   * Corrected: testing the error kind instead of its text, the stale-version
   * conflict is answered with a fresh read and a second PUT carrying the
   * refreshed version plus one, whose success is the result.
   */
  lemma StaleVersionConflictIsRetriedByStatus(cfg: Settings, s: Session, pageId: string, page: Json, message: string, reason: string,
                                              refreshed: Json, saved: Json)
    requires |s.script| >= 4 && s.script[0] == ReadAnswer(page) && s.script[1] == StaleVersionConflict(message, reason)
    requires s.script[2] == ReadAnswer(refreshed) && s.script[3] == ReadAnswer(saved)
    ensures var u := UpdateSpec(cfg, s, pageId, "", None, false, true, true, StatusIs409);
            && |u.puts| == 2 && u.fetched == [Success(page), Success(refreshed)]
            && PayloadVersion(u.puts[1].0) == CurrentVersion(refreshed) + 1
            && u.result == Success(saved)
  {
    var s1 := ReadThenPut(cfg, s, pageId, page, "", None, false, true, true, StatusIs409);
    var payload := UpdatePayload(pageId, page, None, false, "", CurrentVersion(page) + 1);
    var s2, p1 := ConflictPutIsRetried(cfg, s1, pageId, page, payload, StaleVersionConflict(message, reason).resp);
    assert s2.script == s.script[2..];
    RereadAndPutSucceed(cfg, s2, pageId, page, payload, p1, refreshed, saved);
    SetVersionVersion(payload, CurrentVersion(refreshed) + 1);
  }

  /** A successful first read leads into the first PUT, one answer later. */
  lemma ReadThenPut(cfg: Settings, s: Session, pageId: string, page: Json, bodyHtml: string, title: Option<string>,
                    minorEdit: bool, notifyWatchers: bool, retry: bool, rule: ConflictRule) returns (s1: Session)
    requires s.script != [] && s.script[0] == ReadAnswer(page)
    ensures s1.script == s.script[1..]
    ensures UpdateSpec(cfg, s, pageId, bodyHtml, title, minorEdit, notifyWatchers, retry, rule)
         == PutPhase(cfg, s1, pageId, page, UpdatePayload(pageId, page, title, minorEdit, bodyHtml, CurrentVersion(page) + 1),
                     notifyWatchers, retry, rule)
  {
    var g1;
    g1, s1 := FirstRead(cfg, s, pageId, bodyHtml, title, minorEdit, notifyWatchers, retry, rule);
    PageReadSucceeds(cfg, s, pageId, page);
    assert g1 == Success(page);
  }

  /** Under the status rule a 409 answering the first PUT leads into the conflict round. */
  lemma ConflictPutIsRetried(cfg: Settings, s1: Session, pageId: string, page: Json, payload: Json, resp: Response)
    returns (s2: Session, p1: Result<Json, Failure>)
    requires s1.script != [] && s1.script[0] == Completed(resp) && resp.status == 409
    ensures s2.script == s1.script[1..]
    ensures PutPhase(cfg, s1, pageId, page, payload, true, true, StatusIs409) == ConflictPhase(cfg, s2, pageId, page, payload, p1, true)
  {
    var e2 := Exec(cfg, s1, PutRequest(pageId, payload, true));
    ConflictPutFails(cfg, s1, pageId, payload, true, resp);
    PutPhaseStep(cfg, s1, pageId, page, payload, true, true, StatusIs409, e2.0, e2.1);
    s2, p1 := e2.1, e2.0;
  }

  /** A conflict round whose read and PUT both succeed ends with the second PUT's result. */
  lemma RereadAndPutSucceed(cfg: Settings, s2: Session, pageId: string, current: Json, payload: Json,
                            p1: Result<Json, Failure>, refreshed: Json, saved: Json)
    requires |s2.script| >= 2 && s2.script[0] == ReadAnswer(refreshed) && s2.script[1] == ReadAnswer(saved)
    ensures var u := ConflictPhase(cfg, s2, pageId, current, payload, p1, true);
            && u.result == Success(saved) && u.fetched == [Success(current), Success(refreshed)]
            && u.puts == [(payload, p1), (SetVersion(payload, CurrentVersion(refreshed) + 1), Success(saved))]
  {
    var e3 := Exec(cfg, s2, GetPageRequest(pageId));
    PageReadSucceeds(cfg, s2, pageId, refreshed);
    ConflictPhaseStep(cfg, s2, pageId, current, payload, p1, true, e3.0, e3.1);
    var payload2 := SetVersion(payload, CurrentVersion(refreshed) + 1);
    var req := PutRequest(pageId, payload2, true);
    var e4 := Exec(cfg, e3.1, req);
    assert ExpectedSet(req.expected) == {200};
    ExecStops(cfg, e3.1, req, Success(saved));
    SecondPutStep(cfg, e3.1, pageId, current, payload, p1, refreshed, true, payload2, e4.0, e4.1);
  }

  // ---------------- list_all_children ----------------

  /** A server that answers each request for children with the next (at most) 100 of them. */
  function ServerPages(children: seq<Json>, start: nat): seq<Outcome>
    requires start <= |children|
    decreases |children| - start
  {
    var end := if start + 100 <= |children| then start + 100 else |children|;
    [ChildrenAnswer(children[start..end])] + (if end - start == 100 then ServerPages(children, end) else [])
  }

  /** A successful answer listing `chunk` as its results. */
  function ChildrenAnswer(chunk: seq<Json>): Outcome {
    Completed(Response(200, Some(JObj([("results", JArr(chunk))])), "", None))
  }

  /** After an answer listing `chunk`, the listing stops when the chunk is short and goes on from the next offset otherwise. */
  lemma ChildrenAnswerRead(cfg: Settings, s: Session, pageId: string, start: int, chunk: seq<Json>) returns (s1: Session)
    requires s.script != [] && s.script[0] == ChildrenAnswer(chunk)
    ensures s1.script == s.script[1..]
    ensures AllChildrenSpec(cfg, s, pageId, start)
         == if chunk == [] || |chunk| < 100 then (Success(chunk), s1)
            else Prefixed(chunk, AllChildrenSpec(cfg, s1, pageId, start + 100))
  {
    ExecStops(cfg, s, ChildrenRequest(pageId, 100, start), Success(JObj([("results", JArr(chunk))])));
    s1 := Exec(cfg, s, ChildrenRequest(pageId, 100, start)).1;
    AllChildrenStep(cfg, s, pageId, start, Success(chunk), s1);
  }

  /**
   * Against such a server, `list_all_children` from `start` returns exactly
   * the children from `start` on, in order, and consumes exactly its answers
   * (a final empty page included when the count is a multiple of 100).
   */
  lemma {:induction false} AllChildrenComplete(cfg: Settings, s: Session, pageId: string, children: seq<Json>,
                                               start: nat, rest: seq<Outcome>)
    requires start <= |children|
    requires s.script == ServerPages(children, start) + rest
    ensures AllChildrenSpec(cfg, s, pageId, start).0 == Success(children[start..])
    ensures AllChildrenSpec(cfg, s, pageId, start).1.script == rest
    decreases |children| - start
  {
    var chunk, end := ServerPagesFirst(children, start, rest);
    var s1 := ChildrenAnswerRead(cfg, s, pageId, start, chunk);
    if |chunk| == 100 {
      AllChildrenComplete(cfg, s1, pageId, children, end, rest);
    }
  }

  /** The first answer of such a server, and what it answers after it. */
  lemma ServerPagesFirst(children: seq<Json>, start: nat, rest: seq<Outcome>) returns (chunk: seq<Json>, end: nat)
    requires start <= |children|
    ensures start <= end <= |children| && |chunk| <= 100
    ensures (ServerPages(children, start) + rest)[0] == ChildrenAnswer(chunk)
    ensures (ServerPages(children, start) + rest)[1..] == if |chunk| == 100 then ServerPages(children, end) + rest else rest
    ensures |chunk| == 100 ==> chunk + children[end..] == children[start..]
    ensures |chunk| < 100 ==> chunk == children[start..]
  {
    end := if start + 100 <= |children| then start + 100 else |children|;
    chunk := children[start..end];
    var pages := ServerPages(children, start);
    assert pages == [ChildrenAnswer(chunk)] + (if |chunk| == 100 then ServerPages(children, end) else []);
    assert (pages + rest)[1..] == pages[1..] + rest;
  }

  // ---------------- search_cql, list_pages_in_space, find_page_by_title ----------------

  /** `search_cql` keeps exactly the contents whose type is "page", and nothing else. */
  lemma {:induction false} PageContentsAreThePages(hits: seq<Json>)
    ensures |PageContents(hits)| <= |hits|
    ensures forall c :: c in PageContents(hits) ==> IsPage(c) && exists i :: 0 <= i < |hits| && ContentOf(hits[i]) == c
    ensures forall i :: 0 <= i < |hits| && IsPage(ContentOf(hits[i])) ==> ContentOf(hits[i]) in PageContents(hits)
    decreases |hits|
  {
    if hits != [] {
      var init := hits[..|hits| - 1];
      PageContentsAreThePages(init);
      assert forall i :: 0 <= i < |init| ==> hits[i] == init[i];
    }
  }

  /**
   * `search_cql` works hit by hit and keeps the order: the pages of two runs
   * of hits are the pages of the first run followed by those of the second.
   */
  lemma {:induction false} PageContentsConcat(a: seq<Json>, b: seq<Json>)
    ensures PageContents(a + b) == PageContents(a) + PageContents(b)
    decreases |b|
  {
    if b == [] {
      assert a + b == a;
    } else {
      var b' := b[..|b| - 1];
      PageContentsConcat(a, b');
      assert (a + b)[..|a + b| - 1] == a + b';
      assert (a + b)[|a + b| - 1] == b[|b| - 1];
    }
  }

  /** One hit gives its content exactly when that content is a page. */
  lemma PageContentsOfOne(h: Json)
    ensures PageContents([h]) == if IsPage(ContentOf(h)) then [ContentOf(h)] else []
  {
    assert [h][..0] == [];
  }

  /** A filter keeps exactly the items it accepts. */
  lemma {:induction false} FilterKeeps(items: seq<Json>, keep: Json -> bool)
    ensures |Filter(items, keep)| <= |items|
    ensures forall p :: p in Filter(items, keep) <==> p in items && keep(p)
    decreases |items|
  {
    if items != [] {
      FilterKeeps(items[1..], keep);
      assert items == [items[0]] + items[1..];
    }
  }

  /** A filter works item by item and keeps the order. */
  lemma {:induction false} FilterConcat(a: seq<Json>, b: seq<Json>, keep: Json -> bool)
    ensures Filter(a + b, keep) == Filter(a, keep) + Filter(b, keep)
    decreases |a|
  {
    if a == [] {
      assert a + b == b;
    } else {
      var first := if keep(a[0]) then [a[0]] else [];
      assert (a + b)[0] == a[0] && (a + b)[1..] == a[1..] + b;
      calc {
        Filter(a + b, keep);
        first + Filter(a[1..] + b, keep);
        { FilterConcat(a[1..], b, keep); }
        first + (Filter(a[1..], keep) + Filter(b, keep));
        (first + Filter(a[1..], keep)) + Filter(b, keep);
      }
    }
  }

  /** The title filter keeps exactly the pages whose title contains the needle, ignoring case. */
  lemma TitleFilterKeepsTheMatches(items: seq<Json>, needle: string)
    ensures |TitleFilter(items, needle)| <= |items|
    ensures forall p :: p in TitleFilter(items, needle) <==> p in items && TitleMatches(p, needle)
  {
    FilterKeeps(items, p => TitleMatches(p, needle));
  }

  /**
   * The title filter works item by item and keeps the order: filtering two
   * runs of items is filtering each in turn.
   */
  lemma TitleFilterConcat(a: seq<Json>, b: seq<Json>, needle: string)
    ensures TitleFilter(a + b, needle) == TitleFilter(a, needle) + TitleFilter(b, needle)
  {
    FilterConcat(a, b, p => TitleMatches(p, needle));
  }

  /** One item is kept exactly when its title matches. */
  lemma TitleFilterOfOne(p: Json, needle: string)
    ensures TitleFilter([p], needle) == if TitleMatches(p, needle) then [p] else []
  {
    var keep := q => TitleMatches(q, needle);
    assert [p][1..] == [];
    assert Filter([p], keep) == (if keep(p) then [p] else []) + Filter([], keep);
  }

  /** The case of the needle does not matter. */
  lemma TitleMatchesIgnoresNeedleCase(page: Json, needle: string)
    ensures TitleMatches(page, needle) == TitleMatches(page, Lower(needle))
  {
    assert Lower(Lower(needle)) == Lower(needle);
  }

  /** The contract of `find_page_by_title` under a parent determines its answer. */
  lemma FirstUnderIsUnique(results: seq<Json>, parentId: string, a: Option<Json>, b: Option<Json>)
    requires FirstUnder(results, parentId, a) && FirstUnder(results, parentId, b)
    ensures a == b
  {
    if a.Some? && b.Some? {
      var i :| 0 <= i < |results| && results[i] == a.value && HasAncestor(results[i], parentId)
               && forall j :: 0 <= j < i ==> !HasAncestor(results[j], parentId);
      var k :| 0 <= k < |results| && results[k] == b.value && HasAncestor(results[k], parentId)
               && forall j :: 0 <= j < k ==> !HasAncestor(results[j], parentId);
      assert i == k;
    }
  }

  // ---------------- the remaining helpers ----------------

  /** The homepage id, when found, is the non-empty string form of a truthy id. */
  lemma HomepageIdIsNonEmpty(res: Json)
    ensures HomepageId(res).Some? <==> Truthy(GetOrNull(res, "homepage")) && Truthy(GetOrNull(GetOrNull(res, "homepage"), "id"))
    ensures HomepageId(res).Some? ==> HomepageId(res).value != ""
  {
    var id := GetOrNull(GetOrNull(res, "homepage"), "id");
    if Truthy(GetOrNull(res, "homepage")) && Truthy(id) {
      PyStrIsNonEmpty(id);
    }
  }

  /** The create payload carries the type "page", the title, the space key and the body in storage representation. */
  lemma CreatePayloadFields(title: string, spaceKey: string, bodyHtml: string, parentId: Option<string>)
    ensures var p := CreatePayload(title, spaceKey, bodyHtml, parentId);
            && GetOrNull(p, "title") == JStr(title) && GetOrNull(p, "type") == JStr("page")
            && GetOrNull(GetOrNull(p, "space"), "key") == JStr(spaceKey)
            && GetOrNull(GetOrNull(GetOrNull(p, "body"), "storage"), "value") == JStr(bodyHtml)
            && GetOrNull(GetOrNull(GetOrNull(p, "body"), "storage"), "representation") == JStr("storage")
  {
    var p := CreatePayload(title, spaceKey, bodyHtml, parentId);
    assert GetOrNull(p, "type") == JStr("page") by {
      LookupAt(p.fields, "type", 0);
    }
    assert GetOrNull(p, "title") == JStr(title) by {
      LookupAt(p.fields, "title", 1);
    }
    assert GetOrNull(GetOrNull(p, "space"), "key") == JStr(spaceKey) by {
      LookupAt(p.fields, "space", 2);
      LookupAt(p.fields[2].1.fields, "key", 0);
    }
    assert GetOrNull(p, "body") == StorageBody(bodyHtml) by {
      LookupAt(p.fields, "body", 3);
    }
    StorageBodyFields(bodyHtml);
  }

  /** The storage body holds the HTML as its value, in storage representation. */
  lemma StorageBodyFields(bodyHtml: string)
    ensures var storage := GetOrNull(StorageBody(bodyHtml), "storage");
            GetOrNull(storage, "value") == JStr(bodyHtml) && GetOrNull(storage, "representation") == JStr("storage")
  {
    var storage := GetOrNull(StorageBody(bodyHtml), "storage");
    LookupAt(storage.fields, "representation", 1);
  }

  /** The payload names the parent as its only ancestor exactly when a non-empty parent id is given. */
  lemma CreatePayloadAncestors(title: string, spaceKey: string, bodyHtml: string, parentId: Option<string>)
    ensures var p := CreatePayload(title, spaceKey, bodyHtml, parentId);
            && (Get(p, "ancestors").Some? <==> parentId.Some? && parentId.value != "")
            && (parentId.Some? && parentId.value != "" ==>
                  Items(GetOrNull(p, "ancestors")) == [JObj([("id", JStr(parentId.value))])])
  {
    var p := CreatePayload(title, spaceKey, bodyHtml, parentId);
    if parentId.Some? && parentId.value != "" {
      LookupAt(p.fields, "ancestors", 4);
    } else {
      assert forall i :: 0 <= i < |p.fields| ==> p.fields[i].0 in ["type", "title", "space", "body"];
    }
  }

  /**
   * The rendered HTML is the text value of the requested view (`export_view`
   * or `view`) of any response that has one, and "" for a response without
   * a body.
   */
  lemma RenderedHtmlReadsRequestedView(res: Json, exportView: bool)
    ensures var view := GetOrNull(GetOr(res, "body", JObj([])), if exportView then "export_view" else "view");
            view.JObj? && GetOrNull(view, "value").JStr? ==> RenderedHtml(res, exportView) == GetOrNull(view, "value").s
    ensures Get(res, "body").None? ==> RenderedHtml(res, exportView) == ""
  {
  }

  /** For a response carrying both views, the flag picks which one is read. */
  lemma RenderedHtmlPicksTheView(viewHtml: string, exportHtml: string, exportView: bool)
    ensures var res := JObj([("body", JObj([("view", JObj([("value", JStr(viewHtml))])),
                                            ("export_view", JObj([("value", JStr(exportHtml))]))]))]);
            RenderedHtml(res, exportView) == if exportView then exportHtml else viewHtml
  {
    var body := JObj([("view", JObj([("value", JStr(viewHtml))])), ("export_view", JObj([("value", JStr(exportHtml))]))]);
    LookupAt(body.fields, "export_view", 1);
  }

  /** The client's base URL, already stripped by the constructor, is what `page_link` starts from. */
  lemma StripSlashesIsIdempotent(s: string)
    ensures StripSlashes(StripSlashes(s)) == StripSlashes(s)
  {
  }

  /**
   * `page_link` gives no link only for an empty page or one with neither
   * webui, tinyui nor id; a link not built on the page's own `base` starts
   * with the client's base URL; and webui, else tinyui, else the page id
   * ends the link.
   */
  lemma PageLinkShape(c: ConfluenceClient, page: Json)
    ensures c.PageLink(page).None? <==>
              !Truthy(page) || (WebUi(page) == "" && TinyUi(page) == "" && !Truthy(GetOrNull(page, "id")))
    ensures c.PageLink(page).Some? && (WebUi(page) == "" || LinkBase(page) == "") ==>
              StartsWith(c.PageLink(page).value, StripSlashes(c.baseUrl))
  {
  }

  /** The link ends with webui, else tinyui, else "/pages/" and the page id. */
  lemma PageLinkEnds(c: ConfluenceClient, page: Json)
    ensures Truthy(page) && WebUi(page) != "" ==> EndsWith(c.PageLink(page).value, WebUi(page))
    ensures Truthy(page) && WebUi(page) == "" && TinyUi(page) != "" ==> EndsWith(c.PageLink(page).value, TinyUi(page))
    ensures Truthy(page) && WebUi(page) == "" && TinyUi(page) == "" && Truthy(GetOrNull(page, "id")) ==>
              EndsWith(c.PageLink(page).value, "/pages/" + PyStr(GetOrNull(page, "id")))
  {
    if Truthy(page) {
      var base := StripSlashes(c.baseUrl);
      if WebUi(page) != "" {
        if LinkBase(page) != "" {
          EndsWithAppend(LinkBase(page), WebUi(page));
        } else if StartsWith(WebUi(page), "/") {
          EndsWithAppend(base, WebUi(page));
        } else {
          EndsWithAppend(base + "/", WebUi(page));
        }
      } else if TinyUi(page) != "" {
        if StartsWith(TinyUi(page), "/") {
          EndsWithAppend(base, TinyUi(page));
        } else {
          EndsWithAppend(base + "/", TinyUi(page));
        }
      } else if Truthy(GetOrNull(page, "id")) {
        var id := PyStr(GetOrNull(page, "id"));
        if EndsWith(base, "/wiki") && Truthy(SpaceKeyOf(page)) {
          EndsWithAppend(base + "/spaces/" + PyStr(SpaceKeyOf(page)), "/pages/" + id);
          assert base + "/spaces/" + PyStr(SpaceKeyOf(page)) + "/pages/" + id
              == (base + "/spaces/" + PyStr(SpaceKeyOf(page))) + ("/pages/" + id);
        } else {
          EndsWithAppend(base, "/pages/" + id);
          assert base + "/pages/" + id == base + ("/pages/" + id);
        }
      }
    }
  }

  /**
   * The link from the page's `_links`: `base` + webui when the page gives a
   * base; else the client's base URL and webui, joined by one '/'; with no
   * webui, the base URL and tinyui joined the same way.
   */
  lemma PageLinkFromLinks(c: ConfluenceClient, page: Json)
    ensures var base := StripSlashes(c.baseUrl); var w := WebUi(page);
            Truthy(page) && w != "" ==>
              c.PageLink(page) == Some(if LinkBase(page) != "" then LinkBase(page) + w
                                       else if StartsWith(w, "/") then base + w else base + "/" + w)
    ensures var base := StripSlashes(c.baseUrl); var t := TinyUi(page);
            Truthy(page) && WebUi(page) == "" && t != "" ==>
              c.PageLink(page) == Some(if StartsWith(t, "/") then base + t else base + "/" + t)
  {
  }

  /**
   * The link built from the id when `_links` gives neither webui nor tinyui:
   * on an Atlassian Cloud base URL (one ending in "/wiki") and with a space
   * key, `/spaces/{key}/pages/{id}`; otherwise `/pages/{id}`; no link
   * without an id.
   */
  lemma PageLinkFromId(c: ConfluenceClient, page: Json)
    ensures var base := StripSlashes(c.baseUrl); var id := GetOrNull(page, "id"); var key := SpaceKeyOf(page);
            Truthy(page) && WebUi(page) == "" && TinyUi(page) == "" ==>
              c.PageLink(page) == if !Truthy(id) then None
                                  else if EndsWith(base, "/wiki") && Truthy(key) then Some(base + "/spaces/" + PyStr(key) + "/pages/" + PyStr(id))
                                  else Some(base + "/pages/" + PyStr(id))
  {
  }
}
