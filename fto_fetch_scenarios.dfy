// Whole calls of `fetch` (src/utils/fetch/fto-fetch.ts) against fixed transport
// schedules, and the properties of redirects and cookies that they illustrate.

module FtoFetchScenarios {
  import opened Wrappers
  import opened Url
  import opened FetchErrors
  import opened CookieJar
  import opened FtoFetch
  import opened FtoFetchProps

  // ---- single steps ---------------------------------------------------------------------

  /** A response that is not followed and that `validateStatus` refuses goes to the retry decision. */
  lemma StatusStep(p: Prepared, n: nat, w: World)
    requires p.finalInput.Absolute? && w.outcomes != [] && w.outcomes[0].Resp?
    requires !FollowsRedirect(p, w.outcomes[0].status)
    requires p.local.validateStatus.Some? && !p.local.validateStatus.value(w.outcomes[0].status)
    ensures var o := w.outcomes[0];
      Attempts(p, n, w) == Recover(p, n, HttpStatus(o.status, o.statusText), Some(ResponseHead(o.status, o.statusText)),
        World(w.outcomes[1..], w.log + [Sent(p.finalInput, SentInit(p, n))], StoreCookies(p, o.setCookies, w.cookies)))
  {
    RespUnfold(p, n, w);
  }

  /** Attempt `n` against a response is the response's handling. */
  lemma RespUnfold(p: Prepared, n: nat, w: World)
    requires p.finalInput.Absolute? && w.outcomes != [] && w.outcomes[0].Resp?
    ensures var o := w.outcomes[0];
      Attempts(p, n, w) == AnswerResponse(p, n, o.status, o.statusText, o.setCookies, o.location,
        World(w.outcomes[1..], w.log + [Sent(p.finalInput, SentInit(p, n))], w.cookies))
  {
    var o := w.outcomes[0];
    var w1 := World(w.outcomes[1..], w.log + [Sent(p.finalInput, SentInit(p, n))], w.cookies);
    assert Attempts(p, n, w) == Answer(p, n, o, w1);
  }

  /**
   * A followed redirect: the response's cookies are stored, then the redirected call
   * runs with the caller's init; its result is the attempt's, and its rejection goes
   * to this attempt's retry decision with the response's status.
   */
  lemma RedirectFollowed(p: Prepared, n: nat, w: World)
    requires p.finalInput.Absolute? && w.outcomes != [] && w.outcomes[0].Resp? && FollowsRedirect(p, w.outcomes[0].status)
    ensures var o := w.outcomes[0];
      var inner := Exec(Location(o.location), Some(RedirectInit(p, o.status)),
                        World(w.outcomes[1..], w.log + [Sent(p.finalInput, SentInit(p, n))], StoreCookies(p, o.setCookies, w.cookies)));
      && (!inner.settled.Rejected? ==> Attempts(p, n, w) == inner)
      && (inner.settled.Rejected? ==>
            Attempts(p, n, w) == Recover(p, n, inner.settled.error, Some(ResponseHead(o.status, o.statusText)), inner.world))
  {
    RespUnfold(p, n, w);
  }

  /**
   * `node-fetch` refuses a relative URL: a call on one without `urlQueries` reaches the
   * transport call, which fails with a `TypeError` whatever the schedule held.
   */
  lemma RelativeInputRejected(input: Ref, init: Option<Init>, w: World)
    requires input.Relative? && init.GetOr(EmptyInit).urlQueries.None? && init.GetOr(EmptyInit).retryOn.None?
    requires w.outcomes != []
    ensures var r := Exec(input, init, w);
      && r.settled == Rejected(Thrown(RelativeRejected.name, RelativeRejected.message))
      && r.world.outcomes == w.outcomes[1..]
      && |r.world.log| == |w.log| + 1 && r.world.log[|w.log|].Sent? && r.world.log[|w.log|].url == input
      && r.world.cookies == w.cookies
  {
    var p := Prepare(input, init, w.cookies).value;
    ExecPrepared(input, init, w, p);
    FailStep(p, 1, w);
  }

  /**
   * A followed redirect without a `location` header goes to the string `null`, a
   * relative URL: the redirected call rejects with `TypeError`, and so does the attempt.
   */
  lemma MissingLocationRejected(p: Prepared, n: nat, w: World)
    requires p.finalInput.Absolute? && |w.outcomes| >= 2 && w.outcomes[0].Resp? && w.outcomes[0].location.None?
    requires FollowsRedirect(p, w.outcomes[0].status)
    requires p.init.GetOr(EmptyInit).urlQueries.None? && p.init.GetOr(EmptyInit).retryOn.None? && p.local.retryOn.None?
    ensures Attempts(p, n, w).settled == Rejected(Thrown(RelativeRejected.name, RelativeRejected.message))
  {
    var o := w.outcomes[0];
    var w1 := World(w.outcomes[1..], w.log + [Sent(p.finalInput, SentInit(p, n))], StoreCookies(p, o.setCookies, w.cookies));
    RedirectFollowed(p, n, w);
    RelativeInputRejected(Location(o.location), Some(RedirectInit(p, o.status)), w1);
  }

  /** `validateStatus` refusing a response rejects with that response's status and text when nothing retries. */
  lemma StatusRejected(p: Prepared, n: nat, w: World)
    requires p.finalInput.Absolute? && w.outcomes != [] && w.outcomes[0].Resp?
    requires !FollowsRedirect(p, w.outcomes[0].status)
    requires p.local.validateStatus.Some? && !p.local.validateStatus.value(w.outcomes[0].status)
    requires p.local.retryOn.None?
    ensures Attempts(p, n, w).settled == Rejected(HttpStatus(w.outcomes[0].status, w.outcomes[0].statusText))
  {
    StatusStep(p, n, w);
  }

  /**
   * The `set-cookie` values of a response reach the jar before the status check, the
   * redirect and the retry decision: whatever the call does next, they stay stored.
   */
  lemma CookiesStoredFirst(p: Prepared, n: nat, w: World)
    requires p.finalInput.Absolute? && w.outcomes != [] && w.outcomes[0].Resp? && p.local.jar.Some?
    ensures w.cookies + CookieRecords(w.outcomes[0].setCookies, p.finalInput, p.local.jarOptions)
            <= Attempts(p, n, w).world.cookies
  {
    var o := w.outcomes[0];
    var w1 := w.(outcomes := w.outcomes[1..], log := w.log + [Sent(p.finalInput, SentInit(p, n))]);
    assert Attempts(p, n, w) == Answer(p, n, o, w1);
  }

  // ---- the combined scenario -------------------------------------------------------------

  /** `retryOn` of the combined test: timeouts and other errors retry, 5xx statuses retry, below attempt 5. */
  predicate Retriable(e: Error) {
    if e == Timeout then true else if e.HttpStatus? then 500 <= e.status < 600 else true
  }

  predicate CombinedRetryOn(attempt: nat, e: Error, head: Option<ResponseHead>) {
    attempt < 5 && Retriable(e)
  }

  predicate IsSuccess(status: int) {
    200 <= status < 300
  }

  function CombinedInit(): Init {
    EmptyInit.(urlQueries := Some([("foo", "bar")]), validateStatus := Some(IsSuccess),
               timeout := Some(10), retryOn := Some(CombinedRetryOn))
  }

  function CombinedOutcomes(): seq<Outcome> {
    [Abort(true), Resp(500, "", [], None), Abort(true), Fail("Error", "Random error"), Resp(404, "", [], None)]
  }

  /** The URL every attempt of the combined test requests. */
  function CombinedUrl(): Ref {
    Absolute(Url("https", "example.com", "/", [("foo", "bar")]))
  }

  /** The set-up of the combined test, written out. */
  function CombinedPrepared(): Prepared {
    var i := CombinedInit();
    Prepared(Absolute(ExampleUrl), Some(i), CombinedUrl(),
      i.(urlQueries := None, timeout := None, validateStatus := None),
      Local(None, None, Some(10), Some(IsSuccess), None, Some(CombinedRetryOn), None))
  }

  lemma CombinedPrepare()
    ensures Prepare(Absolute(ExampleUrl), Some(CombinedInit()), []) == Success(CombinedPrepared())
  {
    assert AppendQuery(ExampleUrl, [("foo", "bar")]) == Url("https", "example.com", "/", [("foo", "bar")]);
  }

  /** `retryOn` accepting, with neither `beforeRetry` nor a delay: the next attempt starts after the one question. */
  lemma RetriedAtOnce(p: Prepared, n: nat, e: Error, head: Option<ResponseHead>, w: World)
    requires p.local.retryOn.Some? && p.local.retryOn.value(n, e, head)
    requires p.local.beforeRetry.None? && p.local.retryDelay.None?
    ensures Recover(p, n, e, head, w) == Attempts(p, n + 1, w.(log := w.log + [AskRetry(n, e)]))
  {
  }

  /** A failed transport call that `retryOn` accepts. */
  lemma FailRetried(p: Prepared, n: nat, w: World, e: Error)
    requires w.outcomes != [] && !Delivered(p.finalInput, w.outcomes[0]).Resp?
    requires e == (var o := Delivered(p.finalInput, w.outcomes[0]);
                   if o.Fail? then Thrown(o.name, o.message) else Classify(Aborted, Armed(p.local) && o.timerFired))
    requires p.local.retryOn.Some? && p.local.retryOn.value(n, e, None)
    requires p.local.beforeRetry.None? && p.local.retryDelay.None?
    ensures Attempts(p, n, w)
         == Attempts(p, n + 1, World(w.outcomes[1..], w.log + [Sent(p.finalInput, SentInit(p, n)), AskRetry(n, e)], w.cookies))
  {
    var w1 := World(w.outcomes[1..], w.log + [Sent(p.finalInput, SentInit(p, n))], w.cookies);
    FailStep(p, n, w);
    RetriedAtOnce(p, n, e, None, w1);
    assert w1.log + [AskRetry(n, e)] == w.log + [Sent(p.finalInput, SentInit(p, n)), AskRetry(n, e)];
  }

  /** A refused response, not followed and without a jar, that `retryOn` accepts. */
  lemma StatusRetried(p: Prepared, n: nat, w: World, e: Error)
    requires p.finalInput.Absolute? && w.outcomes != [] && w.outcomes[0].Resp?
    requires !FollowsRedirect(p, w.outcomes[0].status)
    requires p.local.validateStatus.Some? && !p.local.validateStatus.value(w.outcomes[0].status)
    requires e == HttpStatus(w.outcomes[0].status, w.outcomes[0].statusText)
    requires p.local.retryOn.Some? && p.local.retryOn.value(n, e, Some(ResponseHead(w.outcomes[0].status, w.outcomes[0].statusText)))
    requires p.local.beforeRetry.None? && p.local.retryDelay.None? && p.local.jar.None?
    ensures Attempts(p, n, w)
         == Attempts(p, n + 1, World(w.outcomes[1..], w.log + [Sent(p.finalInput, SentInit(p, n)), AskRetry(n, e)], w.cookies))
  {
    var o := w.outcomes[0];
    var w1 := World(w.outcomes[1..], w.log + [Sent(p.finalInput, SentInit(p, n))], w.cookies);
    StatusStep(p, n, w);
    RetriedAtOnce(p, n, e, Some(ResponseHead(o.status, o.statusText)), w1);
    assert w1.log + [AskRetry(n, e)] == w.log + [Sent(p.finalInput, SentInit(p, n)), AskRetry(n, e)];
  }

  /** What attempt `n` of the combined test sends and what `retryOn` is then asked. */
  function CombinedRound(n: nat, e: Error): seq<Effect> {
    [Sent(CombinedUrl(), SentInit(CombinedPrepared(), n)), AskRetry(n, e)]
  }

  /**
   * The combined test: the schedule timeout, 500, timeout, error, 404 with `timeout: 10`
   * and the retry rule above rejects with the 404. `retryOn` sees two timeouts, two
   * status errors and one other error, every attempt requesting `…/?foo=bar`.
   */
  lemma CombinedExample(input: Ref, init: Option<Init>, w: World)
    requires input == Absolute(ExampleUrl) && init == Some(CombinedInit()) && w == World(CombinedOutcomes(), [], [])
    ensures Exec(input, init, w) == Run(Rejected(HttpStatus(404, "")), World([], CombinedLog(5), []))
    ensures CombinedLog(5) == CombinedRound(1, Timeout) + CombinedRound(2, HttpStatus(500, "")) + CombinedRound(3, Timeout)
                              + CombinedRound(4, Thrown("Error", "Random error")) + CombinedRound(5, HttpStatus(404, ""))
  {
    var p := CombinedPrepared();
    CombinedPrepare();
    ExecPrepared(input, init, w, p);
    CombinedAttempts(p, w);
    CombinedRounds();
  }

  lemma CombinedRounds()
    ensures CombinedLog(5) == CombinedRound(1, Timeout) + CombinedRound(2, HttpStatus(500, "")) + CombinedRound(3, Timeout)
                              + CombinedRound(4, Thrown("Error", "Random error")) + CombinedRound(5, HttpStatus(404, ""))
  {
  }

  /** A call whose set-up succeeds is its attempts from the first on. */
  lemma ExecPrepared(input: Ref, init: Option<Init>, w: World, p: Prepared)
    requires Prepare(input, init, w.cookies) == Success(p)
    ensures Exec(input, init, w) == Attempts(p, 1, w)
  {
  }

  lemma CombinedAttempts(p: Prepared, w0: World)
    requires p == CombinedPrepared() && w0 == CombinedWorld(0)
    ensures Attempts(p, 1, w0) == Run(Rejected(HttpStatus(404, "")), World([], CombinedLog(5), []))
  {
    var w1, w2, w3, w4 := CombinedWorld(1), CombinedWorld(2), CombinedWorld(3), CombinedWorld(4);
    CombinedAdvance(p, 1, w0);
    CombinedAdvance(p, 2, w1);
    CombinedAdvance(p, 3, w2);
    CombinedAdvance(p, 4, w3);
    CombinedFinalWorld();
    CombinedLast(p, w4);
  }

  /** The world before the fifth attempt holds the 404 alone, and that attempt completes the log. */
  lemma CombinedFinalWorld()
    ensures CombinedWorld(4).outcomes == [Resp(404, "", [], None)] && CombinedWorld(4).cookies == []
    ensures CombinedWorld(4).log + CombinedRound(5, HttpStatus(404, "")) == CombinedLog(5)
  {
  }

  /** The failure behind attempt `k` of the combined test. */
  function CombinedError(k: nat): Error {
    if k == 1 || k == 3 then Timeout
    else if k == 2 then HttpStatus(500, "")
    else if k == 4 then Thrown("Error", "Random error")
    else HttpStatus(404, "")
  }

  /** The effects of the first `k` attempts of the combined test. */
  function CombinedLog(k: nat): seq<Effect> {
    if k == 0 then [] else CombinedLog(k - 1) + CombinedRound(k, CombinedError(k))
  }

  /** The world after `k` attempts of the combined test. */
  function CombinedWorld(k: nat): World
    requires k <= 5
  {
    World(CombinedOutcomes()[k..], CombinedLog(k), [])
  }

  lemma CombinedAdvance(p: Prepared, k: nat, w: World)
    requires p == CombinedPrepared() && 1 <= k <= 4 && w == CombinedWorld(k - 1)
    ensures Attempts(p, k, w) == Attempts(p, k + 1, CombinedWorld(k))
  {
    var e := CombinedError(k);
    CombinedSettings(p);
    CombinedWorldStep(k);
    if k == 2 {
      StatusRetried(p, k, w, e);
    } else {
      FailRetried(p, k, w, e);
    }
    assert [Sent(p.finalInput, SentInit(p, k)), AskRetry(k, e)] == CombinedRound(k, e);
  }

  /** Attempt `k` of the combined test consumes its outcome and adds its round to the log. */
  lemma CombinedWorldStep(k: nat)
    requires 1 <= k <= 4
    ensures var before, after := CombinedWorld(k - 1), CombinedWorld(k);
      && before.outcomes != [] && before.outcomes[1..] == after.outcomes
      && after.log == before.log + CombinedRound(k, CombinedError(k)) && after.cookies == before.cookies
      && before.outcomes[0] == (if k == 2 then Resp(500, "", [], None) else if k == 4 then Fail("Error", "Random error") else Abort(true))
  {
    var os := CombinedOutcomes();
    assert CombinedWorld(k - 1).outcomes == os[k - 1..];
  }

  /** The fifth attempt of the combined test: the 404 is refused and not retried. */
  lemma CombinedLast(p: Prepared, w: World)
    requires p == CombinedPrepared() && w.outcomes == [Resp(404, "", [], None)]
    ensures Attempts(p, 5, w)
         == Run(Rejected(HttpStatus(404, "")), World([], w.log + CombinedRound(5, HttpStatus(404, "")), w.cookies))
  {
    var e := HttpStatus(404, "");
    CombinedSettings(p);
    assert !CombinedRetryOn(5, e, Some(ResponseHead(404, "")));
    StatusRefused(p, 5, w, e);
    assert [Sent(p.finalInput, SentInit(p, 5)), AskRetry(5, e)] == CombinedRound(5, e);
  }

  /** The local options and the final input of the combined test. */
  lemma CombinedSettings(p: Prepared)
    requires p == CombinedPrepared()
    ensures p.local.jar.None? && p.local.beforeRetry.None? && p.local.retryDelay.None? && Armed(p.local)
    ensures p.local.validateStatus == Some(IsSuccess) && p.local.retryOn == Some(CombinedRetryOn)
    ensures p.finalInit.follow.None? && p.finalInput == CombinedUrl()
  {
  }

  /** A refused response, not followed and without a jar, that `retryOn` does not retry. */
  lemma StatusRefused(p: Prepared, n: nat, w: World, e: Error)
    requires p.finalInput.Absolute? && w.outcomes != [] && w.outcomes[0].Resp?
    requires !FollowsRedirect(p, w.outcomes[0].status)
    requires p.local.validateStatus.Some? && !p.local.validateStatus.value(w.outcomes[0].status)
    requires e == HttpStatus(w.outcomes[0].status, w.outcomes[0].statusText)
    requires p.local.retryOn.Some? && !p.local.retryOn.value(n, e, Some(ResponseHead(w.outcomes[0].status, w.outcomes[0].statusText)))
    requires p.local.jar.None?
    ensures Attempts(p, n, w)
         == Run(Rejected(e), World(w.outcomes[1..], w.log + [Sent(p.finalInput, SentInit(p, n)), AskRetry(n, e)], w.cookies))
  {
    var o := w.outcomes[0];
    var w1 := World(w.outcomes[1..], w.log + [Sent(p.finalInput, SentInit(p, n))], w.cookies);
    StatusStep(p, n, w);
    RetryRefused(p, n, e, Some(ResponseHead(o.status, o.statusText)), w1);
    assert w1.log + [AskRetry(n, e)] == w.log + [Sent(p.finalInput, SentInit(p, n)), AskRetry(n, e)];
  }

  /** `retryOn` refusing: the call rejects with the error once the question is logged. */
  lemma RetryRefused(p: Prepared, n: nat, e: Error, head: Option<ResponseHead>, w: World)
    requires p.local.retryOn.Some? && !p.local.retryOn.value(n, e, head)
    ensures Recover(p, n, e, head, w) == Run(Rejected(e), w.(log := w.log + [AskRetry(n, e)]))
  {
  }

  // ---- redirects --------------------------------------------------------------------------

  function RedirectInput(): Ref {
    Absolute(Url("https", "example.com", "/a", []))
  }

  function RedirectTarget(): Ref {
    Absolute(Url("https", "example.com", "/b", []))
  }

  predicate IsOk(status: int) {
    status == 200
  }

  function RedirectCallInit(): Init {
    EmptyInit.(requestMethod := Some("POST"), body := Some(Text("x")), follow := Some(1),
               urlQueries := Some([("q", "1")]), validateStatus := Some(IsOk))
  }

  /** The caller's init with `follow` lowered to 0, method `GET` and a null body. */
  function HopInit(): Init {
    RedirectCallInit().(follow := Some(0), requestMethod := Some("GET"), body := Some(NullBody))
  }

  /** The set-up of a call with `urlQueries: q=1` and `validateStatus: s => s == 200`. */
  function RedirectPrepared(input: Url, init: Init): Prepared {
    Prepared(Absolute(input), Some(init), Absolute(input.(query := [("q", "1")])),
      init.(urlQueries := None, validateStatus := None),
      Local(None, None, None, Some(IsOk), None, None, None))
  }

  lemma RedirectPrepare(input: Url, init: Init, cookies: seq<StoredCookie>)
    requires input.path == "/a" || input.path == "/b"
    requires input.query == []
    requires init == RedirectCallInit() || init == HopInit()
    ensures Prepare(Absolute(input), Some(init), cookies) == Success(RedirectPrepared(input, init))
  {
    assert NormalPath(input.path) == input.path;
    assert AppendQuery(input, [("q", "1")]) == input.(query := [("q", "1")]);
  }

  /** The redirected call: its single 200 response resolves it. */
  lemma RedirectHop(w: World)
    requires w.outcomes == [Resp(200, "", [], None)]
    ensures var q := RedirectPrepared(RedirectTarget().url, HopInit());
      Exec(RedirectTarget(), Some(HopInit()), w)
      == Run(Resolved(ResponseOf(q, 1, 200, "")), World([], w.log + [Sent(q.finalInput, SentInit(q, 1))], w.cookies))
  {
    var q := RedirectPrepared(RedirectTarget().url, HopInit());
    RedirectPrepare(RedirectTarget().url, HopInit(), w.cookies);
    assert Exec(RedirectTarget(), Some(HopInit()), w) == Attempts(q, 1, w);
    assert !FollowsRedirect(q, 200);
    var w1 := w.(outcomes := [], log := w.log + [Sent(q.finalInput, SentInit(q, 1))]);
    assert Attempts(q, 1, w) == Answer(q, 1, w.outcomes[0], w1);
  }

  /** The whole redirected call, written out. */
  function RedirectRun(): Run {
    var p := RedirectPrepared(RedirectInput().url, RedirectCallInit());
    var q := RedirectPrepared(RedirectTarget().url, HopInit());
    Run(Resolved(ResponseOf(q, 1, 200, "")),
        World([], [Sent(p.finalInput, SentInit(p, 1)), Sent(q.finalInput, SentInit(q, 1))], []))
  }

  lemma RedirectCall(input: Ref, init: Init, w: World)
    requires input == RedirectInput() && init == RedirectCallInit()
    requires w == World([Resp(302, "", [], Some(RedirectTarget())), Resp(200, "", [], None)], [], [])
    ensures Exec(input, Some(init), w) == RedirectRun()
  {
    var p := RedirectPrepared(input.url, init);
    RedirectPrepare(input.url, init, w.cookies);
    ExecPrepared(input, Some(init), w, p);
    RedirectSettings(p);
    RedirectFollowed(p, 1, w);
    var w1 := World(w.outcomes[1..], w.log + [Sent(p.finalInput, SentInit(p, 1))], StoreCookies(p, w.outcomes[0].setCookies, w.cookies));
    assert Location(w.outcomes[0].location) == RedirectTarget() && RedirectInit(p, w.outcomes[0].status) == HopInit();
    RedirectHop(w1);
    RedirectRunIs(p, w1);
  }

  /** The hop's result on the world after the first request is the whole run. */
  lemma RedirectRunIs(p: Prepared, w1: World)
    requires p == RedirectPrepared(RedirectInput().url, RedirectCallInit())
    requires w1 == World([Resp(200, "", [], None)], [Sent(p.finalInput, SentInit(p, 1))], [])
    ensures var q := RedirectPrepared(RedirectTarget().url, HopInit());
      Run(Resolved(ResponseOf(q, 1, 200, "")), World([], w1.log + [Sent(q.finalInput, SentInit(q, 1))], w1.cookies))
      == RedirectRun()
  {
  }

  /** The redirect test's call follows a 302 into the hop's init, without a jar. */
  lemma RedirectSettings(p: Prepared)
    requires p == RedirectPrepared(RedirectInput().url, RedirectCallInit())
    ensures FollowsRedirect(p, 302) && RedirectInit(p, 302) == HopInit() && p.local.jar.None?
  {
  }

  /**
   * A 302 with `follow: 1` is followed even though `validateStatus` refuses 302: the
   * redirected request goes to the location with the caller's `urlQueries` appended
   * again, as a `GET` without a body and with `follow: 0`, and its response is the result.
   */
  lemma RedirectExample()
    ensures var r := Exec(RedirectInput(), Some(RedirectCallInit()),
              World([Resp(302, "", [], Some(RedirectTarget())), Resp(200, "", [], None)], [], []));
      var there := Absolute(Url("https", "example.com", "/b", [("q", "1")]));
      && r.settled.Resolved?
      && r.settled.response.status == 200
      && r.settled.response.url == there
      && |r.world.log| == 2
      && r.world.log[1].Sent? && r.world.log[1].url == there
      && r.world.log[1].init.requestMethod == Some("GET") && r.world.log[1].init.body == Some(NullBody)
      && r.world.log[1].init.follow == Some(0)
  {
    RedirectCall(RedirectInput(), RedirectCallInit(),
      World([Resp(302, "", [], Some(RedirectTarget())), Resp(200, "", [], None)], [], []));
  }

  /**
   * As written, a negative `follow` also enables redirects, and every hop lowers it
   * further, so it never reaches the `0` that would stop the chain.
   */
  lemma NegativeFollowRedirects(p: Prepared)
    requires p.finalInit.redirect.None? && p.finalInit.follow == Some(-1)
    ensures FollowsRedirect(p, 302)
    ensures RedirectInit(p, 302).follow == Some(-2)
  {
  }

  /** The evidently intended rule, `(finalInit.follow ?? 0) > 0`. */
  predicate FollowsRedirectIntended(p: Prepared, status: int) {
    && IsRedirectStatus(status)
    && p.finalInit.redirect != Some("manual")
    && p.finalInit.follow.GetOr(0) > 0
  }

  /**
   * Under the intended rule a followed redirect leaves a `follow` that is still
   * non-negative and strictly smaller, so a chain of redirects has at most the
   * caller's `follow` hops; a negative or absent `follow` follows nothing.
   */
  lemma IntendedFollowBounded(p: Prepared, status: int)
    ensures FollowsRedirectIntended(p, status) ==>
      && RedirectInit(p, status).follow.Some?
      && 0 <= RedirectInit(p, status).follow.value < p.finalInit.follow.value
    ensures (p.finalInit.follow.None? || p.finalInit.follow.value <= 0) ==> !FollowsRedirectIntended(p, status)
  {
  }

  // ---- provenance ---------------------------------------------------------------------------

  /**
   * `response.request` gives the caller's input and init, the URL with the queries
   * appended, and the stripped init, which is `{}` for a call with only `urlQueries`.
   */
  lemma ProvenanceExample()
    ensures var init := EmptyInit.(urlQueries := Some([("a", "1"), ("b", "2")]));
      var r := Exec(Absolute(ExampleUrl), Some(init), World([Resp(200, "OK", [], None)], [], []));
      && r.settled.Resolved?
      && r.settled.response.request.info == Absolute(ExampleUrl)
      && r.settled.response.request.init == Some(init)
      && r.settled.response.request.finalInfo.Absolute?
      && Href(r.settled.response.request.finalInfo.url) == "https://example.com/?a=1&b=2"
      && r.settled.response.request.finalInit == EmptyInit
  {
    var init := EmptyInit.(urlQueries := Some([("a", "1"), ("b", "2")]));
    var w := World([Resp(200, "OK", [], None)], [], []);
    var p := Prepare(Absolute(ExampleUrl), Some(init), []).value;
    assert Exec(Absolute(ExampleUrl), Some(init), w) == Attempts(p, 1, w);
    QueryMergeExample();
  }
}
