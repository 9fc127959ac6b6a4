// `fetch` of src/utils/fetch/fto-fetch.ts: one call of the underlying transport per
// attempt, with query parameters, a cookie jar, a per-attempt timeout, a status check,
// retries and cookie-aware redirects layered on top.
//
// The transport (node-fetch), the timers and the caller's hooks are outside the model:
// an `Environment` answers each exchange from a finite schedule of outcomes and records
// every observable effect. The pure functions `Exec`, `Attempts` and `Recover` specify
// a whole call; the method `Fetch` performs it step by step and is proved to agree.

module FtoFetch {
  import opened Wrappers
  import opened Url
  import OrderedMap
  import Js
  import opened FetchErrors
  import opened CookieJar

  // ---- data model ---------------------------------------------------------------

  datatype Body = NullBody | Text(text: string)

  /** The `jar` option: absent, explicitly `null`, or a jar object. */
  datatype JarSetting = Unset | NullJar | UseJar(jar: Jar)

  /** `jarOptions`; of the cookie library's options only `ignoreError` is modelled. */
  datatype JarOptions = JarOptions(ignoreError: Option<bool>)

  /** A caller's abort signal, or the signal of the timeout controller of one attempt. */
  datatype Signal = CallerSignal(id: nat) | TimeoutSignal(attempt: nat)

  /** A `beforeRetry` callback, known by a label. */
  datatype Hook = Hook(name: string)

  /** What `retryOn` may read of the response of the failed attempt. */
  datatype ResponseHead = ResponseHead(status: int, statusText: string)

  type RetryPredicate = (nat, Error, Option<ResponseHead>) -> bool

  /** `RequestInit` with the extra options; `None` is an absent (undefined) property. */
  datatype Init = Init(
    requestMethod: Option<string>,
    headers: Option<OrderedMap.Map>,
    body: Option<Body>,
    redirect: Option<string>,
    follow: Option<int>,
    signal: Option<Signal>,
    urlQueries: Option<OrderedMap.Map>,
    jar: JarSetting,
    jarOptions: Option<JarOptions>,
    timeout: Option<int>,
    validateStatus: Option<int -> bool>,
    retryOn: Option<RetryPredicate>,
    retryDelay: Option<int>,
    beforeRetry: Option<Hook>)

  /** `{}`. */
  const EmptyInit := Init(None, None, None, None, None, None, None, Unset, None, None, None, None, None, None)

  /** The options `fetch` takes out of the init before the first attempt. */
  datatype Local = Local(
    jar: Option<Jar>,
    jarOptions: Option<JarOptions>,
    timeout: Option<int>,
    validateStatus: Option<int -> bool>,
    retryDelay: Option<int>,
    retryOn: Option<RetryPredicate>,
    beforeRetry: Option<Hook>)

  /** The state set up once per call: the caller's input and init, and the final ones. */
  datatype Prepared = Prepared(input: Ref, init: Option<Init>, finalInput: Ref, finalInit: Init, local: Local)

  /** `response.request`. */
  datatype Provenance = Provenance(info: Ref, init: Option<Init>, finalInfo: Ref, finalInit: Init)

  datatype Response = Response(status: int, statusText: string, url: Ref, request: Provenance)

  /** What the transport does with one exchange. */
  datatype Outcome =
    | Resp(status: int, statusText: string, setCookies: seq<string>, location: Option<Ref>)
    | Fail(name: string, message: string)
      /** The request was aborted; `timerFired` says whether this attempt's timer did it. */
    | Abort(timerFired: bool)

  /** What `node-fetch` rejects a URL that is not absolute with, before any network use. */
  const RelativeRejected := Fail("TypeError", "Only absolute URLs are supported")

  /**
   * What `nodeFetch(url, …)` gives when the transport's scheduled answer is `o`:
   * `node-fetch` refuses a relative URL itself, so `o` only counts for an absolute one.
   */
  function Delivered(url: Ref, o: Outcome): (d: Outcome)
    ensures url.Absolute? ==> d == o
    ensures url.Relative? ==> d == RelativeRejected
    ensures o.Fail? ==> d.Fail?
  {
    if url.Relative? then RelativeRejected else o
  }

  /** Everything a call does that its caller could observe, besides its result. */
  datatype Effect =
    | Sent(url: Ref, init: Init)
    | AskRetry(attempt: nat, error: Error)
    | BeforeRetry(hook: Hook, error: Error)
    | Wait(ms: int)

  datatype Settled = Resolved(response: Response) | Rejected(error: Error) | Pending

  /** The transport's remaining schedule, the effect log and the jar's stored cookies. */
  datatype World = World(outcomes: seq<Outcome>, log: seq<Effect>, cookies: seq<StoredCookie>)

  datatype Run = Run(settled: Settled, world: World)

  /** `w'` is `w` after some steps: outcomes consumed from the front, effects and cookies appended. */
  ghost predicate Later(w: World, w': World) {
    && |w'.outcomes| <= |w.outcomes|
    && w'.outcomes == w.outcomes[|w.outcomes| - |w'.outcomes|..]
    && w.log <= w'.log
    && w.cookies <= w'.cookies
  }

  // ---- headers ------------------------------------------------------------------

  /** `headers.append(name, value)` on a `Headers` object: a second value is joined with `, `. */
  function HeadersAppend(h: OrderedMap.Map, name: string, value: string): (r: OrderedMap.Map)
    ensures OrderedMap.KeysOf(r) == if name in OrderedMap.KeysOf(h) then OrderedMap.KeysOf(h) else OrderedMap.KeysOf(h) + [name]
    ensures OrderedMap.Get(r, name) == Some(match OrderedMap.Get(h, name) case Some(prev) => prev + ", " + value case None => value)
    ensures forall k :: k != name ==> OrderedMap.Get(r, k) == OrderedMap.Get(h, k)
  {
    var v := match OrderedMap.Get(h, name) case Some(prev) => prev + ", " + value case None => value;
    OrderedMap.PutKeys(h, name, v);
    forall k ensures OrderedMap.Get(OrderedMap.Put(h, name, v), k) == (if k == name then Some(v) else OrderedMap.Get(h, k)) {
      OrderedMap.PutGet(h, name, v, k);
    }
    OrderedMap.Put(h, name, v)
  }

  /** `new Headers(init)`: names are lower-cased, repeated names joined. */
  function HeadersFrom(h: OrderedMap.Map): (r: OrderedMap.Map)
    ensures OrderedMap.Distinct(r)
  {
    if h == [] then []
    else
      var acc := HeadersFrom(h[..|h| - 1]);
      var name := Js.LowerAscii(h[|h| - 1].0);
      OrderedMap.PutDistinct(acc, name, match OrderedMap.Get(acc, name) case Some(prev) => prev + ", " + h[|h| - 1].1 case None => h[|h| - 1].1);
      HeadersAppend(acc, name, h[|h| - 1].1)
  }

  // ---- preparation -----------------------------------------------------------------

  function JarOf(s: JarSetting): Option<Jar> {
    if s.UseJar? then Some(s.jar) else None
  }

  /** `jar?.getCookieString(url)`, empty when there is no jar. */
  function CookieStringFor(jar: Option<Jar>, cookies: seq<StoredCookie>, url: Ref): string {
    if jar.Some? then jar.value.lookup(cookies, url) else ""
  }

  /**
   * The set-up before the first attempt: appends the query parameters to the input,
   * adds the jar's cookies as a `cookie` header, and moves the extra options out of
   * the init. Of the statement deleting `jar` and `jarOptions` only `jar` is deleted,
   * and of the one deleting `retryDelay`, `retryOn` and `beforeRetry` only `retryDelay`:
   * a `delete a, b` statement deletes `a` alone.
   */
  function Prepare(input: Ref, init: Option<Init>, cookies: seq<StoredCookie>): (r: Result<Prepared, Error>)
    ensures var i := init.GetOr(EmptyInit);
      r.Failure? <==> i.urlQueries.Some? && input.Relative?
    ensures r.Failure? ==> r.error == InvalidUrl
    ensures r.Success? ==>
      var i := init.GetOr(EmptyInit);
      var p := r.value;
      && p.input == input && p.init == init
      && p.finalInput == (if i.urlQueries.Some? then Absolute(AppendQuery(input.url, i.urlQueries.value)) else input)
      && p.finalInit.urlQueries.None? && p.finalInit.jar.Unset? && p.finalInit.timeout.None?
      && p.finalInit.validateStatus.None? && p.finalInit.retryDelay.None?
      && p.finalInit.jarOptions == i.jarOptions && p.finalInit.retryOn == i.retryOn && p.finalInit.beforeRetry == i.beforeRetry
      && p.finalInit.requestMethod == i.requestMethod && p.finalInit.body == i.body && p.finalInit.redirect == i.redirect
      && p.finalInit.follow == i.follow && p.finalInit.signal == i.signal
      && p.local == Local(JarOf(i.jar), i.jarOptions, i.timeout, i.validateStatus, i.retryDelay, i.retryOn, i.beforeRetry)
      && var cookie := CookieStringFor(JarOf(i.jar), cookies, p.finalInput);
         p.finalInit.headers == if cookie == "" then i.headers else Some(HeadersAppend(HeadersFrom(i.headers.GetOr([])), "cookie", cookie))
  {
    var i := init.GetOr(EmptyInit);
    if i.urlQueries.Some? && input.Relative? then Failure(InvalidUrl)
    else
      var finalInput := if i.urlQueries.Some? then Absolute(AppendQuery(input.url, i.urlQueries.value)) else input;
      var jar := JarOf(i.jar);
      var cookie := CookieStringFor(jar, cookies, finalInput);
      var headers := if cookie != "" then Some(HeadersAppend(HeadersFrom(i.headers.GetOr([])), "cookie", cookie)) else i.headers;
      var finalInit := i.(headers := headers, urlQueries := None, jar := Unset, timeout := None,
                          validateStatus := None, retryDelay := None);
      Success(Prepared(input, init, finalInput, finalInit,
        Local(jar, i.jarOptions, i.timeout, i.validateStatus, i.retryDelay, i.retryOn, i.beforeRetry)))
  }

  /** Whether each attempt gets its own timer: `timeout` is present and not zero. */
  predicate Armed(l: Local) {
    l.timeout.Some? && l.timeout.value != 0
  }

  /** `finalInit` during attempt `n`: its signal is that attempt's timeout signal when armed. */
  function AttemptInit(p: Prepared, n: nat): Init {
    if Armed(p.local) then p.finalInit.(signal := Some(TimeoutSignal(n))) else p.finalInit
  }

  /** What the transport is given in attempt `n`: redirects are never followed by it. */
  function SentInit(p: Prepared, n: nat): Init {
    AttemptInit(p, n).(redirect := Some("manual"))
  }

  /** `{ ignoreError: true, ...jarOptions }`. */
  function IgnoreError(options: Option<JarOptions>): bool {
    if options.Some? && options.value.ignoreError.Some? then options.value.ignoreError.value else true
  }

  /** The `setCookie` calls for the `set-cookie` headers of a response, in order. */
  function CookieRecords(setCookies: seq<string>, url: Ref, options: Option<JarOptions>): (r: seq<StoredCookie>)
    ensures |r| == |setCookies|
    ensures forall i :: 0 <= i < |r| ==> r[i] == StoredCookie(setCookies[i], url, IgnoreError(options))
  {
    seq(|setCookies|, i requires 0 <= i < |setCookies| => StoredCookie(setCookies[i], url, IgnoreError(options)))
  }

  function StoreCookies(p: Prepared, setCookies: seq<string>, cookies: seq<StoredCookie>): seq<StoredCookie> {
    if p.local.jar.Some? then cookies + CookieRecords(setCookies, p.finalInput, p.local.jarOptions) else cookies
  }

  predicate IsRedirectStatus(status: int) {
    status == 301 || status == 302 || status == 303 || status == 307
  }

  /**
   * The redirect condition as written: `finalInit.follow ?? 0 > 0` parses as
   * `finalInit.follow ?? (0 > 0)`, so any present non-zero `follow` enables it.
   */
  predicate FollowsRedirect(p: Prepared, status: int) {
    && IsRedirectStatus(status)
    && p.finalInit.redirect != Some("manual")
    && p.finalInit.follow.Some? && p.finalInit.follow.value != 0
  }

  /**
   * The init of the redirected call: the caller's own init (not the final one), with
   * `follow` one lower and, unless the status is 307, method `GET` and a null body.
   */
  function RedirectInit(p: Prepared, status: int): (i: Init)
    ensures var c := p.init.GetOr(EmptyInit);
      && i.follow == (if p.finalInit.follow.Some? then Some(p.finalInit.follow.value - 1) else None)
      && (status == 307 ==> i.requestMethod == c.requestMethod && i.body == c.body)
      && (status != 307 ==> i.requestMethod == Some("GET") && i.body == Some(NullBody))
      && i.(follow := c.follow, requestMethod := c.requestMethod, body := c.body) == c
    ensures i.jar == p.init.GetOr(EmptyInit).jar
  {
    var hop := p.init.GetOr(EmptyInit).(follow := if p.finalInit.follow.Some? then Some(p.finalInit.follow.value - 1) else None);
    if status == 307 then hop else hop.(requestMethod := Some("GET"), body := Some(NullBody))
  }

  /** The location a redirect goes to; a missing header becomes the string `null`. */
  function Location(location: Option<Ref>): Ref {
    location.GetOr(Relative("null"))
  }

  /** An abort caused by this attempt's own timer becomes `timeoutError`. */
  function Classify(e: Error, didTimeout: bool): (r: Error)
    ensures r == Timeout <==> (Name(e) == "AbortError" && didTimeout) || e == Timeout
    ensures !(Name(e) == "AbortError" && didTimeout) ==> r == e
  {
    if Name(e) == "AbortError" && didTimeout then Timeout else e
  }

  function ResponseOf(p: Prepared, n: nat, status: int, statusText: string): Response {
    Response(status, statusText, p.finalInput, Provenance(p.input, p.init, p.finalInput, AttemptInit(p, n)))
  }

  // ---- specification ---------------------------------------------------------------

  /** A whole call `fetch(input, init)`. */
  function Exec(input: Ref, init: Option<Init>, w: World): (r: Run)
    decreases |w.outcomes|, 1
    ensures Later(w, r.world)
    ensures JarOf(init.GetOr(EmptyInit).jar).None? ==> r.world.cookies == w.cookies
  {
    match Prepare(input, init, w.cookies)
    case Failure(e) => Run(Rejected(e), w)
    case Success(p) => Attempts(p, 1, w)
  }

  /**
   * Attempt `n` and whatever follows it. Each transport call takes the next scheduled
   * outcome, as `node-fetch` delivers it for the URL.
   */
  function Attempts(p: Prepared, n: nat, w: World): (r: Run)
    decreases |w.outcomes|, 0
    ensures Later(w, r.world)
    ensures p.local.jar == JarOf(p.init.GetOr(EmptyInit).jar) && p.local.jar.None? ==> r.world.cookies == w.cookies
  {
    if w.outcomes == [] then Run(Pending, w)
    else
      var w1 := w.(outcomes := w.outcomes[1..], log := w.log + [Sent(p.finalInput, SentInit(p, n))]);
      var r := Answer(p, n, Delivered(p.finalInput, w.outcomes[0]), w1);
      LaterTrans(w, w1, r.world);
      r
  }

  /** Attempt `n` once the transport has answered with `o`. */
  function Answer(p: Prepared, n: nat, o: Outcome, w: World): (r: Run)
    decreases |w.outcomes|, 3
    ensures Later(w, r.world)
    ensures p.local.jar == JarOf(p.init.GetOr(EmptyInit).jar) && p.local.jar.None? ==> r.world.cookies == w.cookies
  {
    match o
    case Fail(name, message) => Recover(p, n, Thrown(name, message), None, w)
    case Abort(timerFired) => Recover(p, n, Classify(Aborted, Armed(p.local) && timerFired), None, w)
    case Resp(status, statusText, setCookies, location) => AnswerResponse(p, n, status, statusText, setCookies, location, w)
  }

  /**
   * The rest of the `try` block of attempt `n` once a response has arrived: its cookies
   * are stored, a redirect is followed, and the status is checked.
   */
  function AnswerResponse(p: Prepared, n: nat, status: int, statusText: string, setCookies: seq<string>,
                          location: Option<Ref>, w: World): (r: Run)
    decreases |w.outcomes|, 2
    ensures Later(w, r.world)
    ensures p.local.jar == JarOf(p.init.GetOr(EmptyInit).jar) && p.local.jar.None? ==> r.world.cookies == w.cookies
  {
    var w1 := w.(cookies := StoreCookies(p, setCookies, w.cookies));
    var head := Some(ResponseHead(status, statusText));
    if FollowsRedirect(p, status) then
      var inner := Exec(Location(location), Some(RedirectInit(p, status)), w1);
      if inner.settled.Rejected? then
        var r := Recover(p, n, inner.settled.error, head, inner.world);
        LaterTrans(w1, inner.world, r.world);
        r
      else inner
    else if p.local.validateStatus.Some? && !p.local.validateStatus.value(status) then
      Recover(p, n, HttpStatus(status, statusText), head, w1)
    else
      Run(Resolved(ResponseOf(p, n, status, statusText)), w1)
  }

  lemma LaterTrans(a: World, b: World, c: World)
    requires Later(a, b) && Later(b, c)
    ensures Later(a, c)
  {
  }

  /** The `catch` of attempt `n`: ask `retryOn`, then retry or reject. */
  function Recover(p: Prepared, n: nat, e: Error, head: Option<ResponseHead>, w: World): (r: Run)
    decreases |w.outcomes|, 1
    ensures Later(w, r.world)
    ensures p.local.jar == JarOf(p.init.GetOr(EmptyInit).jar) && p.local.jar.None? ==> r.world.cookies == w.cookies
  {
    if p.local.retryOn.Some? then
      var w1 := w.(log := w.log + [AskRetry(n, e)]);
      if p.local.retryOn.value(n, e, head) then
        var w2 := if p.local.beforeRetry.Some? then w1.(log := w1.log + [BeforeRetry(p.local.beforeRetry.value, e)]) else w1;
        var w3 := if p.local.retryDelay.Some? && p.local.retryDelay.value != 0 then w2.(log := w2.log + [Wait(p.local.retryDelay.value)]) else w2;
        var r := Attempts(p, n + 1, w3);
        LaterTrans(w, w3, r.world);
        r
      else
        Run(Rejected(e), w1)
    else
      Run(Rejected(e), w)
  }

  // ---- the imperative call ---------------------------------------------------------

  /** The transport and the timers: answers exchanges from a schedule and logs effects. */
  class Environment {
    var outcomes: seq<Outcome>
    var log: seq<Effect>

    constructor (outcomes: seq<Outcome>)
      ensures this.outcomes == outcomes && log == []
    {
      this.outcomes := outcomes;
      log := [];
    }

    /** `nodeFetch(url, init)`. */
    method Exchange(url: Ref, init: Init) returns (o: Outcome)
      requires outcomes != []
      modifies this
      ensures o == Delivered(url, old(outcomes)[0]) && outcomes == old(outcomes)[1..]
      ensures log == old(log) + [Sent(url, init)]
    {
      o := Delivered(url, outcomes[0]);
      outcomes := outcomes[1..];
      log := log + [Sent(url, init)];
    }

    /** A callback call or a timer wait. */
    method Record(e: Effect)
      modifies this
      ensures outcomes == old(outcomes) && log == old(log) + [e]
    {
      log := log + [e];
    }
  }

  function JarObjects(init: Option<Init>): set<object> {
    if init.Some? && init.value.jar.UseJar? then {init.value.jar.jar} else {}
  }

  /** What the call's jar holds, or nothing when it has none. */
  function CookiesOf(init: Option<Init>): seq<StoredCookie>
    reads JarObjects(init)
  {
    if init.Some? && init.value.jar.UseJar? then init.value.jar.jar.stored else []
  }

  /** The retry decision of attempt `n`, performed on the environment. */
  method Retry(p: Prepared, n: nat, e: Error, head: Option<ResponseHead>, env: Environment, ghost cookies: seq<StoredCookie>)
    returns (again: bool)
    modifies env
    ensures env.outcomes == old(env.outcomes)
    ensures var r := Recover(p, n, e, head, World(old(env.outcomes), old(env.log), cookies));
      if again then r == Attempts(p, n + 1, World(env.outcomes, env.log, cookies))
      else r == Run(Rejected(e), World(env.outcomes, env.log, cookies))
  {
    again := false;
    if p.local.retryOn.Some? {
      env.Record(AskRetry(n, e));
      if p.local.retryOn.value(n, e, head) {
        if p.local.beforeRetry.Some? {
          env.Record(BeforeRetry(p.local.beforeRetry.value, e));
        }
        if p.local.retryDelay.Some? && p.local.retryDelay.value != 0 {
          env.Record(Wait(p.local.retryDelay.value));
        }
        again := true;
      }
    }
  }

  /** The `setCookie` loop of one response. */
  method StoreAll(p: Prepared, setCookies: seq<string>, ghost init: Option<Init>)
    requires p.local.jar == JarOf(init.GetOr(EmptyInit).jar)
    modifies JarObjects(init)
    ensures CookiesOf(init) == StoreCookies(p, setCookies, old(CookiesOf(init)))
  {
    if p.local.jar.Some? {
      var jar := p.local.jar.value;
      for i := 0 to |setCookies|
        invariant jar.stored == old(jar.stored) + CookieRecords(setCookies[..i], p.finalInput, p.local.jarOptions)
      {
        jar.SetCookie(StoredCookie(setCookies[i], p.finalInput, IgnoreError(p.local.jarOptions)));
      }
      assert setCookies[..|setCookies|] == setCookies;
    }
  }

  /**
   * Attempt `n` of a call: either the call settles with `settled`, or `again` says
   * that attempt `n + 1` follows.
   */
  method Attempt(p: Prepared, n: nat, ghost init: Option<Init>, env: Environment) returns (settled: Settled, again: bool)
    requires p.init == init && p.local.jar == JarOf(init.GetOr(EmptyInit).jar)
    modifies env, JarObjects(init)
    decreases |env.outcomes|, 0
    ensures again ==> |env.outcomes| < old(|env.outcomes|)
    ensures var r := Attempts(p, n, World(old(env.outcomes), old(env.log), old(CookiesOf(init))));
      if again then r == Attempts(p, n + 1, World(env.outcomes, env.log, CookiesOf(init)))
      else r == Run(settled, World(env.outcomes, env.log, CookiesOf(init)))
  {
    again := false;
    if env.outcomes == [] {
      return Pending, false;
    }
    var outcome := env.Exchange(p.finalInput, SentInit(p, n));
    var error: Error;
    var head: Option<ResponseHead> := None;
    match outcome {
      case Fail(name, message) =>
        error := Thrown(name, message);
      case Abort(timerFired) =>
        error := Classify(Aborted, Armed(p.local) && timerFired);
      case Resp(status, statusText, setCookies, location) =>
        var failure;
        settled, failure := ReceiveResponse(p, n, init, env, status, statusText, setCookies, location);
        if failure.None? {
          return settled, false;
        }
        error := failure.value;
        head := Some(ResponseHead(status, statusText));
    }
    again := Retry(p, n, error, head, env, CookiesOf(init));
    settled := if again then Pending else Rejected(error);
  }

  /**
   * The `try` block of attempt `n` once the transport has answered: either the call
   * settles with `settled`, or `failure` is the error that goes to the retry decision.
   */
  method ReceiveResponse(p: Prepared, n: nat, ghost init: Option<Init>, env: Environment,
                         status: int, statusText: string, setCookies: seq<string>, location: Option<Ref>)
    returns (settled: Settled, failure: Option<Error>)
    requires p.init == init && p.local.jar == JarOf(init.GetOr(EmptyInit).jar)
    modifies env, JarObjects(init)
    decreases |env.outcomes|, 2
    ensures |env.outcomes| <= old(|env.outcomes|)
    ensures var r := AnswerResponse(p, n, status, statusText, setCookies, location,
                                    World(old(env.outcomes), old(env.log), old(CookiesOf(init))));
      var now := World(env.outcomes, env.log, CookiesOf(init));
      if failure.Some? then r == Recover(p, n, failure.value, Some(ResponseHead(status, statusText)), now)
      else r == Run(settled, now)
  {
    settled, failure := Pending, None;
    StoreAll(p, setCookies, init);
    if FollowsRedirect(p, status) {
      assert JarObjects(Some(RedirectInit(p, status))) == JarObjects(init);
      settled := Fetch(Location(location), Some(RedirectInit(p, status)), env);
      if settled.Rejected? {
        failure := Some(settled.error);
      }
    } else if p.local.validateStatus.Some? && !p.local.validateStatus.value(status) {
      failure := Some(HttpStatus(status, statusText));
    } else {
      settled := Resolved(ResponseOf(p, n, status, statusText));
    }
  }

  /** `fetch(input, init)`. */
  method Fetch(input: Ref, init: Option<Init>, env: Environment) returns (settled: Settled)
    modifies env, JarObjects(init)
    decreases |env.outcomes|, 1
    ensures var r := Exec(input, init, World(old(env.outcomes), old(env.log), old(CookiesOf(init))));
      && settled == r.settled
      && env.outcomes == r.world.outcomes && env.log == r.world.log
      && CookiesOf(init) == r.world.cookies
  {
    var prepared := Prepare(input, init, CookiesOf(init));
    if prepared.Failure? {
      return Rejected(prepared.error);
    }
    var p := prepared.value;
    var n := 1;
    while true
      invariant p == prepared.value
      invariant Exec(input, init, World(old(env.outcomes), old(env.log), old(CookiesOf(init))))
                == Attempts(p, n, World(env.outcomes, env.log, CookiesOf(init)))
      decreases |env.outcomes|
    {
      var again;
      settled, again := Attempt(p, n, init, env);
      if !again {
        return;
      }
      n := n + 1;
    }
  }
}
