// Properties of `fetch` (src/utils/fetch/fto-fetch.ts), stated over the specification
// functions of module FtoFetch.

module FtoFetchProps {
  import opened Wrappers
  import opened Url
  import OrderedMap
  import Js
  import opened FetchErrors
  import opened CookieJar
  import opened FtoFetch

  // ---- counting effects ------------------------------------------------------------

  datatype Kind = Send | Ask | Hooked | Waited

  function KindOf(e: Effect): Kind {
    match e
    case Sent(_, _) => Send
    case AskRetry(_, _) => Ask
    case BeforeRetry(_, _) => Hooked
    case Wait(_) => Waited
  }

  function Kinds(log: seq<Effect>): (ks: seq<Kind>)
    ensures |ks| == |log| && forall i :: 0 <= i < |log| ==> ks[i] == KindOf(log[i])
  {
    seq(|log|, i requires 0 <= i < |log| => KindOf(log[i]))
  }

  /** How many effects of kind `k` a log holds. */
  function Count(log: seq<Effect>, k: Kind): nat {
    multiset(Kinds(log))[k]
  }

  lemma CountAppend(a: seq<Effect>, b: seq<Effect>)
    ensures forall k :: Count(a + b, k) == Count(a, k) + Count(b, k)
  {
    assert Kinds(a + b) == Kinds(a) + Kinds(b);
  }

  /** The `(attempt, error)` pairs that `retryOn` was asked about, in order. */
  function Asked(log: seq<Effect>): seq<(nat, Error)> {
    if log == [] then []
    else Asked(log[..|log| - 1]) + (if log[|log| - 1].AskRetry? then [(log[|log| - 1].attempt, log[|log| - 1].error)] else [])
  }

  // ---- preparation -------------------------------------------------------------------

  const ExampleUrl := Url("https", "example.com", "", [])

  /** Query entries go after the URL's own query, in order; an empty path becomes `/`. */
  lemma QueryMerge(input: Url, init: Init, cookies: seq<StoredCookie>)
    requires init.urlQueries.Some? && init.urlQueries.value != []
    ensures Prepare(Absolute(input), Some(init), cookies).Success?
    ensures var p := Prepare(Absolute(input), Some(init), cookies).value;
      && p.finalInput.Absolute?
      && p.finalInput.url.query == input.query + init.urlQueries.value
      && Href(p.finalInput.url)
         == input.scheme + "://" + input.host + NormalPath(input.path) + "?"
            + (if input.query == [] then "" else Serialize(input.query) + "&") + Serialize(init.urlQueries.value)
  {
    AppendQueryHref(input, init.urlQueries.value);
  }

  /** `fetch('https://example.com', { urlQueries: { a: '1', b: '2' } })` requests `https://example.com/?a=1&b=2`. */
  lemma QueryMergeExample()
    ensures var p := Prepare(Absolute(ExampleUrl), Some(EmptyInit.(urlQueries := Some([("a", "1"), ("b", "2")]))), []);
      p.Success? && p.value.finalInput.Absolute? && Href(p.value.finalInput.url) == "https://example.com/?a=1&b=2"
  {
    AppendQueryExample();
  }

  /**
   * A `cookie` header is added exactly when the jar yields a non-empty string; the
   * caller's headers are then lower-cased and kept in order, with the cookie last.
   */
  lemma CookieHeader(input: Ref, init: Option<Init>, cookies: seq<StoredCookie>)
    requires Prepare(input, init, cookies).Success?
    ensures var p := Prepare(input, init, cookies).value;
      var i := init.GetOr(EmptyInit);
      var cookie := CookieStringFor(JarOf(i.jar), cookies, p.finalInput);
      var own := HeadersFrom(i.headers.GetOr([]));
      if cookie == "" then p.finalInit.headers == i.headers
      else
        && p.finalInit.headers.Some?
        && OrderedMap.Distinct(p.finalInit.headers.value)
        && OrderedMap.KeysOf(p.finalInit.headers.value)
           == OrderedMap.KeysOf(own) + (if "cookie" in OrderedMap.KeysOf(own) then [] else ["cookie"])
        && OrderedMap.Get(p.finalInit.headers.value, "cookie")
           == Some(match OrderedMap.Get(own, "cookie") case Some(prev) => prev + ", " + cookie case None => cookie)
  {
    var p := Prepare(input, init, cookies).value;
    var i := init.GetOr(EmptyInit);
    var cookie := CookieStringFor(JarOf(i.jar), cookies, p.finalInput);
    var own := HeadersFrom(i.headers.GetOr([]));
    assert p.finalInit.headers == if cookie == "" then i.headers else Some(HeadersAppend(own, "cookie", cookie));
    if cookie != "" {
      CookieAppended(own, cookie);
    }
  }

  /** Adding a cookie header to headers without repeated names repeats none. */
  lemma CookieAppended(own: OrderedMap.Map, cookie: string)
    requires OrderedMap.Distinct(own)
    ensures var h := HeadersAppend(own, "cookie", cookie);
      && OrderedMap.Distinct(h)
      && OrderedMap.KeysOf(h) == OrderedMap.KeysOf(own) + (if "cookie" in OrderedMap.KeysOf(own) then [] else ["cookie"])
      && OrderedMap.Get(h, "cookie") == Some(match OrderedMap.Get(own, "cookie") case Some(prev) => prev + ", " + cookie case None => cookie)
  {
    var v := match OrderedMap.Get(own, "cookie") case Some(prev) => prev + ", " + cookie case None => cookie;
    OrderedMap.PutDistinct(own, "cookie", v);
  }

  /** `new Headers({ 'X-Answer': '42', 'X-Foo': 'bar' })` plus the cookie `xxx=yyy`. */
  lemma CookieHeaderExample()
    ensures HeadersAppend(HeadersFrom([("X-Answer", "42"), ("X-Foo", "bar")]), "cookie", "xxx=yyy")
         == [("x-answer", "42"), ("x-foo", "bar"), ("cookie", "xxx=yyy")]
  {
    HeadersFromExample();
    CookieAfterTwo([("x-answer", "42"), ("x-foo", "bar")]);
  }

  lemma CookieAfterTwo(two: OrderedMap.Map)
    requires two == [("x-answer", "42"), ("x-foo", "bar")]
    ensures HeadersAppend(two, "cookie", "xxx=yyy") == [("x-answer", "42"), ("x-foo", "bar"), ("cookie", "xxx=yyy")]
  {
    assert OrderedMap.KeysOf(two) == ["x-answer", "x-foo"];
    HeadersAppendNew(two, "cookie", "xxx=yyy");
  }

  lemma HeadersFromExample()
    ensures HeadersFrom([("X-Answer", "42"), ("X-Foo", "bar")]) == [("x-answer", "42"), ("x-foo", "bar")]
  {
    Lowered("X-Answer", "x-answer");
    Lowered("X-Foo", "x-foo");
    HeadersFromPair(("X-Answer", "42"), ("X-Foo", "bar"));
  }

  /** Two headers with different names keep their order, each lower-cased. */
  lemma HeadersFromPair(x: (string, string), y: (string, string))
    requires Js.LowerAscii(x.0) != Js.LowerAscii(y.0)
    ensures HeadersFrom([x, y]) == [(Js.LowerAscii(x.0), x.1), (Js.LowerAscii(y.0), y.1)]
  {
    var h, one := [x, y], [(Js.LowerAscii(x.0), x.1)];
    assert h[..1] == [x];
    HeadersFromSingle(x);
    HeadersFromLast(h);
    assert OrderedMap.KeysOf(one) == [Js.LowerAscii(x.0)];
    HeadersAppendNew(one, Js.LowerAscii(y.0), y.1);
  }

  lemma HeadersFromSingle(x: (string, string))
    ensures HeadersFrom([x]) == [(Js.LowerAscii(x.0), x.1)]
  {
    assert [x][..0] == [];
    HeadersFromLast([x]);
    HeadersAppendNew([], Js.LowerAscii(x.0), x.1);
  }

  /** `new Headers` takes the entries in order, the last one through `append`. */
  lemma HeadersFromLast(h: OrderedMap.Map)
    requires h != []
    ensures HeadersFrom(h) == HeadersAppend(HeadersFrom(h[..|h| - 1]), Js.LowerAscii(h[|h| - 1].0), h[|h| - 1].1)
  {
  }

  /** Appending a header under a new name adds it at the end. */
  lemma HeadersAppendNew(h: OrderedMap.Map, name: string, value: string)
    requires name !in OrderedMap.KeysOf(h)
    ensures HeadersAppend(h, name, value) == h + [(name, value)]
  {
    OrderedMap.PutAbsent(h, name, value);
  }

  lemma Lowered(s: string, t: string)
    requires |s| == |t| && forall i :: 0 <= i < |s| ==> t[i] == Js.LowerChar(s[i])
    ensures Js.LowerAscii(s) == t
  {
  }

  // ---- one request per attempt ---------------------------------------------------------

  /** No response can make this call follow a redirect. */
  predicate NeverRedirects(p: Prepared) {
    p.finalInit.redirect == Some("manual") || p.finalInit.follow.None? || p.finalInit.follow == Some(0)
  }

  /** Every effect of `log` past `from` that is a transport call requests the final URL with the final headers. */
  predicate SameRequest(p: Prepared, log: seq<Effect>, from: nat) {
    forall i :: from <= i < |log| && log[i].Sent? ==>
      log[i].url == p.finalInput && log[i].init.headers == p.finalInit.headers
      && log[i].init.requestMethod == p.finalInit.requestMethod && log[i].init.body == p.finalInit.body
  }

  /**
   * URL and headers are computed once, before the loop: when no redirect is followed,
   * every attempt sends the same URL, headers, method and body.
   */
  lemma {:induction false} SameRequestEachAttempt(p: Prepared, n: nat, w: World)
    requires NeverRedirects(p)
    ensures SameRequest(p, Attempts(p, n, w).world.log, |w.log|)
    decreases |w.outcomes|, 0
  {
    if w.outcomes != [] {
      var w1 := w.(outcomes := w.outcomes[1..], log := w.log + [Sent(p.finalInput, SentInit(p, n))]);
      var o := Delivered(p.finalInput, w.outcomes[0]);
      var r := Attempts(p, n, w);
      assert r == Answer(p, n, o, w1);
      SameRequestAnswer(p, n, o, w1);
      SameRequestStep(p, n, w.log, r.world.log);
    }
  }

  /** What follows attempt `n`'s transport call sends the prepared request again, if anything. */
  lemma {:induction false} SameRequestAnswer(p: Prepared, n: nat, o: Outcome, w: World)
    requires NeverRedirects(p)
    ensures SameRequest(p, Answer(p, n, o, w).world.log, |w.log|)
    decreases |w.outcomes|, 3
  {
    match o
    case Fail(name, message) =>
      SameRequestRecover(p, n, Thrown(name, message), None, w);
    case Abort(timerFired) =>
      SameRequestRecover(p, n, Classify(Aborted, Armed(p.local) && timerFired), None, w);
    case Resp(status, statusText, setCookies, location) =>
      var w2 := w.(cookies := StoreCookies(p, setCookies, w.cookies));
      if p.local.validateStatus.Some? && !p.local.validateStatus.value(status) {
        SameRequestRecover(p, n, HttpStatus(status, statusText), Some(ResponseHead(status, statusText)), w2);
      }
  }

  /** The request an attempt logs is the prepared one. */
  lemma SameRequestStep(p: Prepared, n: nat, prefix: seq<Effect>, log: seq<Effect>)
    requires prefix + [Sent(p.finalInput, SentInit(p, n))] <= log
    requires SameRequest(p, log, |prefix| + 1)
    ensures SameRequest(p, log, |prefix|)
  {
    assert log[|prefix|] == Sent(p.finalInput, SentInit(p, n));
  }

  lemma {:induction false} SameRequestRecover(p: Prepared, n: nat, e: Error, head: Option<ResponseHead>, w: World)
    requires NeverRedirects(p)
    ensures SameRequest(p, Recover(p, n, e, head, w).world.log, |w.log|)
    decreases |w.outcomes|, 1
  {
    if p.local.retryOn.Some? && p.local.retryOn.value(n, e, head) {
      var w1 := w.(log := w.log + [AskRetry(n, e)]);
      var w2 := if p.local.beforeRetry.Some? then w1.(log := w1.log + [BeforeRetry(p.local.beforeRetry.value, e)]) else w1;
      var w3 := if p.local.retryDelay.Some? && p.local.retryDelay.value != 0 then w2.(log := w2.log + [Wait(p.local.retryDelay.value)]) else w2;
      SameRequestEachAttempt(p, n + 1, w3);
    }
  }

  // ---- a bound on the attempts ----------------------------------------------------------

  /** `retryOn` is absent or declines every attempt from `k` on. */
  ghost predicate GivesUpFrom(p: Prepared, k: nat) {
    p.local.retryOn.Some? ==> forall a: nat, e: Error, h: Option<ResponseHead> :: a >= k ==> !p.local.retryOn.value(a, e, h)
  }

  /**
   * When no redirect is followed and `retryOn` declines from attempt `k` on, a call
   * starting at attempt `n` makes at most `k - n + 1` transport calls.
   */
  lemma {:induction false} AttemptCap(p: Prepared, n: nat, k: nat, w: World)
    requires NeverRedirects(p) && GivesUpFrom(p, k) && n <= k
    ensures Count(Attempts(p, n, w).world.log, Send) <= Count(w.log, Send) + (k - n + 1)
    decreases |w.outcomes|, 0
  {
    if w.outcomes != [] {
      var sent := Sent(p.finalInput, SentInit(p, n));
      var w1 := w.(outcomes := w.outcomes[1..], log := w.log + [sent]);
      assert Attempts(p, n, w) == Answer(p, n, Delivered(p.finalInput, w.outcomes[0]), w1);
      CountAppend(w.log, [sent]);
      assert Kinds([sent]) == [Send];
      match Delivered(p.finalInput, w.outcomes[0])
      case Fail(name, message) =>
        RecoverCap(p, n, k, Thrown(name, message), None, w1);
      case Abort(timerFired) =>
        RecoverCap(p, n, k, Classify(Aborted, Armed(p.local) && timerFired), None, w1);
      case Resp(status, statusText, setCookies, location) =>
        var w2 := w1.(cookies := StoreCookies(p, setCookies, w1.cookies));
        if p.local.validateStatus.Some? && !p.local.validateStatus.value(status) {
          RecoverCap(p, n, k, HttpStatus(status, statusText), Some(ResponseHead(status, statusText)), w2);
        }
    }
  }

  lemma {:induction false} RecoverCap(p: Prepared, n: nat, k: nat, e: Error, head: Option<ResponseHead>, w: World)
    requires NeverRedirects(p) && GivesUpFrom(p, k) && n <= k
    ensures Count(Recover(p, n, e, head, w).world.log, Send) <= Count(w.log, Send) + (k - n)
    decreases |w.outcomes|, 1
  {
    if p.local.retryOn.Some? {
      var ask := AskRetry(n, e);
      CountAppend(w.log, [ask]);
      assert Kinds([ask]) == [Ask];
      if p.local.retryOn.value(n, e, head) {
        var w3 := w.(log := w.log + RetryEffects(p, n, e));
        RecoverStep(p, n, e, head, w);
        CountAppend(w.log, RetryEffects(p, n, e));
        CountRetryEffects(p, n, e);
        AttemptCap(p, n + 1, k, w3);
      }
    }
  }

  // ---- the retry schedule ---------------------------------------------------------------

  /** Every scheduled outcome from the front on is a transport failure. */
  predicate AllFail(outcomes: seq<Outcome>) {
    forall i :: 0 <= i < |outcomes| ==> outcomes[i].Fail?
  }

  /** `retryOn` is `(attempt) => attempt < k`. */
  ghost predicate RetriesBelow(p: Prepared, k: nat) {
    p.local.retryOn.Some? && forall a: nat, e: Error, h: Option<ResponseHead> :: p.local.retryOn.value(a, e, h) == (a < k)
  }

  /** The effects of a retry that `retryOn` accepted: its own call, `beforeRetry`, the wait. */
  function RetryEffects(p: Prepared, n: nat, e: Error): seq<Effect> {
    [AskRetry(n, e)] + HookEffects(p, e) + WaitEffects(p)
  }

  function HookEffects(p: Prepared, e: Error): seq<Effect> {
    if p.local.beforeRetry.Some? then [BeforeRetry(p.local.beforeRetry.value, e)] else []
  }

  function WaitEffects(p: Prepared): seq<Effect> {
    if p.local.retryDelay.Some? && p.local.retryDelay.value != 0 then [Wait(p.local.retryDelay.value)] else []
  }

  lemma RecoverStep(p: Prepared, n: nat, e: Error, head: Option<ResponseHead>, w: World)
    requires p.local.retryOn.Some? && p.local.retryOn.value(n, e, head)
    ensures Recover(p, n, e, head, w) == Attempts(p, n + 1, w.(log := w.log + RetryEffects(p, n, e)))
  {
    var w1 := w.(log := w.log + [AskRetry(n, e)]);
    var w2 := if p.local.beforeRetry.Some? then w1.(log := w1.log + [BeforeRetry(p.local.beforeRetry.value, e)]) else w1;
    var w3 := if p.local.retryDelay.Some? && p.local.retryDelay.value != 0 then w2.(log := w2.log + [Wait(p.local.retryDelay.value)]) else w2;
    assert w2.log == w1.log + HookEffects(p, e);
    assert w3.log == w2.log + WaitEffects(p);
    assert w3.log == w.log + RetryEffects(p, n, e);
    assert w3 == w.(log := w.log + RetryEffects(p, n, e));
    assert Recover(p, n, e, head, w) == Attempts(p, n + 1, w3);
  }

  lemma CountRetryEffects(p: Prepared, n: nat, e: Error)
    ensures Count(RetryEffects(p, n, e), Send) == 0 && Count(RetryEffects(p, n, e), Ask) == 1
    ensures Count(RetryEffects(p, n, e), Hooked) == Hooks(p) && Count(RetryEffects(p, n, e), Waited) == Waits(p)
  {
    var ask, hook, wait := [AskRetry(n, e)], HookEffects(p, e), WaitEffects(p);
    CountAppend(ask + hook, wait);
    CountAppend(ask, hook);
    CountOne(AskRetry(n, e));
    if p.local.beforeRetry.Some? {
      CountOne(BeforeRetry(p.local.beforeRetry.value, e));
    } else {
      CountNone();
    }
    if Waits(p) == 1 {
      CountOne(Wait(p.local.retryDelay.value));
    } else {
      CountNone();
    }
  }

  lemma CountOne(x: Effect)
    ensures forall k :: Count([x], k) == if KindOf(x) == k then 1 else 0
  {
    assert Kinds([x]) == [KindOf(x)];
  }

  lemma CountNone()
    ensures forall k :: Count([], k) == 0
  {
    assert Kinds([]) == [];
  }

  /** An attempt whose transport call fails goes straight to the retry decision. */
  lemma FailStep(p: Prepared, n: nat, w: World)
    requires w.outcomes != [] && !Delivered(p.finalInput, w.outcomes[0]).Resp?
    ensures var o := Delivered(p.finalInput, w.outcomes[0]);
      Attempts(p, n, w) == Recover(p, n, if o.Fail? then Thrown(o.name, o.message) else Classify(Aborted, Armed(p.local) && o.timerFired), None,
        w.(outcomes := w.outcomes[1..], log := w.log + [Sent(p.finalInput, SentInit(p, n))]))
  {
  }

  /**
   * When every attempt fails and `retryOn` accepts attempts below `k`, attempts `n`
   * to `k` run: one transport call and one `retryOn` call each, one `beforeRetry` call
   * and one wait between consecutive attempts, and the last failure is rethrown as is.
   */
  lemma {:induction false} RetrySchedule(p: Prepared, n: nat, k: nat, w: World)
    requires 1 <= n <= k && RetriesBelow(p, k)
    requires |w.outcomes| > k - n && AllFail(w.outcomes)
    ensures Scheduled(p, n, k, w, Attempts(p, n, w))
    decreases k - n
  {
    if n < k {
      var w3 := AfterRetry(p, n, w);
      RetrySchedule(p, n + 1, k, w3);
      RetryStep(p, n, k, w);
    } else {
      LastAttempt(p, n, w);
    }
  }

  /** The world in which attempt `n + 1` starts after attempt `n` failed and was retried. */
  function AfterRetry(p: Prepared, n: nat, w: World): World
    requires w.outcomes != [] && w.outcomes[0].Fail?
  {
    var o := Delivered(p.finalInput, w.outcomes[0]);
    World(w.outcomes[1..], w.log + [Sent(p.finalInput, SentInit(p, n))] + RetryEffects(p, n, Thrown(o.name, o.message)), w.cookies)
  }

  lemma RetryStep(p: Prepared, n: nat, k: nat, w: World)
    requires 1 <= n < k && RetriesBelow(p, k)
    requires |w.outcomes| > k - n && AllFail(w.outcomes)
    requires Scheduled(p, n + 1, k, AfterRetry(p, n, w), Attempts(p, n + 1, AfterRetry(p, n, w)))
    ensures Scheduled(p, n, k, w, Attempts(p, n, w))
  {
    RetryUnfold(p, n, k, w);
    AfterRetryCounts(p, n, w);
    AfterRetryOutcomes(p, n, k, w);
    OneMore(Hooks(p), k - n);
    OneMore(Waits(p), k - n);
  }

  /** The outcomes left after a retried attempt are the rest of the script. */
  lemma AfterRetryOutcomes(p: Prepared, n: nat, k: nat, w: World)
    requires n < k < |w.outcomes| + n && w.outcomes[0].Fail?
    ensures var w3 := AfterRetry(p, n, w);
      && w3.outcomes[k - (n + 1)] == w.outcomes[k - n]
      && w3.outcomes[k - (n + 1) + 1..] == w.outcomes[k - n + 1..]
  {
    assert AfterRetry(p, n, w).outcomes == w.outcomes[1..];
  }

  lemma OneMore(h: nat, m: nat)
    requires 1 <= m
    ensures h * (m - 1) + h == h * m
  {
  }

  lemma RetryUnfold(p: Prepared, n: nat, k: nat, w: World)
    requires 1 <= n < k && RetriesBelow(p, k)
    requires w.outcomes != [] && w.outcomes[0].Fail?
    ensures Attempts(p, n, w) == Attempts(p, n + 1, AfterRetry(p, n, w))
  {
    var o := Delivered(p.finalInput, w.outcomes[0]);
    var e := Thrown(o.name, o.message);
    var w1 := w.(outcomes := w.outcomes[1..], log := w.log + [Sent(p.finalInput, SentInit(p, n))]);
    FailStep(p, n, w);
    RecoverStep(p, n, e, None, w1);
    assert AfterRetry(p, n, w) == w1.(log := w1.log + RetryEffects(p, n, e));
  }

  lemma AfterRetryCounts(p: Prepared, n: nat, w: World)
    requires w.outcomes != [] && w.outcomes[0].Fail?
    ensures var log := AfterRetry(p, n, w).log;
      && Count(log, Send) == Count(w.log, Send) + 1
      && Count(log, Ask) == Count(w.log, Ask) + 1
      && Count(log, Hooked) == Count(w.log, Hooked) + Hooks(p)
      && Count(log, Waited) == Count(w.log, Waited) + Waits(p)
  {
    var o := Delivered(p.finalInput, w.outcomes[0]);
    var sent := Sent(p.finalInput, SentInit(p, n));
    var effects := RetryEffects(p, n, Thrown(o.name, o.message));
    CountAppend(w.log, [sent]);
    assert Kinds([sent]) == [Send];
    CountAppend(w.log + [sent], effects);
    CountRetryEffects(p, n, Thrown(o.name, o.message));
  }

  lemma LastAttempt(p: Prepared, n: nat, w: World)
    requires 1 <= n && RetriesBelow(p, n)
    requires w.outcomes != [] && AllFail(w.outcomes)
    ensures Scheduled(p, n, n, w, Attempts(p, n, w))
  {
    var o := Delivered(p.finalInput, w.outcomes[0]);
    var e := Thrown(o.name, o.message);
    var sent := Sent(p.finalInput, SentInit(p, n));
    var w1 := w.(outcomes := w.outcomes[1..], log := w.log + [sent]);
    var w2 := w1.(log := w1.log + [AskRetry(n, e)]);
    FailStep(p, n, w);
    assert Attempts(p, n, w) == Run(Rejected(e), w2);
    CountAppend(w.log, [sent]);
    assert Kinds([sent]) == [Send];
    CountAppend(w1.log, [AskRetry(n, e)]);
    assert Kinds([AskRetry(n, e)]) == [Ask];
  }

  /**
   * `r` settles attempts `n` to `k` of a failing transport: it rejects with the last
   * failure as `node-fetch` delivers it, consumes one outcome per attempt, and logs one
   * transport call and one `retryOn` call per attempt and one `beforeRetry` call and
   * one wait per retry.
   */
  predicate Scheduled(p: Prepared, n: nat, k: nat, w: World, r: Run)
    requires n <= k < |w.outcomes| + n && w.outcomes[k - n].Fail?
  {
    var last := Delivered(p.finalInput, w.outcomes[k - n]);
    && r.settled == Rejected(Thrown(last.name, last.message))
    && r.world.outcomes == w.outcomes[k - n + 1..]
    && Count(r.world.log, Send) == Count(w.log, Send) + (k - n + 1)
    && Count(r.world.log, Ask) == Count(w.log, Ask) + (k - n + 1)
    && Count(r.world.log, Hooked) == Count(w.log, Hooked) + Hooks(p) * (k - n)
    && Count(r.world.log, Waited) == Count(w.log, Waited) + Waits(p) * (k - n)
  }

  /** 1 when there is a `beforeRetry` hook. */
  function Hooks(p: Prepared): nat {
    if p.local.beforeRetry.Some? then 1 else 0
  }

  /** 1 when there is a non-zero `retryDelay`. */
  function Waits(p: Prepared): nat {
    if p.local.retryDelay.Some? && p.local.retryDelay.value != 0 then 1 else 0
  }

  /**
   * `retryOn: (n) => n < 5` against a transport that always fails makes five transport
   * calls and four `beforeRetry` calls, then rejects with the transport's error.
   */
  lemma RetryCountExample(failure: Outcome)
    requires failure.Fail?
    ensures var init := EmptyInit.(retryOn := Some((a: nat, e: Error, h: Option<ResponseHead>) => a < 5),
                                   beforeRetry := Some(Hook("count")), retryDelay := Some(10));
      var r := Exec(Absolute(ExampleUrl), Some(init), World(seq(6, _ => failure), [], []));
      && r.settled == Rejected(Thrown(failure.name, failure.message))
      && Count(r.world.log, Send) == 5 && Count(r.world.log, Ask) == 5
      && Count(r.world.log, Hooked) == 4 && Count(r.world.log, Waited) == 4
      && |r.world.outcomes| == 1
  {
    var init := EmptyInit.(retryOn := Some((a: nat, e: Error, h: Option<ResponseHead>) => a < 5),
                           beforeRetry := Some(Hook("count")), retryDelay := Some(10));
    var w := World(seq(6, _ => failure), [], []);
    var p := Prepare(Absolute(ExampleUrl), Some(init), []).value;
    assert Exec(Absolute(ExampleUrl), Some(init), w) == Attempts(p, 1, w);
    RetrySchedule(p, 1, 5, w);
    assert Scheduled(p, 1, 5, w, Attempts(p, 1, w));
  }

  /**
   * If `retryOn` is absent, the first failure settles the call: the error is rethrown
   * unchanged after exactly one transport call.
   */
  lemma NoRetryOn(p: Prepared, n: nat, w: World)
    requires p.local.retryOn.None? && w.outcomes != [] && !Delivered(p.finalInput, w.outcomes[0]).Resp?
    ensures var r := Attempts(p, n, w);
      && r.world.outcomes == w.outcomes[1..]
      && r.world.log == w.log + [Sent(p.finalInput, SentInit(p, n))]
      && r.settled == Rejected(match Delivered(p.finalInput, w.outcomes[0])
           case Fail(name, message) => Thrown(name, message)
           case Abort(fired) => if Armed(p.local) && fired then Timeout else Aborted
           case Resp(_, _, _, _) => Aborted)
  {
    FailStep(p, n, w);
  }
}
