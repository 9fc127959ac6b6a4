// `BaseClient` (src/BaseClient.ts): the client's fetch instance, created with the
// site's API base URL, fixed headers, a 20-second timeout, a 200-only status check,
// a cookie jar holding the user's `userhash` and an interceptor adding `appid` and
// `__t` to every query; and `getJson`, which every page request goes through.

module BaseClient {
  import opened Wrappers
  import opened Js
  import opened Url
  import opened OrderedMap
  import opened FetchErrors
  import opened CookieJar
  import opened FtoFetch
  import opened FetchInstance
  import opened OptionsResolver
  import FtoFetchProps

  /** A user's cookie: a free-form mark that nothing reads, and the `userhash`. */
  datatype UserCookie = UserCookie(mark: Option<string>, userhash: string)

  /** An options object (`Options`): its own properties. */
  type Options = Layer<Value>

  /** `defaultOptions`: three retries. */
  const DefaultOptions: Options := map["retries" := Num(3)]

  /** `https://${host}/Api/`. */
  function ApiBase(host: string): Url {
    Url("https", host, "/Api/", [])
  }

  /** The instance headers, in the order they are written. */
  function BaseHeaders(userAgent: string): Map {
    [("accept", "application/json"), ("user-agent", userAgent),
     ("accept-language", "zh-cn"), ("accept-encoding", "gzip, deflate, br")]
  }

  /** The instance `validateStatus`: `status === 200`. */
  predicate StatusIs200(status: int) {
    status == 200
  }

  /** `cookiesToAdd`: the one `userhash` cookie. */
  function CookiesToAdd(user: UserCookie): seq<(string, string)> {
    [("userhash", user.userhash)]
  }

  /** `setCookieSync(`${key}=${value}; domain=${host}`, `https://${host}`)`, whose errors are not ignored. */
  function HostCookie(host: string, key: string, value: string): StoredCookie {
    StoredCookie(key + "=" + value + "; domain=" + host, Absolute(Url("https", host, "", [])), false)
  }

  function HostCookies(host: string, pairs: seq<(string, string)>): seq<StoredCookie> {
    seq(|pairs|, i requires 0 <= i < |pairs| => HostCookie(host, pairs[i].0, pairs[i].1))
  }

  /** The instance `jar` setting: the constructor's jar, or `undefined` without one. */
  function JarSettingOf(jar: Option<Jar>): JarSetting {
    if jar.Some? then UseJar(jar.value) else Unset
  }

  /** Everything `createFetchInstance` keeps as defaults. */
  function InstanceDefaults(userAgent: string, jar: Option<Jar>): Init {
    EmptyInit.(headers := Some(BaseHeaders(userAgent)), timeout := Some(20 * 1000),
               validateStatus := Some(StatusIs200), jar := JarSettingOf(jar))
  }

  // ---- the request interceptor --------------------------------------------------------

  /** `String(Date.now() / 1000 | 0)`: whole seconds, which `| 0` truncates to 32 bits. */
  function Timestamp(now: nat): string {
    NumberToString(ToInt32(now / 1000))
  }

  /** `...(this.appid ? { appid } : undefined)`: nothing for a null or empty `appid`. */
  function AppidQuery(appid: Option<string>): Map {
    if appid.Some? && appid.value != "" then [("appid", appid.value)] else []
  }

  /** `{ ...(init?.urlQueries ?? {}), ...appid, __t }`. */
  function InterceptedQueries(existing: Option<Map>, appid: Option<string>, now: nat): Map {
    Assign(Assign(existing.GetOr([]), AppidQuery(appid)), [("__t", Timestamp(now))])
  }

  /** The interceptor: sets `urlQueries` on the init it receives and returns both unchanged otherwise. */
  function ClientInterceptor(appid: Option<string>): Interceptor {
    (input: Ref, init: Init, now: nat) => (input, init.(urlQueries := Some(InterceptedQueries(init.urlQueries, appid, now))))
  }

  // ---- `getJson` ------------------------------------------------------------------------

  /** `options.retries` from the resolver over `[fallbackOptions, options]` and `defaultOptions`. */
  function Retries(fallback: Option<Options>, options: Option<Options>): Value {
    Owner(Compact([fallback, options]), "retries").GetOr(DefaultOptions["retries"])
  }

  /**
   * `getJson`'s `retryOn`: an error named `NetworkError` (the timeout) while the
   * attempt number is at most `retries`, compared as JavaScript numbers.
   */
  predicate RetriesOn(retries: Value, attempt: nat, e: Error) {
    Name(e) == "NetworkError" && AtMost(Finite(attempt), ValueToNumber(retries))
  }

  function RetryOnFor(retries: Value): RetryPredicate {
    (attempt: nat, e: Error, head: Option<ResponseHead>) => RetriesOn(retries, attempt, e)
  }

  /** `beforeRetry: err => console.log(err)`. */
  const LogHook := Hook("console.log")

  /** The init `getJson` calls the instance with; without cookies, `jar: null`. */
  function CallInit(queries: Map, withCookies: bool, retries: Value): Init {
    EmptyInit.(urlQueries := Some(queries), jar := if withCookies then Unset else NullJar,
               retryOn := Some(RetryOnFor(retries)), beforeRetry := Some(LogHook))
  }

  /** The largest number of transport calls one `getJson` makes with this `retries`. */
  function MaxAttempts(retries: Value): nat {
    match ValueToNumber(retries)
    case Finite(n) => if n >= 1 then n + 1 else 1
    case NaN => 1
  }

  /** How `getJson` ends: `RequiresLoginException` before any request, or the settled fetch. */
  datatype Reply = RequiresLogin | Fetched(settled: Settled)

  class BaseClient {
    const userAgent: string
    const host: string
    const appid: Option<string>
    const user: Option<UserCookie>
    const fallbackOptions: Option<Options>
    const fetchInstance: Instance
    /** The jar the constructor creates and passes to the instance; none without a user. */
    const jar: Option<Jar>

    /** The instance is the one the constructor set up and never follows redirects. */
    ghost predicate Valid()
      reads this, fetchInstance
    {
      && fetchInstance.baseUrl == Some(ApiBase(host))
      && fetchInstance.requestInterceptor == Some(ClientInterceptor(appid))
      && fetchInstance.defaults.follow.None?
      && (fetchInstance.defaults.jar == JarSettingOf(jar) || fetchInstance.defaults.jar == NullJar)
    }

    constructor (userAgent: string, host: string, appid: Option<string>, user: Option<UserCookie>,
                 fallbackOptions: Option<Options>, lookup: (seq<StoredCookie>, Ref) -> string)
      ensures this.userAgent == userAgent && this.host == host && this.appid == appid
      ensures this.user == user && this.fallbackOptions == fallbackOptions
      ensures jar.Some? <==> user.Some?
      ensures jar.Some? ==> fresh(jar.value) && jar.value.lookup == lookup
                            && jar.value.stored == HostCookies(host, CookiesToAdd(user.value))
      ensures fresh(fetchInstance) && fetchInstance.defaults == InstanceDefaults(userAgent, jar)
      ensures Valid()
    {
      var created: Option<Jar> := None;
      if user.Some? {
        var cookieJar := new Jar(lookup);
        var cookiesToAdd := CookiesToAdd(user.value);
        for i := 0 to |cookiesToAdd|
          invariant cookieJar.stored == HostCookies(host, cookiesToAdd[..i])
        {
          cookieJar.SetCookie(HostCookie(host, cookiesToAdd[i].0, cookiesToAdd[i].1));
        }
        assert cookiesToAdd[..|cookiesToAdd|] == cookiesToAdd;
        created := Some(cookieJar);
      }
      var instance := new Instance(InstanceInit(Some(ApiBase(host)), Some(ClientInterceptor(appid)),
                                                InstanceDefaults(userAgent, created)));
      this.userAgent := userAgent;
      this.host := host;
      this.appid := appid;
      this.user := user;
      this.fallbackOptions := fallbackOptions;
      this.jar := created;
      this.fetchInstance := instance;
    }

    /**
     * `getJson(endpoint, { queries, withCookies, options })`. Asking for cookies with
     * no user fails before anything is sent; otherwise it is one call of the instance,
     * which makes at most `MaxAttempts(retries)` transport calls.
     */
    method GetJson(endpoint: Ref, queries: Map, withCookies: bool, options: Option<Options>, now: nat, env: Environment)
      returns (reply: Reply)
      requires Valid()
      modifies fetchInstance, env
      modifies JarObjects(Some(Forwarded(fetchInstance.baseUrl, fetchInstance.requestInterceptor, fetchInstance.defaults,
                                         endpoint, Some(CallInit(queries, withCookies, Retries(fallbackOptions, options))), now).1))
      ensures Valid()
      ensures withCookies && user.None? ==>
        && reply == RequiresLogin && fetchInstance.defaults == old(fetchInstance.defaults)
        && env.outcomes == old(env.outcomes) && env.log == old(env.log)
      ensures !(withCookies && user.None?) ==>
        var (target, forwarded) := Forwarded(Some(ApiBase(host)), Some(ClientInterceptor(appid)), old(fetchInstance.defaults),
                                             endpoint, Some(CallInit(queries, withCookies, Retries(fallbackOptions, options))), now);
        var r := Exec(target, Some(forwarded), World(old(env.outcomes), old(env.log), old(CookiesOf(Some(forwarded)))));
        && reply == Fetched(r.settled) && env.outcomes == r.world.outcomes && env.log == r.world.log
        && CookiesOf(Some(forwarded)) == r.world.cookies && fetchInstance.defaults == forwarded
      ensures FtoFetchProps.Count(env.log, FtoFetchProps.Send)
              <= FtoFetchProps.Count(old(env.log), FtoFetchProps.Send) + MaxAttempts(Retries(fallbackOptions, options))
    {
      var resolver := new ResolverWithDefaults([fallbackOptions, options], DefaultOptions);
      if withCookies && user.None? {
        return RequiresLogin;
      }
      var retries := resolver.Get("retries");
      assert retries == Some(Retries(fallbackOptions, options)) by {
        CompactOwner([fallbackOptions, options], "retries");
      }
      var init := CallInit(queries, withCookies, retries.value);
      ghost var w := World(env.outcomes, env.log, CookiesOf(Some(Forwarded(fetchInstance.baseUrl, fetchInstance.requestInterceptor,
                                                                           fetchInstance.defaults, endpoint, Some(init), now).1)));
      ghost var (target, forwarded) := Forwarded(fetchInstance.baseUrl, fetchInstance.requestInterceptor,
                                                 fetchInstance.defaults, endpoint, Some(init), now);
      ForwardedByClient(fetchInstance.defaults, host, appid, endpoint, init, now);
      var settled := fetchInstance.Invoke(endpoint, Some(init), now, env);
      CallBound(target, forwarded, retries.value, w);
      reply := Fetched(settled);
    }
  }

  // ---- properties ---------------------------------------------------------------------

  /** What the instance forwards for one `getJson` call. */
  lemma ForwardedByClient(defaults: Init, host: string, appid: Option<string>, endpoint: Ref, init: Init, now: nat)
    ensures var merged := Merge(defaults, Some(init));
      Forwarded(Some(ApiBase(host)), Some(ClientInterceptor(appid)), defaults, endpoint, Some(init), now)
      == (Absolute(Resolve(ApiBase(host), endpoint)),
          merged.(urlQueries := Some(InterceptedQueries(merged.urlQueries, appid, now))))
  {
  }

  /**
   * Only errors named `NetworkError` are retried, up to attempt `retries`: a refused
   * status (`HTTPStatusError`) or any other thrown error rejects at once.
   */
  lemma RetryOnIff(retries: int, attempt: nat, e: Error, head: Option<ResponseHead>)
    ensures RetryOnFor(Num(retries))(attempt, e, head)
            <==> (e == Timeout || (e.Thrown? && e.name == "NetworkError")) && attempt <= retries
  {
  }

  /** A `retries` that is not a number (`undefined`, a non-numeric string) never retries. */
  lemma RetryOnNaN(retries: Value, attempt: nat, e: Error, head: Option<ResponseHead>)
    requires ValueToNumber(retries).NaN?
    ensures !RetryOnFor(retries)(attempt, e, head)
  {
  }

  /**
   * A call forwarded with `getJson`'s `retryOn` and without `follow` makes at most
   * `retries + 1` transport calls, and one when `retries` is below 1 or not a number.
   */
  lemma CallBound(target: Ref, forwarded: Init, retries: Value, w: World)
    requires forwarded.follow.None? && forwarded.retryOn == Some(RetryOnFor(retries))
    ensures FtoFetchProps.Count(Exec(target, Some(forwarded), w).world.log, FtoFetchProps.Send)
            <= FtoFetchProps.Count(w.log, FtoFetchProps.Send) + MaxAttempts(retries)
  {
    match Prepare(target, Some(forwarded), w.cookies)
    case Failure(_) =>
    case Success(p) =>
      var k := MaxAttempts(retries);
      assert FtoFetchProps.NeverRedirects(p);
      assert FtoFetchProps.GivesUpFrom(p, k) by {
        forall a: nat, e: Error, h: Option<ResponseHead> | a >= k
          ensures !p.local.retryOn.value(a, e, h)
        {
          assert !RetriesOn(retries, a, e);
        }
      }
      FtoFetchProps.AttemptCap(p, 1, k, w);
  }

  /**
   * The interceptor keeps the existing queries in place, sets `appid` when there is
   * a non-empty one and `__t` always, and leaves every other key as it was.
   */
  lemma {:induction false} InterceptedQueriesShape(existing: Map, appid: Option<string>, now: nat)
    requires Distinct(existing)
    ensures var q := InterceptedQueries(Some(existing), appid, now);
      && Distinct(q)
      && KeysOf(q) == KeysOf(existing)
           + (if appid.Some? && appid.value != "" && "appid" !in KeysOf(existing) then ["appid"] else [])
           + (if "__t" in KeysOf(existing) then [] else ["__t"])
      && Get(q, "__t") == Some(Timestamp(now))
      && Get(q, "appid") == (if appid.Some? && appid.value != "" then appid else Get(existing, "appid"))
      && forall k :: k != "__t" && k != "appid" ==> Get(q, k) == Get(existing, k)
  {
    var a := Assign(existing, AppidQuery(appid));
    var t := [("__t", Timestamp(now))];
    var q := Assign(a, t);
    AssignDistinct(existing, AppidQuery(appid));
    AssignDistinct(a, t);
    AssignKeys(existing, AppidQuery(appid));
    AssignKeys(a, t);
    assert KeysOf(AppidQuery(appid)) == if appid.Some? && appid.value != "" then ["appid"] else [];
    assert NewKeys(KeysOf(existing), KeysOf(AppidQuery(appid)))
        == if appid.Some? && appid.value != "" && "appid" !in KeysOf(existing) then ["appid"] else [];
    assert KeysOf(t) == ["__t"];
    assert "__t" in KeysOf(a) <==> "__t" in KeysOf(existing);
    assert NewKeys(KeysOf(a), KeysOf(t)) == if "__t" in KeysOf(existing) then [] else ["__t"];
    forall k
      ensures Get(q, k) == Get(t, k).Or(Get(AppidQuery(appid), k).Or(Get(existing, k)))
    {
      AssignGet(a, t, k);
      AssignGet(existing, AppidQuery(appid), k);
    }
    assert Get(q, "__t") == Some(Timestamp(now));
  }

  /**
   * A request without cookies carries no `cookie` header: `jar: null` leaves the call
   * without a jar, so the headers are the forwarded ones.
   */
  lemma NoCookieWithoutCredentials(defaults: Init, host: string, appid: Option<string>, endpoint: Ref,
                                   queries: Map, retries: Value, now: nat, cookies: seq<StoredCookie>)
    ensures var (target, forwarded) := Forwarded(Some(ApiBase(host)), Some(ClientInterceptor(appid)), defaults,
                                                 endpoint, Some(CallInit(queries, false, retries)), now);
      var prepared := Prepare(target, Some(forwarded), cookies);
      && prepared.Success?
      && prepared.value.local.jar.None? && prepared.value.finalInit.headers == forwarded.headers
  {
  }

  /**
   * Because the instance keeps what it forwards, one call without cookies leaves
   * `jar: null` in the defaults, and a later call asking for cookies still has no jar.
   */
  lemma CredentialsLostAfterAnonymousCall(defaults: Init, host: string, appid: Option<string>,
                                          first: Ref, firstQueries: Map, second: Ref, secondQueries: Map,
                                          retries: Value, now: nat, later: nat, cookies: seq<StoredCookie>)
    ensures var base := Some(ApiBase(host));
      var interceptor := Some(ClientInterceptor(appid));
      var afterFirst := Forwarded(base, interceptor, defaults, first, Some(CallInit(firstQueries, false, retries)), now).1;
      var (target, forwarded) := Forwarded(base, interceptor, afterFirst, second, Some(CallInit(secondQueries, true, retries)), later);
      && forwarded.jar == NullJar
      && Prepare(target, Some(forwarded), cookies).Success?
      && Prepare(target, Some(forwarded), cookies).value.local.jar.None?
  {
  }

  /**
   * With the defaults left as the instance was created, as `IsolatedInstance` keeps
   * them, a call asking for cookies uses the instance's jar, whatever came before it.
   */
  lemma CredentialsKeptInIsolation(defaults: Init, host: string, appid: Option<string>, endpoint: Ref,
                                   queries: Map, retries: Value, now: nat, cookies: seq<StoredCookie>)
    requires defaults.jar.UseJar?
    ensures var (target, forwarded) := Forwarded(Some(ApiBase(host)), Some(ClientInterceptor(appid)), defaults,
                                                 endpoint, Some(CallInit(queries, true, retries)), now);
      var prepared := Prepare(target, Some(forwarded), cookies);
      && forwarded.jar == defaults.jar
      && prepared.Success? && prepared.value.local.jar == Some(defaults.jar.jar)
  {
  }

  /** `__t` as the comment beside it promises: the whole seconds since the epoch, not truncated to 32 bits. */
  function SecondsTimestamp(now: nat): string {
    NumberToString(now / 1000)
  }

  /** The intended `__t` reads back as the number of whole seconds, for every clock value. */
  lemma SecondsTimestampExact(now: nat)
    ensures ToNumber(SecondsTimestamp(now)) == Finite(now / 1000)
  {
    NumberOfString(now / 1000);
  }

  /**
   * The `| 0` in `__t` is harmless exactly until 2^31 seconds after the epoch
   * (2038-01-19T03:14:08Z); from then on the two timestamps differ.
   */
  lemma {:induction false} TimestampAgreesUntil2038(now: nat)
    ensures Timestamp(now) == SecondsTimestamp(now) <==> now / 1000 < 0x8000_0000
  {
    var s := now / 1000;
    if s < 0x8000_0000 {
      assert ToInt32(s) == s;
    } else {
      NumberOfString(ToInt32(s));
      NumberOfString(s);
      assert ToInt32(s) != s;
    }
  }

  /** At 2^31 seconds the as-written `__t` is `-2147483648`. */
  lemma TimestampWrapsIn2038()
    ensures ToNumber(Timestamp(0x8000_0000 * 1000)) == Finite(-0x8000_0000)
  {
    assert ToInt32(0x8000_0000 * 1000 / 1000) == -0x8000_0000;
    NumberOfString(-0x8000_0000);
  }

  /** The constructor's jar holds the single cookie `userhash=<hash>; domain=<host>` for `https://<host>`. */
  lemma UserhashCookie(host: string, user: UserCookie)
    ensures HostCookies(host, CookiesToAdd(user))
            == [StoredCookie("userhash=" + user.userhash + "; domain=" + host, Absolute(Url("https", host, "", [])), false)]
  {
    var c := HostCookies(host, CookiesToAdd(user));
    assert |c| == 1 && c[0] == HostCookie(host, "userhash", user.userhash);
    assert "userhash" + "=" + user.userhash + "; domain=" + host == "userhash=" + user.userhash + "; domain=" + host;
  }

  /**
   * The repository's request: a relative `endpoint` with `{ foo: 'bar' }` on a fresh
   * client goes to `https://<host>/Api/endpoint?foo=bar&appid=<appid>&__t=<seconds>`
   * with the instance headers and the client's jar.
   */
  lemma GetJsonRequestExample(userAgent: string, host: string, appid: string, jar: Jar, retries: Value, now: nat)
    requires appid != ""
    ensures var (target, forwarded) := Forwarded(Some(ApiBase(host)), Some(ClientInterceptor(Some(appid))),
                                                 InstanceDefaults(userAgent, Some(jar)), Relative("endpoint"),
                                                 Some(CallInit([("foo", "bar")], true, retries)), now);
      && target == Absolute(Url("https", host, "/Api/endpoint", []))
      && forwarded.urlQueries == Some([("foo", "bar"), ("appid", appid), ("__t", Timestamp(now))])
      && forwarded.headers == Some(BaseHeaders(userAgent)) && forwarded.jar == UseJar(jar)
      && Href(AppendQuery(target.url, forwarded.urlQueries.value))
         == "https://" + host + "/Api/endpoint?" + Serialize(forwarded.urlQueries.value)
      && Serialize(forwarded.urlQueries.value) == "foo=bar" + "&appid=" + Encode(appid) + "&__t=" + Encode(Timestamp(now))
  {
    var defaults := InstanceDefaults(userAgent, Some(jar));
    var call := CallInit([("foo", "bar")], true, retries);
    ForwardedByClient(defaults, host, Some(appid), Relative("endpoint"), call, now);
    ExampleMerge(userAgent, jar, retries);
    ExampleQueries(appid, Timestamp(now));
    ExampleTarget(host);
    ExampleHref(host, appid, Timestamp(now));
  }

  lemma ExampleMerge(userAgent: string, jar: Jar, retries: Value)
    ensures var merged := Merge(InstanceDefaults(userAgent, Some(jar)), Some(CallInit([("foo", "bar")], true, retries)));
      merged.urlQueries == Some([("foo", "bar")]) && merged.headers == Some(BaseHeaders(userAgent)) && merged.jar == UseJar(jar)
  {
  }

  lemma ExampleTarget(host: string)
    ensures Resolve(ApiBase(host), Relative("endpoint")) == Url("https", host, "/Api/endpoint", [])
  {
    var api := "/Api/";
    assert api[|api| - 1] == '/';
    ResolveUnderDirectory(ApiBase(host), "endpoint");
    assert api + "endpoint" == "/Api/endpoint";
  }

  lemma ExampleQueries(appid: string, t: string)
    requires appid != ""
    ensures Assign(Assign([("foo", "bar")], [("appid", appid)]), [("__t", t)]) == [("foo", "bar"), ("appid", appid), ("__t", t)]
  {
    var q := [("foo", "bar"), ("appid", appid), ("__t", t)];
    assert Put([("foo", "bar")], "appid", appid) == q[..2];
    assert q[..2][1..] == [("appid", appid)];
    assert Put([("appid", appid)], "__t", t) == q[1..];
    assert Put(q[..2], "__t", t) == q;
  }

  lemma ExampleHref(host: string, appid: string, t: string)
    ensures var q := [("foo", "bar"), ("appid", appid), ("__t", t)];
      && Href(AppendQuery(Url("https", host, "/Api/endpoint", []), q)) == "https://" + host + "/Api/endpoint?" + Serialize(q)
      && Serialize(q) == "foo=bar" + "&appid=" + Encode(appid) + "&__t=" + Encode(t)
  {
    EndpointHref(host, [("foo", "bar"), ("appid", appid), ("__t", t)]);
    SerializeThree(("foo", "bar"), ("appid", appid), ("__t", t));
    LiteralPairs(appid, t);
    Regroup(Encode(appid), Encode(t));
  }

  lemma Regroup(ea: string, et: string)
    ensures "foo=bar" + "&" + ("appid=" + ea) + "&" + ("__t=" + et) == "foo=bar" + "&appid=" + ea + "&__t=" + et
  {
    assert "&" + ("appid=" + ea) == "&appid=" + ea;
    assert "&" + ("__t=" + et) == "&__t=" + et;
  }

  lemma LiteralPairs(appid: string, t: string)
    ensures SerializePair(("foo", "bar")) == "foo=bar"
    ensures SerializePair(("appid", appid)) == "appid=" + Encode(appid)
    ensures SerializePair(("__t", t)) == "__t=" + Encode(t)
  {
    FooBarPair();
    AppidPair(appid);
    TimestampPair(t);
  }

  lemma FooBarPair()
    ensures SerializePair(("foo", "bar")) == "foo=bar"
  {
    SafePair("foo", "bar");
  }

  lemma AppidPair(v: string)
    ensures SerializePair(("appid", v)) == "appid=" + Encode(v)
  {
    EncodeSafe("appid");
    assert "appid" + "=" == "appid=";
  }

  lemma TimestampPair(v: string)
    ensures SerializePair(("__t", v)) == "__t=" + Encode(v)
  {
    EncodeSafe("__t");
    assert "__t" + "=" == "__t=";
  }

  lemma EndpointHref(host: string, q: seq<(string, string)>)
    requires q != []
    ensures Href(AppendQuery(Url("https", host, "/Api/endpoint", []), q)) == "https://" + host + "/Api/endpoint?" + Serialize(q)
  {
    var path := "/Api/endpoint";
    assert NormalPath(path) == path;
    AppendQueryHref(Url("https", host, path, []), q);
    Regroup5("https", "://", host, path, "?", Serialize(q));
    assert "https" + "://" == "https://";
    assert path + "?" == "/Api/endpoint?";
  }

  lemma Regroup5(a: string, b: string, h: string, c: string, d: string, s: string)
    ensures a + b + h + c + d + "" + s == (a + b) + h + (c + d) + s
  {
  }

  lemma SerializeThree(x: (string, string), y: (string, string), z: (string, string))
    ensures Serialize([x, y, z]) == SerializePair(x) + "&" + SerializePair(y) + "&" + SerializePair(z)
  {
    assert [x, y, z][1..] == [y, z] && [y, z][1..] == [z];
    assert Serialize([z]) == SerializePair(z);
    assert Serialize([y, z]) == SerializePair(y) + "&" + SerializePair(z);
  }
}
