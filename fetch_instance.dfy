// `createFetchInstance` (src/utils/fetch/fetch-instance.ts): an invoker holding the
// instance's defaults, which every call merges with its own init, resolves against the
// base URL, hands to the request interceptor and then to `fetch`.

module FetchInstance {
  import opened Wrappers
  import opened Url
  import opened OrderedMap
  import opened CookieJar
  import opened FtoFetch
  import FtoFetchProps

  /**
   * `requestInterceptor(input, init)`, returning the pair `fetch` is called with. The
   * clock reading `Date.now()` at the time of the call is its third argument.
   */
  type Interceptor = (Ref, Init, nat) -> (Ref, Init)

  /**
   * The argument of `createFetchInstance`: `baseUrl` (absent or empty is `None`),
   * `requestInterceptor`, and everything else, which becomes the stored defaults.
   */
  datatype InstanceInit = InstanceInit(baseUrl: Option<Url>, requestInterceptor: Option<Interceptor>, init: Init)

  // ---- `_.merge(instanceInit, init)` ---------------------------------------------------

  /** A plain-object property (`headers`, `urlQueries`): the later object's keys assigned onto the earlier. */
  function MergeMap(earlier: Option<Map>, later: Option<Map>): Option<Map> {
    if later.Some? then Some(Assign(earlier.GetOr([]), later.value)) else earlier
  }

  /** Any other property: a defined later value replaces, an undefined one leaves the earlier. */
  function MergeLeaf<T>(earlier: Option<T>, later: Option<T>): Option<T> {
    if later.Some? then later else earlier
  }

  /** `jar`: a jar object or `null` replaces; only an undefined `jar` keeps the earlier one. */
  function MergeJar(earlier: JarSetting, later: JarSetting): JarSetting {
    if later.Unset? then earlier else later
  }

  /** `_.merge(defaults, call)` on the properties an init has. */
  function Merge(defaults: Init, call: Option<Init>): Init {
    if call.None? then defaults
    else
      var c := call.value;
      Init(
        MergeLeaf(defaults.requestMethod, c.requestMethod),
        MergeMap(defaults.headers, c.headers),
        MergeLeaf(defaults.body, c.body),
        MergeLeaf(defaults.redirect, c.redirect),
        MergeLeaf(defaults.follow, c.follow),
        MergeLeaf(defaults.signal, c.signal),
        MergeMap(defaults.urlQueries, c.urlQueries),
        MergeJar(defaults.jar, c.jar),
        MergeLeaf(defaults.jarOptions, c.jarOptions),
        MergeLeaf(defaults.timeout, c.timeout),
        MergeLeaf(defaults.validateStatus, c.validateStatus),
        MergeLeaf(defaults.retryOn, c.retryOn),
        MergeLeaf(defaults.retryDelay, c.retryDelay),
        MergeLeaf(defaults.beforeRetry, c.beforeRetry))
  }

  /** `new URL(input, baseUrl).href` when there is a base URL, the input itself otherwise. */
  function Target(baseUrl: Option<Url>, input: Ref): Ref {
    if baseUrl.Some? then Absolute(Resolve(baseUrl.value, input)) else input
  }

  /** The pair the interceptor turns the resolved input and merged init into, if there is one. */
  function Intercept(interceptor: Option<Interceptor>, input: Ref, init: Init, now: nat): (Ref, Init) {
    if interceptor.Some? then interceptor.value(input, init, now) else (input, init)
  }

  /** What `fetch` receives for a call with `input` and `init` against stored `defaults`. */
  function Forwarded(baseUrl: Option<Url>, interceptor: Option<Interceptor>, defaults: Init, input: Ref, init: Option<Init>, now: nat): (Ref, Init) {
    Intercept(interceptor, Target(baseUrl, input), Merge(defaults, init), now)
  }

  // ---- the invoker ---------------------------------------------------------------------

  /**
   * The invoker as written. `_.merge` writes into the stored defaults and returns
   * them, and the interceptors of this repository change and return the object they
   * receive, so what one call forwards becomes the defaults of the next.
   */
  class Instance {
    const baseUrl: Option<Url>
    const requestInterceptor: Option<Interceptor>
    var defaults: Init

    /** `baseUrl` and `requestInterceptor` are taken out; the defaults have neither. */
    constructor (instanceInit: InstanceInit)
      ensures baseUrl == instanceInit.baseUrl && requestInterceptor == instanceInit.requestInterceptor
      ensures defaults == instanceInit.init
    {
      baseUrl := instanceInit.baseUrl;
      requestInterceptor := instanceInit.requestInterceptor;
      defaults := instanceInit.init;
    }

    /** One call of the invoker. */
    method Invoke(input: Ref, init: Option<Init>, now: nat, env: Environment) returns (settled: Settled)
      modifies this, env, JarObjects(Some(Forwarded(baseUrl, requestInterceptor, defaults, input, init, now).1))
      ensures var (target, forwarded) := Forwarded(baseUrl, requestInterceptor, old(defaults), input, init, now);
        var r := Exec(target, Some(forwarded), World(old(env.outcomes), old(env.log), old(CookiesOf(Some(forwarded)))));
        && defaults == forwarded
        && settled == r.settled && env.outcomes == r.world.outcomes && env.log == r.world.log
        && CookiesOf(Some(forwarded)) == r.world.cookies
    {
      defaults := Merge(defaults, init);
      var target := Target(baseUrl, input);
      var forwarded := defaults;
      if requestInterceptor.Some? {
        var pair := requestInterceptor.value(target, defaults, now);
        target, forwarded := pair.0, pair.1;
        defaults := forwarded;
      }
      settled := Fetch(target, Some(forwarded), env);
    }
  }

  /**
   * The invoker as the instance defaults are meant to behave: each call merges into a
   * copy and the defaults stay those given at creation.
   */
  class IsolatedInstance {
    const baseUrl: Option<Url>
    const requestInterceptor: Option<Interceptor>
    const defaults: Init

    constructor (instanceInit: InstanceInit)
      ensures baseUrl == instanceInit.baseUrl && requestInterceptor == instanceInit.requestInterceptor
      ensures defaults == instanceInit.init
    {
      baseUrl := instanceInit.baseUrl;
      requestInterceptor := instanceInit.requestInterceptor;
      defaults := instanceInit.init;
    }

    method Invoke(input: Ref, init: Option<Init>, now: nat, env: Environment) returns (settled: Settled)
      modifies env, JarObjects(Some(Forwarded(baseUrl, requestInterceptor, defaults, input, init, now).1))
      ensures var (target, forwarded) := Forwarded(baseUrl, requestInterceptor, defaults, input, init, now);
        var r := Exec(target, Some(forwarded), World(old(env.outcomes), old(env.log), old(CookiesOf(Some(forwarded)))));
        && settled == r.settled && env.outcomes == r.world.outcomes && env.log == r.world.log
        && CookiesOf(Some(forwarded)) == r.world.cookies
    {
      var merged := Merge(defaults, init);
      var target := Target(baseUrl, input);
      if requestInterceptor.Some? {
        var pair := requestInterceptor.value(target, merged, now);
        target, merged := pair.0, pair.1;
      }
      settled := Fetch(target, Some(merged), env);
    }
  }

  // ---- properties of the merge ----------------------------------------------------------

  /** Both plain-object properties of an init have distinct keys, as JavaScript objects do. */
  predicate WellFormed(i: Init) {
    (i.headers.Some? ==> Distinct(i.headers.value)) && (i.urlQueries.Some? ==> Distinct(i.urlQueries.value))
  }

  /**
   * Queries merge additively: the defaults' keys keep their place, the call's new
   * keys follow in the call's order, and a key of both takes the call's value.
   */
  lemma MergeQueries(defaults: Init, call: Init, k: string)
    requires call.urlQueries.Some? && Distinct(call.urlQueries.value)
    ensures var m := Merge(defaults, Some(call)).urlQueries;
      var d := defaults.urlQueries.GetOr([]);
      && m.Some?
      && KeysOf(m.value) == KeysOf(d) + NewKeys(KeysOf(d), KeysOf(call.urlQueries.value))
      && Get(m.value, k) == Get(call.urlQueries.value, k).Or(Get(d, k))
  {
    AssignKeys(defaults.urlQueries.GetOr([]), call.urlQueries.value);
    AssignGet(defaults.urlQueries.GetOr([]), call.urlQueries.value, k);
  }

  /** Headers merge the same way: a header of both layers takes the call's value, in the defaults' place. */
  lemma MergeHeaders(defaults: Init, call: Init, k: string)
    requires call.headers.Some? && Distinct(call.headers.value)
    ensures var m := Merge(defaults, Some(call)).headers;
      var d := defaults.headers.GetOr([]);
      && m.Some?
      && KeysOf(m.value) == KeysOf(d) + NewKeys(KeysOf(d), KeysOf(call.headers.value))
      && Get(m.value, k) == Get(call.headers.value, k).Or(Get(d, k))
  {
    AssignKeys(defaults.headers.GetOr([]), call.headers.value);
    AssignGet(defaults.headers.GetOr([]), call.headers.value, k);
  }

  /** Merging keeps both plain-object properties free of repeated keys. */
  lemma MergeWellFormed(defaults: Init, call: Option<Init>)
    requires WellFormed(defaults)
    ensures WellFormed(Merge(defaults, call))
  {
    if call.Some? {
      if call.value.headers.Some? {
        AssignDistinct(defaults.headers.GetOr([]), call.value.headers.value);
      }
      if call.value.urlQueries.Some? {
        AssignDistinct(defaults.urlQueries.GetOr([]), call.value.urlQueries.value);
      }
    }
  }

  /** A call without `jar` uses the stored jar; `jar: null` or a jar of its own replaces it. */
  lemma MergeJarRule(defaults: Init, call: Init)
    ensures Merge(defaults, Some(call)).jar == if call.jar.Unset? then defaults.jar else call.jar
  {
  }

  /** Instance queries `{a: '1'}` and call queries `{b: '2'}` request `…/?a=1&b=2`. */
  lemma MergeExample()
    ensures var merged := Merge(EmptyInit.(urlQueries := Some([("a", "1")])), Some(EmptyInit.(urlQueries := Some([("b", "2")]))));
      && merged.urlQueries == Some([("a", "1"), ("b", "2")])
      && Href(AppendQuery(Url("https", "example.com", "", []), merged.urlQueries.value)) == "https://example.com/?a=1&b=2"
  {
    AssignAppendsExample();
    AppendQueryExample();
  }

  /** A relative input lands under the base URL's directory: `…/foo/` and `bar` give `…/foo/bar`. */
  lemma BaseUrlExample()
    ensures Target(Some(Url("https", "example.com", "/foo/", [])), Relative("bar"))
         == Absolute(Url("https", "example.com", "/foo/bar", []))
  {
    assert Directory("/foo/") == "/foo/";
  }

  // ---- stored defaults --------------------------------------------------------------------

  lemma {:induction false} GetAt(m: Map, i: nat)
    requires Distinct(m) && i < |m|
    ensures Get(m, m[i].0) == Some(m[i].1)
  {
    if i > 0 {
      assert Distinct(m[1..]) by {
        forall a, b | 0 <= a < b < |m[1..]| ensures m[1..][a].0 != m[1..][b].0 {
          assert m[1..][a] == m[a + 1] && m[1..][b] == m[b + 1];
        }
      }
      assert m[0].0 != m[i].0;
      GetAt(m[1..], i - 1);
    }
  }

  /** Two objects with the same keys in the same order and the same values are the same object. */
  lemma SameMap(a: Map, b: Map)
    requires Distinct(a) && Distinct(b) && KeysOf(a) == KeysOf(b)
    requires forall k :: Get(a, k) == Get(b, k)
    ensures a == b
  {
    forall i | 0 <= i < |a| ensures a[i] == b[i] {
      assert a[i].0 == KeysOf(a)[i] == KeysOf(b)[i] == b[i].0;
      GetAt(a, i);
      GetAt(b, i);
    }
  }

  lemma {:induction false} NewKeysOfKnown(dst: seq<string>, src: seq<string>)
    requires forall k :: k in src ==> k in dst
    ensures NewKeys(dst, src) == []
    decreases |src|
  {
    if src != [] {
      NewKeysOfKnown(dst, src[1..]);
    }
  }

  /** Assigning the same object twice is assigning it once. */
  lemma AssignTwice(dst: Map, src: Map)
    requires Distinct(dst) && Distinct(src)
    ensures Assign(Assign(dst, src), src) == Assign(dst, src)
  {
    var once := Assign(dst, src);
    var twice := Assign(once, src);
    AssignDistinct(dst, src);
    AssignDistinct(once, src);
    forall k | k in KeysOf(src) ensures k in KeysOf(once) {
      AssignGet(dst, src, k);
    }
    NewKeysOfKnown(KeysOf(once), KeysOf(src));
    AssignKeys(once, src);
    assert KeysOf(once) + [] == KeysOf(once);
    forall k ensures Get(twice, k) == Get(once, k) {
      AssignGet(once, src, k);
      AssignGet(dst, src, k);
    }
    SameMap(twice, once);
  }

  /**
   * Repeating the very same call against the stored defaults forwards the same init
   * again: the merge as written is idempotent even though it writes into the defaults.
   */
  lemma MergeRepeat(defaults: Init, call: Init)
    requires WellFormed(defaults) && WellFormed(call)
    ensures Merge(Merge(defaults, Some(call)), Some(call)) == Merge(defaults, Some(call))
  {
    if call.headers.Some? {
      AssignTwice(defaults.headers.GetOr([]), call.headers.value);
    }
    if call.urlQueries.Some? {
      AssignTwice(defaults.urlQueries.GetOr([]), call.urlQueries.value);
    }
  }

  /**
   * As written, a call with `jar: null` leaves `null` in the stored defaults, so a later
   * call that passes no jar at all still goes without the instance's jar.
   */
  lemma StickyNullJar(defaults: Init)
    requires defaults.jar.UseJar?
    ensures var afterFirst := Merge(defaults, Some(EmptyInit.(jar := NullJar)));
      && Merge(afterFirst, None).jar == NullJar
      && Merge(afterFirst, Some(EmptyInit)).jar == NullJar
      && Merge(defaults, Some(EmptyInit)).jar == defaults.jar
  {
  }

  // ---- the combined request ---------------------------------------------------------------

  /** The interceptor of the combined test: `init.urlQueries['random'] = random`. */
  function AddRandom(random: string): Interceptor {
    (input: Ref, init: Init, now: nat) => (input, init.(urlQueries := Some(Put(init.urlQueries.GetOr([]), "random", random))))
  }

  /**
   * The request of the combined test: base URL `…/api/`, instance queries and headers,
   * a jar yielding `xxx=yyy` and the interceptor above, called with `somewhere`, a query
   * and a header. Every attempt requests `…/api/somewhere?answer=42&foo=bar&random=…`
   * with the headers `x-answer`, `x-foo`, `cookie`, in that order.
   */
  lemma InstanceRequestExample(jar: Jar, random: string, cookies: seq<StoredCookie>, now: nat)
    requires forall c, u :: jar.lookup(c, u) == "xxx=yyy"
    ensures var forwarded := Forwarded(Some(Url("https", "example.com", "/api/", [])), Some(AddRandom(random)),
                                       CombinedDefaults(jar), Relative("somewhere"), Some(CombinedCall()), now);
      var p := Prepare(forwarded.0, Some(forwarded.1), cookies);
      && p.Success?
      && p.value.finalInput == Absolute(Url("https", "example.com", "/api/somewhere", [("answer", "42"), ("foo", "bar"), ("random", random)]))
      && p.value.finalInit.headers == Some([("x-answer", "42"), ("x-foo", "bar"), ("cookie", "xxx=yyy")])
  {
    CombinedForwarded(jar, random, now);
    var target := Absolute(Url("https", "example.com", "/api/somewhere", []));
    var queries := [("answer", "42"), ("foo", "bar"), ("random", random)];
    assert AppendQuery(target.url, queries) == target.url.(query := queries);
    FtoFetchProps.CookieHeaderExample();
  }

  function CombinedDefaults(jar: Jar): Init {
    EmptyInit.(jar := UseJar(jar), urlQueries := Some([("answer", "42")]), headers := Some([("X-Answer", "42")]))
  }

  function CombinedCall(): Init {
    EmptyInit.(urlQueries := Some([("foo", "bar")]), headers := Some([("X-Foo", "bar")]))
  }

  lemma CombinedForwarded(jar: Jar, random: string, now: nat)
    ensures Forwarded(Some(Url("https", "example.com", "/api/", [])), Some(AddRandom(random)), CombinedDefaults(jar), Relative("somewhere"), Some(CombinedCall()), now)
         == (Absolute(Url("https", "example.com", "/api/somewhere", [])),
             EmptyInit.(jar := UseJar(jar), urlQueries := Some([("answer", "42"), ("foo", "bar"), ("random", random)]),
                        headers := Some([("X-Answer", "42"), ("X-Foo", "bar")])))
  {
    var merged := Merge(CombinedDefaults(jar), Some(CombinedCall()));
    assert merged.urlQueries == Some([("answer", "42"), ("foo", "bar")]) by {
      assert Put([("answer", "42")], "foo", "bar") == [("answer", "42"), ("foo", "bar")];
    }
    assert merged.headers == Some([("X-Answer", "42"), ("X-Foo", "bar")]) by {
      assert Put([("X-Answer", "42")], "X-Foo", "bar") == [("X-Answer", "42"), ("X-Foo", "bar")];
    }
    assert Target(Some(Url("https", "example.com", "/api/", [])), Relative("somewhere"))
        == Absolute(Url("https", "example.com", "/api/somewhere", [])) by {
      assert Directory("/api/") == "/api/";
    }
    assert Put([("answer", "42"), ("foo", "bar")], "random", random) == [("answer", "42"), ("foo", "bar"), ("random", random)] by {
      var rest := [("answer", "42"), ("foo", "bar")][1..];
      assert rest == [("foo", "bar")];
      assert Put(rest, "random", random) == [("foo", "bar"), ("random", random)];
    }
  }
}
