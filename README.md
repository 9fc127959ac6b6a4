# anobbs-client-js, modelled in Dafny

This project models the core of a TypeScript client for an anonymous forum's JSON API. The core has six parts:

- `fetch`: a wrapper around `node-fetch`. It appends `urlQueries` to the URL and sends the cookies of a cookie jar. It also runs a timeout, checks the response status, retries through `retryOn`, `beforeRetry` and `retryDelay`, follows redirects by hand, and reports where the request went (`response.request`).
- `createFetchInstance`: a fetch with stored defaults, a base URL and a request interceptor.
- The options resolvers: a chain of option objects in which the last object that owns a key wins.
- `BaseClient`: it builds the fetch instance from the user's cookie (`userhash`). Its interceptor adds `appid` and a `__t` timestamp, and `getJson` refuses to send cookies without a user.
- `Client`: it turns a board or thread page request into a `getJson` call. On the way it applies the login policy (`enforce`, `when_has_cookie`, `when_required`, `always_no`) and the "gatekeeper" page limits.
- The data objects: posts, thread pages with a memoised reply list, and board threads.

How the model is organised:

- One Dafny module per source file, plus supporting modules:
  - `Js`: number and string conversions as JavaScript does them.
  - `OrderedMap`: plain objects with insertion order.
  - `Url`: the URL parts the code uses, form encoding and relative resolution.
  - `FetchErrors`, `CookieJar` and `Wrappers`.
- State the source changes in place is modelled with classes:
  - the instance's defaults;
  - the cookie jar's contents;
  - the transport;
  - the replies cache.
- Each method is proved equal to a pure specification function, such as `FtoFetch.Exec` for a whole call. The properties are lemmas about those functions.
- The network is an `Environment` object. It holds the finite list of outcomes the transport will give, and a log of effects:
  - transport calls;
  - `retryOn` questions;
  - `beforeRetry` calls;
  - waits.
- The clock (`Date.now()`) is a parameter `now` in milliseconds. The cookie jar's cookie lookup is a function parameter of the jar.

The evident bugs in the code are listed under "## Findings"; the model follows the code and proves the corrected form beside it.

## Model

| member | source | states |
|---|---|---|
| Js.ToInt32 | src/BaseClient.ts:126 | `x \| 0`: the result is a signed 32-bit integer congruent to `x` modulo 2^32 |
| Js.NumberToString | src/BaseClient.ts:126 | `String(n)` is a non-empty decimal text |
| Js.NumberOfString | src/objects.ts:25-27 | `Number(String(n))` is `n` for every integer, the round trip the getters rely on |
| Js.LowerAscii | src/utils/fetch/fto-fetch.ts:71 | header names are lower-cased character by character |
| OrderedMap.KeysOf | src/BaseClient.ts:122-127 | the keys of a plain object, one per entry, in order |
| OrderedMap.Get | src/BaseClient.ts:122-127 | a property is absent exactly when its key is not among the keys |
| OrderedMap.PutKeys | src/utils/fetch/fto-fetch.ts:59 | setting a property keeps an existing key's place and appends a new key |
| OrderedMap.PutGet | src/utils/fetch/fto-fetch.ts:59 | after setting `k`, reading `k` gives the new value and every other key is unchanged |
| OrderedMap.PutDistinct | src/utils/fetch/fto-fetch.ts:59 | setting a property never repeats a key |
| OrderedMap.AssignKeys | src/BaseClient.ts:122-127 | a spread keeps the first object's keys and appends the second's new keys in their order |
| OrderedMap.AssignDistinct | src/BaseClient.ts:122-127 | a spread never repeats a key |
| OrderedMap.AssignGet | src/BaseClient.ts:122-127 | after a spread a key reads the later object's value, else the earlier one's |
| OrderedMap.AssignAppendsExample | src/BaseClient.ts:122-127 | `{a:1}` spread with `{b:2}` is `{a:1, b:2}` in that order |
| Url.Encode | src/utils/fetch/fto-fetch.ts:58-61 | form encoding yields only characters that need no escaping |
| Url.EncodeSafe | src/utils/fetch/fto-fetch.ts:58-61 | ASCII letters, digits and `*-._` encode to themselves |
| Url.SafePair | src/utils/fetch/fto-fetch.ts:58-61 | a name and value made of such characters serialize as `name=value` |
| Url.DecodeEncode | src/utils/fetch/fto-fetch.ts:58-61 | decoding the form encoding of a string gives back its UTF-8 bytes |
| Url.ParseSerialize | src/utils/fetch/fto-fetch.ts:58-61 | parsing a serialized query gives back every name and value, in order |
| Url.SerializeAppend | src/utils/fetch/fto-fetch.ts:58-59 | serializing appended entries joins the two serializations with `&` |
| Url.AppendQuery | src/utils/fetch/fto-fetch.ts:56-61 | `searchParams.append` keeps scheme, host and path, and appends the entries after the existing query |
| Url.AppendQueryHref | src/utils/fetch/fto-fetch.ts:56-61 | the new `href` is the old URL with `?`, the old query, `&` and the new entries |
| Url.AppendQueryExample | src/utils/fetch/fto-fetch.test.ts:16-24 | `https://example.com` with `{a:'1', b:'2'}` is `https://example.com/?a=1&b=2` |
| Url.Directory | src/utils/fetch/fetch-instance.ts:41-43 | a base path's directory is a prefix of it ending in `/`, with no `/` after it |
| Url.ResolveUnderDirectory | src/utils/fetch/fetch-instance.ts:41-43 | a relative path not starting with `/` resolves under the base's directory, on the base's host |
| Url.ResolveExample | src/utils/fetch/fetch-instance.test.ts:87-94 | `bar` against `https://example.com/foo/` is `https://example.com/foo/bar` |
| CookieJar.Jar.SetCookie | src/utils/fetch/fto-fetch.ts:138-140 | storing a cookie appends it to the jar's contents |
| FtoFetch.HeadersAppend | src/utils/fetch/fto-fetch.ts:71-73 | `headers.append('cookie', …)` adds a cookie header or extends an existing one with `, `, leaving others alone |
| FtoFetch.HeadersFrom | src/utils/fetch/fto-fetch.ts:71 | `new Headers(init.headers)` has no repeated name |
| FtoFetch.Prepare | src/utils/fetch/fto-fetch.ts:51-99 | it fails exactly for queries on a relative input; it appends the queries and adds the cookie header when the jar has cookies; it strips the local options from the init and keeps them aside |
| FtoFetch.CookieRecords | src/utils/fetch/fto-fetch.ts:138-140 | every `set-cookie` value is stored against the response URL, `ignoreError` defaulting to true |
| FtoFetch.RedirectInit | src/utils/fetch/fto-fetch.ts:150-154 | the redirected call's init is the caller's own init, jar included, with `follow` one lower than the final one (absent stays absent) and, unless the status is 307, method `GET` and a null body; a 307 keeps the caller's method and body |
| FtoFetch.Classify | src/utils/fetch/fto-fetch.ts:166-172 | the error becomes the timeout error exactly when it is an `AbortError` and the timer fired |
| FtoFetch.Recover | src/utils/fetch/fto-fetch.ts:174-183 | the retry decision only consumes outcomes and extends the log; without a jar it stores no cookie |
| FtoFetch.Exec | src/utils/fetch/fto-fetch.ts:49-188 | a whole call only consumes outcomes and extends the log; without a jar, the stored cookies are unchanged |
| FtoFetch.Delivered | src/utils/fetch/fto-fetch.ts:124 | `node-fetch` passes the transport's answer through for an absolute URL and rejects a relative one with `TypeError`; a failure stays a failure |
| FtoFetch.Environment.Exchange | src/utils/fetch/fto-fetch.ts:124 | one transport call takes the next outcome, as `node-fetch` delivers it for the URL (a `TypeError` for a relative one), and logs the request |
| FtoFetch.StoreAll | src/utils/fetch/fto-fetch.ts:137-140 | the jar's contents grow by one record per `set-cookie` value, in order |
| FtoFetch.Retry | src/utils/fetch/fto-fetch.ts:174-183 | the `catch` block's questions, hook calls and waits are those of `Recover`; it answers whether attempt `n + 1` follows |
| FtoFetch.AnswerResponse | src/utils/fetch/fto-fetch.ts:137-164 | handling a response only consumes outcomes and extends the log; without a jar it stores no cookie |
| FtoFetch.ReceiveResponse | src/utils/fetch/fto-fetch.ts:137-164 | storing the cookies, following a redirect and checking the status settle the call or hand the error to the retry decision, as `AnswerResponse` does |
| FtoFetch.Attempt | src/utils/fetch/fto-fetch.ts:101-187 | one pass of the loop either settles the call as `Attempts` does, or consumes an outcome and hands over to attempt `n + 1` |
| FtoFetch.Fetch | src/utils/fetch/fto-fetch.ts:49-188 | the loop's result, outcomes, log and jar contents are those of `Exec` |
| FtoFetchProps.QueryMerge | src/utils/fetch/fto-fetch.ts:55-62 | the requested URL is the input with `?`, its own query, `&` and the new queries |
| FtoFetchProps.QueryMergeExample | src/utils/fetch/fto-fetch.test.ts:16-24 | `{a:'1', b:'2'}` on `https://example.com` requests `https://example.com/?a=1&b=2` |
| FtoFetchProps.CookieHeader | src/utils/fetch/fto-fetch.ts:69-74 | without cookies the headers are untouched; with them `cookie` is last or in place and carries the jar's string |
| FtoFetchProps.CookieHeaderExample | src/utils/fetch/fto-fetch.test.ts:28-80 | `X-Answer`, `X-Foo` and a jar giving `xxx=yyy` send `x-answer`, `x-foo`, `cookie` in that order |
| FtoFetchProps.HeadersFromExample | src/utils/fetch/fto-fetch.test.ts:28-80 | header names are lower-cased and keep their order |
| FtoFetchProps.SameRequestEachAttempt | src/utils/fetch/fto-fetch.ts:51-99 | without redirects, every attempt sends the same URL, headers, method and body |
| FtoFetchProps.SameRequestAnswer | src/utils/fetch/fto-fetch.ts:122-164 | when no redirect is followed, whatever attempt `n`'s transport call gives, the later attempts it leads to send the prepared request again |
| FtoFetchProps.AttemptCap | src/utils/fetch/fto-fetch.ts:101-187 | when no redirect is followed and `retryOn` refuses from attempt `k` on, at most `k - n + 1` transport calls follow attempt `n` |
| FtoFetchProps.RetrySchedule | src/utils/fetch/fto-fetch.ts:174-183 | against failures, attempts `n` to `k` make `k - n + 1` transport calls and questions, and one hook call and one wait per retry; the call then rethrows the last error |
| FtoFetchProps.RetryCountExample | src/utils/fetch/fto-fetch.test.ts:109-129 | `retryOn: n < 5` makes five transport calls and four `beforeRetry` calls, then rejects |
| FtoFetchProps.NoRetryOn | src/utils/fetch/fto-fetch.ts:175-183 | without `retryOn`, the first failure is rethrown after one transport call |
| FtoFetchProps.FailStep | src/utils/fetch/fto-fetch.ts:122-175 | a failed transport call goes to the retry decision without a response, an abort by the own timer as the timeout error |
| FtoFetchProps.RecoverStep | src/utils/fetch/fto-fetch.ts:175-180 | an accepted retry logs the question, the hook call and the wait, then runs attempt `n + 1` |
| FtoFetchScenarios.StatusRejected | src/utils/fetch/fto-fetch.ts:159-164 | a status `validateStatus` refuses rejects with that status and text |
| FtoFetchScenarios.StatusStep | src/utils/fetch/fto-fetch.ts:137-164 | a response that is not followed and that `validateStatus` refuses goes to the retry decision with its status, after its cookies are stored |
| FtoFetchScenarios.CookiesStoredFirst | src/utils/fetch/fto-fetch.ts:137-140 | a response's cookies are stored before anything else happens, and they stay |
| FtoFetchScenarios.CombinedExample | src/utils/fetch/fto-fetch.test.ts:166-224 | timeout, 500, timeout, error, then 404 make five attempts with those errors, then reject with the 404 |
| FtoFetchScenarios.RedirectFollowed | src/utils/fetch/fto-fetch.ts:137-157 | a followed redirect runs after the response's cookies are stored, with or without a jar; its result is the attempt's, and its rejection goes to this attempt's retry decision with the response's status |
| FtoFetchScenarios.RelativeInputRejected | src/utils/fetch/fto-fetch.ts:122-124 | a relative input without `urlQueries` reaches the transport call, which rejects with `TypeError` after one logged call, whatever the transport had scheduled |
| FtoFetchScenarios.MissingLocationRejected | src/utils/fetch/fto-fetch.ts:145-155 | a followed redirect without a `location` header goes to `null`, a relative URL, so the attempt rejects with `TypeError` |
| FtoFetchScenarios.RedirectExample | src/utils/fetch/fto-fetch.ts:142-157 | a 302 with `follow: 1` is followed as a GET without a body, with `follow: 0` and the queries appended again |
| FtoFetchScenarios.NegativeFollowRedirects | src/utils/fetch/fto-fetch.ts:145-153 | as written, `follow: -1` follows a redirect and the hop gets `follow: -2` |
| FtoFetchScenarios.IntendedFollowBounded | src/utils/fetch/fto-fetch.ts:145-153 | under `(follow ?? 0) > 0` every hop lowers `follow` and stays non-negative; `follow <= 0` follows nothing |
| FtoFetchScenarios.ProvenanceExample | src/utils/fetch/fto-fetch.test.ts:154-164 | `response.request` gives the caller's input and init, the final URL with the queries, and the stripped init |
| FetchInstance.Instance.constructor | src/utils/fetch/fetch-instance.ts:27-35 | the base URL and interceptor are taken out, the rest become the defaults |
| FetchInstance.Instance.Invoke | src/utils/fetch/fetch-instance.ts:37-51 | the call is `Exec` of the merged, resolved and intercepted request, and the merge result becomes the new defaults |
| FetchInstance.IsolatedInstance.Invoke | src/utils/fetch/fetch-instance.ts:37-51 | the same request, with the defaults left unchanged |
| FetchInstance.MergeQueries | src/utils/fetch/fetch-instance.ts:39 | queries merge key by key: the defaults' keys first, the call's new keys after, the call's values winning |
| FetchInstance.MergeHeaders | src/utils/fetch/fetch-instance.ts:39 | headers merge key by key in the same way |
| FetchInstance.MergeWellFormed | src/utils/fetch/fetch-instance.ts:39 | merging never repeats a header or query name |
| FetchInstance.MergeJarRule | src/utils/fetch/fetch-instance.ts:39 | a call without `jar` uses the stored jar; `jar: null` or its own jar replaces it |
| FetchInstance.MergeExample | src/utils/fetch/fetch-instance.test.ts:18-28 | instance `{a:'1'}` and call `{b:'2'}` request `…/?a=1&b=2` |
| FetchInstance.BaseUrlExample | src/utils/fetch/fetch-instance.test.ts:87-94 | `bar` with base `https://example.com/foo/` targets `…/foo/bar` |
| FetchInstance.AssignTwice | src/utils/fetch/fetch-instance.ts:39 | spreading the same object twice is spreading it once |
| FetchInstance.MergeRepeat | src/utils/fetch/fetch-instance.ts:39 | repeating the same call's merge leaves the merged defaults as they are |
| FetchInstance.StickyNullJar | src/utils/fetch/fetch-instance.ts:39 | as written, one `jar: null` call leaves `null` in the defaults for later calls |
| FetchInstance.InstanceRequestExample | src/utils/fetch/fetch-instance.test.ts:123-217 | the combined request targets `…/api/somewhere?answer=42&foo=bar&random=…` with headers `x-answer`, `x-foo`, `cookie` |
| FetchInstance.CombinedForwarded | src/utils/fetch/fetch-instance.test.ts:123-217 | the combined call's merged and intercepted init |
| OptionsResolver.Compact | src/utils/options-resolver.ts:4 | dropping `null`s keeps exactly the present objects |
| OptionsResolver.Resolver.Get | src/utils/options-resolver.ts:6-15 | a property reads the last object that owns it, else `undefined` |
| OptionsResolver.ResolverWithDefaults.Get | src/utils/options-resolver.ts:24-33 | a property reads the last owner, else the defaults |
| OptionsResolver.Lookup | src/utils/options-resolver.ts:8-13 | the backward scan finds the last owner |
| OptionsResolver.CompactOwner | src/utils/options-resolver.ts:4 | dropping `null`s changes no property's owner |
| OptionsResolver.OwnedIff | src/utils/options-resolver.ts:8-13 | a property has an owner exactly when some object in the chain owns it |
| OptionsResolver.LastOwnerWins | src/utils/options-resolver.ts:8-13 | the last owner's value is the one read |
| OptionsResolver.DefaultsOnlyWhenUnowned | src/utils/options-resolver.ts:26-31 | the defaults are read only when no object owns the key, even when the owner's value is `undefined` |
| OptionsResolver.ResolverExample | src/utils/options-resolver.test.ts:3-24 | the repository's example chain resolves `foo`, `bar`, `baz` and `no` as the test expects |
| BaseClient.BaseClient.constructor | src/BaseClient.ts:76-132 | the jar exists exactly with a user and holds its `userhash` cookie; the instance's defaults are the four headers, 20 s and `status === 200` |
| BaseClient.BaseClient.GetJson | src/BaseClient.ts:134-162 | cookies without a user throw and change nothing; otherwise the call is `Exec` of the forwarded request, with at most retries + 1 transport calls |
| BaseClient.ForwardedByClient | src/BaseClient.ts:93-130 | the request is the endpoint resolved under `https://host/Api/`, with `appid` and `__t` added to the merged queries |
| BaseClient.RetryOnIff | src/BaseClient.ts:154-155 | `retryOn` holds exactly for a `NetworkError` on attempt at most `retries` |
| BaseClient.RetryOnNaN | src/BaseClient.ts:154-155 | a `retries` that is not a number never retries |
| BaseClient.CallBound | src/BaseClient.ts:151-158 | a `getJson` call makes at most `retries + 1` transport calls |
| BaseClient.InterceptedQueriesShape | src/BaseClient.ts:120-129 | the intercepted queries keep the caller's keys in place, then `appid` (when set and non-empty) and `__t`, each appended only when new; `__t` is the timestamp, `appid` is set exactly when given non-empty, other keys keep their values, and no key repeats |
| BaseClient.NoCookieWithoutCredentials | src/BaseClient.ts:153 | a call without cookies uses no jar and sends the headers unchanged |
| BaseClient.CredentialsLostAfterAnonymousCall | src/BaseClient.ts:153 | as written, after one call without cookies a later call with cookies still has no jar |
| BaseClient.CredentialsKeptInIsolation | src/BaseClient.ts:153 | with the defaults as the instance was created, a call with cookies uses the instance's jar |
| BaseClient.SecondsTimestampExact | src/BaseClient.ts:125-126 | the intended timestamp reads back as the whole seconds since the epoch |
| BaseClient.TimestampAgreesUntil2038 | src/BaseClient.ts:126 | `Date.now() / 1000 \| 0` gives the seconds exactly while they stay below 2^31 |
| BaseClient.TimestampWrapsIn2038 | src/BaseClient.ts:126 | at 2^31 seconds the written timestamp is -2^31 |
| BaseClient.UserhashCookie | src/BaseClient.ts:110-116 | the jar receives `userhash=<hash>; domain=<host>` for `https://<host>` |
| BaseClient.GetJsonRequestExample | src/BaseClient.test.ts:36-92 | a call to `endpoint` with `foo=bar` requests `https://host/Api/endpoint?foo=bar&appid=…&__t=…` with the jar |
| Client.PolicyOf | src/Client.ts:14 | a value is a login policy exactly when it is one of the four names |
| Client.PolicyNames | src/Client.ts:14 | every policy's name reads back as that policy |
| Client.ResolvedPrecedence | src/Client.ts:30-35 | an option reads the call's options, then the client's, then the defaults |
| Client.DefaultsResolved | src/Client.ts:30-35 | without options: `when_required`, gatekeepers 100 and 3 retries |
| Client.SendsCredentialsTable | src/Client.ts:122-138 | `enforce` always; `when_has_cookie` with a user or past the gatekeeper; the others only past it; anything else throws |
| Client.ThreadAlwaysNoSendsNoCookie | src/Client.ts:96-106 | under `always_no`, no thread request sends cookies |
| Client.ThreadNeverRequiresLogin | src/Client.ts:100-106 | a thread page asks for cookies only with a user, so it never throws `RequiresLoginException` |
| Client.OmittedPage | src/Client.ts:96-111 | an omitted page decides like page 1 but sends `page=undefined` |
| Client.BoardGuardAsWritten | src/Client.ts:61 | as written, the board guard throws for any non-zero page, and for an omitted page when `1 > gatekeeper` |
| Client.BoardFirstPageRefused | src/Client.ts:61-67 | as written, board page 1 throws `GatekeptException` |
| Client.IntendedBoardGuardIff | src/Client.ts:61-67 | with any per-call options, the intended guard refuses exactly when the page (1 when omitted) is past the resolved gatekeeper page |
| Client.IntendedBoardRow | src/Client.ts:58-81 | with the intended guard and endpoint, a board page past the gatekeeper throws `GatekeptException`; else `enforce` without a user requires login; else `/Api/showf` is requested, with cookies under `enforce` or `when_has_cookie` with a user |
| Client.EndpointsLeaveApi | src/Client.ts:74-108 | as written, `/showf` and `/thread/id/N` resolve to paths outside `/Api/` |
| Client.IntendedEndpointsUnderApi | src/Client.ts:74-108 | `showf` and `thread/id/N` resolve to `/Api/showf` and `/Api/thread/id/N` |
| Client.PerCallRetriesIgnored | src/Client.ts:108-114 | as written, a thread request's `retries` ignores the call's options |
| Client.PerCallRetriesExample | src/Client.ts:108-114 | `{retries: 0}` still allows three retries |
| Client.IntendedRetries | src/Client.ts:93-114 | with the resolved options passed on, the request's `retries` is the resolved one |
| Client.BoardTableAsWritten | src/Client.test.ts:24-46 | as written, a board row, judged alone on a fresh client, holds exactly when it expects `GatekeptException` |
| Client.IntendedBoardTable | src/Client.test.ts:24-46 | the intended board request, each row judged alone on a fresh client, meets every row but `enforce`/no user/gatekept, which is refused by the guard first |
| Client.ThreadTableAsWritten | src/Client.test.ts:116-138 | as written, each thread row, judged alone on a fresh client, gets the decision it expects at `/thread/id/N`, except the two `enforce` rows without a user |
| Client.ThreadPlansAgree | src/Client.ts:93-114 | the written and intended thread requests make the same decisions |
| Client.IntendedThreadRow | src/Client.ts:93-114 | a thread page that wants cookies without a usable user throws `GatekeptException`; otherwise `/Api/thread/id/N` is requested, with cookies exactly when wanted |
| Client.IntendedThreadTable | src/Client.test.ts:116-138 | the intended thread request, each row judged alone on a fresh client, meets the same rows at `/Api/thread/id/N` |
| Client.WhenRequiredThreadPlan | src/Client.ts:93-114 | under `when_required`, a client with a user asks for the cookie exactly past the gatekeeper |
| Client.IntendedWhenRequiredThreadPlan | src/Client.ts:93-114 | the same for the intended thread request |
| Client.AnonymousThenCredentialed | src/utils/fetch/fetch-instance.ts:39 | as written, any client call without cookies followed by one with cookies leaves the second request without a jar |
| Client.SharedClientThreadRows | src/Client.test.ts:129-130 | on the one client with a user, row :129 sends no cookie and row :130, which expects the cookie and asks for it, goes out with no jar, as written and with the intended endpoint; an instance that keeps its defaults sends row :130 with the client's jar |
| Objects.AttachmentBase | src/objects.ts:29-31 | `null` exactly for an empty `img`, else `img` |
| Objects.AttachmentExtension | src/objects.ts:33-35 | `null` exactly for an empty `ext`, else `ext` |
| Objects.Name | src/objects.ts:52-54 | `null` exactly for the anonymous name 无名氏 |
| Objects.Email | src/objects.ts:56-58 | as written, `null` exactly when `name` is empty |
| Objects.Title | src/objects.ts:60-62 | as written, `null` exactly when `name` is 无标题 |
| Objects.IntendedEmail | src/objects.ts:56-58 | `null` exactly for an empty `email` |
| Objects.IntendedTitle | src/objects.ts:60-62 | `null` exactly for the default title 无标题 |
| Objects.FirstMarker | src/objects.ts:38 | finds the first `(x)` at or after a position, or says there is none |
| Objects.DateTextIsRegexMatch | src/objects.ts:37-40 | the date text exists exactly when `^(.*?)\(.\)(.*?)$` matches, and joins the text around the first matching marker with a space |
| Objects.DateTextExample | src/objects.ts:37-40 | `2020-07-13(一)16:22:38` gives `2020-07-13 16:22:38` |
| Objects.BoardId | src/objects.ts:101-103 | `null` exactly when `fid` is absent, else `Number(fid)` |
| Objects.RepliesOf | src/objects.ts:128 | one post per raw reply, in order |
| Objects.ThreadPage.Replies | src/objects.ts:126-131 | the replies of the raw page; once cached, the cached list is returned |
| Objects.BoardThread.LastModifiedTime | src/objects.ts:137-142 | the last reply's date, or the thread's own without replies |
| Objects.RepliesTwice | src/objects.ts:126-131 | two reads give the same list, one post per raw reply |
| Objects.LastModifiedAfterReply | src/objects.ts:137-142 | a new reply becomes the last-modified date; without replies it is the thread's date |
| Objects.AnonymousPostFields | src/test-fixtures/thread-28443539-1.ts:17 | for the fixture's anonymous post, the intended getters give `null` for all three fields, but the written `email` and `title` do not |
| Objects.AttachmentExample | src/objects.ts:29-74 | the fixture's attachment and flags read back as given |
| Objects.NumbersRoundTrip | src/objects.ts:94-103 | `totalReplyCount` and `boardId` read back the numbers the API writes |

## Left out

- I/O, time and the network:
  - `node-fetch` is replaced by the `Environment`'s list of outcomes. Its own refusal of a relative URL, a `TypeError`, is modelled (`FtoFetch.Delivered`).
  - When the outcomes run out, a call settles as `Pending`. This is a bound of the model, not something the source does.
- `FtoFetch.Attempts`: a transport call on a relative URL still takes its turn in the list of outcomes, whose entry it discards, and with an empty list it stays `Pending`. `node-fetch` rejects such a call without the network; the turn keeps every call bounded by the list, where a `retryOn` that always accepts a `TypeError` would retry forever.
- Timers:
  - `setTimeout`, `clearTimeout` and the abort controller are left out. Only whether the timer fired is an input of an outcome.
  - A wait of `retryDelay` is a log entry.
- Signals:
  - a caller's `signal` being forwarded to the timeout controller is left out.
- The cookie jar:
  - `tough-cookie`'s matching of cookies to URLs is a lookup function the model does not define.
  - `setCookieSync` and `setCookie` record what they store.
  - `jarOptions` other than `ignoreError` are not interpreted.
  - `FetchInstance.Merge` replaces a call's `jarOptions` as a whole, where `_.merge` would merge a plain `jarOptions` object key by key; no caller in the core sets `jarOptions`.
- `resp.json()`:
  - parsing the response body is left out. `getJson` returns the settled `fetch`.
- `beforeRetry: console.log`:
  - it is a named hook whose call is logged.
- Promises and concurrency:
  - every `await` happens in program order.
- `retryOn` sees the response's status and text, not the whole response object.
- `Js.ToNumber` reads decimal integers, with JavaScript whitespace around them. Fractions, exponents, hexadecimal and `Infinity` read as `NaN`.
- `Url.Resolve` covers the cases the core meets: absolute input, a path starting with `/`, and a path relative to the base's directory. Dot segments, queries and fragments in relative inputs, and network-path references (`//host/…`), are not resolved.
- Headers:
  - a `Headers` object passed as `init.headers` is treated like the plain object it was built from;
  - JavaScript's ordering of integer-like keys first is left out.
- The options resolver's `Proxy` is modelled by what its `get` returns, with one exception: a later `hasOwnProperty` on the proxy itself finds no own property. This is how `Client.ResolvedOptionsLayer` behaves (see "## Findings").
- `GatekeptException` is not defined in `src/errors.ts`, so its message and context texts are left out. The model keeps `currentPageNumber`.
- `dateFns.parse` and `zonedTimeToUtc` are left out. `Objects.CreatedAt` stops at the text handed to the date library, and `None` stands for the `TypeError` thrown when the expression does not match.
- `Objects.DateText`: strings are sequences of Unicode scalar values. A marker character outside the Basic Multilingual Plane would be two UTF-16 code units in JavaScript, which `.` does not match.
- `Objects.ThreadPage.Replies`:
  - the cache holds the list's value;
  - object identity, and a caller mutating the returned array, are not modelled;
  - the raw page is immutable in the model, while in JavaScript a changed `raw.replys` would leave the cache stale.
- `Objects.Id`, `Objects.UserId` and `Objects.Content` only read fields, and have no contract of their own. `Objects.MarkedSage` and `Objects.MarkedAdmin` are pure predicates with no contract of their own either.
- `Objects.BoardThread` is modelled as a class holding a `ThreadPage`, not as a subclass.
- The `Client` constructor only narrows the type of `fallbackOptions`. `Client.ClientState` keeps whether there is a user and the fallback options.
- The thread-table disagreement is not a finding: with `enforce`, no user and a thread page, the code throws `GatekeptException` where the test rows at src/Client.test.ts:121-122 expect `RequiresLoginException`. The model follows the code, because the check at src/Client.ts:100-105 is written for exactly this case (cookies wanted, no user) and its message says that a login is needed, so the code's exception is a deliberate choice; the text does not show which of the two the authors settled on, so no correction is claimed.
- `Client.IntendedBoardTable` keeps the guard before the login check, as the code orders them. So the `enforce`/no user/gatekept row is refused as gatekept, not as requiring login.
- `_.merge` writes each call's init into the instance's stored defaults, so one call's options carry over to the next (see "## Findings"). `FetchInstance.Instance` follows the code, and `FetchInstance.IsolatedInstance` is the corrected form, which merges into a copy.
- `FetchInstance.Instance.Invoke`: it stores the forwarded init as the new defaults. That is what the code does only because the one interceptor in the core, `BaseClient.ClientInterceptor` (src/BaseClient.ts:120-129), changes and returns the very init it receives; an interceptor returning a new object would leave the merged init, not its result, in the defaults.
- The table lemmas (`Client.BoardTableAsWritten`, `Client.IntendedBoardTable`, `Client.ThreadTableAsWritten`, `Client.IntendedThreadTable`) judge each row alone on a fresh client. The repository shares one client per kind across a table's rows (src/Client.test.ts:111-112); the one row this changes, thread row :130, is covered by `Client.SharedClientThreadRows` and listed under "## Findings". On the board table no row with a user expects the cookie after its first `jar: null` row.
- The board rows call `client.getBoardPage` (src/Client.test.ts:78), which `src/Client.ts` does not define; the model reads them as calls of `getBoardPageJson`, the board request it does define.

## Findings

| source | as written | input that shows it | evidently intended | confidence | as-written member | corrected member |
|---|---|---|---|---|---|---|
| src/utils/fetch/fetch-instance.ts:39 | `_.merge(instanceInit, init)` writes each call's init into the stored defaults | a call with `jar: null` (what `getJson` sends without cookies), then a call that asks for cookies; the thread rows src/Client.test.ts:129 then :130 on the one `clientWithUser` | each call merges into a fresh copy of the defaults | high; not executed | FetchInstance.StickyNullJar, BaseClient.CredentialsLostAfterAnonymousCall, Client.SharedClientThreadRows | FetchInstance.IsolatedInstance.Invoke, BaseClient.CredentialsKeptInIsolation |
| src/utils/fetch/fto-fetch.ts:146 | `finalInit.follow ?? 0 > 0` parses as `follow ?? (0 > 0)`, so any non-zero `follow` enables redirects | `follow: -1` with a 302 response | `(finalInit.follow ?? 0) > 0` | high; not executed | FtoFetchScenarios.NegativeFollowRedirects | FtoFetchScenarios.IntendedFollowBounded |
| src/Client.ts:61 | `pageNumber ?? 1 > gatekeeper` parses as `pageNumber ?? (1 > gatekeeper)`, so any given non-zero page is refused | `getBoardPageJson` with page 1 | `(pageNumber ?? 1) > gatekeeper` | high; not executed | Client.BoardGuardAsWritten, Client.BoardFirstPageRefused, Client.BoardTableAsWritten | Client.IntendedBoardGuardIff, Client.IntendedBoardTable |
| src/Client.ts:74, src/Client.ts:108 | endpoints start with `/`, so resolving them against `https://host/Api/` drops `/Api/` | any board or thread request | `showf` and `thread/id/N`, which stay under `/Api/` | high; not executed | Client.EndpointsLeaveApi, Client.ThreadTableAsWritten | Client.IntendedEndpointsUnderApi, Client.IntendedThreadTable |
| src/Client.ts:80, src/Client.ts:113 | the resolver proxy is passed as `options`; `getJson`'s resolver asks it `hasOwnProperty`, which is false for every key, so per-call `retries` is lost | `getThreadPage` with `{ retries: 0 }` | pass the caller's options, or the resolved values as a plain object | medium; not executed | Client.PerCallRetriesIgnored, Client.PerCallRetriesExample | Client.IntendedRetries |
| src/BaseClient.ts:126 | `Date.now() / 1000 \| 0` truncates to a signed 32-bit integer | `now` = 2^31 × 1000 ms (January 2038) | the whole seconds since the epoch, `Math.floor(Date.now() / 1000)` | high; not executed | BaseClient.TimestampWrapsIn2038, BaseClient.TimestampAgreesUntil2038 | BaseClient.SecondsTimestampExact |
| src/objects.ts:57, src/objects.ts:61 | `email` tests `raw.name !== ""` and `title` tests `raw.name !== "无标题"` | an anonymous post with name 无名氏, email empty and title 无标题, for which the fixtures expect `null` email and title | test `raw.email` and `raw.title` | medium; not executed; the fixtures do not show the raw values | Objects.Email, Objects.Title, Objects.AnonymousPostFields | Objects.IntendedEmail, Objects.IntendedTitle |
