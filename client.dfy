// `Client` (src/Client.ts): the forum-page requests on top of `getJson`. Each one
// resolves its options, decides from the login policy whether to send the user's
// cookie, refuses pages the site is known to gatekeep, and hands an endpoint and
// its queries to `getJson`. The decisions are pure; the client's state enters as
// whether it has a user and what its `fallbackOptions` are.

module Client {
  import opened Wrappers
  import opened Js
  import opened Url
  import opened OrderedMap
  import opened OptionsResolver
  import BaseClient
  import FetchInstance
  import FtoFetch
  import CookieJar

  type Options = Layer<Value>

  /** `LoginPolicy`. */
  datatype LoginPolicy = Enforce | WhenHasCookie | WhenRequired | AlwaysNo

  function PolicyName(p: LoginPolicy): string {
    match p
    case Enforce => "enforce"
    case WhenHasCookie => "when_has_cookie"
    case WhenRequired => "when_required"
    case AlwaysNo => "always_no"
  }

  /** The `case` an options value selects; `None` reaches the `default` branch. */
  function PolicyOf(v: Value): (p: Option<LoginPolicy>)
    ensures p.Some? ==> v == Str(PolicyName(p.value))
    ensures (exists q :: v == Str(PolicyName(q))) ==> p.Some?
  {
    if v == Str("enforce") then Some(Enforce)
    else if v == Str("when_has_cookie") then Some(WhenHasCookie)
    else if v == Str("when_required") then Some(WhenRequired)
    else if v == Str("always_no") then Some(AlwaysNo)
    else None
  }

  /** `defaultOptions`: BaseClient's, then the policy and both gatekeeper page numbers. */
  const DefaultOptions: Options := BaseClient.DefaultOptions + map[
    "loginPolicy" := Str("when_required"),
    "boardGatekeeperPageNumber" := Num(100),
    "threadGatekeeperPageNumber" := Num(100)]

  /** What a `Client` contributes to its requests. */
  datatype ClientState = ClientState(hasUser: bool, fallbackOptions: Option<Options>)

  /** `resolvedOptions[key]` over `[this.fallbackOptions, options ?? null]` with `defaultOptions`. */
  function Resolved(c: ClientState, options: Option<Options>, key: string): Value
    requires key in DefaultOptions
  {
    Owner(Compact([c.fallbackOptions, options]), key).GetOr(DefaultOptions[key])
  }

  /**
   * `resolvedOptions` as `getJson` receives it: a `Proxy` over `{}` with only a `get`
   * trap, so `hasOwnProperty` finds no property on it.
   */
  const ResolvedOptionsLayer: Option<Options> := Some(map[])

  /** `String(pageNumber)`, which is `"undefined"` when no page is given. */
  function PageString(pageNumber: Option<int>): string {
    if pageNumber.Some? then NumberToString(pageNumber.value) else "undefined"
  }

  /**
   * `determinWhetherSendsCredentialsForPage(page, gatekeeper, policy)`; `None` is the
   * `throw new Error('never')` of a policy outside the four.
   */
  function SendsCredentials(page: int, gatekeeper: Value, policy: Value, hasUser: bool): Option<bool> {
    var past := Greater(Finite(page), ValueToNumber(gatekeeper));
    match PolicyOf(policy)
    case None => None
    case Some(Enforce) => Some(true)
    case Some(WhenHasCookie) => Some(hasUser || past)
    case Some(_) => Some(past)
  }

  /** Why a page request throws before anything is sent. */
  datatype Refusal = Gatekept(currentPageNumber: int) | RequiresLogin | NeverPolicy

  /** The arguments of a `getJson` call. */
  datatype Call = Call(endpoint: Ref, queries: Map, withCookies: bool, options: Option<Options>)

  datatype Plan = Refuse(refusal: Refusal) | Delegate(call: Call)

  /** The board guard as written: `pageNumber ?? (1 > gatekeeper)`, taken as a truth value. */
  predicate BoardGuard(pageNumber: Option<int>, gatekeeper: Value) {
    if pageNumber.Some? then NumberTruthy(Finite(pageNumber.value))
    else Greater(Finite(1), ValueToNumber(gatekeeper))
  }

  /** `getBoardPageJson({ boardId, pageNumber, options })` up to its `getJson` call. */
  function BoardPagePlan(c: ClientState, boardId: int, pageNumber: Option<int>, options: Option<Options>): Plan {
    var gatekeeper := Resolved(c, options, "boardGatekeeperPageNumber");
    var policy := Resolved(c, options, "loginPolicy");
    if BoardGuard(pageNumber, gatekeeper) then Refuse(Gatekept(pageNumber.GetOr(1)))
    else match SendsCredentials(pageNumber.GetOr(1), gatekeeper, policy, c.hasUser)
      case None => Refuse(NeverPolicy)
      case Some(withCookies) =>
        Delegate(Call(Relative("/showf"), [("id", NumberToString(boardId)), ("page", PageString(pageNumber))],
                      withCookies, ResolvedOptionsLayer))
  }

  /** `getThreadPage({ threadId, pageNumber, options })` up to its `getJson` call. */
  function ThreadPagePlan(c: ClientState, threadId: int, pageNumber: Option<int>, options: Option<Options>): Plan {
    var gatekeeper := Resolved(c, options, "threadGatekeeperPageNumber");
    var policy := Resolved(c, options, "loginPolicy");
    match SendsCredentials(pageNumber.GetOr(1), gatekeeper, policy, c.hasUser)
    case None => Refuse(NeverPolicy)
    case Some(withCookies) =>
      if withCookies && (!c.hasUser || policy == Str("always_no")) then Refuse(Gatekept(pageNumber.GetOr(1)))
      else Delegate(Call(Relative("/thread/id/" + NumberToString(threadId)), [("page", PageString(pageNumber))],
                         withCookies, ResolvedOptionsLayer))
  }

  /** How a page request ends before the transport: a refusal, or the request `getJson` makes. */
  datatype Outcome = Throws(refusal: Refusal) | Requests(url: Url, queries: Map, withCookies: bool, retries: Value)

  /** A plan carried through `getJson`: its login guard, the base URL and its `retries`. */
  function OutcomeOf(c: ClientState, host: string, plan: Plan): Outcome {
    match plan
    case Refuse(r) => Throws(r)
    case Delegate(call) =>
      if call.withCookies && !c.hasUser then Throws(RequiresLogin)
      else Requests(Resolve(BaseClient.ApiBase(host), call.endpoint), call.queries, call.withCookies,
                    BaseClient.Retries(c.fallbackOptions, call.options))
  }

  // ---- the requests as evidently intended ---------------------------------------------

  /** The board guard compared as a page number, as its message says: past the gatekeeper page. */
  predicate IntendedBoardGuard(pageNumber: Option<int>, gatekeeper: Value) {
    Greater(Finite(pageNumber.GetOr(1)), ValueToNumber(gatekeeper))
  }

  /**
   * `getBoardPageJson` with the guard compared as intended, the endpoint relative to
   * `/Api/`, and the caller's options passed on to `getJson`.
   */
  function IntendedBoardPagePlan(c: ClientState, boardId: int, pageNumber: Option<int>, options: Option<Options>): Plan {
    var gatekeeper := Resolved(c, options, "boardGatekeeperPageNumber");
    var policy := Resolved(c, options, "loginPolicy");
    if IntendedBoardGuard(pageNumber, gatekeeper) then Refuse(Gatekept(pageNumber.GetOr(1)))
    else match SendsCredentials(pageNumber.GetOr(1), gatekeeper, policy, c.hasUser)
      case None => Refuse(NeverPolicy)
      case Some(withCookies) =>
        Delegate(Call(Relative("showf"), [("id", NumberToString(boardId)), ("page", PageString(pageNumber))],
                      withCookies, options))
  }

  /** `getThreadPage` with the endpoint relative to `/Api/` and the caller's options passed on. */
  function IntendedThreadPagePlan(c: ClientState, threadId: int, pageNumber: Option<int>, options: Option<Options>): Plan {
    var gatekeeper := Resolved(c, options, "threadGatekeeperPageNumber");
    var policy := Resolved(c, options, "loginPolicy");
    match SendsCredentials(pageNumber.GetOr(1), gatekeeper, policy, c.hasUser)
    case None => Refuse(NeverPolicy)
    case Some(withCookies) =>
      if withCookies && (!c.hasUser || policy == Str("always_no")) then Refuse(Gatekept(pageNumber.GetOr(1)))
      else Delegate(Call(Relative("thread/id/" + NumberToString(threadId)), [("page", PageString(pageNumber))],
                         withCookies, options))
  }

  // ---- properties ---------------------------------------------------------------------

  lemma PolicyNames(p: LoginPolicy)
    ensures PolicyOf(Str(PolicyName(p))) == Some(p)
  {
  }

  /** The per-call value wins over `fallbackOptions`, which wins over `defaultOptions`. */
  lemma ResolvedPrecedence(c: ClientState, options: Option<Options>, key: string)
    requires key in DefaultOptions
    ensures options.Some? && key in options.value ==> Resolved(c, options, key) == options.value[key]
    ensures (options.None? || key !in options.value) && c.fallbackOptions.Some? && key in c.fallbackOptions.value
            ==> Resolved(c, options, key) == c.fallbackOptions.value[key]
    ensures (options.None? || key !in options.value) && (c.fallbackOptions.None? || key !in c.fallbackOptions.value)
            ==> Resolved(c, options, key) == DefaultOptions[key]
  {
    var chain := [c.fallbackOptions, options];
    CompactOwner(chain, key);
    assert chain[..1] == [c.fallbackOptions] && chain[..1][..0] == [];
    if (options.None? || key !in options.value) && (c.fallbackOptions.None? || key !in c.fallbackOptions.value) {
      assert OwnerOfChain(chain[..1], key) == None;
      assert OwnerOfChain(chain, key) == None;
    }
  }

  /** With no options anywhere, the policy is `when_required` and both gatekeeper pages are 100. */
  lemma DefaultsResolved(options: Option<Options>)
    requires options.None? || options.value == map[]
    ensures var c := ClientState(false, None);
      && Resolved(c, options, "loginPolicy") == Str("when_required")
      && Resolved(c, options, "boardGatekeeperPageNumber") == Num(100)
      && Resolved(c, options, "threadGatekeeperPageNumber") == Num(100)
      && Resolved(c, options, "retries") == Num(3)
  {
    ResolvedPrecedence(ClientState(false, None), options, "loginPolicy");
    ResolvedPrecedence(ClientState(false, None), options, "boardGatekeeperPageNumber");
    ResolvedPrecedence(ClientState(false, None), options, "threadGatekeeperPageNumber");
    ResolvedPrecedence(ClientState(false, None), options, "retries");
  }

  /**
   * The decision table: `enforce` always sends credentials, `when_has_cookie` when
   * there is a user or the page is past the gatekeeper page, `when_required` and
   * `always_no` only past it; any other value throws.
   */
  lemma SendsCredentialsTable(page: int, gatekeeper: int, policy: Value, hasUser: bool)
    ensures policy == Str("enforce") ==> SendsCredentials(page, Num(gatekeeper), policy, hasUser) == Some(true)
    ensures policy == Str("when_has_cookie") ==>
      SendsCredentials(page, Num(gatekeeper), policy, hasUser) == Some(hasUser || page > gatekeeper)
    ensures policy == Str("when_required") || policy == Str("always_no") ==>
      SendsCredentials(page, Num(gatekeeper), policy, hasUser) == Some(page > gatekeeper)
    ensures SendsCredentials(page, Num(gatekeeper), policy, hasUser).None? <==> PolicyOf(policy).None?
  {
  }

  /** A thread page never sends credentials under `always_no`: it refuses instead. */
  lemma ThreadAlwaysNoSendsNoCookie(c: ClientState, threadId: int, pageNumber: Option<int>, options: Option<Options>)
    requires Resolved(c, options, "loginPolicy") == Str("always_no")
    ensures var plan := ThreadPagePlan(c, threadId, pageNumber, options);
      plan.Delegate? ==> !plan.call.withCookies
    ensures var plan := IntendedThreadPagePlan(c, threadId, pageNumber, options);
      plan.Delegate? ==> !plan.call.withCookies
  {
  }

  /**
   * A thread page asks `getJson` for cookies only when there is a user, so its
   * `RequiresLoginException` can never come from a thread page.
   */
  lemma ThreadNeverRequiresLogin(c: ClientState, host: string, threadId: int, pageNumber: Option<int>, options: Option<Options>)
    ensures var plan := ThreadPagePlan(c, threadId, pageNumber, options);
      && (plan.Delegate? && plan.call.withCookies ==> c.hasUser)
      && OutcomeOf(c, host, plan) != Throws(RequiresLogin)
  {
  }

  /** The decision treats an omitted page as page 1, but the query sends `page=undefined`. */
  lemma OmittedPage(c: ClientState, threadId: int, options: Option<Options>)
    ensures var omitted := ThreadPagePlan(c, threadId, None, options);
      var first := ThreadPagePlan(c, threadId, Some(1), options);
      && (omitted.Delegate? <==> first.Delegate?)
      && (omitted.Delegate? ==> omitted.call.withCookies == first.call.withCookies
                                && omitted.call.queries == [("page", "undefined")]
                                && first.call.queries == [("page", "1")])
  {
  }

  /** The board guard as written: any given page other than 0 is refused; an omitted one only when 1 > gatekeeper. */
  lemma BoardGuardAsWritten(pageNumber: Option<int>, gatekeeper: Value)
    ensures pageNumber.Some? ==> (BoardGuard(pageNumber, gatekeeper) <==> pageNumber.value != 0)
    ensures pageNumber.None? ==> (BoardGuard(pageNumber, gatekeeper) <==> Greater(Finite(1), ValueToNumber(gatekeeper)))
  {
  }

  /** So page 1 of a board is refused as gatekept, with every policy and option. */
  lemma BoardFirstPageRefused(c: ClientState, boardId: int, options: Option<Options>)
    ensures BoardPagePlan(c, boardId, Some(1), options) == Refuse(Gatekept(1))
  {
  }

  /** The intended guard refuses exactly the pages past the gatekeeper page. */
  lemma IntendedBoardGuardIff(c: ClientState, boardId: int, pageNumber: Option<int>, options: Option<Options>, gatekeeper: int)
    requires Resolved(c, options, "boardGatekeeperPageNumber") == Num(gatekeeper)
    ensures var plan := IntendedBoardPagePlan(c, boardId, pageNumber, options);
      plan.Refuse? && plan.refusal.Gatekept? <==> pageNumber.GetOr(1) > gatekeeper
  {
  }

  /** The endpoints as written start with `/`, which replaces the `/Api/` base path. */
  lemma EndpointsLeaveApi(host: string, threadId: int)
    ensures Resolve(BaseClient.ApiBase(host), Relative("/showf")).path == "/showf"
    ensures Resolve(BaseClient.ApiBase(host), Relative("/thread/id/" + NumberToString(threadId))).path
            == "/thread/id/" + NumberToString(threadId)
  {
  }

  /** The intended endpoints land under `/Api/`. */
  lemma IntendedEndpointsUnderApi(host: string, threadId: int)
    ensures Resolve(BaseClient.ApiBase(host), Relative("showf")).path == "/Api/showf"
    ensures Resolve(BaseClient.ApiBase(host), Relative("thread/id/" + NumberToString(threadId))).path
            == "/Api/thread/id/" + NumberToString(threadId)
  {
    var api := "/Api/";
    var thread := "thread/id/" + NumberToString(threadId);
    assert api[|api| - 1] == '/' && thread[0] == 't';
    ResolveUnderDirectory(BaseClient.ApiBase(host), "showf");
    ResolveUnderDirectory(BaseClient.ApiBase(host), thread);
    assert api + "showf" == "/Api/showf";
    assert api + thread == (api + "thread/id/") + NumberToString(threadId);
    assert api + "thread/id/" == "/Api/thread/id/";
  }

  /**
   * As written, the `retries` of a page request never depends on the caller's
   * options: the resolver handed to `getJson` owns no property.
   */
  lemma PerCallRetriesIgnored(c: ClientState, host: string, threadId: int, pageNumber: Option<int>, options: Option<Options>)
    ensures var o := OutcomeOf(c, host, ThreadPagePlan(c, threadId, pageNumber, options));
      o.Requests? ==> o.retries == BaseClient.Retries(c.fallbackOptions, None)
  {
    CompactOwner([c.fallbackOptions, ResolvedOptionsLayer], "retries");
    CompactOwner([c.fallbackOptions, None], "retries");
  }

  /** `{ retries: 0 }` on a thread request with no fallback options still allows three retries. */
  lemma PerCallRetriesExample(host: string, threadId: int)
    ensures var c := ClientState(false, None);
      var o := OutcomeOf(c, host, ThreadPagePlan(c, threadId, Some(1), Some(map["retries" := Num(0)])));
      o.Requests? && o.retries == Num(3)
  {
    var c := ClientState(false, None);
    PerCallRetriesIgnored(c, host, threadId, Some(1), Some(map["retries" := Num(0)]));
    ResolvedPrecedence(c, Some(map["retries" := Num(0)]), "loginPolicy");
    ResolvedPrecedence(c, Some(map["retries" := Num(0)]), "threadGatekeeperPageNumber");
    ResolvedPrecedence(c, None, "retries");
  }

  /** With the caller's options passed on, the request's `retries` is the resolved one. */
  lemma IntendedRetries(c: ClientState, host: string, threadId: int, pageNumber: Option<int>, options: Option<Options>)
    ensures var o := OutcomeOf(c, host, IntendedThreadPagePlan(c, threadId, pageNumber, options));
      o.Requests? ==> o.retries == Resolved(c, options, "retries")
  {
  }

  // ---- the repository's decision tables -------------------------------------------------

  /** What a table row expects: an exception class, or a request with or without the cookie. */
  datatype Expected = ExpectGatekept | ExpectRequiresLogin | ExpectSends(withCookies: bool)

  /** A row: the policy, whether the client has a user, whether the page is past the gatekeeper page. */
  datatype Row = Row(policy: LoginPolicy, withUser: bool, pastGatekeeper: bool, expected: Expected)

  /** The outcome agrees with the row; a request must also go to `path`. */
  predicate Meets(o: Outcome, e: Expected, path: string) {
    match e
    case ExpectGatekept => o.Throws? && o.refusal.Gatekept?
    case ExpectRequiresLogin => o == Throws(RequiresLogin)
    case ExpectSends(b) => o.Requests? && o.withCookies == b && o.url.path == path
  }

  /**
   * The board-page table of the repository (src/Client.test.ts:24-46). Its rows call
   * `client.getBoardPage` (src/Client.test.ts:78), which `Client` does not define; the
   * rows are read here as calls of `getBoardPageJson`, the board request it does define.
   */
  const BoardRows: seq<Row> := [
    Row(Enforce, true, false, ExpectSends(true)),        Row(Enforce, true, true, ExpectGatekept),
    Row(Enforce, false, false, ExpectRequiresLogin),     Row(Enforce, false, true, ExpectRequiresLogin),
    Row(WhenHasCookie, true, false, ExpectSends(true)),  Row(WhenHasCookie, true, true, ExpectGatekept),
    Row(WhenHasCookie, false, false, ExpectSends(false)), Row(WhenHasCookie, false, true, ExpectGatekept),
    Row(WhenRequired, true, false, ExpectSends(false)),  Row(WhenRequired, true, true, ExpectGatekept),
    Row(WhenRequired, false, false, ExpectSends(false)), Row(WhenRequired, false, true, ExpectGatekept),
    Row(AlwaysNo, true, false, ExpectSends(false)),      Row(AlwaysNo, true, true, ExpectGatekept),
    Row(AlwaysNo, false, false, ExpectSends(false)),     Row(AlwaysNo, false, true, ExpectGatekept)]

  /** The thread-page table of the repository (src/Client.test.ts:116-138). */
  const ThreadRows: seq<Row> := [
    Row(Enforce, true, false, ExpectSends(true)),        Row(Enforce, true, true, ExpectSends(true)),
    Row(Enforce, false, false, ExpectRequiresLogin),     Row(Enforce, false, true, ExpectRequiresLogin),
    Row(WhenHasCookie, true, false, ExpectSends(true)),  Row(WhenHasCookie, true, true, ExpectSends(true)),
    Row(WhenHasCookie, false, false, ExpectSends(false)), Row(WhenHasCookie, false, true, ExpectGatekept),
    Row(WhenRequired, true, false, ExpectSends(false)),  Row(WhenRequired, true, true, ExpectSends(true)),
    Row(WhenRequired, false, false, ExpectSends(false)), Row(WhenRequired, false, true, ExpectGatekept),
    Row(AlwaysNo, true, false, ExpectSends(false)),      Row(AlwaysNo, true, true, ExpectGatekept),
    Row(AlwaysNo, false, false, ExpectSends(false)),     Row(AlwaysNo, false, true, ExpectGatekept)]

  /**
   * The table's client has a user or none and no fallback options. Each row is judged
   * alone, on a client that has made no call before; the repository shares one client
   * per kind across a table's rows, which `SharedClientThreadRows` follows.
   */
  function RowClient(r: Row): ClientState {
    ClientState(r.withUser, None)
  }

  /** The table passes `{ loginPolicy }` per call. */
  function RowOptions(r: Row): Option<Options> {
    Some(map["loginPolicy" := Str(PolicyName(r.policy))])
  }

  /** The default gatekeeper page, or one past it. */
  function RowPage(r: Row): Option<int> {
    Some(if r.pastGatekeeper then 101 else 100)
  }

  /** A row's options resolve to its policy and the default gatekeeper pages. */
  lemma RowResolved(r: Row)
    ensures Resolved(RowClient(r), RowOptions(r), "loginPolicy") == Str(PolicyName(r.policy))
    ensures Resolved(RowClient(r), RowOptions(r), "boardGatekeeperPageNumber") == Num(100)
    ensures Resolved(RowClient(r), RowOptions(r), "threadGatekeeperPageNumber") == Num(100)
  {
    ResolvedPrecedence(RowClient(r), RowOptions(r), "loginPolicy");
    ResolvedPrecedence(RowClient(r), RowOptions(r), "boardGatekeeperPageNumber");
    ResolvedPrecedence(RowClient(r), RowOptions(r), "threadGatekeeperPageNumber");
  }

  /** As written, a board row holds only when it expects `GatekeptException`: both given pages are refused. */
  lemma BoardTableAsWritten(host: string, boardId: int, i: nat)
    requires i < |BoardRows|
    ensures var r := BoardRows[i];
      Meets(OutcomeOf(RowClient(r), host, BoardPagePlan(RowClient(r), boardId, RowPage(r), RowOptions(r))), r.expected, "/Api/showf")
      <==> r.expected == ExpectGatekept
  {
    RowResolved(BoardRows[i]);
  }

  /**
   * The intended board request for any row: past the gatekeeper it is refused by the
   * guard; otherwise `enforce` without a user requires login, and every other row
   * requests `/Api/showf`, with cookies under `enforce` or under `when_has_cookie` with a user.
   */
  lemma IntendedBoardRow(host: string, boardId: int, r: Row)
    ensures var o := OutcomeOf(RowClient(r), host, IntendedBoardPagePlan(RowClient(r), boardId, RowPage(r), RowOptions(r)));
      && (r.pastGatekeeper ==> o == Throws(Gatekept(101)))
      && (!r.pastGatekeeper && r.policy == Enforce && !r.withUser ==> o == Throws(RequiresLogin))
      && (!r.pastGatekeeper && !(r.policy == Enforce && !r.withUser) ==>
            && o.Requests? && o.url.path == "/Api/showf"
            && o.withCookies == (r.policy == Enforce || (r.policy == WhenHasCookie && r.withUser)))
  {
    RowResolved(r);
    IntendedEndpointsUnderApi(host, 0);
  }

  /**
   * The intended board request meets every board row but one: with `enforce`, no
   * user and a gatekept page it throws `GatekeptException`, the guard coming first,
   * where the row expects `RequiresLoginException`.
   */
  lemma {:induction false} IntendedBoardTable(host: string, boardId: int, i: nat)
    requires i < |BoardRows|
    ensures var r := BoardRows[i];
      var o := OutcomeOf(RowClient(r), host, IntendedBoardPagePlan(RowClient(r), boardId, RowPage(r), RowOptions(r)));
      && (i != 3 ==> Meets(o, r.expected, "/Api/showf"))
      && (i == 3 ==> o == Throws(Gatekept(101)))
  {
    var r := BoardRows[i];
    BoardRowsExpected(i);
    IntendedBoardRow(host, boardId, r);
  }

  /** What the intended board request gives for a row, as `IntendedBoardRow` proves. */
  function IntendedBoardExpected(r: Row): Expected {
    if r.pastGatekeeper then ExpectGatekept
    else if r.policy == Enforce && !r.withUser then ExpectRequiresLogin
    else ExpectSends(r.policy == Enforce || (r.policy == WhenHasCookie && r.withUser))
  }

  /** Every board row but the fourth expects what the intended request gives. */
  lemma BoardRowsExpected(i: nat)
    requires i < |BoardRows|
    ensures i != 3 ==> BoardRows[i].expected == IntendedBoardExpected(BoardRows[i])
    ensures i == 3 ==> BoardRows[i] == Row(Enforce, false, true, ExpectRequiresLogin)
  {
  }

  /**
   * As written, each thread row, judged alone on a fresh client, gets the decision it
   * expects, other than the two `enforce` rows without a user (which throw
   * `GatekeptException`), when requests are expected at `/thread/id/<id>`.
   */
  lemma {:induction false} ThreadTableAsWritten(host: string, threadId: int, i: nat)
    requires i < |ThreadRows|
    ensures var r := ThreadRows[i];
      var o := OutcomeOf(RowClient(r), host, ThreadPagePlan(RowClient(r), threadId, RowPage(r), RowOptions(r)));
      && (i != 2 && i != 3 ==> Meets(o, r.expected, "/thread/id/" + NumberToString(threadId)))
      && (i == 2 || i == 3 ==> o.Throws? && o.refusal.Gatekept?)
  {
    var r := ThreadRows[i];
    IntendedThreadTable(host, threadId, i);
    ThreadPlansAgree(RowClient(r), host, threadId, RowPage(r), RowOptions(r));
  }

  /**
   * The thread request as written and as intended make the same decisions; they
   * differ only in the path and the `retries` of the request.
   */
  lemma ThreadPlansAgree(c: ClientState, host: string, threadId: int, pageNumber: Option<int>, options: Option<Options>)
    ensures var o := OutcomeOf(c, host, ThreadPagePlan(c, threadId, pageNumber, options));
      var intended := OutcomeOf(c, host, IntendedThreadPagePlan(c, threadId, pageNumber, options));
      && o.Throws? == intended.Throws?
      && (o.Throws? ==> o == intended)
      && (o.Requests? ==> o.withCookies == intended.withCookies && o.queries == intended.queries
                          && o.url.path == "/thread/id/" + NumberToString(threadId))
  {
    EndpointsLeaveApi(host, threadId);
  }

  /**
   * The intended thread request for any row: cookies are wanted under `enforce`,
   * under `when_has_cookie` with a user or past the gatekeeper, and otherwise only
   * past it; wanting them without a user, or under `always_no`, is refused as gatekept,
   * and every other row requests `/Api/thread/id/<id>`.
   */
  lemma IntendedThreadRow(host: string, threadId: int, r: Row)
    ensures var o := OutcomeOf(RowClient(r), host, IntendedThreadPagePlan(RowClient(r), threadId, RowPage(r), RowOptions(r)));
      var wants := r.policy == Enforce || (r.policy == WhenHasCookie && (r.withUser || r.pastGatekeeper)) || r.pastGatekeeper;
      && (wants && (!r.withUser || r.policy == AlwaysNo) ==> o.Throws? && o.refusal.Gatekept?)
      && (!(wants && (!r.withUser || r.policy == AlwaysNo)) ==>
            o.Requests? && o.withCookies == wants && o.url.path == "/Api/thread/id/" + NumberToString(threadId))
  {
    RowResolved(r);
    IntendedEndpointsUnderApi(host, threadId);
  }

  /** The intended thread request, each row judged alone on a fresh client, meets the same rows at `/Api/thread/id/<id>`. */
  lemma {:induction false} IntendedThreadTable(host: string, threadId: int, i: nat)
    requires i < |ThreadRows|
    ensures var r := ThreadRows[i];
      var o := OutcomeOf(RowClient(r), host, IntendedThreadPagePlan(RowClient(r), threadId, RowPage(r), RowOptions(r)));
      && (i != 2 && i != 3 ==> Meets(o, r.expected, "/Api/thread/id/" + NumberToString(threadId)))
      && (i == 2 || i == 3 ==> o.Throws? && o.refusal.Gatekept?)
  {
    var r := ThreadRows[i];
    ThreadRowsExpected(i);
    IntendedThreadRow(host, threadId, r);
  }

  /** What the intended thread request gives for a row, as `IntendedThreadRow` proves. */
  function IntendedThreadExpected(r: Row): Expected {
    var wants := r.policy == Enforce || (r.policy == WhenHasCookie && (r.withUser || r.pastGatekeeper)) || r.pastGatekeeper;
    if wants && (!r.withUser || r.policy == AlwaysNo) then ExpectGatekept else ExpectSends(wants)
  }

  /** Every thread row but the two `enforce` rows without a user expects what the intended request gives. */
  lemma ThreadRowsExpected(i: nat)
    requires i < |ThreadRows|
    ensures i != 2 && i != 3 ==> ThreadRows[i].expected == IntendedThreadExpected(ThreadRows[i])
    ensures i == 2 || i == 3 ==> IntendedThreadExpected(ThreadRows[i]) == ExpectGatekept
  {
  }

  // ---- one client across the rows ----------------------------------------------------

  /**
   * Two of a client's calls made one after the other through its fetch instance, which
   * keeps what the first forwards as the defaults of the second: the second request
   * goes out with no cookie jar.
   */
  ghost predicate JarLostBetween(defaults: FtoFetch.Init, host: string, appid: Option<string>,
                                 c: ClientState, first: Call, second: Call,
                                 now: nat, later: nat, cookies: seq<CookieJar.StoredCookie>)
  {
    var base := Some(BaseClient.ApiBase(host));
    var interceptor := Some(BaseClient.ClientInterceptor(appid));
    var firstInit := BaseClient.CallInit(first.queries, first.withCookies, BaseClient.Retries(c.fallbackOptions, first.options));
    var secondInit := BaseClient.CallInit(second.queries, second.withCookies, BaseClient.Retries(c.fallbackOptions, second.options));
    var afterFirst := FetchInstance.Forwarded(base, interceptor, defaults, first.endpoint, Some(firstInit), now).1;
    var (target, forwarded) := FetchInstance.Forwarded(base, interceptor, afterFirst, second.endpoint, Some(secondInit), later);
    var prepared := FtoFetch.Prepare(target, Some(forwarded), cookies);
    prepared.Success? && prepared.value.local.jar.None?
  }

  /**
   * A client's call through an instance whose defaults stay as created: the request
   * goes out with the defaults' jar.
   */
  ghost predicate JarKept(defaults: FtoFetch.Init, host: string, appid: Option<string>,
                          c: ClientState, call: Call, now: nat, cookies: seq<CookieJar.StoredCookie>)
    requires defaults.jar.UseJar?
  {
    var init := BaseClient.CallInit(call.queries, call.withCookies, BaseClient.Retries(c.fallbackOptions, call.options));
    var (target, forwarded) := FetchInstance.Forwarded(Some(BaseClient.ApiBase(host)), Some(BaseClient.ClientInterceptor(appid)),
                                                       defaults, call.endpoint, Some(init), now);
    var prepared := FtoFetch.Prepare(target, Some(forwarded), cookies);
    prepared.Success? && prepared.value.local.jar == Some(defaults.jar.jar)
  }

  /** Any call without cookies, then any call with them, loses the jar between them. */
  lemma AnonymousThenCredentialed(defaults: FtoFetch.Init, host: string, appid: Option<string>,
                                  c: ClientState, first: Call, second: Call,
                                  now: nat, later: nat, cookies: seq<CookieJar.StoredCookie>)
    requires !first.withCookies && second.withCookies && first.options == second.options
    ensures JarLostBetween(defaults, host, appid, c, first, second, now, later, cookies)
  {
    BaseClient.CredentialsLostAfterAnonymousCall(defaults, host, appid, first.endpoint, first.queries,
                                                 second.endpoint, second.queries,
                                                 BaseClient.Retries(c.fallbackOptions, first.options), now, later, cookies);
  }

  /** A `when_required` row's credentials decision with its resolved settings. */
  lemma WhenRequiredSends(r: Row)
    requires r.policy == WhenRequired
    ensures SendsCredentials(RowPage(r).GetOr(1), Num(100), Str(PolicyName(r.policy)), r.withUser) == Some(r.pastGatekeeper)
  {
    PolicyNames(WhenRequired);
  }

  /** Under `when_required`, a client with a user sends the cookie exactly past the gatekeeper. */
  lemma WhenRequiredThreadPlan(threadId: int, r: Row)
    requires r.policy == WhenRequired && r.withUser
    ensures var p := ThreadPagePlan(RowClient(r), threadId, RowPage(r), RowOptions(r));
      p.Delegate? && p.call.withCookies == r.pastGatekeeper && p.call.options == ResolvedOptionsLayer
  {
    RowResolved(r);
    WhenRequiredSends(r);
  }

  /** The same holds of the intended request, which passes the caller's options on. */
  lemma IntendedWhenRequiredThreadPlan(threadId: int, r: Row)
    requires r.policy == WhenRequired && r.withUser
    ensures var p := IntendedThreadPagePlan(RowClient(r), threadId, RowPage(r), RowOptions(r));
      p.Delegate? && p.call.withCookies == r.pastGatekeeper && p.call.options == RowOptions(r)
  {
    RowResolved(r);
    WhenRequiredSends(r);
  }

  /** The thread rows of src/Client.test.ts:129-130. */
  lemma WhenRequiredThreadRows()
    ensures ThreadRows[8] == Row(WhenRequired, true, false, ExpectSends(false))
    ensures ThreadRows[9] == Row(WhenRequired, true, true, ExpectSends(true))
  {
  }

  /**
   * The thread rows share one client with a user. Its `when_required` row before the
   * gatekeeper sends `jar: null`; the row after it, past the gatekeeper, expects the
   * cookie and asks for it, yet its request carries no jar, with the endpoints as
   * written and as intended alike. Only an instance that keeps its defaults as created
   * (`FetchInstance.IsolatedInstance`) sends that row's request with the client's jar.
   */
  lemma SharedClientThreadRows(defaults: FtoFetch.Init, host: string, appid: Option<string>, threadId: int,
                               now: nat, later: nat, cookies: seq<CookieJar.StoredCookie>)
    ensures var (r, s) := (ThreadRows[8], ThreadRows[9]);
      var c := RowClient(r);
      var first := ThreadPagePlan(c, threadId, RowPage(r), RowOptions(r));
      var second := ThreadPagePlan(c, threadId, RowPage(s), RowOptions(s));
      var intendedFirst := IntendedThreadPagePlan(c, threadId, RowPage(r), RowOptions(r));
      var intendedSecond := IntendedThreadPagePlan(c, threadId, RowPage(s), RowOptions(s));
      && RowClient(s) == c && c.hasUser && s.expected == ExpectSends(true)
      && first.Delegate? && !first.call.withCookies && second.Delegate? && second.call.withCookies
      && JarLostBetween(defaults, host, appid, c, first.call, second.call, now, later, cookies)
      && intendedFirst.Delegate? && !intendedFirst.call.withCookies
      && intendedSecond.Delegate? && intendedSecond.call.withCookies
      && JarLostBetween(defaults, host, appid, c, intendedFirst.call, intendedSecond.call, now, later, cookies)
      && (defaults.jar.UseJar? ==> JarKept(defaults, host, appid, c, intendedSecond.call, later, cookies))
  {
    var (r, s) := (ThreadRows[8], ThreadRows[9]);
    var c := RowClient(r);
    WhenRequiredThreadRows();
    WhenRequiredThreadPlan(threadId, r);
    WhenRequiredThreadPlan(threadId, s);
    IntendedWhenRequiredThreadPlan(threadId, r);
    IntendedWhenRequiredThreadPlan(threadId, s);
    AnonymousThenCredentialed(defaults, host, appid, c, ThreadPagePlan(c, threadId, RowPage(r), RowOptions(r)).call,
                              ThreadPagePlan(c, threadId, RowPage(s), RowOptions(s)).call, now, later, cookies);
    AnonymousThenCredentialed(defaults, host, appid, c, IntendedThreadPagePlan(c, threadId, RowPage(r), RowOptions(r)).call,
                              IntendedThreadPagePlan(c, threadId, RowPage(s), RowOptions(s)).call, now, later, cookies);
    if defaults.jar.UseJar? {
      var second := IntendedThreadPagePlan(c, threadId, RowPage(s), RowOptions(s)).call;
      BaseClient.CredentialsKeptInIsolation(defaults, host, appid, second.endpoint, second.queries,
                                            BaseClient.Retries(c.fallbackOptions, second.options), later, cookies);
    }
  }
}
