/**
 * The authenticated HTTP client: the request interceptor that attaches the stored
 * token, the response interceptor that refreshes an expired token once for every
 * request waiting on it, and `login`.
 *
 * The response interceptor is split at its `await`s into steps over the module
 * state (`isRefreshing`, `waitQueue`, the store) plus the continuations still
 * suspended: requests whose GUID read is outstanding, and the one refresh in
 * flight with the phase it is in. HTTP and storage calls are inputs to the steps.
 */
module Api {
  import opened Wrappers
  import opened Session

  /** Identifies one request sent through the authenticated instance. */
  type RequestId = nat

  /** Request headers. */
  type Headers = map<string, string>

  const AuthorizationHeader := "Authorization"
  const BearerPrefix := "Bearer "

  // ---------------------------------------------------------------------------
  // The request interceptor

  /** JavaScript truthiness of a stored string: present and not empty. */
  predicate Truthy(s: Option<string>) {
    s.Some? && s.value != ""
  }

  /**
   * The request interceptor: `Authorization: Bearer <token>` when a token is
   * stored, and no `Authorization` header otherwise; other headers are kept.
   */
  function WithAuthorization(storedToken: Option<string>, headers: Headers): (r: Headers)
    ensures AuthorizationHeader in r <==> Truthy(storedToken)
    ensures Truthy(storedToken) ==> r[AuthorizationHeader] == BearerPrefix + storedToken.value
    ensures forall h :: h != AuthorizationHeader ==> (h in r <==> h in headers)
    ensures forall h :: h != AuthorizationHeader && h in r ==> r[h] == headers[h]
  {
    if Truthy(storedToken) then headers[AuthorizationHeader := BearerPrefix + storedToken.value]
    else headers - {AuthorizationHeader}
  }

  /**
   * The request interceptor with its `getItem` read: a failed read rejects the
   * request with the storage error; a read value is attached as a bearer header.
   */
  function Authorize(read: Result<Option<string>, string>, headers: Headers): (r: Result<Headers, string>)
    ensures r.Err? <==> read.Err?
    ensures read.Err? ==> r.error == read.error
    ensures read.Ok? ==> (AuthorizationHeader in r.value <==> Truthy(read.value))
    ensures read.Ok? && Truthy(read.value) ==> BearerToken(r.value[AuthorizationHeader]) == read.value
    ensures read.Ok? ==> forall h :: h != AuthorizationHeader && h in r.value ==> h in headers && r.value[h] == headers[h]
  {
    if read.Err? then Err(read.error)
    else
      assert Truthy(read.value) ==> BearerToken(WithAuthorization(read.value, headers)[AuthorizationHeader]) == read.value by {
        if Truthy(read.value) { HeaderCarriesStoredToken(read.value, headers); }
      }
      Ok(WithAuthorization(read.value, headers))
  }

  /** The token a bearer header carries. */
  function BearerToken(header: string): Option<string> {
    if |BearerPrefix| <= |header| && header[..|BearerPrefix|] == BearerPrefix then Some(header[|BearerPrefix|..])
    else None
  }

  /** The header the interceptor writes carries exactly the stored token. */
  lemma HeaderCarriesStoredToken(storedToken: Option<string>, headers: Headers)
    requires Truthy(storedToken)
    ensures BearerToken(WithAuthorization(storedToken, headers)[AuthorizationHeader]) == storedToken
  {
    var h := BearerPrefix + storedToken.value;
    assert h[..|BearerPrefix|] == BearerPrefix;
    assert h[|BearerPrefix|..] == storedToken.value;
  }

  // ---------------------------------------------------------------------------
  // The response interceptor

  /** The refresh endpoint's answer body. */
  datatype TokenResponse = TokenResponse(token: Option<string>, accessToken: Option<string>)

  /** Why a refresh failed; every waiter is rejected with the same value. */
  datatype RefreshError = NoTokenInRefreshResponse | PostFailed(reason: string) | StoreFailed(reason: string)

  /** Where the one refresh in flight stands, with the request that started it. */
  datatype Phase =
    | NoRefresh
    | Posting(req: RequestId)
    | StoringToken(req: RequestId, token: string)
    | ClearingAfterFailure(req: RequestId, error: RefreshError)

  /** How a request that went through the error interceptor ends; `RejectedStorage` carries a store error. */
  datatype Settlement =
    | RejectedUnchanged(req: RequestId)
    | Resent(req: RequestId, token: string, retryMarked: bool)
    | RejectedWith(req: RequestId, error: RefreshError)
    | RejectedStorage(req: RequestId, reason: string)

  /** The module variables, the store, and the suspended continuations. */
  datatype ApiState = ApiState(
    storage: Storage,
    isRefreshing: bool,
    waitQueue: seq<RequestId>,
    awaitingGuid: set<RequestId>,
    phase: Phase)

  /** The effect of one step: the new state, the requests settled, the refresh posts issued (by GUID). */
  datatype Effect = Effect(state: ApiState, settled: seq<Settlement>, posts: seq<string>)

  /**
   * Something that happens to the interceptor. A `GuidRead` carries the read's
   * outcome and, for the missing-GUID path, how the clearing that follows it settles.
   */
  datatype Event =
    | ErrorResponse(req: RequestId, status: Option<int>, retried: bool)
    | GuidRead(req: RequestId, guid: Result<Option<string>, string>, clear: ClearOutcome)
    | RefreshAnswered(answer: Result<TokenResponse, string>)
    | TokenStored(ok: bool, reason: string)
    | AuthCleared(clear: ClearOutcome)

  /** The flag and the continuation agree: a refresh is in flight exactly when the flag is up. */
  predicate Coherent(st: ApiState) {
    st.isRefreshing <==> !st.phase.NoRefresh?
  }

  /** Every waiter resolved with the new token; each is re-sent without the retry mark. */
  function ResolveAll(queue: seq<RequestId>, token: string): (r: seq<Settlement>)
    ensures |r| == |queue|
    ensures forall k :: 0 <= k < |r| ==> r[k] == Resent(queue[k], token, false)
  {
    seq(|queue|, k requires 0 <= k < |queue| => Resent(queue[k], token, false))
  }

  /** Every waiter rejected with the same error. */
  function RejectAll(queue: seq<RequestId>, error: RefreshError): (r: seq<Settlement>)
    ensures |r| == |queue|
    ensures forall k :: 0 <= k < |r| ==> r[k] == RejectedWith(queue[k], error)
  {
    seq(|queue|, k requires 0 <= k < |queue| => RejectedWith(queue[k], error))
  }

  /**
   * The interceptor's first check: any error other than a 401, or a request already
   * retried, is rejected unchanged; otherwise the stored GUID is read.
   */
  function OnErrorResponse(st: ApiState, req: RequestId, status: Option<int>, retried: bool): (e: Effect)
    ensures status != Some(401) || retried ==> e == Effect(st, [RejectedUnchanged(req)], [])
    ensures status == Some(401) && !retried ==>
      e == Effect(st.(awaitingGuid := st.awaitingGuid + {req}), [], [])
  {
    if status != Some(401) || retried then Effect(st, [RejectedUnchanged(req)], [])
    else Effect(st.(awaitingGuid := st.awaitingGuid + {req}), [], [])
  }

  /**
   * The GUID read settles. A failed read rejects the request with the storage error.
   * Without a GUID the auth keys are cleared and the error is rejected unchanged, or
   * with the storage error if the clearing fails. During a refresh the request joins
   * the queue. Otherwise it marks itself retried and starts the refresh.
   */
  function OnGuidRead(st: ApiState, req: RequestId, guid: Result<Option<string>, string>, clear: ClearOutcome): (e: Effect)
    ensures req !in st.awaitingGuid ==> e == Effect(st, [], [])
    ensures req in st.awaitingGuid ==> e.state.awaitingGuid == st.awaitingGuid - {req}
    ensures req in st.awaitingGuid && guid.Err? ==>
      e.state == st.(awaitingGuid := st.awaitingGuid - {req})
      && e.settled == [RejectedStorage(req, guid.error)] && e.posts == []
    ensures req in st.awaitingGuid && guid.Ok? && !Truthy(guid.value) ==>
      e.state.storage == ClearAuthAs(st.storage, clear)
      && e.settled == [if clear.Cleared? then RejectedUnchanged(req) else RejectedStorage(req, clear.reason)]
      && e.state.waitQueue == st.waitQueue && e.state.phase == st.phase && e.posts == []
    ensures req in st.awaitingGuid && guid.Ok? && Truthy(guid.value) && st.isRefreshing ==>
      e.state.waitQueue == st.waitQueue + [req] && e.state.phase == st.phase && e.state.isRefreshing
      && e.settled == [] && e.posts == []
    ensures req in st.awaitingGuid && guid.Ok? && Truthy(guid.value) && !st.isRefreshing ==>
      e.state.isRefreshing && e.state.phase == Posting(req) && e.state.waitQueue == st.waitQueue
      && e.settled == [] && e.posts == [guid.value.value]
  {
    if req !in st.awaitingGuid then Effect(st, [], [])
    else
      var st0 := st.(awaitingGuid := st.awaitingGuid - {req});
      if guid.Err? then Effect(st0, [RejectedStorage(req, guid.error)], [])
      else if !Truthy(guid.value) then
        Effect(st0.(storage := ClearAuthAs(st.storage, clear)),
               [if clear.Cleared? then RejectedUnchanged(req) else RejectedStorage(req, clear.reason)], [])
      else if st.isRefreshing then Effect(st0.(waitQueue := st.waitQueue + [req]), [], [])
      else Effect(st0.(isRefreshing := true, phase := Posting(req)), [], [guid.value.value])
  }

  /** `data?.token ?? data?.access_token`, required to be truthy. */
  function NewToken(answer: TokenResponse): (r: Option<string>)
    ensures r.Some? ==> r.value != ""
    ensures answer.token.Some? && answer.token.value != "" ==> r == answer.token
    ensures answer.token.Some? && answer.token.value == "" ==> r.None?
    ensures answer.token.None? ==> r == (if Truthy(answer.accessToken) then answer.accessToken else None)
  {
    var t := if answer.token.Some? then answer.token else answer.accessToken;
    if Truthy(t) then t else None
  }

  /**
   * The catch block as written: every waiter is rejected and the queue emptied at
   * once, then the auth keys are cleared, with the flag still up until that ends.
   */
  function FailRefresh(st: ApiState, req: RequestId, error: RefreshError): (e: Effect)
    ensures e.state == st.(waitQueue := [], phase := ClearingAfterFailure(req, error))
    ensures e.settled == RejectAll(st.waitQueue, error) && e.posts == []
  {
    Effect(st.(waitQueue := [], phase := ClearingAfterFailure(req, error)), RejectAll(st.waitQueue, error), [])
  }

  /** The refresh answer arrives: a token goes to the store, anything else fails the refresh. */
  function OnRefreshAnswered(st: ApiState, answer: Result<TokenResponse, string>): (e: Effect)
    ensures !st.phase.Posting? ==> e == Effect(st, [], [])
    ensures st.phase.Posting? && answer.Ok? && NewToken(answer.value).Some? ==>
      e == Effect(st.(phase := StoringToken(st.phase.req, NewToken(answer.value).value)), [], [])
    ensures st.phase.Posting? && answer.Err? ==> e == FailRefresh(st, st.phase.req, PostFailed(answer.error))
    ensures st.phase.Posting? && answer.Ok? && NewToken(answer.value).None? ==>
      e == FailRefresh(st, st.phase.req, NoTokenInRefreshResponse)
  {
    if !st.phase.Posting? then Effect(st, [], [])
    else if answer.Err? then FailRefresh(st, st.phase.req, PostFailed(answer.error))
    else match NewToken(answer.value)
      case None => FailRefresh(st, st.phase.req, NoTokenInRefreshResponse)
      case Some(t) => Effect(st.(phase := StoringToken(st.phase.req, t)), [], [])
  }

  /**
   * `setStoredToken` settles. Stored: every waiter is resolved, the queue emptied,
   * the original request re-sent with the new token and the flag lowered. Not
   * stored: the refresh fails.
   */
  function OnTokenStored(st: ApiState, ok: bool, reason: string): (e: Effect)
    ensures !st.phase.StoringToken? ==> e == Effect(st, [], [])
    ensures st.phase.StoringToken? && ok ==>
      && e.state == st.(storage := st.storage[AccessTokenKey := st.phase.token], waitQueue := [],
                        isRefreshing := false, phase := NoRefresh)
      && e.settled == ResolveAll(st.waitQueue, st.phase.token) + [Resent(st.phase.req, st.phase.token, true)]
      && e.posts == []
    ensures st.phase.StoringToken? && !ok ==> e == FailRefresh(st, st.phase.req, StoreFailed(reason))
  {
    match st.phase
    case StoringToken(req, token) =>
      if ok then
        Effect(st.(storage := st.storage[AccessTokenKey := token], waitQueue := [], isRefreshing := false, phase := NoRefresh),
               ResolveAll(st.waitQueue, token) + [Resent(req, token, true)], [])
      else FailRefresh(st, req, StoreFailed(reason))
    case _ => Effect(st, [], [])
  }

  /**
   * The original request's rejection once `clearAuthStorage()` settles in the catch
   * block: the refresh error, or the storage error when the clearing itself fails.
   */
  function FinalRejection(req: RequestId, error: RefreshError, clear: ClearOutcome): (s: Settlement)
    ensures s.req == req
    ensures clear.Cleared? <==> s == RejectedWith(req, error)
    ensures clear.ClearFailed? <==> s.RejectedStorage?
    ensures clear.ClearFailed? ==> s == RejectedStorage(req, clear.reason)
  {
    if clear.Cleared? then RejectedWith(req, error) else RejectedStorage(req, clear.reason)
  }

  /**
   * `clearAuthStorage()` settles after a failed refresh: the original request
   * rejects and the `finally` block lowers the flag, whether or not the clearing failed.
   */
  function OnAuthCleared(st: ApiState, clear: ClearOutcome): (e: Effect)
    ensures !st.phase.ClearingAfterFailure? ==> e == Effect(st, [], [])
    ensures st.phase.ClearingAfterFailure? ==>
      && e.state == st.(storage := ClearAuthAs(st.storage, clear), isRefreshing := false, phase := NoRefresh)
      && e.settled == [FinalRejection(st.phase.req, st.phase.error, clear)] && e.posts == []
  {
    match st.phase
    case ClearingAfterFailure(req, error) =>
      Effect(st.(storage := ClearAuthAs(st.storage, clear), isRefreshing := false, phase := NoRefresh),
             [FinalRejection(req, error, clear)], [])
    case _ => Effect(st, [], [])
  }

  /**
   * One step of the interceptor as written. Single flight: a refresh is posted only
   * when a GUID read returns with no refresh in flight, and one step posts at most once.
   */
  function Apply(st: ApiState, ev: Event): (e: Effect)
    ensures |e.posts| <= 1
    ensures e.posts != [] ==> ev.GuidRead? && !st.isRefreshing && e.state.phase == Posting(ev.req)
  {
    match ev
    case ErrorResponse(req, status, retried) => OnErrorResponse(st, req, status, retried)
    case GuidRead(req, guid, clear) => OnGuidRead(st, req, guid, clear)
    case RefreshAnswered(answer) => OnRefreshAnswered(st, answer)
    case TokenStored(ok, reason) => OnTokenStored(st, ok, reason)
    case AuthCleared(clear) => OnAuthCleared(st, clear)
  }

  /** The state before any request: nothing refreshing, nothing waiting. */
  function Initial(st: Storage): ApiState {
    ApiState(st, false, [], {}, NoRefresh)
  }

  /** Every step keeps the flag and the refresh in flight in agreement. */
  lemma ApplyKeepsCoherent(st: ApiState, ev: Event)
    requires Coherent(st)
    ensures Coherent(Apply(st, ev).state)
  {
  }

  /**
   * Single flight: while a refresh is in flight, a 401 whose GUID read returns joins
   * the queue and starts no second refresh.
   */
  lemma SecondUnauthorizedWaits(st: ApiState, req: RequestId, guid: string)
    requires Coherent(st) && st.isRefreshing && req in st.awaitingGuid && guid != ""
    ensures var e := Apply(st, GuidRead(req, Ok(Some(guid)), Cleared));
      e.posts == [] && e.state.phase == st.phase && e.state.waitQueue == st.waitQueue + [req]
  {
  }

  /**
   * The original request is retried at most once: it is re-sent marked as retried,
   * and a marked request that fails again is rejected unchanged without a refresh.
   */
  lemma RetriedAtMostOnce(st: ApiState, req: RequestId, status: Option<int>)
    ensures Apply(st, ErrorResponse(req, status, true)) == Effect(st, [RejectedUnchanged(req)], [])
  {
  }

  /** Runs some events from a state, collecting what was settled; the flag and the phase stay in agreement. */
  function Run(st: ApiState, events: seq<Event>): (r: (ApiState, seq<Settlement>))
    ensures Coherent(st) ==> Coherent(r.0)
    decreases |events|
  {
    if events == [] then (st, [])
    else
      var e := Apply(st, events[0]);
      var rest := Run(e.state, events[1..]);
      (rest.0, e.settled + rest.1)
  }

  /** The settlements that concern a request. */
  function SettlementsOf(settled: seq<Settlement>, req: RequestId): (r: seq<Settlement>)
    ensures forall s :: s in r ==> s in settled && s.req == req
    ensures forall s :: s in settled && s.req == req ==> s in r
  {
    if settled == [] then []
    else (if settled[0].req == req then [settled[0]] else []) + SettlementsOf(settled[1..], req)
  }

  /**
   * As written, a 401 whose GUID read returns while a failed refresh is clearing the
   * store is queued after the queue was drained; when the clearing ends the flag is
   * lowered with that request still queued, and nothing settles it.
   */
  lemma {:induction false} StrandedWaiter()
    ensures var st := Initial(map[UniqueGuidKey := "g"]);
      var events := [ErrorResponse(1, Some(401), false), GuidRead(1, Ok(Some("g")), Cleared),
                     ErrorResponse(2, Some(401), false), RefreshAnswered(Err("offline")),
                     GuidRead(2, Ok(Some("g")), Cleared), AuthCleared(Cleared)];
      var (final, settled) := Run(st, events);
      && !final.isRefreshing && final.waitQueue == [2]
      && SettlementsOf(settled, 2) == []
  {
    var ev1, ev2, ev3 := ErrorResponse(1, Some(401), false), GuidRead(1, Ok(Some("g")), Cleared), ErrorResponse(2, Some(401), false);
    var ev4, ev5, ev6 := RefreshAnswered(Err("offline")), GuidRead(2, Ok(Some("g")), Cleared), AuthCleared(Cleared);
    var e1 := Apply(Initial(map[UniqueGuidKey := "g"]), ev1);
    var e2 := Apply(e1.state, ev2);
    var e3 := Apply(e2.state, ev3);
    var e4 := Apply(e3.state, ev4);
    assert e4.settled == [];
    var e5 := Apply(e4.state, ev5);
    assert e5.state.waitQueue == [2];
    var e6 := Apply(e5.state, ev6);
    assert e6.settled == [RejectedWith(1, PostFailed("offline"))];
    RunCons(e5.state, ev6, []);
    RunCons(e4.state, ev5, [ev6]);
    RunCons(e3.state, ev4, [ev5, ev6]);
    RunCons(e2.state, ev3, [ev4, ev5, ev6]);
    RunCons(e1.state, ev2, [ev3, ev4, ev5, ev6]);
    RunCons(Initial(map[UniqueGuidKey := "g"]), ev1, [ev2, ev3, ev4, ev5, ev6]);
  }

  /** Running a first event, then the rest. */
  lemma RunCons(st: ApiState, ev: Event, rest: seq<Event>)
    ensures var e := Apply(st, ev);
      Run(st, [ev] + rest) == (Run(e.state, rest).0, e.settled + Run(e.state, rest).1)
  {
    assert ([ev] + rest)[1..] == rest;
  }

  // ---------------------------------------------------------------------------
  // The failure path drained after the store is cleared

  /** Every request still queued is settled: nothing waits while no refresh is in flight. */
  predicate Drained(st: ApiState) {
    !st.isRefreshing ==> st.waitQueue == []
  }

  /** The catch block with the drain moved after `clearAuthStorage()`: requests that queue meanwhile are rejected too. */
  function OnAuthClearedDrained(st: ApiState, clear: ClearOutcome): (e: Effect)
    ensures !st.phase.ClearingAfterFailure? ==> e == Effect(st, [], [])
    ensures st.phase.ClearingAfterFailure? ==>
      && e.state == st.(storage := ClearAuthAs(st.storage, clear), waitQueue := [], isRefreshing := false, phase := NoRefresh)
      && e.settled == RejectAll(st.waitQueue, st.phase.error) + [FinalRejection(st.phase.req, st.phase.error, clear)]
  {
    match st.phase
    case ClearingAfterFailure(req, error) =>
      Effect(st.(storage := ClearAuthAs(st.storage, clear), waitQueue := [], isRefreshing := false, phase := NoRefresh),
             RejectAll(st.waitQueue, error) + [FinalRejection(req, error, clear)], [])
    case _ => Effect(st, [], [])
  }

  /** The failure path defers the drain; everything else is as written. */
  function ApplyDrained(st: ApiState, ev: Event): Effect {
    match ev
    case AuthCleared(clear) => OnAuthClearedDrained(st, clear)
    case _ => Apply(st, ev)
  }

  /**
   * With the drain deferred, a lowered flag means an empty queue, and a step that
   * ends a refresh settles every request that was waiting on it.
   */
  lemma DrainedKeepsNoWaiterBehind(st: ApiState, ev: Event)
    requires Coherent(st) && Drained(st)
    ensures var e := ApplyDrained(st, ev);
      && Coherent(e.state) && Drained(e.state)
      && (st.isRefreshing && !e.state.isRefreshing ==>
            forall k :: 0 <= k < |st.waitQueue| ==> exists s :: s in e.settled && s.req == st.waitQueue[k])
  {
    var e := ApplyDrained(st, ev);
    if st.isRefreshing && !e.state.isRefreshing {
      forall k | 0 <= k < |st.waitQueue| ensures exists s :: s in e.settled && s.req == st.waitQueue[k] {
        var s := e.settled[k];
        assert s.req == st.waitQueue[k];
      }
    }
  }

  /** Runs events with the deferred drain. */
  function RunDrained(st: ApiState, events: seq<Event>): (ApiState, seq<Settlement>)
    decreases |events|
  {
    if events == [] then (st, [])
    else
      var e := ApplyDrained(st, events[0]);
      var rest := RunDrained(e.state, events[1..]);
      (rest.0, e.settled + rest.1)
  }

  /** From a coherent, drained state, no run of events leaves a request queued with no refresh in flight. */
  lemma {:induction false} RunDrainedNeverStrands(st: ApiState, events: seq<Event>)
    requires Coherent(st) && Drained(st)
    ensures Coherent(RunDrained(st, events).0) && Drained(RunDrained(st, events).0)
    decreases |events|
  {
    if events != [] {
      DrainedKeepsNoWaiterBehind(st, events[0]);
      RunDrainedNeverStrands(ApplyDrained(st, events[0]).state, events[1..]);
    }
  }

  /** The events of `StrandedWaiter` leave nothing queued once the failure path drains after clearing. */
  lemma {:induction false} NoStrandedWaiterWhenDrainedLate()
    ensures var st := Initial(map[UniqueGuidKey := "g"]);
      var events := [ErrorResponse(1, Some(401), false), GuidRead(1, Ok(Some("g")), Cleared),
                     ErrorResponse(2, Some(401), false), RefreshAnswered(Err("offline")),
                     GuidRead(2, Ok(Some("g")), Cleared), AuthCleared(Cleared)];
      RunDrained(st, events).0.waitQueue == []
  {
    var st := Initial(map[UniqueGuidKey := "g"]);
    var events := [ErrorResponse(1, Some(401), false), GuidRead(1, Ok(Some("g")), Cleared),
                   ErrorResponse(2, Some(401), false), RefreshAnswered(Err("offline")),
                   GuidRead(2, Ok(Some("g")), Cleared), AuthCleared(Cleared)];
    RunDrainedNeverStrands(st, events);
  }

  // ---------------------------------------------------------------------------
  // login

  /** The login endpoint's answer body; `null` data reads as every field absent. */
  datatype LoginResponse = LoginResponse(
    token: Option<string>,
    accessToken: Option<string>,
    uniqueGuid: Option<string>,
    uniqueGUIDAlt: Option<string>,
    username: Option<string>,
    role: Option<string>)

  /** Why a login failed. */
  datatype LoginError = RequestFailed(reason: string) | NoTokenInLoginResponse | StorageFailed(reason: string)

  /** What `login` returns: the token and the user. */
  datatype LoginSuccess = LoginSuccess(token: string, user: SessionUser)

  /** `unique_guid ?? uniqueGUID ?? username`: an empty string is kept, only absence falls through. */
  function LoginGuid(data: LoginResponse, username: string): (g: string)
    ensures data.uniqueGuid.Some? ==> g == data.uniqueGuid.value
    ensures data.uniqueGuid.None? && data.uniqueGUIDAlt.Some? ==> g == data.uniqueGUIDAlt.value
    ensures data.uniqueGuid.None? && data.uniqueGUIDAlt.None? ==> g == username
  {
    data.uniqueGuid.Or(data.uniqueGUIDAlt.Or(username))
  }

  /**
   * `login(username, password)`: the answer (or the request's failure), then three
   * sequential writes of which the first `writesOk` succeed; the next one rejects
   * with `writeError`, and `login` rejects with that error. The token is
   * `token ?? access_token` and must be truthy; the user's id is the GUID, the
   * e-mail the user name, and the role defaults to "user".
   */
  function Login(st: Storage, username: string, answer: Result<LoginResponse, string>, writesOk: nat, writeError: string)
    : (r: (Storage, Result<LoginSuccess, LoginError>))
    ensures answer.Err? ==> r == (st, Err(RequestFailed(answer.error)))
    ensures answer.Ok? && !Truthy(if answer.value.token.Some? then answer.value.token else answer.value.accessToken)
      ==> r == (st, Err(NoTokenInLoginResponse))
    ensures (answer.Ok? && writesOk < 3
             && Truthy(if answer.value.token.Some? then answer.value.token else answer.value.accessToken)) ==>
        && r.1 == Err(StorageFailed(writeError))
        && (forall k :: k in st && k != AccessTokenKey && k != UsernameKey ==> k in r.0 && r.0[k] == st[k])
        && (forall k :: k in r.0 ==> k in st || k == AccessTokenKey || k == UsernameKey)
    ensures r.1.Ok? <==> (answer.Ok? && writesOk >= 3
      && Truthy(if answer.value.token.Some? then answer.value.token else answer.value.accessToken))
    ensures r.1.Ok? ==>
      && r.1.value.user == SessionUser(LoginGuid(answer.value, username), username, answer.value.role.Or("user"))
      && r.1.value.token == answer.value.token.Or(answer.value.accessToken.Or(""))
      && r.0 == st[AccessTokenKey := r.1.value.token][UsernameKey := username][UniqueGuidKey := r.1.value.user.id]
  {
    if answer.Err? then (st, Err(RequestFailed(answer.error)))
    else
      var data := answer.value;
      var token := if data.token.Some? then data.token else data.accessToken;
      if !Truthy(token) then (st, Err(NoTokenInLoginResponse))
      else
        var guid := LoginGuid(data, username);
        var st1 := if writesOk >= 1 then st[AccessTokenKey := token.value] else st;
        var st2 := if writesOk >= 2 then st1[UsernameKey := username] else st1;
        var st3 := if writesOk >= 3 then st2[UniqueGuidKey := guid] else st2;
        if writesOk < 3 then (st3, Err(StorageFailed(writeError)))
        else (st3, Ok(LoginSuccess(token.value, SessionUser(guid, username, data.role.Or("user")))))
  }

  /**
   * After a successful login, the request interceptor attaches the new token, and a
   * 401 finds the GUID that login stored.
   */
  lemma LoginFeedsInterceptors(st: Storage, username: string, answer: Result<LoginResponse, string>,
                                writeError: string)
    requires Login(st, username, answer, 3, writeError).1.Ok?
    ensures var (st', res) := Login(st, username, answer, 3, writeError);
      && AccessTokenKey in st' && st'[AccessTokenKey] == res.value.token
      && WithAuthorization(Some(st'[AccessTokenKey]), map[])[AuthorizationHeader] == BearerPrefix + res.value.token
      && UniqueGuidKey in st' && st'[UniqueGuidKey] == res.value.user.id
  {
  }

}

/**
 * The interceptor's module state as an object whose methods make the steps of `Api`
 * as written, plus `OnAuthClearedDrained` for the corrected failure path.
 */
module ApiSession {
  import opened Wrappers
  import opened Session
  import opened Api

  /** `isRefreshing`, `waitQueue` and the store, with the continuations and a log of settled requests. */
  class Interceptor {
    var storage: Storage
    var isRefreshing: bool
    var waitQueue: seq<RequestId>
    var awaitingGuid: set<RequestId>
    var phase: Phase
    var settled: seq<Settlement>
    var posts: seq<string>

    function State(): ApiState
      reads this
    {
      ApiState(storage, isRefreshing, waitQueue, awaitingGuid, phase)
    }

    /** The object made exactly the given step. */
    twostate predicate Took(e: Effect)
      reads this
    {
      State() == e.state && settled == old(settled) + e.settled && posts == old(posts) + e.posts
    }

    /** A refresh is in flight exactly when the flag is up. */
    predicate Valid()
      reads this
    {
      Coherent(State())
    }

    constructor(storage: Storage)
      ensures Valid()
      ensures State() == Initial(storage) && settled == [] && posts == []
    {
      this.storage := storage;
      isRefreshing := false;
      waitQueue := [];
      awaitingGuid := {};
      phase := NoRefresh;
      settled := [];
      posts := [];
    }

    /** The error interceptor is entered with a failed response. */
    method OnErrorResponse(req: RequestId, status: Option<int>, retried: bool)
      requires Valid()
      modifies this
      ensures Valid()
      ensures Took(Api.OnErrorResponse(old(State()), req, status, retried))
    {
      if status != Some(401) || retried {
        settled := settled + [RejectedUnchanged(req)];
        return;
      }
      awaitingGuid := awaitingGuid + {req};
    }

    /** `getStoredUniqueGuid()` settles for a 401 being handled; `clear` is how a missing GUID's clearing settles. */
    method OnGuidRead(req: RequestId, guid: Result<Option<string>, string>, clear: ClearOutcome)
      requires Valid()
      modifies this
      ensures Valid()
      ensures Took(Api.OnGuidRead(old(State()), req, guid, clear))
    {
      if req !in awaitingGuid {
        return;
      }
      awaitingGuid := awaitingGuid - {req};
      if guid.Err? {
        settled := settled + [RejectedStorage(req, guid.error)];
        return;
      }
      if !Truthy(guid.value) {
        storage := ClearAuthAs(storage, clear);
        settled := settled + [if clear.Cleared? then RejectedUnchanged(req) else RejectedStorage(req, clear.reason)];
        return;
      }
      if isRefreshing {
        waitQueue := waitQueue + [req];
        return;
      }
      isRefreshing := true;
      phase := Posting(req);
      posts := posts + [guid.value.value];
    }

    /** `waitQueue.forEach(({ resolve }) => resolve(token))`, then the queue is emptied. */
    method ResolveWaiters(token: string)
      modifies this
      ensures settled == old(settled) + ResolveAll(old(waitQueue), token) && waitQueue == []
      ensures storage == old(storage) && isRefreshing == old(isRefreshing)
      ensures awaitingGuid == old(awaitingGuid) && phase == old(phase) && posts == old(posts)
    {
      var i := 0;
      while i < |waitQueue|
        invariant 0 <= i <= |waitQueue| && waitQueue == old(waitQueue)
        invariant settled == old(settled) + ResolveAll(waitQueue[..i], token)
        invariant storage == old(storage) && isRefreshing == old(isRefreshing)
        invariant awaitingGuid == old(awaitingGuid) && phase == old(phase) && posts == old(posts)
      {
        assert ResolveAll(waitQueue[..i + 1], token) == ResolveAll(waitQueue[..i], token) + [Resent(waitQueue[i], token, false)];
        settled := settled + [Resent(waitQueue[i], token, false)];
        i := i + 1;
      }
      assert waitQueue[..i] == waitQueue;
      waitQueue := [];
    }

    /** `waitQueue.forEach(({ reject }) => reject(error))`, then the queue is emptied. */
    method RejectWaiters(error: RefreshError)
      modifies this
      ensures settled == old(settled) + RejectAll(old(waitQueue), error) && waitQueue == []
      ensures storage == old(storage) && isRefreshing == old(isRefreshing)
      ensures awaitingGuid == old(awaitingGuid) && phase == old(phase) && posts == old(posts)
    {
      var i := 0;
      while i < |waitQueue|
        invariant 0 <= i <= |waitQueue| && waitQueue == old(waitQueue)
        invariant settled == old(settled) + RejectAll(waitQueue[..i], error)
        invariant storage == old(storage) && isRefreshing == old(isRefreshing)
        invariant awaitingGuid == old(awaitingGuid) && phase == old(phase) && posts == old(posts)
      {
        assert RejectAll(waitQueue[..i + 1], error) == RejectAll(waitQueue[..i], error) + [RejectedWith(waitQueue[i], error)];
        settled := settled + [RejectedWith(waitQueue[i], error)];
        i := i + 1;
      }
      assert waitQueue[..i] == waitQueue;
      waitQueue := [];
    }

    /** The refresh post settles: a token moves on to be stored, anything else drains the queue with the error. */
    method OnRefreshAnswered(answer: Result<TokenResponse, string>)
      requires Valid()
      modifies this
      ensures Valid()
      ensures Took(Api.OnRefreshAnswered(old(State()), answer))
    {
      if !phase.Posting? {
        return;
      }
      var req := phase.req;
      var token := if answer.Ok? then NewToken(answer.value) else None;
      if token.Some? {
        phase := StoringToken(req, token.value);
        return;
      }
      var error := if answer.Err? then PostFailed(answer.error) else NoTokenInRefreshResponse;
      RejectWaiters(error);
      phase := ClearingAfterFailure(req, error);
    }

    /** `setStoredToken` settles: stored, the queue drains with the token and the original request is re-sent. */
    method OnTokenStored(ok: bool, reason: string)
      requires Valid()
      modifies this
      ensures Valid()
      ensures Took(Api.OnTokenStored(old(State()), ok, reason))
    {
      if !phase.StoringToken? {
        return;
      }
      var req, token := phase.req, phase.token;
      if !ok {
        RejectWaiters(StoreFailed(reason));
        phase := ClearingAfterFailure(req, StoreFailed(reason));
        return;
      }
      storage := storage[AccessTokenKey := token];
      ResolveWaiters(token);
      settled := settled + [Resent(req, token, true)];
      isRefreshing := false;
      phase := NoRefresh;
    }

    /**
     * `clearAuthStorage()` settles after a failed refresh, as written: the original
     * request rejects and the flag is lowered, leaving behind any request that was
     * queued while the store was being cleared (see `StrandedWaiter`).
     */
    method OnAuthCleared(clear: ClearOutcome)
      requires Valid()
      modifies this
      ensures Valid()
      ensures Took(Api.OnAuthCleared(old(State()), clear))
    {
      if !phase.ClearingAfterFailure? {
        return;
      }
      storage := ClearAuthAs(storage, clear);
      settled := settled + [FinalRejection(phase.req, phase.error, clear)];
      isRefreshing := false;
      phase := NoRefresh;
    }

    /**
     * The corrected failure path: the queue is drained once more after the store is
     * cleared, so a request queued meanwhile is rejected too, then the original
     * request rejects. Afterwards nothing waits.
     */
    method OnAuthClearedDrained(clear: ClearOutcome)
      requires Valid()
      modifies this
      ensures Valid()
      ensures old(Drained(State())) ==> Drained(State())
      ensures Took(Api.OnAuthClearedDrained(old(State()), clear))
    {
      if !phase.ClearingAfterFailure? {
        return;
      }
      storage := ClearAuthAs(storage, clear);
      RejectWaiters(phase.error);
      settled := settled + [FinalRejection(phase.req, phase.error, clear)];
      isRefreshing := false;
      phase := NoRefresh;
    }
  }
}
