/** The session-aware HTTP client (src/core/apiClient.ts): `apiFetch` with its
    recovery protocol on 401/403, `refreshSession` with its shared in-flight
    cell, and `initSession`. The pure parts come first; the `Gateway` class
    holds the module-level `refreshPromise` cell and talks to the disk and
    the network. */
module ApiClient {
  import opened Wrappers
  import Json
  import opened Storage
  import opened Http
  import SM = SessionManager
  import CM = ConfigManager
  import UrlQuery

  /** `MAX_RETRIES`: one retry per top-level request. */
  const MaxRetries: nat := 1

  /** The error classification read from a 401/403 body. */
  datatype ErrorCode = TokenMissing | TokenExpired | TokenInvalid | Unrecognized

  /** The errors `apiFetch` throws, one per terminal branch. */
  datatype FetchError =
    | NetworkError                              // fetch itself rejected
    | AuthFailedAfterRetry                      // "Authentication failed after retry. ..."
    | InitHttpFailed(status: int, statusText: string) // "Failed to initialize session: <status> <text>"
    | InitFailed                                // "Failed to initialize session. Please run 'kay connect' ..."
    | SessionExpired                            // "Your session has expired or been revoked. ..."
    | RefreshFailed                             // "Session refresh failed. ..."
    | InvalidSession                            // "Invalid or revoked session. ..."
    | AuthorizationFailed(message: string)      // body.message || body.error || "Authorization failed."
    | ConfigUnreadable                          // the SyntaxError of a malformed config.json

  /** Why `initSession` threw: a non-ok status (its message names the status) or anything else. */
  datatype InitError = InitStatus(status: int, statusText: string) | InitOther

  predicate IsAuthStatus(status: int) { status == 401 || status == 403 }

  /** `session?.access_token` is truthy. */
  predicate HasToken(session: Option<SM.SessionData>) {
    session.Some? && session.value.accessToken != ""
  }

  /** The outbound headers of `apiFetch`: the JSON content type unless the
      caller overrides it, the caller's headers, and the bearer token of the
      stored session when there is one (replacing any caller Authorization). */
  function BuildHeaders(caller: map<string, string>, session: Option<SM.SessionData>): (h: map<string, string>)
    ensures h.Keys == caller.Keys + {"Content-Type"} + (if HasToken(session) then {"Authorization"} else {})
    ensures "Content-Type" !in caller ==> h["Content-Type"] == "application/json"
    ensures forall k :: k in caller && (k != "Authorization" || !HasToken(session)) ==> h[k] == caller[k]
    ensures HasToken(session) ==> h["Authorization"] == "Bearer " + session.value.accessToken
  {
    var merged := JsonHeaders() + caller;
    if HasToken(session) then
      merged["Authorization" := "Bearer " + session.value.accessToken]
    else merged
  }

  /** The body `apiFetch` inspects after a 401/403: an unparsable body counts as `{}`. */
  function ErrorBody(b: Body): map<string, Json.Value> {
    if b.JsonObject? then b.fields else map[]
  }

  /** `body.code || body.error || ""`. */
  function CodeValue(body: map<string, Json.Value>): (v: Json.Value)
    ensures Json.TruthyField(body, "code") ==> v == body["code"]
    ensures !Json.TruthyField(body, "code") && Json.TruthyField(body, "error") ==> v == body["error"]
    ensures !Json.TruthyField(body, "code") && !Json.TruthyField(body, "error") ==> v == Json.Str("")
  {
    if Json.TruthyField(body, "code") then body["code"]
    else if Json.TruthyField(body, "error") then body["error"]
    else Json.Str("")
  }

  /** The `switch (errorCode)` of `apiFetch`: strict equality with the three names. */
  function Classify(body: map<string, Json.Value>): (c: ErrorCode)
    ensures c == TokenMissing <==> CodeValue(body) == Json.Str("TOKEN_MISSING")
    ensures c == TokenExpired <==> CodeValue(body) == Json.Str("TOKEN_EXPIRED")
    ensures c == TokenInvalid <==> CodeValue(body) == Json.Str("TOKEN_INVALID")
    ensures !Json.TruthyField(body, "code") && !Json.TruthyField(body, "error") ==> c == Unrecognized
  {
    match CodeValue(body)
    case Str(s) =>
      if s == "TOKEN_MISSING" then TokenMissing
      else if s == "TOKEN_EXPIRED" then TokenExpired
      else if s == "TOKEN_INVALID" then TokenInvalid
      else Unrecognized
    case _ => Unrecognized
  }

  /** The message of the unrecognised-code error: `body.message || body.error || "Authorization failed."`. */
  function FailureMessage(body: map<string, Json.Value>): (m: string)
    ensures Json.TruthyField(body, "message") ==> m == Json.ToText(body["message"])
    ensures !Json.TruthyField(body, "message") && Json.TruthyField(body, "error") ==> m == Json.ToText(body["error"])
    ensures !Json.TruthyField(body, "message") && !Json.TruthyField(body, "error") ==> m == "Authorization failed."
  {
    if Json.TruthyField(body, "message") then Json.ToText(body["message"])
    else if Json.TruthyField(body, "error") then Json.ToText(body["error"])
    else "Authorization failed."
  }

  /** The response-to-record mapping of `initSession` and `refreshSession`:
      `session_token` is preferred over `token`, missing fields become `""`,
      `session_id` is taken as it is. */
  function MapSession(raw: map<string, Json.Value>): (s: SM.SessionData)
    ensures Json.TruthyString(raw, "session_token").Some? ==> s.accessToken == Json.TruthyString(raw, "session_token").value
    ensures Json.TruthyString(raw, "session_token").None? ==> s.accessToken == Json.TruthyString(raw, "token").GetOr("")
    ensures s.refreshToken == Json.TruthyString(raw, "refresh_token").GetOr("")
    ensures s.expiresAt == Json.TruthyString(raw, "expires_at").GetOr("")
    ensures s.sessionId == Json.StringField(raw, "session_id")
  {
    SM.SessionData(
      Json.FirstTruthyString(raw, "session_token", "token", ""),
      Json.TruthyString(raw, "refresh_token").GetOr(""),
      Json.TruthyString(raw, "expires_at").GetOr(""),
      Json.StringField(raw, "session_id"))
  }

  /** A session id that passes a truthiness test. */
  function NonEmpty(id: Option<string>): (r: Option<string>)
    ensures r.Some? <==> id.Some? && id.value != ""
    ensures r.Some? ==> r == id
  {
    if id.Some? && id.value != "" then id else None
  }

  /** The `session_id` rewrite done before a retry: a path without the
      parameter is unchanged; otherwise the parameter is set to the new id
      when there is one and deleted when there is none. */
  function RewriteSessionParam(p: Path, id: Option<string>): (r: Path)
    ensures r.pathname == p.pathname
    ensures !UrlQuery.HasParam(p.query, "session_id") ==> r == p
    ensures UrlQuery.HasParam(p.query, "session_id") && id.Some? ==>
      UrlQuery.Occurrences(r.query, "session_id") == 1
      && (forall q :: q in r.query && q.0 == "session_id" ==> q.1 == id.value)
    ensures UrlQuery.HasParam(p.query, "session_id") && id.None? ==> !UrlQuery.HasParam(r.query, "session_id")
    ensures forall q: (string, string) :: q.0 != "session_id" ==> (q in r.query <==> q in p.query)
    ensures UrlQuery.HasParam(p.query, "session_id") && id.Some? ==>
      var i := UrlQuery.FirstIndex(p.query, "session_id");
      r.query == p.query[..i] + [("session_id", id.value)] + UrlQuery.Delete(p.query[i + 1..], "session_id")
    ensures UrlQuery.HasParam(p.query, "session_id") && id.None? ==> r.query == UrlQuery.Delete(p.query, "session_id")
  {
    if !UrlQuery.HasParam(p.query, "session_id") then p
    else if id.Some? then Path(p.pathname, UrlQuery.Set(p.query, "session_id", id.value))
    else Path(p.pathname, UrlQuery.Delete(p.query, "session_id"))
  }

  /** `ConfigManager.get("session_id")` used in a truthiness test and then as text. */
  function ConfigSessionId(v: Option<Json.Value>): (r: Option<string>)
    ensures r.Some? <==> v.Some? && Json.Truthy(v.value)
  {
    if v.Some? && Json.Truthy(v.value) then Some(Json.ToText(v.value)) else None
  }

  /** The record mapped from a reply that `OkJson` accepts. */
  function Mapped(rep: Reply): SM.SessionData
    requires OkJson(rep)
  {
    MapSession(rep.response.body.fields)
  }

  /** Whether persisting a mapped record can fail: only the `ConfigManager.set`
      of a truthy session id can, and only on a malformed config file. */
  predicate PersistFails(s: SM.SessionData, config: ConfigFile) {
    NonEmpty(s.sessionId).Some? && config.MalformedConfig?
  }

  /** The process-wide `refreshPromise` cell: empty, holding a refresh whose
      fetch has been issued, or holding an already settled refresh. */
  datatype RefreshCell = Idle | InFlight(id: nat, reply: Reply) | Settled(id: nat)

  /** The recovery step chosen after a 401/403: retry at a (rewritten) path, or fail. */
  datatype Recovery = RetryWith(path: Path) | GiveUp(error: FetchError)

  /** A reply that `apiFetch` hands back without any recovery: a network
      failure, or a response whose status is not 401/403. */
  predicate Plain(rep: Reply) {
    rep.NetworkFailure? || !IsAuthStatus(rep.response.status)
  }

  /** The result of a first attempt whose reply is `Plain`. */
  function DirectResult(rep: Reply): Result<Response, FetchError>
    requires Plain(rep)
  {
    if rep.NetworkFailure? then Failure(NetworkError) else Success(rep.response)
  }

  /** The result of a retry (`retryCount >= MAX_RETRIES`): a 401/403 is terminal. */
  function AfterRetry(rep: Reply): (r: Result<Response, FetchError>)
    ensures Plain(rep) ==> r == DirectResult(rep)
    ensures !Plain(rep) ==> r == Failure(AuthFailedAfterRetry)
  {
    if rep.NetworkFailure? then Failure(NetworkError)
    else if IsAuthStatus(rep.response.status) then Failure(AuthFailedAfterRetry)
    else Success(rep.response)
  }

  /** An init or refresh reply that maps to a record which is then persisted:
      ok, a JSON object, and no config write that throws. */
  predicate Persisted(rep: Reply, config: ConfigFile) {
    OkJson(rep) && !PersistFails(Mapped(rep), config)
  }

  /** What `loadSession()` returns right after a record was saved. */
  function Reloaded(s: SM.SessionData): (r: Option<SM.SessionData>)
    ensures r == SM.Decode(SessionDoc(SM.Encode(s)))
  {
    SM.SaveLoadRoundTrip(s);
    if SM.Complete(s) then Some(s) else None
  }

  /** The `session_id` the `TOKEN_MISSING` branch rewrites the path with: the
      config value read after `initSession`, which is the new record's id
      when that id is truthy and the untouched config value otherwise. */
  function MissingRetryId(s: SM.SessionData, config: ConfigFile): (r: Option<string>)
    ensures NonEmpty(s.sessionId).Some? ==> r == s.sessionId
  {
    if NonEmpty(s.sessionId).Some? then s.sessionId
    else match config
      case ConfigDoc(entries) =>
        ConfigSessionId(if "session_id" in entries then Some(entries["session_id"]) else None)
      case _ => None
  }

  /** The reference outcome of the `TOKEN_MISSING` branch, from the init reply
      and the config file as they are before it. */
  function MissingPlan(path: Path, rep: Reply, config: ConfigFile): (rec: Recovery)
    ensures rec.RetryWith? <==>
      Persisted(rep, config) && SM.Complete(Mapped(rep))
      && (UrlQuery.HasParam(path.query, "session_id") ==> !config.MalformedConfig?)
    ensures rec.GiveUp? ==> rec.error == InitFailed || rec.error.InitHttpFailed?
  {
    if rep.NetworkFailure? then GiveUp(InitFailed)
    else if !rep.response.Ok() then GiveUp(InitHttpFailed(rep.response.status, rep.response.statusText))
    else if !OkJson(rep) || PersistFails(Mapped(rep), config) || !SM.Complete(Mapped(rep)) then GiveUp(InitFailed)
    else if UrlQuery.HasParam(path.query, "session_id") && config.MalformedConfig? then GiveUp(InitFailed)
    else RetryWith(RewriteSessionParam(path, MissingRetryId(Mapped(rep), config)))
  }

  /** The reply a refresh works with: the one already held by an in-flight
      operation, or the next one when a new operation fetches. */
  function RefreshReply(cell: RefreshCell, next: Reply): Reply {
    if cell.InFlight? then cell.reply else next
  }

  /** Whether `refreshSession()` gets a reply at all: it joins an in-flight
      operation, or starts one with a stored session to refresh. */
  predicate RefreshStarts(cell: RefreshCell, stored: Option<SM.SessionData>) {
    cell.InFlight? || (cell.Idle? && stored.Some?)
  }

  /** The reference outcome of the `TOKEN_EXPIRED` branch. */
  function ExpiredPlan(path: Path, cell: RefreshCell, stored: Option<SM.SessionData>, config: ConfigFile, next: Reply): (rec: Recovery)
    ensures rec == GiveUp(SessionExpired) <==>
      !(RefreshStarts(cell, stored) && Persisted(RefreshReply(cell, next), config))
    ensures rec.RetryWith? <==>
      RefreshStarts(cell, stored) && Persisted(RefreshReply(cell, next), config) && SM.Complete(Mapped(RefreshReply(cell, next)))
    ensures rec.RetryWith? ==> rec.path == path
    ensures rec.GiveUp? ==> rec.error == SessionExpired || rec.error == RefreshFailed
  {
    var rep := RefreshReply(cell, next);
    if !(RefreshStarts(cell, stored) && Persisted(rep, config)) then GiveUp(SessionExpired)
    else if !SM.Complete(Mapped(rep)) then GiveUp(RefreshFailed)
    else RetryWith(path)
  }

  /** The reference outcome of the `default` branch. */
  function UnrecognizedPlan(path: Path, body: map<string, Json.Value>, mayInit: bool, rep: Reply, config: ConfigFile): (rec: Recovery)
    ensures rec.RetryWith? <==> mayInit && Persisted(rep, config)
    ensures rec.GiveUp? ==> rec == GiveUp(AuthorizationFailed(FailureMessage(body)))
  {
    if mayInit && Persisted(rep, config) then RetryWith(RewriteSessionParam(path, NonEmpty(Mapped(rep).sessionId)))
    else GiveUp(AuthorizationFailed(FailureMessage(body)))
  }

  /** The reference outcome of the `switch (errorCode)`, from the state before
      it: the refresh cell, the stored session, the config file, and the
      reply the recovery's first request will draw. */
  function Planned(code: ErrorCode, path: Path, body: map<string, Json.Value>, mayInit: bool,
                   cell: RefreshCell, stored: Option<SM.SessionData>, config: ConfigFile, next: Reply): (rec: Recovery)
    ensures code == TokenInvalid ==> rec == GiveUp(InvalidSession)
    ensures rec.RetryWith? ==> OkJson(RetryReply(code, cell, next))
  {
    match code
    case TokenMissing => MissingPlan(path, next, config)
    case TokenExpired => ExpiredPlan(path, cell, stored, config, next)
    case TokenInvalid => GiveUp(InvalidSession)
    case Unrecognized => UnrecognizedPlan(path, body, mayInit, next, config)
  }

  /** The reply whose record is the stored session when a recovery retries. */
  function RetryReply(code: ErrorCode, cell: RefreshCell, next: Reply): Reply {
    if code == TokenExpired then RefreshReply(cell, next) else next
  }

  /** The number of requests a recovery makes before its retry. */
  function Fetches(code: ErrorCode, mayInit: bool, cell: RefreshCell, stored: Option<SM.SessionData>): (n: nat)
    ensures n <= 1
  {
    match code
    case TokenMissing => 1
    case TokenExpired => if cell.Idle? && stored.Some? then 1 else 0
    case TokenInvalid => 0
    case Unrecognized => if mayInit then 1 else 0
  }

  /** The stored session a retry is sent with. */
  function RetrySession(code: ErrorCode, cell: RefreshCell, next: Reply): Option<SM.SessionData> {
    var rep := RetryReply(code, cell, next);
    if OkJson(rep) then Reloaded(Mapped(rep)) else None
  }

  /** `retryCount === 0 && !session?.access_token`: a first attempt made
      without a token may start a new session on an unrecognised code. */
  predicate MayInit(retryCount: nat, session: Option<SM.SessionData>) {
    retryCount == 0 && !HasToken(session)
  }

  /** A recovery followed by its retry: giving up fails with the recovery's
      error; retrying puts the retry at position `at` of the request log, at
      the recovery's path with the headers built from the recovered session,
      and the result is what the retry's reply gives. */
  ghost predicate RetriedAs(plan: Recovery, session: Option<SM.SessionData>, log: seq<Request>, at: nat,
                            payload: Option<map<string, Json.Value>>, headers: map<string, string>,
                            r: Result<Response, FetchError>, reply: Reply) {
    && (plan.GiveUp? ==> r == Failure(plan.error))
    && (plan.RetryWith? ==>
          at < |log| && log[at] == Request(Api(plan.path, payload), BuildHeaders(headers, session))
          && r == AfterRetry(reply))
  }

  /** A `/session/init` reply with a complete session whose token is "abc". */
  const InitReplyAbc: Reply :=
    Delivered(Response(200, "OK", JsonObject(map["session_token" := Json.Str("abc"),
                                                 "refresh_token" := Json.Str("r1"),
                                                 "expires_at" := Json.Str("2030-01-01T00:00:00Z")])))

  /** A first attempt rejected with `TOKEN_MISSING`, whose init reply is
      `InitReplyAbc`, is retried at the same path (it has no `session_id`
      parameter) with "Bearer abc", and the retry's reply gives the result. */
  lemma MissingTokenRetryCarriesNewToken(path: Path, body: map<string, Json.Value>, mayInit: bool,
                                         cell: RefreshCell, stored: Option<SM.SessionData>,
                                         log: seq<Request>, at: nat, payload: Option<map<string, Json.Value>>,
                                         headers: map<string, string>, r: Result<Response, FetchError>, reply: Reply)
    requires !UrlQuery.HasParam(path.query, "session_id")
    requires RetriedAs(Planned(TokenMissing, path, body, mayInit, cell, stored, NoConfigFile, InitReplyAbc),
                       RetrySession(TokenMissing, cell, InitReplyAbc), log, at, payload, headers, r, reply)
    ensures at < |log| && log[at].target == Api(path, payload)
    ensures "Authorization" in log[at].headers && log[at].headers["Authorization"] == "Bearer abc"
    ensures r == AfterRetry(reply)
  {
    var s := Mapped(InitReplyAbc);
    assert s == SM.SessionData("abc", "r1", "2030-01-01T00:00:00Z", None);
    assert RetrySession(TokenMissing, cell, InitReplyAbc) == Some(s);
    assert MissingPlan(path, InitReplyAbc, NoConfigFile) == RetryWith(path);
  }

  class Gateway {
    const disk: Disk
    const net: Network
    var cell: RefreshCell
    /** The result of every refresh operation that has settled, by operation id. */
    var outcomes: map<nat, bool>
    var nextId: nat

    ghost predicate Valid()
      reads this
    {
      && (cell.InFlight? ==> cell.id < nextId && cell.id !in outcomes)
      && (cell.Settled? ==> cell.id in outcomes && !outcomes[cell.id])
      && (forall id :: id in outcomes ==> id < nextId)
    }

    constructor (d: Disk, n: Network)
      ensures Valid() && disk == d && net == n
      ensures cell == Idle && outcomes == map[] && nextId == 0
    {
      disk := d;
      net := n;
      cell := Idle;
      outcomes := map[];
      nextId := 0;
    }

    /** Saves a mapped record and mirrors a truthy session id into the config;
        false when that config write throws. */
    method Persist(s: SM.SessionData) returns (ok: bool)
      modifies disk
      ensures disk.sessionFile == SessionDoc(SM.Encode(s)) && disk.sessionMode == OwnerReadWrite
      ensures ok <==> !PersistFails(s, old(disk.configFile))
      ensures NonEmpty(s.sessionId).None? || !ok ==> disk.configFile == old(disk.configFile)
      ensures NonEmpty(s.sessionId).Some? && ok ==>
        disk.configFile == ConfigDoc(old(CM.Load(disk)).value["session_id" := Json.Str(s.sessionId.value)])
    {
      SM.SaveSession(disk, s);
      ok := true;
      if NonEmpty(s.sessionId).Some? {
        var err := CM.Set(disk, "session_id", Json.Str(s.sessionId.value));
        ok := err.None?;
      }
    }

    /** `initSession()`: POST /session/init, map and persist the reply. */
    method InitSession() returns (r: Result<SM.SessionData, InitError>)
      modifies disk, net
      ensures net.sent == old(net.sent) + [Request(SessionInit, JsonHeaders())]
      ensures net.served == old(net.served) + 1
      ensures old(net.Next()).NetworkFailure? ==> r == Failure(InitOther)
      ensures old(net.Next()).Delivered? && !old(net.Next()).response.Ok() ==>
        r == Failure(InitStatus(old(net.Next()).response.status, old(net.Next()).response.statusText))
      ensures old(net.Next()).Delivered? && old(net.Next()).response.Ok() && !OkJson(old(net.Next())) ==>
        r == Failure(InitOther)
      ensures !OkJson(old(net.Next())) ==>
        disk.sessionFile == old(disk.sessionFile) && disk.sessionMode == old(disk.sessionMode)
        && disk.configFile == old(disk.configFile)
      ensures OkJson(old(net.Next())) ==>
        disk.sessionFile == SessionDoc(SM.Encode(Mapped(old(net.Next()))))
        && disk.sessionMode == OwnerReadWrite
        && (if PersistFails(Mapped(old(net.Next())), old(disk.configFile))
            then r == Failure(InitOther) else r == Success(Mapped(old(net.Next()))))
      ensures r.Success? && NonEmpty(r.value.sessionId).Some? ==>
        CM.Get(disk, "session_id") == Success(Some(Json.Str(r.value.sessionId.value)))
      ensures r.Success? && NonEmpty(r.value.sessionId).None? ==> disk.configFile == old(disk.configFile)
    {
      var rep := net.Fetch(Request(SessionInit, JsonHeaders()));
      if rep.NetworkFailure? {
        return Failure(InitOther);
      }
      if !rep.response.Ok() {
        return Failure(InitStatus(rep.response.status, rep.response.statusText));
      }
      if !rep.response.body.JsonObject? {
        return Failure(InitOther);
      }
      var mapped := MapSession(rep.response.body.fields);
      var ok := Persist(mapped);
      r := if ok then Success(mapped) else Failure(InitOther);
    }

    /** The synchronous start of `refreshSession()`: join the operation held
        in the cell, or start one. Starting loads the session; without a
        refresh token the operation settles at once with `false` and no fetch,
        and the cell is left empty; otherwise the refresh request is issued
        and the cell holds it until it settles. */
    method BeginRefresh() returns (id: nat)
      requires Valid()
      modifies this, net
      ensures Valid()
      ensures !old(cell).Idle? ==>
        id == old(cell).id && cell == old(cell) && outcomes == old(outcomes) && nextId == old(nextId)
        && net.sent == old(net.sent) && net.served == old(net.served)
      ensures old(cell).Idle? ==> id == old(nextId) && nextId == id + 1
      ensures old(cell).Idle? && SM.LoadSession(disk).None? ==>
        cell == Idle && outcomes == old(outcomes)[id := false]
        && net.sent == old(net.sent) && net.served == old(net.served)
      ensures old(cell).Idle? && SM.LoadSession(disk).Some? ==>
        cell == InFlight(id, old(net.Next())) && outcomes == old(outcomes)
        && net.sent == old(net.sent) + [Request(SessionRefresh(SM.LoadSession(disk).value.refreshToken), JsonHeaders())]
        && net.served == old(net.served) + 1
    {
      if !cell.Idle? {
        return cell.id;
      }
      id := nextId;
      nextId := nextId + 1;
      var session := SM.LoadSession(disk);
      if session.None? {
        outcomes := outcomes[id := false];
        return;
      }
      var rep := net.Fetch(Request(SessionRefresh(session.value.refreshToken), JsonHeaders()));
      cell := InFlight(id, rep);
    }

    /** `refreshSession()`'s start as written: on the path without a refresh
        token the async body finishes synchronously, so its `finally` empties
        the cell BEFORE the settled promise is assigned to it, and the cell
        keeps that promise. */
    method BeginRefreshAsWritten() returns (id: nat)
      requires Valid()
      modifies this, net
      ensures Valid()
      ensures !old(cell).Idle? ==>
        id == old(cell).id && cell == old(cell) && outcomes == old(outcomes) && nextId == old(nextId)
        && net.sent == old(net.sent) && net.served == old(net.served)
      ensures old(cell).Idle? ==> id == old(nextId) && nextId == id + 1
      ensures old(cell).Idle? && SM.LoadSession(disk).None? ==>
        cell == Settled(id) && outcomes == old(outcomes)[id := false]
        && net.sent == old(net.sent) && net.served == old(net.served)
      ensures old(cell).Idle? && SM.LoadSession(disk).Some? ==>
        cell == InFlight(id, old(net.Next())) && outcomes == old(outcomes)
        && net.sent == old(net.sent) + [Request(SessionRefresh(SM.LoadSession(disk).value.refreshToken), JsonHeaders())]
        && net.served == old(net.served) + 1
    {
      if !cell.Idle? {
        return cell.id;
      }
      id := nextId;
      nextId := nextId + 1;
      var session := SM.LoadSession(disk);
      if session.None? {
        outcomes := outcomes[id := false];
        cell := Settled(id);
        return;
      }
      var rep := net.Fetch(Request(SessionRefresh(session.value.refreshToken), JsonHeaders()));
      cell := InFlight(id, rep);
    }

    /** The rest of the in-flight refresh once its reply arrives: map and
        persist an ok JSON reply; any non-ok status, unparsable body or
        thrown error gives `false`; the `finally` empties the cell. */
    method SettleRefresh() returns (ok: bool)
      requires Valid() && cell.InFlight?
      modifies this, disk
      ensures Valid() && cell == Idle && nextId == old(nextId)
      ensures outcomes == old(outcomes)[old(cell).id := ok]
      ensures ok <==> OkJson(old(cell).reply) && !PersistFails(Mapped(old(cell).reply), old(disk.configFile))
      ensures OkJson(old(cell).reply) ==>
        disk.sessionFile == SessionDoc(SM.Encode(Mapped(old(cell).reply))) && disk.sessionMode == OwnerReadWrite
      ensures !OkJson(old(cell).reply) ==>
        disk.sessionFile == old(disk.sessionFile) && disk.sessionMode == old(disk.sessionMode)
        && disk.configFile == old(disk.configFile)
      ensures ok && NonEmpty(Mapped(old(cell).reply).sessionId).Some? ==>
        CM.Get(disk, "session_id") == Success(Some(Json.Str(Mapped(old(cell).reply).sessionId.value)))
    {
      var rep := cell.reply;
      var id := cell.id;
      ok := false;
      if OkJson(rep) {
        ok := Persist(Mapped(rep));
      }
      outcomes := outcomes[id := ok];
      cell := Idle;
    }

    /** The result of a settled refresh operation, as every caller awaiting it sees it. */
    function Outcome(id: nat): Option<bool>
      reads this
    {
      if id in outcomes then Some(outcomes[id]) else None
    }

    /** `refreshSession()` run to completion by one caller: start or join,
        let the operation in the cell settle, and read its result. Callers
        that join share the operation's single fetch and its result. */
    method RefreshSession() returns (ok: bool)
      requires Valid()
      modifies this, disk, net
      ensures Valid()
      ensures old(cell).Idle? || old(cell).InFlight? ==> cell == Idle
      ensures old(cell).InFlight? ==> net.sent == old(net.sent) && Outcome(old(cell).id) == Some(ok)
      ensures old(cell).Settled? ==>
        cell == old(cell) && ok == old(outcomes)[old(cell).id] && net.sent == old(net.sent)
        && disk.sessionFile == old(disk.sessionFile) && disk.configFile == old(disk.configFile)
      ensures old(cell).Idle? && old(SM.LoadSession(disk)).None? ==>
        !ok && net.sent == old(net.sent) && net.served == old(net.served)
        && disk.sessionFile == old(disk.sessionFile) && disk.configFile == old(disk.configFile)
      ensures old(cell).Idle? && old(SM.LoadSession(disk)).Some? ==>
        net.sent == old(net.sent) + [Request(SessionRefresh(old(SM.LoadSession(disk)).value.refreshToken), JsonHeaders())]
        && (ok <==> OkJson(old(net.Next())) && !PersistFails(Mapped(old(net.Next())), old(disk.configFile)))
      ensures ok ==> disk.sessionMode == OwnerReadWrite || old(cell).Settled?
      ensures net.sent == old(net.sent) || net.sent == old(net.sent) + [Request(SessionRefresh(old(SM.LoadSession(disk)).value.refreshToken), JsonHeaders())]
      // the result in terms of the state before the call, whatever the cell holds
      ensures ok <==>
        RefreshStarts(old(cell), old(SM.LoadSession(disk)))
        && Persisted(RefreshReply(old(cell), old(net.Next())), old(disk.configFile))
      ensures ok ==> disk.sessionFile == SessionDoc(SM.Encode(Mapped(RefreshReply(old(cell), old(net.Next())))))
      ensures ok && NonEmpty(Mapped(RefreshReply(old(cell), old(net.Next()))).sessionId).Some? ==>
        CM.Get(disk, "session_id") == Success(Some(Json.Str(Mapped(RefreshReply(old(cell), old(net.Next()))).sessionId.value)))
      ensures old(cell).Idle? && old(SM.LoadSession(disk)).Some? ==> net.served == old(net.served) + 1
      ensures !(old(cell).Idle? && old(SM.LoadSession(disk)).Some?) ==> net.sent == old(net.sent) && net.served == old(net.served)
    {
      var id := BeginRefresh();
      if cell.InFlight? {
        var _ := SettleRefresh();
      }
      ok := outcomes[id];
    }

    /** `refreshSession()` as written, with the cell left holding a settled `false`. */
    method RefreshSessionAsWritten() returns (ok: bool)
      requires Valid()
      modifies this, disk, net
      ensures Valid()
      ensures old(cell).InFlight? ==> cell == Idle && Outcome(old(cell).id) == Some(ok)
      ensures old(cell).Settled? ==>
        cell == old(cell) && !ok && net.sent == old(net.sent) && disk.sessionFile == old(disk.sessionFile)
      ensures old(cell).Idle? && old(SM.LoadSession(disk)).None? ==>
        !ok && cell.Settled? && net.sent == old(net.sent) && disk.sessionFile == old(disk.sessionFile)
      ensures old(cell).Idle? && old(SM.LoadSession(disk)).Some? ==> cell == Idle
    {
      var id := BeginRefreshAsWritten();
      if cell.InFlight? {
        var _ := SettleRefresh();
      }
      ok := outcomes[id];
    }

    /** The `TOKEN_MISSING` branch up to the retry: initialise a session,
        check that it loads back, and rewrite `session_id` from the config
        value `initSession` just wrote. Every failure clears the session. */
    method RecoverMissing(path: Path) returns (rec: Recovery)
      modifies disk, net
      ensures net.sent == old(net.sent) + [Request(SessionInit, JsonHeaders())] && NoApiAdded(old(net.sent), net.sent)
      ensures net.served == old(net.served) + 1
      ensures rec == MissingPlan(path, old(net.Next()), old(disk.configFile))
      ensures rec.GiveUp? ==> disk.sessionFile == NoSessionFile
      ensures rec.RetryWith? ==> SM.LoadSession(disk) == Some(Mapped(old(net.Next())))
    {
      CountsSnoc(net.sent, Request(SessionInit, JsonHeaders()));
      ghost var config := disk.configFile;
      var init := InitSession();
      if init.Failure? {
        SM.ClearSession(disk);
        return GiveUp(if init.error.InitStatus? then InitHttpFailed(init.error.status, init.error.statusText) else InitFailed);
      }
      assert SM.LoadSession(disk) == Reloaded(init.value);
      assert CM.Get(disk, "session_id").Success? ==>
        MissingRetryId(init.value, config) == ConfigSessionId(CM.Get(disk, "session_id").value);
      var reloaded := SM.LoadSession(disk);
      if reloaded.None? {
        // cleared at line 162 and again by the catch at line 190
        SM.ClearSession(disk);
        return GiveUp(InitFailed);
      }
      var newPath := path;
      if UrlQuery.HasParam(path.query, "session_id") {
        var current := CM.Get(disk, "session_id");
        if current.Failure? {
          SM.ClearSession(disk);
          return GiveUp(InitFailed);
        }
        newPath := RewriteSessionParam(path, ConfigSessionId(current.value));
      }
      rec := RetryWith(newPath);
    }

    /** The `TOKEN_EXPIRED` branch up to the retry: refresh, reload, and
        rewrite `session_id` only when the refreshed record carries an id that
        differs from a truthy config value. */
    method RecoverExpired(path: Path) returns (rec: Recovery)
      requires Valid()
      modifies this, disk, net
      ensures Valid()
      ensures old(cell).Idle? || old(cell).InFlight? ==> cell == Idle
      ensures NoApiAdded(old(net.sent), net.sent)
      ensures rec.GiveUp? ==> disk.sessionFile == NoSessionFile
      ensures rec == ExpiredPlan(path, old(cell), old(SM.LoadSession(disk)), old(disk.configFile), old(net.Next()))
      ensures rec.RetryWith? ==> SM.LoadSession(disk) == Some(Mapped(RefreshReply(old(cell), old(net.Next()))))
      ensures old(cell).Idle? && old(SM.LoadSession(disk)).Some? ==>
        |net.sent| == |old(net.sent)| + 1 && net.served == old(net.served) + 1
      ensures !(old(cell).Idle? && old(SM.LoadSession(disk)).Some?) ==> net.sent == old(net.sent) && net.served == old(net.served)
    {
      ghost var before := net.sent;
      ghost var pending := RefreshReply(cell, net.Next());
      var refreshed := RefreshSession();
      if net.sent != before {
        CountsSnoc(before, net.sent[|before|]);
        assert net.sent == before + [net.sent[|before|]];
      }
      if !refreshed {
        SM.ClearSession(disk);
        return GiveUp(SessionExpired);
      }
      assert SM.LoadSession(disk) == Reloaded(Mapped(pending));
      var session := SM.LoadSession(disk);
      if session.None? {
        SM.ClearSession(disk);
        return GiveUp(RefreshFailed);
      }
      var newPath := path;
      if NonEmpty(session.value.sessionId).Some? && UrlQuery.HasParam(path.query, "session_id") {
        var current := CM.Get(disk, "session_id");
        if current.Failure? {
          return GiveUp(ConfigUnreadable);
        }
        if current.value.Some? && Json.Truthy(current.value.value)
           && current.value.value != Json.Str(session.value.sessionId.value) {
          newPath := RewriteSessionParam(path, NonEmpty(session.value.sessionId));
        }
      }
      rec := RetryWith(newPath);
    }

    /** The `default` branch: without a token on the first attempt, try
        `initSession` and retry; otherwise, or when the init throws, clear the
        session and fail with the body's message. */
    method RecoverUnrecognized(path: Path, body: map<string, Json.Value>, mayInit: bool) returns (rec: Recovery)
      modifies disk, net
      ensures NoApiAdded(old(net.sent), net.sent)
      ensures !mayInit ==> net.sent == old(net.sent) && net.served == old(net.served)
      ensures mayInit ==> net.sent == old(net.sent) + [Request(SessionInit, JsonHeaders())]
      ensures rec.GiveUp? ==> disk.sessionFile == NoSessionFile
      ensures rec == UnrecognizedPlan(path, body, mayInit, old(net.Next()), old(disk.configFile))
      ensures rec.RetryWith? ==> SM.LoadSession(disk) == Reloaded(Mapped(old(net.Next())))
      ensures mayInit ==> net.served == old(net.served) + 1
    {
      if mayInit {
        CountsSnoc(net.sent, Request(SessionInit, JsonHeaders()));
        var init := InitSession();
        if init.Success? {
          return RetryWith(RewriteSessionParam(path, NonEmpty(init.value.sessionId)));
        }
        SM.ClearSession(disk);
      }
      SM.ClearSession(disk);
      rec := GiveUp(AuthorizationFailed(FailureMessage(body)));
    }

    /** `apiFetch(path, options, retryCount)`: one business request with the
        stored token, returned unchanged unless its status is 401/403; on
        401/403 the recovery protocol runs and the request is re-issued at
        most once. */
    method ApiFetch(path: Path, headers: map<string, string>, payload: Option<map<string, Json.Value>>, retryCount: nat) returns (r: Result<Response, FetchError>)
      requires Valid()
      modifies this, disk, net
      decreases if retryCount < MaxRetries then 1 else 0, 1
      ensures Valid()
      ensures old(cell).Idle? ==> cell.Idle?
      // the first request carries the token of the session stored at the call
      ensures |old(net.sent)| < |net.sent| && old(net.sent) <= net.sent
      ensures net.sent[|old(net.sent)|] == Request(Api(path, payload), BuildHeaders(headers, old(SM.LoadSession(disk))))
      // retry bound: at most two business requests per top-level call
      ensures ApiCalls(net.sent) <= ApiCalls(old(net.sent)) + (if retryCount < MaxRetries then 2 else 1)
      // a request without a body, and its retry, is never a POST
      ensures payload.None? ==> Posts(net.sent) == Posts(old(net.sent))
      // a response that is returned never has an auth-failure status
      ensures r.Success? ==> !IsAuthStatus(r.value.status)
      // pass-through of a network failure and of every non-auth response,
      // with nothing else touched
      ensures Plain(net.At(old(net.served))) ==>
        r == DirectResult(net.At(old(net.served)))
        && |net.sent| == |old(net.sent)| + 1 && net.served == old(net.served) + 1
        && disk.sessionFile == old(disk.sessionFile) && disk.configFile == old(disk.configFile)
        && disk.sessionMode == old(disk.sessionMode)
        && cell == old(cell) && outcomes == old(outcomes)
      // an auth failure on the retry is terminal
      ensures retryCount >= MaxRetries ==> r == AfterRetry(net.At(old(net.served)))
      ensures retryCount >= MaxRetries && !Plain(net.At(old(net.served))) ==>
        disk.sessionFile == NoSessionFile && |net.sent| == |old(net.sent)| + 1 && net.served == old(net.served) + 1
      // an invalid token is terminal at once, with no further request
      ensures retryCount < MaxRetries && !Plain(net.At(old(net.served)))
              && Classify(ErrorBody(net.At(old(net.served)).response.body)) == TokenInvalid ==>
        disk.sessionFile == NoSessionFile && |net.sent| == |old(net.sent)| + 1
      // every authentication failure leaves no session behind
      ensures r.Failure? && r.error != NetworkError && r.error != ConfigUnreadable ==>
        disk.sessionFile == NoSessionFile
    {
      var session := SM.LoadSession(disk);
      var request := Request(Api(path, payload), BuildHeaders(headers, session));
      CountsSnoc(net.sent, request);
      var reply := net.Fetch(request);
      if reply.NetworkFailure? {
        return Failure(NetworkError);
      }
      if !IsAuthStatus(reply.response.status) {
        return Success(reply.response);
      }
      if retryCount >= MaxRetries {
        SM.ClearSession(disk);
        return Failure(AuthFailedAfterRetry);
      }
      ghost var afterFirst := net.sent;
      r := Recover(path, headers, payload, retryCount, ErrorBody(reply.response.body), MayInit(retryCount, session),
                   old(cell), session, old(disk.configFile), old(net.served) + 1);
      assert afterFirst[|old(net.sent)|] == request;
    }

    /** The `switch (errorCode)` of `apiFetch`: the recovery each code gets. */
    method ChooseRecovery(path: Path, body: map<string, Json.Value>, mayInit: bool) returns (rec: Recovery)
      requires Valid()
      modifies this, disk, net
      ensures Valid()
      ensures old(cell).Idle? ==> cell.Idle?
      ensures NoApiAdded(old(net.sent), net.sent)
      ensures rec.GiveUp? ==> disk.sessionFile == NoSessionFile
      // the branch taken, in terms of the state before it
      ensures rec == Planned(Classify(body), path, body, mayInit, old(cell), old(SM.LoadSession(disk)), old(disk.configFile), old(net.Next()))
      ensures |net.sent| == |old(net.sent)| + Fetches(Classify(body), mayInit, old(cell), old(SM.LoadSession(disk)))
      ensures net.served == old(net.served) + Fetches(Classify(body), mayInit, old(cell), old(SM.LoadSession(disk)))
      ensures rec.RetryWith? ==> SM.LoadSession(disk) == RetrySession(Classify(body), old(cell), old(net.Next()))
    {
      match Classify(body) {
        case TokenMissing =>
          rec := RecoverMissing(path);
        case TokenExpired =>
          rec := RecoverExpired(path);
        case TokenInvalid =>
          SM.ClearSession(disk);
          rec := GiveUp(InvalidSession);
        case Unrecognized =>
          rec := RecoverUnrecognized(path, body, mayInit);
      }
    }

    /** The 401/403 handling of a first attempt: the branch on the error code,
        then the single retry. The retry's result is returned as it is, since
        the source returns its promise from inside the `try` without awaiting
        it, so the surrounding `catch` never sees the retry's rejection. */
    /** The retry, `apiFetch(path, options, retryCount + 1)` with the retry
        budget spent: one business request with the stored token, whose
        reply is final (a 401/403 clears the session and fails). */
    method FinalAttempt(path: Path, headers: map<string, string>, payload: Option<map<string, Json.Value>>, retryCount: nat)
      returns (r: Result<Response, FetchError>)
      requires Valid() && retryCount >= MaxRetries
      modifies this, disk, net
      decreases 0, 2
      ensures Valid()
      ensures old(cell).Idle? ==> cell.Idle?
      ensures net.sent == old(net.sent) + [Request(Api(path, payload), BuildHeaders(headers, old(SM.LoadSession(disk))))]
      ensures net.served == old(net.served) + 1
      ensures r == AfterRetry(net.At(old(net.served)))
      ensures r.Failure? && r.error != NetworkError ==> disk.sessionFile == NoSessionFile
    {
      r := ApiFetch(path, headers, payload, retryCount);
      assert net.sent == old(net.sent) + [net.sent[|old(net.sent)|]];
    }

    method Recover(path: Path, headers: map<string, string>, payload: Option<map<string, Json.Value>>, retryCount: nat, body: map<string, Json.Value>, mayInit: bool,
                   ghost cell0: RefreshCell, ghost stored: Option<SM.SessionData>, ghost config0: ConfigFile, ghost pos: nat)
      returns (r: Result<Response, FetchError>)
      requires Valid() && retryCount < MaxRetries
      requires cell0 == cell && stored == SM.LoadSession(disk) && config0 == disk.configFile && pos == net.served
      modifies this, disk, net
      decreases 1, 0
      ensures Valid()
      ensures old(cell).Idle? ==> cell.Idle?
      ensures old(net.sent) <= net.sent
      ensures ApiCalls(net.sent) <= ApiCalls(old(net.sent)) + 1
      ensures payload.None? ==> Posts(net.sent) == Posts(old(net.sent))
      ensures r.Success? ==> !IsAuthStatus(r.value.status)
      ensures Classify(body) == TokenInvalid ==> disk.sessionFile == NoSessionFile && net.sent == old(net.sent)
      ensures r.Failure? && r.error != NetworkError && r.error != ConfigUnreadable ==>
        disk.sessionFile == NoSessionFile
      // a recovery that gives up fails with its error and makes no business request
      ensures Planned(Classify(body), path, body, mayInit, cell0, stored, config0, net.At(pos)).GiveUp? ==>
        ApiCalls(net.sent) == ApiCalls(old(net.sent))
      // otherwise the request after the recovery's own is the retry, at the
      // recovery's path with the recovered session's token, and its reply decides
      ensures var k := Fetches(Classify(body), mayInit, cell0, stored);
        RetriedAs(Planned(Classify(body), path, body, mayInit, cell0, stored, config0, net.At(pos)),
                  RetrySession(Classify(body), cell0, net.At(pos)), net.sent,
                  |old(net.sent)| + k, payload, headers, r, net.At(pos + k))
    {
      ghost var k := Fetches(Classify(body), mayInit, cell, SM.LoadSession(disk));
      var rec := ChooseRecovery(path, body, mayInit);
      if rec.GiveUp? {
        return Failure(rec.error);
      }
      ghost var beforeRetry := net.sent;
      r := FinalAttempt(rec.path, headers, payload, retryCount + 1);
      assert net.sent == beforeRetry + net.sent[|beforeRetry|..];
      CountsAppend(beforeRetry, net.sent[|beforeRetry|..]);
    }
  }
}

/** Clients of the refresh cell, in the module's own terms. */
module RefreshCell {
  import opened Wrappers
  import opened Http
  import SM = SessionManager
  import opened ApiClient

  /** `n` requests discover an expired token before the first refresh
      settles: all of them share one refresh operation, so the refresh
      endpoint is called at most once and every caller sees the same result. */
  method ConcurrentRefresh(g: Gateway, n: nat) returns (results: seq<bool>)
    requires g.Valid() && g.cell.Idle? && n >= 1
    modifies g, g.disk, g.net
    ensures g.Valid() && g.cell.Idle?
    ensures |results| == n
    ensures forall i :: 0 <= i < n ==> results[i] == results[0]
    ensures RefreshCalls(g.net.sent) <= RefreshCalls(old(g.net.sent)) + 1
    ensures NoApiAdded(old(g.net.sent), g.net.sent)
  {
    ghost var session := SM.LoadSession(g.disk);
    ghost var log0 := g.net.sent;
    var ids: seq<nat> := [];
    while |ids| < n
      invariant |ids| <= n && g.Valid()
      invariant g.disk.sessionFile == old(g.disk.sessionFile)
      invariant session.None? ==>
        g.cell.Idle? && g.net.sent == log0 && forall i :: 0 <= i < |ids| ==> g.Outcome(ids[i]) == Some(false)
      invariant session.Some? && |ids| == 0 ==> g.cell.Idle? && g.net.sent == log0
      invariant session.Some? && |ids| > 0 ==>
        g.cell.InFlight? && (forall i :: 0 <= i < |ids| ==> ids[i] == g.cell.id)
        && g.net.sent == log0 + [Request(SessionRefresh(session.value.refreshToken), JsonHeaders())]
    {
      var id := g.BeginRefresh();
      ids := ids + [id];
    }
    if g.cell.InFlight? {
      var _ := g.SettleRefresh();
    }
    assert forall i :: 0 <= i < n ==> g.Outcome(ids[i]) == g.Outcome(ids[0]) && g.Outcome(ids[i]).Some?;
    results := [];
    while |results| < n
      invariant |results| <= n
      invariant forall i :: 0 <= i < |results| ==> Some(results[i]) == g.Outcome(ids[i])
    {
      results := results + [g.outcomes[ids[|results|]]];
    }
    if g.net.sent != log0 {
      CountsSnoc(log0, Request(SessionRefresh(session.value.refreshToken), JsonHeaders()));
    }
  }

  /** As written, a refresh attempted without a refresh token leaves the cell
      holding its settled `false`: a later refresh returns `false` without a
      request even though a refresh token has been stored since. */
  method StaleCellAsWritten(g: Gateway, s: SM.SessionData) returns (first: bool, second: bool)
    requires g.Valid() && g.cell.Idle? && SM.LoadSession(g.disk).None? && SM.Complete(s)
    modifies g, g.disk, g.net
    ensures !first && !second
    ensures SM.LoadSession(g.disk) == Some(s)
    ensures g.net.sent == old(g.net.sent)
    ensures g.cell.Settled?
  {
    first := g.RefreshSessionAsWritten();
    SM.SaveSession(g.disk, s);
    second := g.RefreshSessionAsWritten();
  }

  /** With the cell emptied on every exit, the same sequence makes the second
      refresh send the stored refresh token. */
  method CellClearedOnEveryExit(g: Gateway, s: SM.SessionData) returns (first: bool, second: bool)
    requires g.Valid() && g.cell.Idle? && SM.LoadSession(g.disk).None? && SM.Complete(s)
    modifies g, g.disk, g.net
    ensures !first
    ensures g.net.sent == old(g.net.sent) + [Request(SessionRefresh(s.refreshToken), JsonHeaders())]
    ensures g.cell.Idle?
  {
    first := g.RefreshSession();
    SM.SaveSession(g.disk, s);
    second := g.RefreshSession();
  }
}
