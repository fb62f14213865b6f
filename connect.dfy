/** `connectCommand` and `connectKayWithCredentials`
    (src/modules/auth/commands/connect.ts): the request bodies and their
    session id, the persistence of the session id the backend returns, the
    decision to poll, and the bounded poll for the browser authorization.
    Prompts, the browser, the spinner, the sleeps between polls and
    `process.exit` are not modelled; the email and password are inputs. */
module Connect {
  import opened Wrappers
  import Json
  import opened Storage
  import opened Http
  import CM = ConfigManager
  import opened ApiClient
  import opened Services

  /** `MAX_POLL_ATTEMPTS`. */
  const MaxPollAttempts: nat := 150

  /** The errors that end a connect; the command shows its message and exits with code 1. */
  datatype ConnectError =
    | SessionIdUnreadable                           // `ConfigManager.get` threw
    | SessionIdNotSaved                             // `ConfigManager.set` threw
    | RequestFailed(error: FetchError)              // `apiFetch` (or `fetch`) threw
    | Refused(message: string)                      // the credentials connect was refused
    | InitiateFailed(status: int, statusText: string) // "Failed to initiate connection: <status> <text>"
    | ReplyNotJson                                  // a `response.json()` rejected
    | MissingAuthorization                          // "Invalid response from backend: missing authorization URL or state"
    | InvalidState                                  // "Invalid or expired state parameter"
    | StatusCheckFailed(status: int, statusText: string) // "Status check failed: <status> <text>"
    | UnexpectedStatus(reported: string)            // "Unexpected status: <status>"
    | UrlNotParsed(url: string)                     // `fetch` could not parse its URL
    | BackendUnreachable                            // "Cannot connect to Kay backend. ..."
    | TimedOut                                      // "Connection timeout (5 minutes). ..."

  datatype Outcome = AlreadyConnected | Connected(message: string) | Failed(error: ConnectError)

  /** `/connections/connect?service=${service}`. */
  function ConnectPath(s: ServiceName): Path
  {
    Path("/connections/connect", [("service", Value(s))])
  }

  /** `/auth/status/${state}`. */
  function StatusUrl(state: Json.Value): string
  {
    "/auth/status/" + Json.ToText(state)
  }

  /** The body of the browser connect: `sessionId ? { session_id: sessionId } : {}`,
      for the truthy stored session id. */
  function ConnectBody(sessionId: Option<Json.Value>): (b: map<string, Json.Value>)
    ensures "session_id" in b <==> sessionId.Some?
    ensures sessionId.Some? ==> b["session_id"] == sessionId.value
    ensures b.Keys <= {"session_id"}
  {
    if sessionId.Some? then map["session_id" := sessionId.value] else map[]
  }

  /** The body of the credentials connect:
      `{ email, password, ...(sessionId ? { session_id: sessionId } : {}) }`. */
  function CredentialsBody(email: string, password: string, sessionId: Option<Json.Value>): (b: map<string, Json.Value>)
    ensures b.Keys == {"email", "password"} + (if sessionId.Some? then {"session_id"} else {})
    ensures b["email"] == Json.Str(email) && b["password"] == Json.Str(password)
    ensures sessionId.Some? ==> b["session_id"] == sessionId.value
  {
    map["email" := Json.Str(email), "password" := Json.Str(password)] + ConnectBody(sessionId)
  }

  /** The error of a refused credentials connect:
      `errorData.error || errorData.message || "Failed to connect: <status> <text>"`,
      where a body that is not JSON reads as `{}`. */
  function RefusalMessage(resp: Response): (m: string)
    ensures resp.body.JsonObject? && Json.TruthyField(resp.body.fields, "error") ==>
      m == Json.ToText(resp.body.fields["error"])
    ensures resp.body.JsonObject? && !Json.TruthyField(resp.body.fields, "error")
            && Json.TruthyField(resp.body.fields, "message") ==>
      m == Json.ToText(resp.body.fields["message"])
    ensures resp.body.NotJson? ||
            (!Json.TruthyField(resp.body.fields, "error") && !Json.TruthyField(resp.body.fields, "message")) ==>
      m == "Failed to connect: " + Json.ToText(Json.Num(resp.status)) + " " + resp.statusText
  {
    var data := if resp.body.JsonObject? then resp.body.fields else map[];
    if Json.TruthyField(data, "error") then Json.ToText(data["error"])
    else if Json.TruthyField(data, "message") then Json.ToText(data["message"])
    else "Failed to connect: " + Json.ToText(Json.Num(resp.status)) + " " + resp.statusText
  }

  /** `connectData.session_reset === true`. */
  predicate SessionReset(data: map<string, Json.Value>)
  {
    "session_reset" in data && data["session_reset"] == Json.Bool(true)
  }

  /** `!hadSessionId || sessionWasReset`: poll on a first connection or a reset session. */
  predicate ShouldPoll(hadSessionId: bool, data: map<string, Json.Value>)
  {
    !hadSessionId || SessionReset(data)
  }

  /** `!connectData.authorization_url || !connectData.state` negated. */
  predicate HasAuthorization(data: map<string, Json.Value>)
  {
    Json.TruthyField(data, "authorization_url") && Json.TruthyField(data, "state")
  }

  /** `if (connectData.session_id) ConfigManager.set("session_id", connectData.session_id)`:
      a truthy session id in a connect reply is always persisted. */
  method KeepSessionId(d: Disk, data: map<string, Json.Value>) returns (r: Option<CM.ConfigError>)
    modifies d
    ensures !Json.TruthyField(data, "session_id") ==> r.None? && d.configFile == old(d.configFile)
    ensures Json.TruthyField(data, "session_id") ==> (r.Some? <==> old(d.configFile).MalformedConfig?)
    ensures Json.TruthyField(data, "session_id") && r.None? ==>
      CM.Get(d, "session_id") == Success(Some(data["session_id"]))
      && forall k :: k != "session_id" ==> CM.Get(d, k) == old(CM.Get(d, k))
    ensures r.Some? ==> d.configFile == old(d.configFile)
    ensures d.sessionFile == old(d.sessionFile) && d.sessionMode == old(d.sessionMode)
  {
    r := None;
    if Json.TruthyField(data, "session_id") {
      r := CM.Set(d, "session_id", data["session_id"]);
    }
  }

  /** What one pass of the poll loop's body makes of a status reply. */
  datatype PollStep = StillPending | Authorized | Stopped(error: ConnectError)

  /** The loop body on the result of the status request: a non-ok status is
      an error (400 its own), a "completed" status ends the loop, a "pending"
      one goes round again, any other status is unexpected. */
  function StatusStep(r: Result<Response, ConnectError>): (step: PollStep)
    ensures step == Authorized <==> r.Success? && r.value.Ok() && r.value.body.JsonObject?
                                    && Json.Field(r.value.body.fields, "status") == Some(Json.Str("completed"))
    ensures step == StillPending <==> r.Success? && r.value.Ok() && r.value.body.JsonObject?
                                      && Json.Field(r.value.body.fields, "status") == Some(Json.Str("pending"))
    ensures r.Failure? ==> step == Stopped(r.error)
    ensures r.Success? && r.value.status == 400 ==> step == Stopped(InvalidState)
    ensures r.Success? && !r.value.Ok() && r.value.status != 400 ==>
      step == Stopped(StatusCheckFailed(r.value.status, r.value.statusText))
    ensures r.Success? && r.value.Ok() && r.value.body.NotJson? ==> step == Stopped(ReplyNotJson)
    ensures r.Success? && r.value.Ok() && r.value.body.JsonObject? && step.Stopped? ==>
      step.error == UnexpectedStatus(
        if Json.TruthyField(r.value.body.fields, "status") then Json.ToText(r.value.body.fields["status"]) else "unknown")
  {
    match r
    case Failure(e) => Stopped(e)
    case Success(resp) =>
      if !resp.Ok() then
        if resp.status == 400 then Stopped(InvalidState) else Stopped(StatusCheckFailed(resp.status, resp.statusText))
      else
        match resp.body
        case NotJson => Stopped(ReplyNotJson)
        case JsonObject(data) =>
          if Json.Field(data, "status") == Some(Json.Str("completed")) then Authorized
          else if Json.Field(data, "status") == Some(Json.Str("pending")) then StillPending
          else Stopped(UnexpectedStatus(if Json.TruthyField(data, "status") then Json.ToText(data["status"]) else "unknown"))
  }

  /** A finished run of the poll loop: every step but the last is pending,
      and the loop stops at the first other step or after its last attempt. */
  ghost predicate FinishedRun(steps: seq<PollStep>)
  {
    && 1 <= |steps| <= MaxPollAttempts
    && (forall i :: 0 <= i < |steps| - 1 ==> steps[i] == StillPending)
    && (steps[|steps| - 1] == StillPending ==> |steps| == MaxPollAttempts)
  }

  /** The error a finished run ends in, `None` when it was authorized. */
  function RunError(steps: seq<PollStep>): Option<ConnectError>
    requires |steps| > 0
  {
    match steps[|steps| - 1]
    case StillPending => Some(TimedOut)
    case Authorized => None
    case Stopped(e) => Some(e)
  }

  /** What a status check makes of a reply that `apiFetch` passes through
      (a network failure, or any status but 401 and 403). */
  function StepOf(rep: Reply): (step: PollStep)
    ensures rep.NetworkFailure? ==> step == Stopped(RequestFailed(NetworkError))
    ensures rep.Delivered? ==> step == StatusStep(Success(rep.response))
  {
    StatusStep(if rep.NetworkFailure? then Failure(RequestFailed(NetworkError)) else Success(rep.response))
  }

  /** A pending or completed status comes with a 2xx reply, which `apiFetch`
      passes through. */
  lemma UnsettledIsPlain(rep: Reply)
    requires StepOf(rep) == StillPending || StepOf(rep) == Authorized
    ensures Plain(rep) && rep.Delivered? && rep.response.Ok()
  {
  }

  /** The `n` replies from position `s0` of the script are all passed through. */
  ghost predicate PlainFrom(net: Network, s0: nat, n: nat)
  {
    forall k :: s0 <= k < s0 + n ==> Plain(net.At(k))
  }

  /** The `n` replies from position `s0` of the script all report "pending". */
  ghost predicate PendingFrom(net: Network, s0: nat, n: nat)
  {
    forall k :: s0 <= k < s0 + n ==> StepOf(net.At(k)) == StillPending
  }

  /** Step `i` of a run is what the `i`-th reply from position `s0` says, as
      long as no earlier reply needed a recovery (which takes replies of its own). */
  ghost predicate TracksReplies(net: Network, s0: nat, steps: seq<PollStep>)
  {
    forall i :: 0 <= i < |steps| && PlainFrom(net, s0, i + 1) ==> steps[i] == StepOf(net.At(s0 + i))
  }

  /** A run that follows a script whose first `j` replies are pending ends at
      the first reply that settles it, and ends as that reply says. */
  lemma {:induction false} FirstSettledStep(net: Network, s0: nat, steps: seq<PollStep>, j: nat)
    requires FinishedRun(steps) && TracksReplies(net, s0, steps)
    requires j < MaxPollAttempts && PendingFrom(net, s0, j)
    requires Plain(net.At(s0 + j)) && StepOf(net.At(s0 + j)) != StillPending
    ensures |steps| == j + 1 && steps[j] == StepOf(net.At(s0 + j))
    ensures RunError(steps) == (match StepOf(net.At(s0 + j)) case Authorized => None case Stopped(e) => Some(e) case StillPending => Some(TimedOut))
  {
    PendingPlain(net, s0, j);
    PlainStep(net, s0, j);
    var m := if |steps| < j + 1 then |steps| else j + 1;
    PlainPrefix(net, s0, m, j + 1);
    assert steps[m - 1] == StepOf(net.At(s0 + (m - 1)));
  }

  /** A script of `MaxPollAttempts` pending replies times the run out. */
  lemma {:induction false} AllPendingTimesOut(net: Network, s0: nat, steps: seq<PollStep>)
    requires FinishedRun(steps) && TracksReplies(net, s0, steps)
    requires PendingFrom(net, s0, MaxPollAttempts)
    ensures |steps| == MaxPollAttempts && RunError(steps) == Some(TimedOut)
  {
    PendingPlain(net, s0, MaxPollAttempts);
    var n := |steps|;
    assert PlainFrom(net, s0, n) by { PlainPrefix(net, s0, n, MaxPollAttempts); }
    assert steps[n - 1] == StepOf(net.At(s0 + (n - 1)));
  }

  lemma PendingPlain(net: Network, s0: nat, n: nat)
    requires PendingFrom(net, s0, n)
    ensures PlainFrom(net, s0, n)
  {
    forall k | s0 <= k < s0 + n ensures Plain(net.At(k)) {
      UnsettledIsPlain(net.At(k));
    }
  }

  lemma PlainPrefix(net: Network, s0: nat, m: nat, n: nat)
    requires m <= n && PlainFrom(net, s0, n)
    ensures PlainFrom(net, s0, m)
  {
  }

  lemma PlainStep(net: Network, s0: nat, n: nat)
    ensures PlainFrom(net, s0, n + 1) <==> PlainFrom(net, s0, n) && Plain(net.At(s0 + n))
  {
  }

  /** Extending a run by the step of the reply at `pos`, which is the next
      position when no recovery happened before. */
  lemma TracksSnoc(net: Network, s0: nat, steps: seq<PollStep>, step: PollStep, pos: nat)
    requires TracksReplies(net, s0, steps)
    requires PlainFrom(net, s0, |steps|) ==> pos == s0 + |steps|
    requires Plain(net.At(pos)) ==> step == StepOf(net.At(pos))
    ensures TracksReplies(net, s0, steps + [step])
  {
    var steps' := steps + [step];
    forall i | 0 <= i < |steps'| && PlainFrom(net, s0, i + 1) ensures steps'[i] == StepOf(net.At(s0 + i)) {
      if i < |steps| {
        assert steps'[i] == steps[i];
      } else {
        PlainStep(net, s0, i);
      }
    }
  }

  /** One status check of the poll loop: `apiFetch` of the state's status
      path, read by `StatusStep`. */
  method CheckStatus(g: Gateway, state: Json.Value) returns (step: PollStep)
    requires g.Valid()
    modifies g, g.disk, g.net
    ensures g.Valid() && (old(g.cell).Idle? ==> g.cell.Idle?)
    ensures old(g.net.sent) < g.net.sent
    ensures g.net.sent[|old(g.net.sent)|].target == Api(Path(StatusUrl(state), []), None)
    ensures ApiCalls(old(g.net.sent)) + 1 <= ApiCalls(g.net.sent) <= ApiCalls(old(g.net.sent)) + 2
    ensures Posts(g.net.sent) == Posts(old(g.net.sent))
    // a reply passed through decides the step, and nothing else changes
    ensures Plain(g.net.At(old(g.net.served))) ==>
      step == StepOf(g.net.At(old(g.net.served)))
      && |g.net.sent| == |old(g.net.sent)| + 1 && g.net.served == old(g.net.served) + 1
      && g.disk.configFile == old(g.disk.configFile)
  {
    ghost var before := g.net.sent;
    var reply := g.ApiFetch(Path(StatusUrl(state), []), map[], None, 0);
    step := StatusStep(if reply.Success? then Success(reply.value) else Failure(RequestFailed(reply.error)));
    ApiCallsGrow(before, g.net.sent);
  }

  /** The status checks of the poll loop of both flows
      (src/modules/auth/commands/connect.ts:154-207, and lines 328-389 with
      the request made through `apiFetch` as at line 157): at most
      `MaxPollAttempts` of them, the first one that is not pending ending the
      loop. `last` is the step the loop ends on. */
  method AwaitAuthorization(g: Gateway, state: Json.Value) returns (last: PollStep, ghost steps: seq<PollStep>)
    requires g.Valid()
    modifies g, g.disk, g.net
    ensures g.Valid() && (old(g.cell).Idle? ==> g.cell.Idle?)
    ensures FinishedRun(steps) && last == steps[|steps| - 1]
    ensures old(g.net.sent) <= g.net.sent
    // one status request at least per step, and at most one retried
    ensures ApiCalls(old(g.net.sent)) + |steps| <= ApiCalls(g.net.sent) <= ApiCalls(old(g.net.sent)) + 2 * |steps|
    ensures Posts(g.net.sent) == Posts(old(g.net.sent))
    // the first check asks for the state's status
    ensures |old(g.net.sent)| < |g.net.sent| &&
      g.net.sent[|old(g.net.sent)|].target == Api(Path(StatusUrl(state), []), None)
    // each step is what its reply says
    ensures TracksReplies(g.net, old(g.net.served), steps)
    ensures PlainFrom(g.net, old(g.net.served), |steps|) ==>
      |g.net.sent| == |old(g.net.sent)| + |steps| && g.net.served == old(g.net.served) + |steps|
      && g.disk.configFile == old(g.disk.configFile)
  {
    ghost var s0 := g.net.served;
    ghost var firstRequest := Request(Api(Path(StatusUrl(state), []), None), map[]);
    var attempts := 0;
    steps := [];
    last := StillPending;
    while attempts < MaxPollAttempts
      invariant 0 <= attempts <= MaxPollAttempts
      invariant |steps| == attempts && forall i :: 0 <= i < |steps| ==> steps[i] == StillPending
      invariant attempts > 0 ==> last == StillPending
      invariant g.Valid() && (old(g.cell).Idle? ==> g.cell.Idle?)
      invariant old(g.net.sent) <= g.net.sent
      invariant ApiCalls(old(g.net.sent)) + attempts <= ApiCalls(g.net.sent) <= ApiCalls(old(g.net.sent)) + 2 * attempts
      invariant Posts(g.net.sent) == Posts(old(g.net.sent))
      invariant attempts == 0 ==> g.net.sent == old(g.net.sent) && g.net.served == s0
      invariant attempts > 0 ==> |old(g.net.sent)| < |g.net.sent| && g.net.sent[|old(g.net.sent)|].target == firstRequest.target
      invariant TracksReplies(g.net, s0, steps)
      invariant PlainFrom(g.net, s0, attempts) ==>
        |g.net.sent| == |old(g.net.sent)| + attempts && g.net.served == s0 + attempts
        && g.disk.configFile == old(g.disk.configFile)
    {
      ghost var before := g.net.sent;
      ghost var pos := g.net.served;
      last := CheckStatus(g, state);
      if attempts > 0 {
        PrefixKeeps(before, g.net.sent, |old(g.net.sent)|);
      }
      TracksSnoc(g.net, s0, steps, last, pos);
      PlainStep(g.net, s0, attempts);
      steps := steps + [last];
      if last != StillPending {
        return;
      }
      attempts := attempts + 1;
    }
  }

  /** The poll loop with what ends it: on completion the connect reply's
      session id is persisted again. `r` is the error thrown, `None` on
      success. */
  method PollAuthorization(g: Gateway, state: Json.Value, data: map<string, Json.Value>)
    returns (r: Option<ConnectError>, ghost steps: seq<PollStep>)
    requires g.Valid()
    modifies g, g.disk, g.net
    ensures g.Valid() && (old(g.cell).Idle? ==> g.cell.Idle?)
    ensures FinishedRun(steps)
    ensures old(g.net.sent) <= g.net.sent
    ensures ApiCalls(old(g.net.sent)) + |steps| <= ApiCalls(g.net.sent) <= ApiCalls(old(g.net.sent)) + 2 * |steps|
    ensures Posts(g.net.sent) == Posts(old(g.net.sent))
    ensures |old(g.net.sent)| < |g.net.sent| &&
      g.net.sent[|old(g.net.sent)|].target == Api(Path(StatusUrl(state), []), None)
    ensures TracksReplies(g.net, old(g.net.served), steps)
    ensures PlainFrom(g.net, old(g.net.served), |steps|) ==>
      |g.net.sent| == |old(g.net.sent)| + |steps| && g.net.served == old(g.net.served) + |steps|
    // the thrown error is the run's, or the failed write of the session id
    ensures RunError(steps).Some? ==> r == RunError(steps)
    ensures RunError(steps).None? ==> r.None? || r == Some(SessionIdNotSaved)
    ensures RunError(steps).None? && PlainFrom(g.net, old(g.net.served), |steps|) ==>
      (r == Some(SessionIdNotSaved) <==> Json.TruthyField(data, "session_id") && old(g.disk.configFile).MalformedConfig?)
    ensures r.None? && Json.TruthyField(data, "session_id") ==>
      CM.Get(g.disk, "session_id") == Success(Some(data["session_id"]))
  {
    var last;
    last, steps := AwaitAuthorization(g, state);
    match last
    case Authorized =>
      var err := KeepSessionId(g.disk, data);
      r := if err.Some? then Some(SessionIdNotSaved) else None;
    case Stopped(e) =>
      r := Some(e);
    case StillPending =>
      r := Some(TimedOut);
  }

  /** `message.includes("fetch failed") || message.includes("ECONNREFUSED")`. */
  predicate MentionsUnreachable(message: string)
  {
    Contains(message, "fetch failed") || Contains(message, "ECONNREFUSED")
  }

  /** `s.includes(t)`. */
  predicate Contains(s: string, t: string)
    decreases |s|
  {
    t <= s || (|s| > 0 && Contains(s[1..], t))
  }

  /** Whether the message of an error thrown inside the browser flow's poll
      names an unreachable backend. `fetch` rejects a refused connection with
      "fetch failed"; the other fixed messages contain neither text. */
  predicate Unreachable(e: ConnectError)
  {
    match e
    case RequestFailed(NetworkError) => true
    case RequestFailed(InitHttpFailed(status, text)) =>
      MentionsUnreachable("Failed to initialize session: " + Json.ToText(Json.Num(status)) + " " + text)
    case RequestFailed(AuthorizationFailed(m)) => MentionsUnreachable(m)
    case StatusCheckFailed(status, text) =>
      MentionsUnreachable("Status check failed: " + Json.ToText(Json.Num(status)) + " " + text)
    case UnexpectedStatus(status) => MentionsUnreachable("Unexpected status: " + status)
    case UrlNotParsed(url) => MentionsUnreachable("Failed to parse URL from " + url)
    case _ => false
  }

  /** The `catch` of the browser flow's poll loop (lines 371-383). */
  function Caught(e: ConnectError): (c: ConnectError)
    ensures Unreachable(e) ==> c == BackendUnreachable
    ensures !Unreachable(e) ==> c == e
  {
    if Unreachable(e) then BackendUnreachable else e
  }

  /** A URL without a scheme: Node's `fetch` cannot parse one that starts
      with "/" (or is empty) without a base, and rejects before sending. */
  predicate Relative(url: string)
  {
    |url| == 0 || url[0] == '/'
  }

  /** `fetch(url)` called directly, outside `apiFetch`. */
  method RawFetch(net: Network, url: string) returns (r: Result<Response, ConnectError>)
    modifies net
    ensures Relative(url) ==>
      r == Failure(UrlNotParsed(url)) && net.sent == old(net.sent) && net.served == old(net.served)
    ensures !Relative(url) ==> net.sent == old(net.sent) + [Request(Absolute(url), map[])]
    ensures !Relative(url) && old(net.Next()).Delivered? ==> r == Success(old(net.Next()).response)
    ensures !Relative(url) && old(net.Next()).NetworkFailure? ==> r == Failure(RequestFailed(NetworkError))
  {
    if Relative(url) {
      return Failure(UrlNotParsed(url));
    }
    var reply := net.Fetch(Request(Absolute(url), map[]));
    r := if reply.Delivered? then Success(reply.response) else Failure(RequestFailed(NetworkError));
  }

  /** The browser flow's poll loop as written (lines 328-389): the status is
      fetched with `fetch(url)` rather than `apiFetch`. A relative URL stops
      the loop at its first attempt with nothing sent. */
  method PollRaw(net: Network, d: Disk, url: string, data: map<string, Json.Value>)
    returns (r: Option<ConnectError>, ghost steps: seq<PollStep>)
    modifies net, d
    ensures FinishedRun(steps)
    ensures old(net.sent) <= net.sent
    ensures RunError(steps).Some? ==> r == Some(Caught(RunError(steps).value))
    ensures Relative(url) ==>
      steps == [Stopped(UrlNotParsed(url))] && net.sent == old(net.sent) && d.configFile == old(d.configFile)
  {
    var attempts := 0;
    steps := [];
    while attempts < MaxPollAttempts
      invariant 0 <= attempts <= MaxPollAttempts
      invariant |steps| == attempts && forall i :: 0 <= i < |steps| ==> steps[i] == StillPending
      invariant old(net.sent) <= net.sent
      invariant Relative(url) ==> attempts == 0 && net.sent == old(net.sent) && d.configFile == old(d.configFile)
    {
      var reply := RawFetch(net, url);
      var step := StatusStep(reply);
      steps := steps + [step];
      if step == Authorized {
        var err := KeepSessionId(d, data);
        r := if err.Some? then Some(Caught(SessionIdNotSaved)) else None;
        return;
      }
      if step.Stopped? {
        r := Some(Caught(step.error));
        return;
      }
      attempts := attempts + 1;
    }
    r := Some(Caught(TimedOut));
  }

  /** The browser flow's poll as written never connects: its first status
      check is rejected before any request, so it ends in that error. */
  method PollAsWritten(net: Network, d: Disk, state: Json.Value, data: map<string, Json.Value>)
    returns (r: Option<ConnectError>)
    modifies net, d
    ensures r == Some(Caught(UrlNotParsed(StatusUrl(state))))
    ensures net.sent == old(net.sent) && d.configFile == old(d.configFile)
  {
    ghost var steps;
    r, steps := PollRaw(net, d, StatusUrl(state), data);
  }

  /** `r` is what a poll that ran `steps`, on the replies from script
      position `s0`, throws: the run's error, or none (or the failed write of
      the session id) when it was authorized. */
  ghost predicate PollReport(net: Network, s0: nat, steps: seq<PollStep>, r: Option<ConnectError>)
  {
    && FinishedRun(steps) && TracksReplies(net, s0, steps)
    && (RunError(steps).Some? ==> r == RunError(steps))
    && (RunError(steps).None? ==> r.None? || r == Some(SessionIdNotSaved))
  }

  /** `ConfigManager.set` of a connect reply's session id cannot fail. */
  predicate Keepable(f: ConfigFile, data: map<string, Json.Value>)
  {
    !(f.MalformedConfig? && Json.TruthyField(data, "session_id"))
  }

  /** What both flows do with an accepted connect reply (lines 121-185 and
      294-389): keep its session id, then, when it names an authorization
      URL and state, poll for the authorization (through `apiFetch`). */
  method Accepted(g: Gateway, data: map<string, Json.Value>) returns (r: Option<ConnectError>, ghost steps: seq<PollStep>)
    requires g.Valid()
    modifies g, g.disk, g.net
    ensures g.Valid() && (old(g.cell).Idle? ==> g.cell.Idle?)
    ensures old(g.net.sent) <= g.net.sent
    ensures Posts(g.net.sent) == Posts(old(g.net.sent))
    ensures !Keepable(old(g.disk.configFile), data) ==>
      r == Some(SessionIdNotSaved) && g.net.sent == old(g.net.sent)
    ensures Keepable(old(g.disk.configFile), data) && !HasAuthorization(data) ==>
      r.None? && g.net.sent == old(g.net.sent)
    // otherwise the poll decides, from the next reply on
    ensures Keepable(old(g.disk.configFile), data) && HasAuthorization(data) ==>
      PollReport(g.net, old(g.net.served), steps, r)
      && (RunError(steps).None? && PlainFrom(g.net, old(g.net.served), |steps|) ==> r.None?)
    ensures r.None? && Json.TruthyField(data, "session_id") ==>
      CM.Get(g.disk, "session_id") == Success(Some(data["session_id"]))
  {
    steps := [];
    var err := KeepSessionId(g.disk, data);
    if err.Some? {
      return Some(SessionIdNotSaved), steps;
    }
    if !HasAuthorization(data) {
      return None, steps;
    }
    r, steps := PollAuthorization(g, data["state"], data);
  }

  /** `connectKayWithCredentials` (lines 53-212): `r` is the error thrown,
      `None` once connected. */
  method ConnectWithCredentials(g: Gateway, s: ServiceName, email: string, password: string)
    returns (r: Option<ConnectError>, ghost steps: seq<PollStep>)
    requires g.Valid()
    modifies g, g.disk, g.net
    ensures g.Valid() && (old(g.cell).Idle? ==> g.cell.Idle?)
    ensures old(g.net.sent) <= g.net.sent
    ensures old(CM.Get(g.disk, "session_id")).Failure? ==>
      r == Some(SessionIdUnreadable) && g.net.sent == old(g.net.sent)
    // the credentials are posted with the stored session id, if there is one
    ensures old(CM.Get(g.disk, "session_id")).Success? ==>
      |old(g.net.sent)| < |g.net.sent| &&
      g.net.sent[|old(g.net.sent)|].target ==
        Api(ConnectPath(s), Some(CredentialsBody(email, password, StoredSessionId(old(CM.Get(g.disk, "session_id")).value))))
    // a refusal reports the backend's error, its message or the status
    ensures old(CM.Get(g.disk, "session_id")).Success? && old(g.net.Next()).Delivered?
            && !IsAuthStatus(old(g.net.Next()).response.status) && !old(g.net.Next()).response.Ok() ==>
      r == Some(Refused(RefusalMessage(old(g.net.Next()).response)))
    // an accepted reply's session id is kept
    ensures old(CM.Get(g.disk, "session_id")).Success? && OkJson(old(g.net.Next()))
            && !IsAuthStatus(old(g.net.Next()).response.status)
            && Json.TruthyField(old(g.net.Next()).response.body.fields, "session_id") && r.None? ==>
      CM.Get(g.disk, "session_id") == Success(Some(old(g.net.Next()).response.body.fields["session_id"]))
    // without an authorization URL the credentials alone connect
    ensures old(CM.Get(g.disk, "session_id")).Success? && OkJson(old(g.net.Next()))
            && !IsAuthStatus(old(g.net.Next()).response.status)
            && !HasAuthorization(old(g.net.Next()).response.body.fields) ==>
      r.None? && |g.net.sent| == |old(g.net.sent)| + 1
    // with one, the poll decides from the next reply on
    ensures old(CM.Get(g.disk, "session_id")).Success? && OkJson(old(g.net.Next()))
            && !IsAuthStatus(old(g.net.Next()).response.status)
            && HasAuthorization(old(g.net.Next()).response.body.fields) ==>
      PollReport(g.net, old(g.net.served) + 1, steps, r)
      && (RunError(steps).None? && PlainFrom(g.net, old(g.net.served) + 1, |steps|) ==> r.None?)
  {
    steps := [];
    var stored := CM.Get(g.disk, "session_id");
    if stored.Failure? {
      return Some(SessionIdUnreadable), steps;
    }
    var body := CredentialsBody(email, password, StoredSessionId(stored.value));
    var reply := g.ApiFetch(ConnectPath(s), map[], Some(body), 0);
    if reply.Failure? {
      return Some(RequestFailed(reply.error)), steps;
    }
    if !reply.value.Ok() {
      return Some(Refused(RefusalMessage(reply.value))), steps;
    }
    if reply.value.body.NotJson? {
      return Some(ReplyNotJson), steps;
    }
    r, steps := Accepted(g, reply.value.body.fields);
  }

  /** The browser flow once its connect reply is accepted (lines 294-389):
      keep the returned session id, require an authorization URL and state,
      and poll only on a first connection (`hadSessionId` false) or a reset
      session, the poll's "unreachable" errors renamed. */
  method BrowserAccepted(g: Gateway, hadSessionId: bool, data: map<string, Json.Value>)
    returns (r: Option<ConnectError>, polled: bool, ghost steps: seq<PollStep>)
    requires g.Valid()
    modifies g, g.disk, g.net
    ensures g.Valid() && (old(g.cell).Idle? ==> g.cell.Idle?)
    ensures old(g.net.sent) <= g.net.sent
    ensures Posts(g.net.sent) == Posts(old(g.net.sent))
    ensures !polled ==> g.net.sent == old(g.net.sent)
    ensures !Keepable(old(g.disk.configFile), data) ==> r == Some(SessionIdNotSaved) && !polled
    ensures Keepable(old(g.disk.configFile), data) && !HasAuthorization(data) ==> r == Some(MissingAuthorization) && !polled
    ensures Keepable(old(g.disk.configFile), data) && HasAuthorization(data) ==>
      (polled <==> ShouldPoll(hadSessionId, data)) && (!polled ==> r.None?)
    ensures r.None? || polled ==> HasAuthorization(data)
    ensures polled ==>
      && FinishedRun(steps) && TracksReplies(g.net, old(g.net.served), steps)
      && (RunError(steps).Some? ==> r == Some(Caught(RunError(steps).value)))
      && (RunError(steps).None? ==> r.None? || r == Some(SessionIdNotSaved))
      && (RunError(steps).None? && PlainFrom(g.net, old(g.net.served), |steps|) ==> r.None?)
    ensures polled && g.net.At(old(g.net.served)).NetworkFailure? ==> r == Some(BackendUnreachable)
    ensures r.None? && Json.TruthyField(data, "session_id") ==>
      CM.Get(g.disk, "session_id") == Success(Some(data["session_id"]))
  {
    polled := false;
    steps := [];
    var err := KeepSessionId(g.disk, data);
    if err.Some? {
      return Some(SessionIdNotSaved), false, steps;
    }
    if !HasAuthorization(data) {
      return Some(MissingAuthorization), false, steps;
    }
    if ShouldPoll(hadSessionId, data) {
      ghost var s0 := g.net.served;
      r, steps := PollAuthorization(g, data["state"], data);
      if g.net.At(s0).NetworkFailure? {
        FirstSettledStep(g.net, s0, steps, 0);
      }
      r := if r.Some? then Some(Caught(r.value)) else None;
      polled := true;
    } else {
      r := None;
    }
  }

  /** The browser flow of `connectCommand` (lines 266-394) for the truthy
      stored session id `sessionId`: post the connect request, keep the
      returned session id, and poll only on a first connection or a reset
      session. `polled` says whether the poll ran. */
  method ConnectThroughBrowser(g: Gateway, s: ServiceName, sessionId: Option<Json.Value>)
    returns (r: Option<ConnectError>, polled: bool, ghost steps: seq<PollStep>)
    requires g.Valid()
    modifies g, g.disk, g.net
    ensures g.Valid() && (old(g.cell).Idle? ==> g.cell.Idle?)
    ensures old(g.net.sent) <= g.net.sent
    // the session id goes in the body exactly when one is stored
    ensures |old(g.net.sent)| < |g.net.sent| &&
      g.net.sent[|old(g.net.sent)|].target == Api(ConnectPath(s), Some(ConnectBody(sessionId)))
    ensures old(g.net.Next()).Delivered? && !IsAuthStatus(old(g.net.Next()).response.status)
            && !old(g.net.Next()).response.Ok() ==>
      r == Some(InitiateFailed(old(g.net.Next()).response.status, old(g.net.Next()).response.statusText))
    // an accepted reply without an authorization URL and state is an error
    ensures OkJson(old(g.net.Next())) && !IsAuthStatus(old(g.net.Next()).response.status)
            && !HasAuthorization(old(g.net.Next()).response.body.fields) ==>
      r.Some? && !polled
    // the decision to poll
    ensures (r.None? || polled) && old(g.net.Next()).Delivered? && !IsAuthStatus(old(g.net.Next()).response.status) ==>
      OkJson(old(g.net.Next())) && HasAuthorization(old(g.net.Next()).response.body.fields)
    ensures OkJson(old(g.net.Next())) && !IsAuthStatus(old(g.net.Next()).response.status)
            && HasAuthorization(old(g.net.Next()).response.body.fields)
            && !(old(g.disk.configFile).MalformedConfig? && Json.TruthyField(old(g.net.Next()).response.body.fields, "session_id")) ==>
      (polled <==> ShouldPoll(sessionId.Some?, old(g.net.Next()).response.body.fields))
    // without a poll the accepted reply connects
    ensures !polled && OkJson(old(g.net.Next())) && !IsAuthStatus(old(g.net.Next()).response.status)
            && HasAuthorization(old(g.net.Next()).response.body.fields)
            && Keepable(old(g.disk.configFile), old(g.net.Next()).response.body.fields) ==>
      r.None?
    // with one, the poll decides from the next reply on, an unreachable backend named as such
    ensures polled && Plain(g.net.At(old(g.net.served))) ==>
      && FinishedRun(steps) && TracksReplies(g.net, old(g.net.served) + 1, steps)
      && (RunError(steps).Some? ==> r == Some(Caught(RunError(steps).value)))
      && (RunError(steps).None? ==> r.None? || r == Some(SessionIdNotSaved))
      && (RunError(steps).None? && PlainFrom(g.net, old(g.net.served) + 1, |steps|) ==> r.None?)
    ensures polled && Plain(g.net.At(old(g.net.served))) && g.net.At(old(g.net.served) + 1).NetworkFailure? ==>
      r == Some(BackendUnreachable)
    // a returned session id is kept
    ensures OkJson(old(g.net.Next())) && !IsAuthStatus(old(g.net.Next()).response.status)
            && Json.TruthyField(old(g.net.Next()).response.body.fields, "session_id") && r.None? ==>
      CM.Get(g.disk, "session_id") == Success(Some(old(g.net.Next()).response.body.fields["session_id"]))
  {
    polled := false;
    steps := [];
    var reply := g.ApiFetch(ConnectPath(s), map[], Some(ConnectBody(sessionId)), 0);
    if reply.Failure? {
      return Some(RequestFailed(reply.error)), false, steps;
    }
    if !reply.value.Ok() {
      return Some(InitiateFailed(reply.value.status, reply.value.statusText)), false, steps;
    }
    if reply.value.body.NotJson? {
      return Some(ReplyNotJson), false, steps;
    }
    r, polled, steps := BrowserAccepted(g, sessionId.Some?, reply.value.body.fields);
  }

  /** The connect flow of `connectCommand` once no connection is found
      (lines 266-394): the credentials for KYG Trade, the browser for the
      others, with `sessionId` the truthy stored session id. */
  method ConnectService(g: Gateway, s: ServiceName, email: string, password: string, sessionId: Option<Json.Value>)
    returns (o: Outcome)
    requires g.Valid()
    modifies g, g.disk, g.net
    ensures g.Valid() && (old(g.cell).Idle? ==> g.cell.Idle?)
    ensures old(g.net.sent) <= g.net.sent
    ensures o != AlreadyConnected
    ensures s == Kyg && old(CM.Get(g.disk, "session_id")).Success? ==>
      |old(g.net.sent)| < |g.net.sent| &&
      g.net.sent[|old(g.net.sent)|].target ==
        Api(ConnectPath(s), Some(CredentialsBody(email, password, StoredSessionId(old(CM.Get(g.disk, "session_id")).value))))
    ensures s != Kyg ==>
      |old(g.net.sent)| < |g.net.sent| && g.net.sent[|old(g.net.sent)|].target == Api(ConnectPath(s), Some(ConnectBody(sessionId)))
    ensures o.Connected? ==> o.message == DisplayName(s) + " connected successfully."
    ensures s == Kyg && old(CM.Get(g.disk, "session_id")).Success?
            && OkJson(old(g.net.Next())) && !HasAuthorization(old(g.net.Next()).response.body.fields) ==>
      o == Connected(DisplayName(s) + " connected successfully.")
    ensures s != Kyg && sessionId.None? && !old(g.disk.configFile).MalformedConfig?
            && OkJson(old(g.net.Next())) && HasAuthorization(old(g.net.Next()).response.body.fields)
            && StepOf(g.net.At(old(g.net.served) + 1)) == Authorized ==>
      o == Connected(DisplayName(s) + " connected successfully.")
    ensures s != Kyg && sessionId.None? && !old(g.disk.configFile).MalformedConfig?
            && OkJson(old(g.net.Next())) && HasAuthorization(old(g.net.Next()).response.body.fields)
            && PendingFrom(g.net, old(g.net.served) + 1, MaxPollAttempts) ==>
      o == Failed(TimedOut)
  {
    if s == Kyg {
      var err, steps := ConnectWithCredentials(g, s, email, password);
      return if err.None? then Connected(DisplayName(s) + " connected successfully.") else Failed(err.value);
    }
    ghost var s1 := g.net.served + 1;
    var err, polled, steps := ConnectThroughBrowser(g, s, sessionId);
    if polled && sessionId.None? && Plain(g.net.At(s1 - 1)) {
      if StepOf(g.net.At(s1)) == Authorized {
        FirstSettledStep(g.net, s1, steps, 0);
        PlainStep(g.net, s1, 0);
      } else if PendingFrom(g.net, s1, MaxPollAttempts) {
        AllPendingTimesOut(g.net, s1, steps);
      }
    }
    if err.Some? {
      return Failed(err.value);
    }
    CapitalizedIsDisplayName(s);
    o := Connected((if polled then DisplayName(s) else Capitalized(s)) + " connected successfully.");
  }

  /** `connectCommand` for a validated service: the connected-already check
      when a session id is stored, then the credentials flow for KYG Trade
      and the browser flow for the others. */
  method ConnectCommand(g: Gateway, s: ServiceName, email: string, password: string) returns (o: Outcome)
    requires g.Valid()
    modifies g, g.disk, g.net
    ensures g.Valid() && (old(g.cell).Idle? ==> g.cell.Idle?)
    ensures old(g.net.sent) <= g.net.sent
    ensures old(CM.Get(g.disk, "session_id")).Failure? ==>
      o == Failed(SessionIdUnreadable) && g.net.sent == old(g.net.sent)
    // a stored session whose status shows the service connected ends the command, without a connect request
    ensures old(CM.Get(g.disk, "session_id")).Success? && StoredSessionId(old(CM.Get(g.disk, "session_id")).value).Some?
            && old(g.net.Next()).Delivered? && !IsAuthStatus(old(g.net.Next()).response.status) ==>
      (o == AlreadyConnected <==> Reading(old(g.net.Next()).response, s) == Some(true))
    ensures o == AlreadyConnected ==> Posts(g.net.sent) == Posts(old(g.net.sent))
    // with no stored session the connect request is the first request, and its body has no session id
    ensures old(CM.Get(g.disk, "session_id")).Success? && StoredSessionId(old(CM.Get(g.disk, "session_id")).value).None? ==>
      o != AlreadyConnected && |old(g.net.sent)| < |g.net.sent| &&
      g.net.sent[|old(g.net.sent)|].target ==
        Api(ConnectPath(s), Some(if s == Kyg then CredentialsBody(email, password, None) else ConnectBody(None)))
    // both ways of naming the service agree on every service that reaches them
    ensures o.Connected? ==> o.message == DisplayName(s) + " connected successfully."
    // a first connection of KYG Trade whose credentials are accepted outright
    ensures old(CM.Get(g.disk, "session_id")).Success? && StoredSessionId(old(CM.Get(g.disk, "session_id")).value).None?
            && s == Kyg && OkJson(old(g.net.Next())) && !HasAuthorization(old(g.net.Next()).response.body.fields) ==>
      o == Connected(DisplayName(s) + " connected successfully.")
    // a first connection through the browser: the poll's first reply decides
    ensures old(CM.Get(g.disk, "session_id")).Success? && StoredSessionId(old(CM.Get(g.disk, "session_id")).value).None?
            && s != Kyg && OkJson(old(g.net.Next())) && HasAuthorization(old(g.net.Next()).response.body.fields)
            && StepOf(g.net.At(old(g.net.served) + 1)) == Authorized ==>
      o == Connected(DisplayName(s) + " connected successfully.")
    ensures old(CM.Get(g.disk, "session_id")).Success? && StoredSessionId(old(CM.Get(g.disk, "session_id")).value).None?
            && s != Kyg && OkJson(old(g.net.Next())) && HasAuthorization(old(g.net.Next()).response.body.fields)
            && PendingFrom(g.net, old(g.net.served) + 1, MaxPollAttempts) ==>
      o == Failed(TimedOut)
  {
    var stored := CM.Get(g.disk, "session_id");
    if stored.Failure? {
      return Failed(SessionIdUnreadable);
    }
    var sessionId := StoredSessionId(stored.value);
    if sessionId.Some? {
      var reading := CheckConnected(g, sessionId.value, s);
      if reading == Some(true) {
        return AlreadyConnected;
      }
    }
    o := ConnectService(g, s, email, password, sessionId);
  }
}
