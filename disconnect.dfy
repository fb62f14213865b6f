/** `disconnectCommand` (src/modules/auth/commands/disconnect.ts): a chain of
    guarded steps, each of which may end the command before the backend is
    asked to disconnect the service. The confirmation prompt's answer is an
    input; the spinner and the console are not modelled. */
module Disconnect {
  import opened Wrappers
  import Json
  import opened Http
  import CM = ConfigManager
  import SM = SessionManager
  import opened ApiClient
  import opened Services

  /** What `p.confirm` gives back: yes, no, or the cancel symbol. */
  datatype Answer = Yes | No | Dismissed

  datatype DisconnectError =
    | SessionIdUnreadable                         // `ConfigManager.get` threw
    | RequestFailed(error: FetchError)            // `apiFetch` threw
    | Rejected(status: int, statusText: string)   // "Disconnect failed: <status> <text>"
    | ReplyNotJson                                // `response.json()` rejected

  datatype Outcome =
    | NoSession              // "No session found. ..."
    | NotConnected           // "<name> is not connected."
    | PromptCancelled        // "Disconnect cancelled" and exit code 0
    | Declined               // "Disconnect cancelled."
    | Disconnected(message: string)
    | Failed(error: DisconnectError)

  /** `/connections/disconnect?service=${service}`. */
  function DisconnectPath(s: ServiceName): Path
  {
    Path("/connections/disconnect", [("service", Value(s))])
  }

  /** `{ session_id: sessionId }`. */
  function DisconnectBody(sessionId: Json.Value): map<string, Json.Value>
  {
    map["session_id" := sessionId]
  }

  /** The end of the command once the disconnect request has been made. */
  function Finish(r: Result<Response, FetchError>, s: ServiceName): (o: Outcome)
    ensures r.Failure? ==> o == Failed(RequestFailed(r.error))
    ensures r.Success? && !r.value.Ok() ==> o == Failed(Rejected(r.value.status, r.value.statusText))
    ensures o.Disconnected? <==> r.Success? && r.value.Ok() && r.value.body.JsonObject?
    ensures o.Disconnected? && Json.TruthyField(r.value.body.fields, "message") ==>
      o.message == Json.ToText(r.value.body.fields["message"])
    ensures o.Disconnected? && !Json.TruthyField(r.value.body.fields, "message") ==>
      o.message == DisplayName(s) + " disconnected successfully."
    ensures o.Disconnected? || o.Failed?
  {
    match r
    case Failure(e) => Failed(RequestFailed(e))
    case Success(resp) =>
      if !resp.Ok() then Failed(Rejected(resp.status, resp.statusText))
      else
        match resp.body
        case NotJson => Failed(ReplyNotJson)
        case JsonObject(data) =>
          Disconnected(
            if Json.TruthyField(data, "message") then Json.ToText(data["message"])
            else DisplayName(s) + " disconnected successfully.")
  }

  /** `disconnectCommand` for a validated service. */
  method DisconnectCommand(g: Gateway, s: ServiceName, answer: Answer)
    returns (o: Outcome, ghost reading: Option<bool>, ghost result: Option<Result<Response, FetchError>>)
    requires g.Valid()
    modifies g, g.disk, g.net
    ensures g.Valid() && (old(g.cell).Idle? ==> g.cell.Idle?)
    ensures old(g.net.sent) <= g.net.sent
    // a malformed config.json ends the command before any request
    ensures old(CM.Get(g.disk, "session_id")).Failure? ==>
      o == Failed(SessionIdUnreadable) && g.net.sent == old(g.net.sent)
    // with no truthy session id nothing is asked of the backend
    ensures old(CM.Get(g.disk, "session_id")).Success? && StoredSessionId(old(CM.Get(g.disk, "session_id")).value).None? ==>
      o == NoSession && g.net.sent == old(g.net.sent)
    // an ok status reply that shows the service not connected ends the command
    ensures old(CM.Get(g.disk, "session_id")).Success? && StoredSessionId(old(CM.Get(g.disk, "session_id")).value).Some?
            && old(g.net.Next()).Delivered? && !IsAuthStatus(old(g.net.Next()).response.status) ==>
      (o == NotConnected <==> Reading(old(g.net.Next()).response, s) == Some(false))
    // no POST is made unless the user confirmed
    ensures answer != Yes ==> Posts(g.net.sent) == Posts(old(g.net.sent))
    ensures answer == No ==> o in {Failed(SessionIdUnreadable), NoSession, NotConnected, Declined}
    ensures answer == Dismissed ==> o in {Failed(SessionIdUnreadable), NoSession, NotConnected, PromptCancelled}
    // the disconnect request carries the stored session id
    ensures o.Disconnected? || (o.Failed? && !o.error.SessionIdUnreadable?) ==>
      answer == Yes && old(CM.Get(g.disk, "session_id")).Success?
      && StoredSessionId(old(CM.Get(g.disk, "session_id")).value).Some?
      && exists i :: |old(g.net.sent)| <= i < |g.net.sent| &&
           g.net.sent[i].target == Api(DisconnectPath(s), Some(DisconnectBody(old(CM.Get(g.disk, "session_id")).value.value)))
    // confirmed, with a session stored and no reading of "not connected": the
    // disconnect request is made and its result decides
    ensures answer == Yes && old(CM.Get(g.disk, "session_id")).Success?
            && StoredSessionId(old(CM.Get(g.disk, "session_id")).value).Some? && reading != Some(false) ==>
      result.Some? && o == Finish(result.value, s)
    // the reading and the result come from the script's replies when neither needs a recovery
    ensures old(CM.Get(g.disk, "session_id")).Success? && StoredSessionId(old(CM.Get(g.disk, "session_id")).value).Some?
            && Plain(g.net.At(old(g.net.served))) ==>
      reading == (if g.net.At(old(g.net.served)).Delivered? then Reading(g.net.At(old(g.net.served)).response, s) else None)
    ensures old(CM.Get(g.disk, "session_id")).Success? && StoredSessionId(old(CM.Get(g.disk, "session_id")).value).Some?
            && answer == Yes && reading != Some(false)
            && Plain(g.net.At(old(g.net.served))) && Plain(g.net.At(old(g.net.served) + 1)) ==>
      result == Some(DirectResult(g.net.At(old(g.net.served) + 1)))
      && |g.net.sent| == |old(g.net.sent)| + 2
      && g.net.sent[|old(g.net.sent)| + 1] ==
        Request(Api(DisconnectPath(s), Some(DisconnectBody(old(CM.Get(g.disk, "session_id")).value.value))),
                BuildHeaders(map[], old(SM.LoadSession(g.disk))))
  {
    reading := None;
    result := None;
    var stored := CM.Get(g.disk, "session_id");
    if stored.Failure? {
      return Failed(SessionIdUnreadable), reading, result;
    }
    var sessionId := StoredSessionId(stored.value);
    if sessionId.None? {
      return NoSession, reading, result;
    }
    var status := CheckConnected(g, sessionId.value, s);
    reading := status;
    if status == Some(false) {
      return NotConnected, reading, result;
    }
    if answer == Dismissed {
      return PromptCancelled, reading, result;
    }
    if answer == No {
      return Declined, reading, result;
    }
    ghost var k := |g.net.sent|;
    var r := g.ApiFetch(DisconnectPath(s), map[], Some(DisconnectBody(sessionId.value)), 0);
    assert g.net.sent[k].target == Api(DisconnectPath(s), Some(DisconnectBody(sessionId.value)));
    result := Some(r);
    o := Finish(r, s);
  }
}
