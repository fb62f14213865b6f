/** `AuthClient` (src/modules/auth/authClient.ts): the session credentials
    held in memory and in the config file, and a request helper that
    refreshes the token and retries once when the backend answers 401. */
module AuthClient {
  import opened Wrappers
  import Json
  import opened Storage
  import opened Http
  import CM = ConfigManager

  datatype SessionCredentials =
    SessionCredentials(sessionId: string, token: string, refreshToken: string, accountId: string)

  /** The errors `makeAuthenticatedRequest` throws. */
  datatype AuthError =
    | NotAuthenticated        // "Not authenticated. Connect a service first."
    | RefreshFailedReconnect  // "Session expired and refresh failed. Please reconnect a service."
    | RequestRejected         // the `fetch` promise rejected

  predicate AllSet(c: SessionCredentials)
  {
    c.sessionId != "" && c.token != "" && c.refreshToken != "" && c.accountId != ""
  }

  /** The constructor's reading of the loaded config: credentials exactly
      when `session_id`, `token`, `refresh_token` and `account_id` are all
      set, taken from those keys. */
  function CredentialsFrom(config: CM.Config): (r: Option<SessionCredentials>)
    ensures r.Some? <==>
      && Json.TruthyString(config, "session_id").Some? && Json.TruthyString(config, "token").Some?
      && Json.TruthyString(config, "refresh_token").Some? && Json.TruthyString(config, "account_id").Some?
    ensures r.Some? ==>
      && AllSet(r.value)
      && config["session_id"] == Json.Str(r.value.sessionId) && config["token"] == Json.Str(r.value.token)
      && config["refresh_token"] == Json.Str(r.value.refreshToken)
      && config["account_id"] == Json.Str(r.value.accountId)
  {
    match (Json.TruthyString(config, "session_id"), Json.TruthyString(config, "token"),
           Json.TruthyString(config, "refresh_token"), Json.TruthyString(config, "account_id"))
    case (Some(sid), Some(tok), Some(rt), Some(acc)) => Some(SessionCredentials(sid, tok, rt, acc))
    case _ => None
  }

  /** The config after `saveSession` has set its four keys. */
  function WithSession(config: CM.Config, c: SessionCredentials): CM.Config
  {
    config["session_id" := Json.Str(c.sessionId)]["token" := Json.Str(c.token)]
      ["refresh_token" := Json.Str(c.refreshToken)]["account_id" := Json.Str(c.accountId)]
  }

  /** A session saved with four non-empty values is what a client built
      later reads back; with any of them empty it reads no credentials. */
  lemma SavedSessionReloads(config: CM.Config, c: SessionCredentials)
    ensures CredentialsFrom(WithSession(config, c)) == if AllSet(c) then Some(c) else None
  {
    var m := WithSession(config, c);
    assert m["session_id"] == Json.Str(c.sessionId) && m["token"] == Json.Str(c.token);
    assert m["refresh_token"] == Json.Str(c.refreshToken) && m["account_id"] == Json.Str(c.accountId);
  }

  /** The headers of an authenticated request: the caller's headers with
      `Authorization` and `Accept` set last, so they win. */
  function AuthHeaders(caller: map<string, string>, token: string): (h: map<string, string>)
    ensures h.Keys == caller.Keys + {"Authorization", "Accept"}
    ensures h["Authorization"] == "Bearer " + token && h["Accept"] == "application/json"
    ensures forall k :: k in caller && k != "Authorization" && k != "Accept" ==> h[k] == caller[k]
  {
    caller["Authorization" := "Bearer " + token]["Accept" := "application/json"]
  }

  /** A token field of the refresh reply; a field that is not a string reads as "". */
  function TokenField(data: map<string, Json.Value>, key: string): string
  {
    Json.StringField(data, key).GetOr("")
  }

  /** The credentials after a refresh reply: new `token` and `refreshToken`,
      the same session id and account. */
  function Refreshed(c: SessionCredentials, data: map<string, Json.Value>): (r: SessionCredentials)
    ensures r.sessionId == c.sessionId && r.accountId == c.accountId
    ensures r.token == TokenField(data, "token") && r.refreshToken == TokenField(data, "refresh_token")
  {
    c.(token := TokenField(data, "token"), refreshToken := TokenField(data, "refresh_token"))
  }

  /** Whether `refreshToken()` succeeds on this reply and config file: an ok
      JSON reply, and a config file the two writes can read. */
  predicate RefreshWorks(rep: Reply, config: ConfigFile)
  {
    OkJson(rep) && !config.MalformedConfig?
  }

  predicate Is401(rep: Reply)
  {
    rep.Delivered? && rep.response.status == 401
  }

  /** What the caller of `makeAuthenticatedRequest` gets from a fetch. */
  function Received(rep: Reply): Result<Response, AuthError>
  {
    if rep.Delivered? then Success(rep.response) else Failure(RequestRejected)
  }

  class Client {
    const disk: Disk
    const net: Network
    var credentials: Option<SessionCredentials>

    /** `new AuthClient()` given what `ConfigManager.load()` returned. */
    constructor (d: Disk, n: Network, config: CM.Config)
      ensures disk == d && net == n && credentials == CredentialsFrom(config)
    {
      disk := d;
      net := n;
      credentials := CredentialsFrom(config);
    }

    /** `isAuthenticated()`. */
    predicate IsAuthenticated()
      reads this
    {
      credentials.Some?
    }

    /** `getSessionId()`: the in-memory session id when it is set, otherwise
        the config's `session_id` (a config that cannot be read throws). */
    function GetSessionId(): (r: Result<Option<string>, CM.ConfigError>)
      reads this, disk
      ensures credentials.Some? && credentials.value.sessionId != "" ==>
        r == Success(Some(credentials.value.sessionId))
      ensures !(credentials.Some? && credentials.value.sessionId != "") ==>
        && (r.Failure? <==> disk.configFile.MalformedConfig?)
        && (r.Success? && r.value.Some? ==> CM.Get(disk, "session_id") == Success(Some(Json.Str(r.value.value))))
        && (r.Success? && r.value.None? ==>
              CM.Get(disk, "session_id").value.None? || !CM.Get(disk, "session_id").value.value.Str?)
    {
      if credentials.Some? && credentials.value.sessionId != "" then Success(Some(credentials.value.sessionId))
      else
        match CM.Load(disk)
        case Failure(e) => Failure(e)
        case Success(m) => Success(Json.StringField(m, "session_id"))
    }

    /** `refreshToken()`: without credentials, `false` and no request;
        otherwise POST the refresh token; a rejected fetch, a non-ok status
        or a body that is not JSON gives `false` with nothing changed; on
        success the in-memory token pair is replaced and both keys are
        written. A config file that cannot be read makes the first write
        throw after the in-memory update, which the `catch` turns into
        `false`. */
    method RefreshToken() returns (ok: bool)
      modifies this, disk, net
      ensures old(credentials).None? ==>
        !ok && net.sent == old(net.sent) && net.served == old(net.served) && credentials == old(credentials)
      ensures old(credentials).Some? ==>
        net.sent == old(net.sent) + [Request(AuthRefresh(old(credentials).value.refreshToken), JsonHeaders())]
        && net.served == old(net.served) + 1
      ensures old(credentials).Some? && OkJson(old(net.Next())) ==>
        credentials == Some(Refreshed(old(credentials).value, old(net.Next()).response.body.fields))
      ensures !(old(credentials).Some? && OkJson(old(net.Next()))) ==> credentials == old(credentials)
      ensures ok <==> old(credentials).Some? && RefreshWorks(old(net.Next()), old(disk.configFile))
      ensures ok ==>
        var data := old(net.Next()).response.body.fields;
        disk.configFile == ConfigDoc(old(CM.Load(disk)).value
          ["token" := Json.Str(TokenField(data, "token"))]["refresh_token" := Json.Str(TokenField(data, "refresh_token"))])
      ensures !ok ==> disk.configFile == old(disk.configFile)
      ensures disk.sessionFile == old(disk.sessionFile) && disk.sessionMode == old(disk.sessionMode)
    {
      if credentials.None? {
        return false;
      }
      var rep := net.Fetch(Request(AuthRefresh(credentials.value.refreshToken), JsonHeaders()));
      if !OkJson(rep) {
        return false;
      }
      var data := rep.response.body.fields;
      credentials := Some(Refreshed(credentials.value, data));
      var e := CM.Set(disk, "token", Json.Str(TokenField(data, "token")));
      if e.Some? {
        return false;
      }
      // The file was just written, so the second write cannot fail.
      var _ := CM.Set(disk, "refresh_token", Json.Str(TokenField(data, "refresh_token")));
      ok := true;
    }

    /** `makeAuthenticatedRequest(url, options)`: without credentials it
        throws before any request; otherwise it sends the request with the
        bearer token; only a 401 triggers a refresh; a failed refresh throws;
        after a successful refresh the request is sent once more with the
        new token and that response is returned as it is, 401 or not. */
    method MakeAuthenticatedRequest(url: string, headers: map<string, string>) returns (r: Result<Response, AuthError>)
      modifies this, disk, net
      ensures old(credentials).None? ==>
        r == Failure(NotAuthenticated) && net.sent == old(net.sent) && credentials == old(credentials)
        && disk.configFile == old(disk.configFile)
      ensures old(credentials).Some? ==>
        |net.sent| > |old(net.sent)|
        && net.sent[|old(net.sent)|] == Request(Absolute(url), AuthHeaders(headers, old(credentials).value.token))
      ensures old(credentials).Some? && !Is401(old(net.Peek(0))) ==>
        r == Received(old(net.Peek(0))) && |net.sent| == |old(net.sent)| + 1
        && credentials == old(credentials) && disk.configFile == old(disk.configFile)
      ensures old(credentials).Some? && Is401(old(net.Peek(0))) ==>
        |net.sent| >= |old(net.sent)| + 2
        && net.sent[|old(net.sent)| + 1] == Request(AuthRefresh(old(credentials).value.refreshToken), JsonHeaders())
      ensures old(credentials).Some? && Is401(old(net.Peek(0))) && !RefreshWorks(old(net.Peek(1)), old(disk.configFile)) ==>
        r == Failure(RefreshFailedReconnect) && |net.sent| == |old(net.sent)| + 2
      ensures old(credentials).Some? && Is401(old(net.Peek(0))) && RefreshWorks(old(net.Peek(1)), old(disk.configFile)) ==>
        var renewed := Refreshed(old(credentials).value, old(net.Peek(1)).response.body.fields);
        && credentials == Some(renewed)
        && net.sent == old(net.sent) + [net.sent[|old(net.sent)|], net.sent[|old(net.sent)| + 1],
             Request(Absolute(url), AuthHeaders(headers, renewed.token))]
        && r == Received(old(net.Peek(2)))
      ensures net.sent[..|old(net.sent)|] == old(net.sent) && |net.sent| <= |old(net.sent)| + 3
      ensures disk.sessionFile == old(disk.sessionFile)
    {
      if credentials.None? {
        return Failure(NotAuthenticated);
      }
      var rep := net.Fetch(Request(Absolute(url), AuthHeaders(headers, credentials.value.token)));
      if Is401(rep) {
        var refreshed := RefreshToken();
        if !refreshed {
          return Failure(RefreshFailedReconnect);
        }
        rep := net.Fetch(Request(Absolute(url), AuthHeaders(headers, credentials.value.token)));
      }
      r := Received(rep);
    }

    /** `updateSessionId(id)`: write `session_id` (a config file that cannot
        be read throws first), then set the in-memory id, creating
        credentials with empty tokens when there were none. */
    method UpdateSessionId(id: string) returns (e: Option<CM.ConfigError>)
      modifies this, disk
      ensures e.Some? <==> old(disk.configFile).MalformedConfig?
      ensures e.Some? ==> credentials == old(credentials) && disk.configFile == old(disk.configFile)
      ensures e.None? ==>
        && CM.Get(disk, "session_id") == Success(Some(Json.Str(id)))
        && (forall k :: k != "session_id" ==> CM.Get(disk, k) == old(CM.Get(disk, k)))
        && credentials == Some(if old(credentials).Some? then old(credentials).value.(sessionId := id)
                               else SessionCredentials(id, "", "", ""))
        && IsAuthenticated()
      ensures disk.sessionFile == old(disk.sessionFile)
    {
      e := CM.Set(disk, "session_id", Json.Str(id));
      if e.Some? {
        return;
      }
      if credentials.Some? {
        credentials := Some(credentials.value.(sessionId := id));
      } else {
        credentials := Some(SessionCredentials(id, "", "", ""));
      }
    }

    /** `saveSession(...)`: set all four in-memory fields, then write the
        four config keys; a config file that cannot be read makes the first
        write throw, after the in-memory update. */
    method SaveSession(sessionId: string, token: string, refreshToken: string, accountId: string)
      returns (e: Option<CM.ConfigError>)
      modifies this, disk
      ensures credentials == Some(SessionCredentials(sessionId, token, refreshToken, accountId))
      ensures e.Some? <==> old(disk.configFile).MalformedConfig?
      ensures e.Some? ==> disk.configFile == old(disk.configFile)
      ensures e.None? ==> disk.configFile == ConfigDoc(WithSession(old(CM.Load(disk)).value, credentials.value))
      ensures e.None? ==> CredentialsFrom(CM.Load(disk).value) == if AllSet(credentials.value) then credentials else None
      ensures disk.sessionFile == old(disk.sessionFile)
    {
      var c := SessionCredentials(sessionId, token, refreshToken, accountId);
      credentials := Some(c);
      e := CM.Set(disk, "session_id", Json.Str(sessionId));
      if e.Some? {
        return;
      }
      // Once the first write has succeeded the file is readable.
      var _ := CM.Set(disk, "token", Json.Str(token));
      var _ := CM.Set(disk, "refresh_token", Json.Str(refreshToken));
      var _ := CM.Set(disk, "account_id", Json.Str(accountId));
      SavedSessionReloads(old(CM.Load(disk)).value, c);
    }
  }

  /** `new AuthClient()`: `ConfigManager.load()` throws on a config file it
      cannot parse, and then no client is built. */
  method Create(d: Disk, n: Network) returns (r: Result<Client, CM.ConfigError>)
    ensures CM.Load(d).Failure? <==> r.Failure?
    ensures r.Success? ==>
      fresh(r.value) && r.value.disk == d && r.value.net == n
      && r.value.credentials == CredentialsFrom(CM.Load(d).value)
  {
    var loaded := CM.Load(d);
    if loaded.Failure? {
      return Failure(loaded.error);
    }
    var c := new Client(d, n, loaded.value);
    r := Success(c);
  }
}
