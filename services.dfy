/** The services a session can connect (src/modules/auth/types.ts), the
    service-flag handling that src/modules/auth/commands/connect.ts and
    src/modules/auth/commands/disconnect.ts each define identically
    (`validateService`, `getServiceDisplayName`, `SUPPORTED_SERVICES`), and
    the reading of the backend's connections status that those two and
    src/modules/auth/commands/connections.ts share. */
module Services {
  import opened Wrappers
  import Json
  import opened Http
  import opened ApiClient
  import opened CommandRegistry

  /** `ServiceName`. */
  datatype ServiceName = Kyg | Jira | Confluence | Bitbucket

  /** The enum's string values. */
  function Value(s: ServiceName): string
  {
    match s
    case Kyg => "kyg"
    case Jira => "jira"
    case Confluence => "confluence"
    case Bitbucket => "bitbucket"
  }

  lemma ValuesDistinct(a: ServiceName, b: ServiceName)
    ensures Value(a) == Value(b) ==> a == b
  {
  }

  /** `SUPPORTED_SERVICES`, in the order the commands list them. */
  const Supported: seq<ServiceName> := [Kyg, Jira, Confluence, Bitbucket]

  lemma SupportedIsEveryServiceOnce()
    ensures forall s :: s in Supported
    ensures forall i, j :: 0 <= i < j < |Supported| ==> Supported[i] != Supported[j]
  {
    forall s ensures s in Supported {
      match s
      case Kyg => assert Supported[0] == s;
      case Jira => assert Supported[1] == s;
      case Confluence => assert Supported[2] == s;
      case Bitbucket => assert Supported[3] == s;
    }
  }

  /** `getServiceDisplayName`: the fixed label of each service (the
      `|| service` fallback is never taken, no label being empty). */
  function DisplayName(s: ServiceName): (r: string)
    ensures r != ""
  {
    match s
    case Kyg => "KYG Trade"
    case Jira => "Jira"
    case Confluence => "Confluence"
    case Bitbucket => "Bitbucket"
  }

  lemma DisplayNamesDistinct(a: ServiceName, b: ServiceName)
    ensures DisplayName(a) == DisplayName(b) ==> a == b
  {
  }

  /** `String.prototype.toLowerCase` on one character, for ASCII letters. */
  function LowerChar(c: char): char
  {
    if 'A' <= c <= 'Z' then (c as int + 32) as char else c
  }

  /** `toLowerCase()` with ASCII case mapping. */
  function Lower(s: string): (r: string)
    ensures |r| == |s|
    ensures forall i :: 0 <= i < |s| ==> r[i] == LowerChar(s[i])
  {
    seq(|s|, i requires 0 <= i < |s| => LowerChar(s[i]))
  }

  /** `Object.values(ServiceName).find((s) => s === normalized)`. */
  function Named(normalized: string): (r: Option<ServiceName>)
    ensures r.Some? <==> exists s :: Value(s) == normalized
    ensures r.Some? ==> Value(r.value) == normalized
  {
    if normalized == "kyg" then assert Value(Kyg) == normalized; Some(Kyg)
    else if normalized == "jira" then assert Value(Jira) == normalized; Some(Jira)
    else if normalized == "confluence" then assert Value(Confluence) == normalized; Some(Confluence)
    else if normalized == "bitbucket" then assert Value(Bitbucket) == normalized; Some(Bitbucket)
    else
      assert forall s :: Value(s) != normalized;
      None
  }

  /** `options.s || options.service`: the short flag when it is truthy,
      otherwise whatever the long flag holds. */
  function ServiceFlag(options: map<string, OptionValue>): (r: Option<OptionValue>)
    ensures "s" in options && options["s"] != Text("") ==> r == Some(options["s"])
    ensures !("s" in options && options["s"] != Text("")) ==>
      r == (if "service" in options then Some(options["service"]) else None)
  {
    if "s" in options && options["s"] != Text("") then Some(options["s"])
    else if "service" in options then Some(options["service"])
    else None
  }

  /** `validateService`: `null` for a missing, empty or valueless flag;
      otherwise the service whose value is the lower-cased text, when there
      is one and it is supported. */
  function ValidateService(flag: Option<OptionValue>): (r: Option<ServiceName>)
    ensures (flag.None? || flag.value == Switch || flag.value == Text("")) ==> r.None?
    ensures r.Some? <==> flag.Some? && flag.value.Text? && exists s :: Value(s) == Lower(flag.value.value)
    ensures r.Some? ==> Value(r.value) == Lower(flag.value.value) && r.value in Supported
  {
    match flag
    case None => None
    case Some(Switch) => None
    case Some(Text(text)) =>
      if text == "" then None
      else
        var found := Named(Lower(text));
        if found.Some? && found.value in Supported then found else None
  }

  /** Validation ignores case: every spelling that lower-cases to a
      service's value selects that service, and only it. */
  lemma ValidateIgnoresCase(text: string, s: ServiceName)
    ensures ValidateService(Some(Text(text))) == Some(s) <==> Lower(text) == Value(s)
  {
    if Lower(text) == Value(s) {
      assert text != "";
    }
  }

  /** `service.charAt(0).toUpperCase() + service.slice(1)`, on the enum values. */
  function Capitalized(s: ServiceName): (r: string)
    ensures |r| == |Value(s)| && r[1..] == Value(s)[1..]
    ensures 'A' <= r[0] <= 'Z' && LowerChar(r[0]) == Value(s)[0]
  {
    var v := Value(s);
    [(v[0] as int - 32) as char] + v[1..]
  }

  /** `ConfigManager.get("session_id") as string | null` where the commands
      test it for truthiness: the stored value when it is truthy. */
  function StoredSessionId(stored: Option<Json.Value>): (r: Option<Json.Value>)
    ensures r.Some? <==> stored.Some? && Json.Truthy(stored.value)
    ensures r.Some? ==> r.value == stored.value
  {
    if stored.Some? && Json.Truthy(stored.value) then stored else None
  }

  /** `/connections?session_id=${sessionId}`. */
  function StatusPath(sessionId: Json.Value): Path
  {
    Path("/connections", [("session_id", Json.ToText(sessionId))])
  }

  /** `statusData.connections[service]`: `None` when the lookup throws, that is
      when `connections` is `undefined` or `null`; otherwise the service's
      entry, itself `None` when there is none (a string, number or boolean
      `connections` has no property named after a service). */
  function EntryOf(data: map<string, Json.Value>, s: ServiceName): (r: Option<Option<Json.Value>>)
    ensures r.None? <==> "connections" !in data || data["connections"] == Json.Null
    ensures r.Some? && r.value.Some? <==>
      "connections" in data && data["connections"].Obj? && Value(s) in data["connections"].fields
    ensures r.Some? && r.value.Some? ==> r.value.value == data["connections"].fields[Value(s)]
  {
    if "connections" !in data || data["connections"] == Json.Null then None
    else
      match data["connections"]
      case Obj(entries) => Some(if Value(s) in entries then Some(entries[Value(s)]) else None)
      case _ => Some(None)
  }

  /** `conn?.connected === true`: only a boolean `true` counts. */
  predicate ConnectedFlag(conn: Option<Json.Value>)
  {
    conn.Some? && conn.value.Obj? && "connected" in conn.value.fields
    && conn.value.fields["connected"] == Json.Bool(true)
  }

  /** The guarded status check of connect and disconnect on one reply: what
      an ok reply says about the service's connection, or `None` when the
      reply is not ok or reading it throws (a body that is not JSON, no
      `connections` object). */
  function Reading(resp: Response, s: ServiceName): (r: Option<bool>)
    ensures r.Some? <==> resp.Ok() && resp.body.JsonObject? && EntryOf(resp.body.fields, s).Some?
    ensures r.Some? ==> (r.value <==> ConnectedFlag(EntryOf(resp.body.fields, s).value))
  {
    if !resp.Ok() then None
    else
      match resp.body
      case NotJson => None
      case JsonObject(data) =>
        match EntryOf(data, s)
        case None => None
        case Some(conn) => Some(ConnectedFlag(conn))
  }

  /** The connections-status check that connect and disconnect make before
      acting: one `apiFetch` of the status path, every error of which is
      swallowed (`None`). */
  method CheckConnected(g: Gateway, sessionId: Json.Value, s: ServiceName) returns (reading: Option<bool>)
    requires g.Valid()
    modifies g, g.disk, g.net
    ensures g.Valid() && (old(g.cell).Idle? ==> g.cell.Idle?)
    ensures |old(g.net.sent)| < |g.net.sent| && old(g.net.sent) <= g.net.sent
    ensures g.net.sent[|old(g.net.sent)|].target == Api(StatusPath(sessionId), None)
    ensures ApiCalls(g.net.sent) <= ApiCalls(old(g.net.sent)) + 2
    ensures Posts(g.net.sent) == Posts(old(g.net.sent))
    ensures old(g.net.Next()).NetworkFailure? ==> reading.None?
    ensures old(g.net.Next()).Delivered? && !IsAuthStatus(old(g.net.Next()).response.status) ==>
      reading == Reading(old(g.net.Next()).response, s)
    // a reply passed through is the only one taken, and leaves the disk as it was
    ensures Plain(g.net.At(old(g.net.served))) ==>
      g.net.served == old(g.net.served) + 1 && |g.net.sent| == |old(g.net.sent)| + 1
      && g.disk.sessionFile == old(g.disk.sessionFile) && g.disk.configFile == old(g.disk.configFile)
  {
    var r := g.ApiFetch(StatusPath(sessionId), map[], None, 0);
    reading := if r.Success? then Reading(r.value, s) else None;
  }

  /** For every service but KYG Trade, capitalizing the value gives the
      display name. */
  lemma CapitalizedIsDisplayName(s: ServiceName)
    requires s != Kyg
    ensures Capitalized(s) == DisplayName(s)
  {
    var v := Value(s);
    assert Capitalized(s) == [(v[0] as int - 32) as char] + v[1..];
    match s
    case Jira => assert v[0] == 'j' && v[1..] == "ira";
    case Confluence => assert v[0] == 'c' && v[1..] == "onfluence";
    case Bitbucket => assert v[0] == 'b' && v[1..] == "itbucket";
  }
}
