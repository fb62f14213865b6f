/** `connectionsCommand` (src/modules/auth/commands/connections.ts): one row
    (or one JSON entry) per supported service, in `SUPPORTED_SERVICES`
    order, saying whether the backend reports it connected and for whom.
    The table and colour rendering are not modelled: a grey placeholder is
    the plain text "-", and a status cell is its boolean. */
module Connections {
  import opened Wrappers
  import Json
  import opened Http
  import CM = ConfigManager
  import opened ApiClient
  import opened CommandRegistry
  import opened Services

  /** The placeholder of an empty user cell. */
  const Placeholder := "-"

  /** The two fields of a connection's `user` that the listing shows: the
      non-empty `name` and `email` strings. */
  datatype UserInfo = UserInfo(name: Option<string>, email: Option<string>)

  /** `conn?.user` when truthy, as the fields `formatUserInfo` reads (a user
      that is not an object has neither). */
  function UserOf(conn: Option<Json.Value>): (r: Option<UserInfo>)
    ensures r.Some? <==> conn.Some? && conn.value.Obj? && Json.TruthyField(conn.value.fields, "user")
  {
    if conn.Some? && conn.value.Obj? && Json.TruthyField(conn.value.fields, "user") then
      var user := conn.value.fields["user"];
      if user.Obj? then
        Some(UserInfo(Json.TruthyString(user.fields, "name"), Json.TruthyString(user.fields, "email")))
      else Some(UserInfo(None, None))
    else None
  }

  /** Whether the email is shown: present and different from the name. */
  predicate ShowsEmail(u: UserInfo)
  {
    u.email.Some? && (u.name.None? || u.email.value != u.name.value)
  }

  /** `parts.join(" ")`. */
  function Join(parts: seq<string>): (r: string)
  {
    if parts == [] then "" else if |parts| == 1 then parts[0] else parts[0] + " " + Join(parts[1..])
  }

  lemma JoinShort(parts: seq<string>)
    ensures |parts| == 1 ==> Join(parts) == parts[0]
    ensures |parts| == 2 ==> Join(parts) == parts[0] + " " + parts[1]
  {
    if |parts| == 2 {
      assert parts[1..] == [parts[1]];
    }
  }

  /** `formatUserInfo(user)`: the name, then "(email)" when the email is
      present and is not the name, joined by one space; the placeholder
      when there is no user or neither part applies. */
  function FormatUserInfo(user: Option<UserInfo>): (r: string)
    ensures user.None? ==> r == Placeholder
    ensures user.Some? && user.value.name.Some? && ShowsEmail(user.value) ==>
      r == user.value.name.value + " (" + user.value.email.value + ")"
    ensures user.Some? && user.value.name.Some? && !ShowsEmail(user.value) ==> r == user.value.name.value
    ensures user.Some? && user.value.name.None? && ShowsEmail(user.value) ==> r == "(" + user.value.email.value + ")"
    ensures user.Some? && user.value.name.None? && !ShowsEmail(user.value) ==> r == Placeholder
  {
    match user
    case None => Placeholder
    case Some(u) =>
      var parts := (if u.name.Some? then [u.name.value] else [])
                 + (if ShowsEmail(u) then ["(" + u.email.value + ")"] else []);
      JoinShort(parts);
      if |parts| > 0 then Join(parts) else Placeholder
  }

  /** A name and an email that are the same are shown once. */
  lemma SameNameAndEmailShownOnce(name: string)
    requires name != ""
    ensures FormatUserInfo(Some(UserInfo(Some(name), Some(name)))) == name
  {
  }

  /** One table row: display name, connected, user cell. */
  datatype Row = Row(displayName: string, connected: bool, user: string)

  /** One entry of the `--json` listing; `user` and `metadata` are copied
      from the connection (`None` is `undefined`, which `JSON.stringify`
      leaves out). */
  datatype Entry = Entry(service: ServiceName, displayName: string, connected: bool,
                         user: Option<Json.Value>, metadata: Option<Json.Value>)

  /** `conn?.<key>`. */
  function Member(conn: Option<Json.Value>, key: string): Option<Json.Value>
  {
    if conn.Some? && conn.value.Obj? then Json.Field(conn.value.fields, key) else None
  }

  /** The rows shown when there is no session: every service not connected. */
  function NoSessionRows(): (rows: seq<Row>)
    ensures |rows| == |Supported|
    ensures forall i :: 0 <= i < |rows| ==>
      rows[i] == Row(DisplayName(Supported[i]), false, Placeholder)
  {
    seq(|Supported|, i requires 0 <= i < |Supported| => Row(DisplayName(Supported[i]), false, Placeholder))
  }

  /** The table rows for the backend's `connections` value, or `None` when
      indexing it throws. */
  function Rows(data: map<string, Json.Value>): (rows: Option<seq<Row>>)
    ensures rows.Some? <==> EntryOf(data, Kyg).Some?
    ensures rows.Some? ==> |rows.value| == |Supported|
    ensures rows.Some? ==> forall i :: 0 <= i < |Supported| ==>
      EntryOf(data, Supported[i]).Some? &&
      rows.value[i] == Row(DisplayName(Supported[i]),
                           ConnectedFlag(EntryOf(data, Supported[i]).value),
                           FormatUserInfo(UserOf(EntryOf(data, Supported[i]).value)))
  {
    if EntryOf(data, Kyg).None? then None
    else
      Some(seq(|Supported|, i requires 0 <= i < |Supported| =>
        var conn := EntryOf(data, Supported[i]).value;
        Row(DisplayName(Supported[i]), ConnectedFlag(conn), FormatUserInfo(UserOf(conn)))))
  }

  /** The `--json` entries for the backend's `connections` value, or `None`
      when indexing it throws. */
  function Entries(data: map<string, Json.Value>): (entries: Option<seq<Entry>>)
    ensures entries.Some? <==> EntryOf(data, Kyg).Some?
    ensures entries.Some? ==> |entries.value| == |Supported|
    ensures entries.Some? ==> forall i :: 0 <= i < |Supported| ==>
      EntryOf(data, Supported[i]).Some? &&
      entries.value[i] == Entry(Supported[i], DisplayName(Supported[i]),
                                ConnectedFlag(EntryOf(data, Supported[i]).value),
                                Member(EntryOf(data, Supported[i]).value, "user"),
                                Member(EntryOf(data, Supported[i]).value, "metadata"))
  {
    if EntryOf(data, Kyg).None? then None
    else
      Some(seq(|Supported|, i requires 0 <= i < |Supported| =>
        var conn := EntryOf(data, Supported[i]).value;
        Entry(Supported[i], DisplayName(Supported[i]), ConnectedFlag(conn),
              Member(conn, "user"), Member(conn, "metadata"))))
  }

  /** A service the backend does not list is shown as not connected, with
      no user, in both forms of the listing. */
  lemma MissingEntryNotConnected(data: map<string, Json.Value>, i: nat)
    requires 0 <= i < |Supported|
    requires "connections" in data && data["connections"].Obj?
    requires Value(Supported[i]) !in data["connections"].fields
    ensures Rows(data).Some? && Rows(data).value[i] == Row(DisplayName(Supported[i]), false, Placeholder)
    ensures Entries(data).Some? && !Entries(data).value[i].connected
  {
  }

  /** `options.json === true || options.json === "true"`. */
  predicate JsonRequested(options: map<string, OptionValue>)
  {
    "json" in options && (options["json"] == Switch || options["json"] == Text("true"))
  }

  datatype ListError =
    | SessionIdUnreadable                          // `ConfigManager.get` threw
    | RequestFailed(error: FetchError)             // `apiFetch` threw
    | StatusFailed(status: int, statusText: string) // "Failed to fetch connection status: ..."
    | ReplyNotJson                                 // `response.json()` rejected
    | NoConnections                                // `connections[service]` threw

  datatype Listing = Table(rows: seq<Row>) | JsonList(entries: seq<Entry>) | Failed(error: ListError)

  /** What the command shows for the status request's result. */
  function Listed(r: Result<Response, FetchError>, asJson: bool): (l: Listing)
    ensures r.Failure? ==> l == Failed(RequestFailed(r.error))
    ensures r.Success? && !r.value.Ok() ==> l == Failed(StatusFailed(r.value.status, r.value.statusText))
    ensures r.Success? && r.value.Ok() && r.value.body.JsonObject? ==>
      var data := r.value.body.fields;
      && (Rows(data).None? ==> l == Failed(NoConnections))
      && (Rows(data).Some? && asJson ==> l == JsonList(Entries(data).value))
      && (Rows(data).Some? && !asJson ==> l == Table(Rows(data).value))
  {
    match r
    case Failure(e) => Failed(RequestFailed(e))
    case Success(resp) =>
      if !resp.Ok() then Failed(StatusFailed(resp.status, resp.statusText))
      else
        match resp.body
        case NotJson => Failed(ReplyNotJson)
        case JsonObject(data) =>
          if Rows(data).None? then Failed(NoConnections)
          else if asJson then JsonList(Entries(data).value)
          else Table(Rows(data).value)
  }

  /** `connectionsCommand`. */
  method ConnectionsCommand(g: Gateway, options: map<string, OptionValue>) returns (l: Listing)
    requires g.Valid()
    modifies g, g.disk, g.net
    ensures g.Valid() && (old(g.cell).Idle? ==> g.cell.Idle?)
    ensures old(g.net.sent) <= g.net.sent
    ensures Posts(g.net.sent) == Posts(old(g.net.sent))
    ensures old(CM.Get(g.disk, "session_id")).Failure? ==>
      l == Failed(SessionIdUnreadable) && g.net.sent == old(g.net.sent)
    // with no session every service is listed as not connected, as a table, and nothing is sent
    ensures old(CM.Get(g.disk, "session_id")).Success? && StoredSessionId(old(CM.Get(g.disk, "session_id")).value).None? ==>
      l == Table(NoSessionRows()) && g.net.sent == old(g.net.sent)
    // otherwise the status of the stored session is requested, and a plain reply is listed
    ensures old(CM.Get(g.disk, "session_id")).Success? && StoredSessionId(old(CM.Get(g.disk, "session_id")).value).Some? ==>
      && |old(g.net.sent)| < |g.net.sent|
      && g.net.sent[|old(g.net.sent)|].target == Api(StatusPath(old(CM.Get(g.disk, "session_id")).value.value), None)
      && (old(g.net.Next()).Delivered? && !IsAuthStatus(old(g.net.Next()).response.status) ==>
            l == Listed(Success(old(g.net.Next()).response), JsonRequested(options)))
  {
    var stored := CM.Get(g.disk, "session_id");
    if stored.Failure? {
      return Failed(SessionIdUnreadable);
    }
    var sessionId := StoredSessionId(stored.value);
    if sessionId.None? {
      return Table(NoSessionRows());
    }
    var r := g.ApiFetch(StatusPath(sessionId.value), map[], None, 0);
    l := Listed(r, JsonRequested(options));
  }
}
