/** `JiraClient` (src/modules/auth/jiraClient.ts): Jira credentials kept in
    memory and under the config key `jira`, the choice between a Basic and
    a Bearer authorization header, and the guards of `getMyself`. */
module JiraClient {
  import opened Wrappers
  import Json
  import opened Storage
  import opened Http
  import CM = ConfigManager

  /** `authType`: the two values the client writes, and anything else a
      stored object may hold. */
  datatype AuthType = BasicAuth | OAuth | OtherAuth

  /** `JiraCredentials`; an optional field is `None` when it is `undefined`. */
  datatype JiraCredentials = JiraCredentials(
    accessToken: Option<string>,
    email: Option<string>,
    apiToken: Option<string>,
    refreshToken: Option<string>,
    baseUrl: string,
    expiresAt: Option<int>,
    authType: AuthType)

  /** The errors the client throws. */
  datatype JiraError =
    | NotLoggedIn                          // "Not authenticated. Run 'kay login' first."
    | InvalidCredentials                   // "Invalid credentials"
    | Reauthenticate                       // "Invalid or expired credentials. Run 'kay login' to re-authenticate."
    | RequestFailed(status: int, statusText: string)
    | RequestRejected                      // the `fetch` promise rejected
    | BodyNotJson                          // `response.json()` rejected

  const ConfigKey: string := "jira"

  /** An optional string field is truthy. */
  predicate Set(o: Option<string>)
  {
    o.Some? && o.value != ""
  }

  /** The constructor's test: a base URL, and an access token or both an
      email and an API token. */
  predicate Acceptable(c: JiraCredentials)
  {
    c.baseUrl != "" && (Set(c.accessToken) || (Set(c.email) && Set(c.apiToken)))
  }

  /** The fields of a stored `jira` object, read as the client uses them. */
  function ReadCredentials(o: map<string, Json.Value>): JiraCredentials
  {
    JiraCredentials(
      Json.StringField(o, "accessToken"),
      Json.StringField(o, "email"),
      Json.StringField(o, "apiToken"),
      Json.StringField(o, "refreshToken"),
      Json.StringField(o, "baseUrl").GetOr(""),
      if "expiresAt" in o && o["expiresAt"].Num? then Some(o["expiresAt"].n) else None,
      if Json.Field(o, "authType") == Some(Json.Str("basic")) then BasicAuth
      else if Json.Field(o, "authType") == Some(Json.Str("oauth")) then OAuth
      else OtherAuth)
  }

  /** `new JiraClient()` on the value stored under `jira`: the stored object
      when it passes the constructor's test, no credentials otherwise. */
  function Decode(stored: Option<Json.Value>): (r: Option<JiraCredentials>)
    ensures r.Some? <==> stored.Some? && stored.value.Obj? && Acceptable(ReadCredentials(stored.value.fields))
    ensures r.Some? ==> r.value == ReadCredentials(stored.value.fields)
  {
    match stored
    case Some(Obj(o)) => if Acceptable(ReadCredentials(o)) then Some(ReadCredentials(o)) else None
    case _ => None
  }

  /** `{ ...m, [k]: v }`, where an `undefined` value is left out. */
  function PutString(m: map<string, Json.Value>, k: string, v: Option<string>): map<string, Json.Value>
  {
    if v.Some? then m[k := Json.Str(v.value)] else m
  }

  /** The object `ConfigManager.set("jira", credentials)` stores:
      `JSON.stringify` drops the fields that are `undefined`. */
  function Encode(c: JiraCredentials): (o: map<string, Json.Value>)
    ensures "baseUrl" in o && o["baseUrl"] == Json.Str(c.baseUrl)
    ensures "accessToken" in o <==> c.accessToken.Some?
    ensures "expiresAt" in o <==> c.expiresAt.Some?
  {
    var m := PutString(PutString(PutString(PutString(
      map["baseUrl" := Json.Str(c.baseUrl)],
      "accessToken", c.accessToken), "email", c.email), "apiToken", c.apiToken), "refreshToken", c.refreshToken);
    var m := if c.expiresAt.Some? then m["expiresAt" := Json.Num(c.expiresAt.value)] else m;
    match c.authType
    case BasicAuth => m["authType" := Json.Str("basic")]
    case OAuth => m["authType" := Json.Str("oauth")]
    case OtherAuth => m
  }

  /** Stored credentials read back as they were written. */
  lemma EncodeRoundTrip(c: JiraCredentials)
    ensures ReadCredentials(Encode(c)) == c
  {
    EncodedTokens(c);
    EncodedIdentity(c);
  }

  /** The token fields of the stored object. */
  lemma EncodedTokens(c: JiraCredentials)
    ensures Json.StringField(Encode(c), "accessToken") == c.accessToken
    ensures Json.StringField(Encode(c), "refreshToken") == c.refreshToken
  {
  }

  /** The identity fields of the stored object. */
  lemma EncodedIdentity(c: JiraCredentials)
    ensures Json.StringField(Encode(c), "email") == c.email
    ensures Json.StringField(Encode(c), "apiToken") == c.apiToken
  {
  }

  /** A client built after credentials were saved holds them exactly when
      they pass the constructor's test. */
  lemma SavedCredentialsReload(c: JiraCredentials)
    ensures Decode(Some(Json.Obj(Encode(c)))) == if Acceptable(c) then Some(c) else None
  {
    EncodeRoundTrip(c);
  }

  /** `getAuthHeader()` on the credentials held. */
  function AuthHeader(creds: Option<JiraCredentials>): (r: Result<Authorization, JiraError>)
    ensures creds.None? ==> r == Failure(NotLoggedIn)
    ensures creds.Some? ==>
      var c := creds.value;
      && (c.authType == BasicAuth && Set(c.email) && Set(c.apiToken) ==> r == Success(Basic(c.email.value, c.apiToken.value)))
      && (!(c.authType == BasicAuth && Set(c.email) && Set(c.apiToken)) && Set(c.accessToken) ==>
            r == Success(Bearer(c.accessToken.value)))
      && (!(c.authType == BasicAuth && Set(c.email) && Set(c.apiToken)) && !Set(c.accessToken) ==>
            r == Failure(InvalidCredentials))
  {
    match creds
    case None => Failure(NotLoggedIn)
    case Some(c) =>
      if c.authType == BasicAuth && Set(c.email) && Set(c.apiToken) then Success(Basic(c.email.value, c.apiToken.value))
      else if Set(c.accessToken) then Success(Bearer(c.accessToken.value))
      else Failure(InvalidCredentials)
  }

  /** Credentials the constructor accepts fail `getAuthHeader` exactly when
      they have no access token and are not marked Basic: an email and API
      token alone pass the constructor but yield no header. */
  lemma AcceptedCredentialsAuthorize(c: JiraCredentials)
    requires Acceptable(c)
    ensures AuthHeader(Some(c)).Failure? <==> !Set(c.accessToken) && c.authType != BasicAuth
    ensures AuthHeader(Some(c)).Failure? ==> AuthHeader(Some(c)).error == InvalidCredentials
  {
  }

  /** `expiresIn ? Date.now() + expiresIn * 1000 : undefined`. */
  function ExpiresAt(now: int, expiresIn: Option<int>): (r: Option<int>)
    ensures r.Some? <==> expiresIn.Some? && expiresIn.value != 0
    ensures r.Some? ==> r.value - now == 1000 * expiresIn.value
  {
    if expiresIn.Some? && expiresIn.value != 0 then Some(now + expiresIn.value * 1000) else None
  }

  class Client {
    const disk: Disk
    const net: Network
    var credentials: Option<JiraCredentials>

    /** `new JiraClient()` given what `ConfigManager.get("jira")` returned. */
    constructor (d: Disk, n: Network, stored: Option<Json.Value>)
      ensures disk == d && net == n && credentials == Decode(stored)
    {
      disk := d;
      net := n;
      credentials := Decode(stored);
    }

    /** `isAuthenticated()`: without credentials there is no base URL and
        `getMyself()` throws "Not logged in". */
    predicate IsAuthenticated()
      reads this
      ensures !IsAuthenticated() ==> AuthHeader(credentials) == Failure(NotLoggedIn) && GetBaseUrl().None?
    {
      credentials.Some?
    }

    /** `getBaseUrl()`: `credentials?.baseUrl || null`. */
    function GetBaseUrl(): (r: Option<string>)
      reads this
      ensures r.Some? <==> credentials.Some? && credentials.value.baseUrl != ""
      ensures r.Some? ==> r.value == credentials.value.baseUrl
    {
      if credentials.Some? && credentials.value.baseUrl != "" then Some(credentials.value.baseUrl) else None
    }

    /** Writing `jira`: the object as stored, or the config error thrown. */
    method Store(c: JiraCredentials) returns (e: Option<CM.ConfigError>)
      modifies disk
      ensures e.Some? <==> old(disk.configFile).MalformedConfig?
      ensures e.Some? ==> disk.configFile == old(disk.configFile)
      ensures e.None? ==> CM.Get(disk, ConfigKey) == Success(Some(Json.Obj(Encode(c))))
      ensures e.None? ==> forall k :: k != ConfigKey ==> CM.Get(disk, k) == old(CM.Get(disk, k))
      ensures e.None? ==> Decode(CM.Get(disk, ConfigKey).value) == if Acceptable(c) then Some(c) else None
      ensures disk.sessionFile == old(disk.sessionFile)
    {
      e := CM.Set(disk, ConfigKey, Json.Obj(Encode(c)));
      SavedCredentialsReload(c);
    }

    /** `saveCredentials(accessToken, baseUrl, refreshToken?, expiresIn?)`:
        OAuth credentials with an expiry only when `expiresIn` is truthy,
        set in memory and then written (a config file that cannot be read
        throws at the write). */
    method SaveCredentials(accessToken: string, baseUrl: string, refreshToken: Option<string>,
                           expiresIn: Option<int>, now: int) returns (e: Option<CM.ConfigError>)
      modifies this, disk
      ensures credentials == Some(JiraCredentials(Some(accessToken), None, None, refreshToken, baseUrl,
                                                  ExpiresAt(now, expiresIn), OAuth))
      ensures e.Some? <==> old(disk.configFile).MalformedConfig?
      ensures e.Some? ==> disk.configFile == old(disk.configFile)
      ensures e.None? ==> CM.Get(disk, ConfigKey) == Success(Some(Json.Obj(Encode(credentials.value))))
      ensures e.None? ==> forall k :: k != ConfigKey ==> CM.Get(disk, k) == old(CM.Get(disk, k))
      ensures e.None? ==>
        Decode(CM.Get(disk, ConfigKey).value) == if accessToken != "" && baseUrl != "" then credentials else None
      ensures AuthHeader(credentials) == if accessToken != "" then Success(Bearer(accessToken)) else Failure(InvalidCredentials)
      ensures disk.sessionFile == old(disk.sessionFile)
    {
      credentials := Some(JiraCredentials(Some(accessToken), None, None, refreshToken, baseUrl,
                                          ExpiresAt(now, expiresIn), OAuth));
      e := Store(credentials.value);
    }

    /** `saveCredentialsWithBasicAuth(email, apiToken, baseUrl)`: Basic
        credentials with no access token, set in memory and then written. */
    method SaveCredentialsWithBasicAuth(email: string, apiToken: string, baseUrl: string)
      returns (e: Option<CM.ConfigError>)
      modifies this, disk
      ensures credentials == Some(JiraCredentials(None, Some(email), Some(apiToken), None, baseUrl, None, BasicAuth))
      ensures e.Some? <==> old(disk.configFile).MalformedConfig?
      ensures e.Some? ==> disk.configFile == old(disk.configFile)
      ensures e.None? ==> CM.Get(disk, ConfigKey) == Success(Some(Json.Obj(Encode(credentials.value))))
      ensures e.None? ==> forall k :: k != ConfigKey ==> CM.Get(disk, k) == old(CM.Get(disk, k))
      ensures e.None? ==>
        Decode(CM.Get(disk, ConfigKey).value) == if email != "" && apiToken != "" && baseUrl != "" then credentials else None
      ensures AuthHeader(credentials) == if email != "" && apiToken != "" then Success(Basic(email, apiToken)) else Failure(InvalidCredentials)
      ensures disk.sessionFile == old(disk.sessionFile)
    {
      credentials := Some(JiraCredentials(None, Some(email), Some(apiToken), None, baseUrl, None, BasicAuth));
      e := Store(credentials.value);
    }

    /** `clearCredentials()`: forget the credentials, then delete `jira`. */
    method ClearCredentials() returns (e: Option<CM.ConfigError>)
      modifies this, disk
      ensures credentials == None && !IsAuthenticated() && GetBaseUrl() == None
      ensures e.Some? <==> old(disk.configFile).MalformedConfig?
      ensures e.Some? ==> disk.configFile == old(disk.configFile)
      ensures e.None? ==> CM.Get(disk, ConfigKey) == Success(None) && Decode(None) == None
      ensures e.None? ==> forall k :: k != ConfigKey ==> CM.Get(disk, k) == old(CM.Get(disk, k))
      ensures disk.sessionFile == old(disk.sessionFile)
    {
      credentials := None;
      e := CM.Delete(disk, ConfigKey);
    }

    /** `getMyself()`: without credentials, or with credentials that yield no
        header, it throws before any request; otherwise one GET to the
        base URL's `/rest/api/3/myself`; a 401 asks to re-authenticate,
        another non-ok status reports it; an ok reply gives its JSON body. */
    method GetMyself() returns (r: Result<map<string, Json.Value>, JiraError>)
      modifies net
      ensures AuthHeader(credentials).Failure? ==>
        r == Failure(AuthHeader(credentials).error) && net.sent == old(net.sent) && net.served == old(net.served)
      ensures AuthHeader(credentials).Success? ==>
        net.sent == old(net.sent) + [Request(JiraMyself(credentials.value.baseUrl, AuthHeader(credentials).value),
                                             map["Accept" := "application/json"])]
      ensures AuthHeader(credentials).Success? ==>
        var rep := old(net.Next());
        && (rep.NetworkFailure? ==> r == Failure(RequestRejected))
        && (rep.Delivered? && rep.response.status == 401 ==> r == Failure(Reauthenticate))
        && (rep.Delivered? && !rep.response.Ok() && rep.response.status != 401 ==>
              r == Failure(RequestFailed(rep.response.status, rep.response.statusText)))
        && (rep.Delivered? && rep.response.Ok() ==>
              r == if rep.response.body.JsonObject? then Success(rep.response.body.fields) else Failure(BodyNotJson))
    {
      var header := AuthHeader(credentials);
      if header.Failure? {
        return Failure(header.error);
      }
      var rep := net.Fetch(Request(JiraMyself(credentials.value.baseUrl, header.value), map["Accept" := "application/json"]));
      if rep.NetworkFailure? {
        return Failure(RequestRejected);
      }
      var res := rep.response;
      if !res.Ok() {
        if res.status == 401 {
          return Failure(Reauthenticate);
        }
        return Failure(RequestFailed(res.status, res.statusText));
      }
      if res.body.NotJson? {
        return Failure(BodyNotJson);
      }
      r := Success(res.body.fields);
    }
  }

  /** `new JiraClient()`: `ConfigManager.get("jira")` throws on a config file
      it cannot parse, and then no client is built. */
  method Create(d: Disk, n: Network) returns (r: Result<Client, CM.ConfigError>)
    ensures CM.Get(d, ConfigKey).Failure? <==> r.Failure?
    ensures r.Success? ==>
      fresh(r.value) && r.value.disk == d && r.value.net == n
      && r.value.credentials == Decode(CM.Get(d, ConfigKey).value)
  {
    var stored := CM.Get(d, ConfigKey);
    if stored.Failure? {
      return Failure(stored.error);
    }
    var c := new Client(d, n, stored.value);
    r := Success(c);
  }
}
