/** The session record and the operations on `session.json`
    (src/core/sessionManager.ts). */
module SessionManager {
  import opened Wrappers
  import Json
  import opened Storage

  /** The session record. `sessionId` is `None` when the field is `undefined`. */
  datatype SessionData = SessionData(
    accessToken: string,
    refreshToken: string,
    expiresAt: string,
    sessionId: Option<string>)

  /** A record that passes the required-field check of `loadSession`. */
  predicate Complete(s: SessionData) {
    s.accessToken != "" && s.refreshToken != "" && s.expiresAt != ""
  }

  /** `JSON.stringify(sessionData)`: an undefined `session_id` is omitted. */
  function Encode(s: SessionData): (doc: map<string, Json.Value>)
    ensures doc.Keys == {"access_token", "refresh_token", "expires_at"} + (if s.sessionId.Some? then {"session_id"} else {})
  {
    var base := map["access_token" := Json.Str(s.accessToken),
                     "refresh_token" := Json.Str(s.refreshToken),
                     "expires_at" := Json.Str(s.expiresAt)];
    if s.sessionId.Some? then base["session_id" := Json.Str(s.sessionId.value)] else base
  }

  /** `loadSession` on the file's current contents: `None` for an absent or
      unparsable file and for a record missing any required field. */
  function Decode(f: SessionFile): (r: Option<SessionData>)
    ensures r.Some? ==> Complete(r.value)
    ensures f.NoSessionFile? || f.UnparsableSession? ==> r.None?
    ensures f.SessionDoc? ==>
      (r.Some? <==> (Json.TruthyString(f.doc, "access_token").Some?
                     && Json.TruthyString(f.doc, "refresh_token").Some?
                     && Json.TruthyString(f.doc, "expires_at").Some?))
    ensures r.Some? ==> (f.doc["access_token"] == Json.Str(r.value.accessToken)
                         && f.doc["refresh_token"] == Json.Str(r.value.refreshToken)
                         && f.doc["expires_at"] == Json.Str(r.value.expiresAt))
  {
    match f
    case NoSessionFile => None
    case UnparsableSession => None
    case SessionDoc(doc) =>
      var a := Json.TruthyString(doc, "access_token");
      var rt := Json.TruthyString(doc, "refresh_token");
      var e := Json.TruthyString(doc, "expires_at");
      if a.None? || rt.None? || e.None? then None
      else Some(SessionData(a.value, rt.value, e.value, Json.StringField(doc, "session_id")))
  }

  /** The session currently on disk, as `loadSession()` returns it. */
  function LoadSession(d: Disk): (r: Option<SessionData>)
    reads d
    ensures r.Some? ==> Complete(r.value)
  {
    Decode(d.sessionFile)
  }

  /** Round trip: a saved record loads back unchanged exactly when it is complete. */
  lemma SaveLoadRoundTrip(s: SessionData)
    ensures Decode(SessionDoc(Encode(s))) == (if Complete(s) then Some(s) else None)
  {
    var doc := Encode(s);
    assert doc["access_token"] == Json.Str(s.accessToken);
    assert doc["refresh_token"] == Json.Str(s.refreshToken);
    assert doc["expires_at"] == Json.Str(s.expiresAt);
    if s.sessionId.Some? {
      assert doc["session_id"] == Json.Str(s.sessionId.value);
    } else {
      assert "session_id" !in doc;
    }
  }

  /** `saveSession`: writes the record and restricts the file to its owner. */
  method SaveSession(d: Disk, s: SessionData)
    modifies d
    ensures d.sessionFile == SessionDoc(Encode(s))
    ensures d.sessionMode == OwnerReadWrite
    ensures d.configFile == old(d.configFile)
    ensures LoadSession(d) == (if Complete(s) then Some(s) else None)
  {
    d.sessionFile := SessionDoc(Encode(s));
    d.sessionMode := OwnerReadWrite;
    SaveLoadRoundTrip(s);
  }

  /** `clearSession`: removes the file if it exists; idempotent. */
  method ClearSession(d: Disk)
    modifies d
    ensures d.sessionFile == NoSessionFile
    ensures d.sessionMode == old(d.sessionMode) && d.configFile == old(d.configFile)
    ensures LoadSession(d).None?
  {
    if d.sessionFile != NoSessionFile {
      d.sessionFile := NoSessionFile;
    }
  }

  /** `isSessionExpired` as written. `parse` stands for `new Date(...)`
      (`None` is an Invalid Date, whose comparisons are all false) and `now`
      for the current time, both in milliseconds. */
  function IsSessionExpiredAsWritten(s: Option<SessionData>, now: int, parse: string -> Option<int>): (r: bool)
    ensures s.None? ==> r
    ensures s.Some? && s.value.expiresAt == "" ==> r
    ensures s.Some? && s.value.expiresAt != "" ==>
      (r <==> (parse(s.value.expiresAt).Some? && now >= parse(s.value.expiresAt).value))
  {
    if s.None? || s.value.expiresAt == "" then true
    else match parse(s.value.expiresAt)
      case None => false
      case Some(t) => now >= t
  }

  /** An unparsable expiry counts as NOT expired in the code as written. */
  lemma UnparsableExpiryTrusted(s: SessionData, now: int, parse: string -> Option<int>)
    requires s.expiresAt != "" && parse(s.expiresAt).None?
    ensures !IsSessionExpiredAsWritten(Some(s), now, parse)
  {
  }

  /** `isSessionExpired` with the fail-safe reading: an unparsable expiry counts as expired. */
  function IsSessionExpired(s: Option<SessionData>, now: int, parse: string -> Option<int>): (r: bool)
    ensures s.None? ==> r
    ensures s.Some? && s.value.expiresAt == "" ==> r
    ensures s.Some? && s.value.expiresAt != "" ==>
      (r <==> (parse(s.value.expiresAt).None? || now >= parse(s.value.expiresAt).value))
  {
    if s.None? || s.value.expiresAt == "" then true
    else match parse(s.value.expiresAt)
      case None => true
      case Some(t) => now >= t
  }

  /** The two readings differ only on an unparsable, non-empty expiry. */
  lemma ExpiryReadingsAgreeOnParsable(s: Option<SessionData>, now: int, parse: string -> Option<int>)
    ensures IsSessionExpired(s, now, parse) != IsSessionExpiredAsWritten(s, now, parse)
        <==> (s.Some? && s.value.expiresAt != "" && parse(s.value.expiresAt).None?)
  {
  }
}
