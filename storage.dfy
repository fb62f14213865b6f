/** The two per-user files under `~/.kay`: `session.json` (read by the session
    manager) and `config.json` (read by the config manager). The file system
    itself is not modelled; each file is a field of one `Disk` object that the
    operations read and reassign. */
module Storage {
  import Json

  /** `session.json`: absent, present but not a JSON object, or a JSON object. */
  datatype SessionFile =
    | NoSessionFile
    | UnparsableSession
    | SessionDoc(doc: map<string, Json.Value>)

  /** `config.json`: absent, present but not valid JSON, or a JSON object. */
  datatype ConfigFile =
    | NoConfigFile
    | MalformedConfig
    | ConfigDoc(entries: map<string, Json.Value>)

  /** Owner read/write only: the mode 0o600 written after every session save. */
  const OwnerReadWrite: int := 384

  class Disk {
    var sessionFile: SessionFile
    /** Permission bits of `session.json` (meaningful while the file exists). */
    var sessionMode: int
    var configFile: ConfigFile

    constructor (session: SessionFile, mode: int, config: ConfigFile)
      ensures sessionFile == session && sessionMode == mode && configFile == config
    {
      sessionFile := session;
      sessionMode := mode;
      configFile := config;
    }
  }
}
