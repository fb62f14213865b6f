/** `ConfigManager` (src/core/configManager.ts): one persisted string-keyed map,
    read and rewritten as a whole by every `get`/`set`/`delete`. A malformed
    file makes `JSON.parse` throw; that error propagates to the caller. */
module ConfigManager {
  import opened Wrappers
  import Json
  import opened Storage

  type Config = map<string, Json.Value>

  /** The `SyntaxError` thrown by `JSON.parse` on a malformed `config.json`. */
  datatype ConfigError = ConfigSyntaxError

  /** `load()` on the file's contents. */
  function Parse(f: ConfigFile): (r: Result<Config, ConfigError>)
    ensures f.NoConfigFile? ==> r == Success(map[])
    ensures f.MalformedConfig? ==> r == Failure(ConfigSyntaxError)
    ensures f.ConfigDoc? ==> r == Success(f.entries)
  {
    match f
    case NoConfigFile => Success(map[])
    case MalformedConfig => Failure(ConfigSyntaxError)
    case ConfigDoc(m) => Success(m)
  }

  /** `ConfigManager.load()`. */
  function Load(d: Disk): (r: Result<Config, ConfigError>)
    reads d
    ensures r.Failure? <==> d.configFile.MalformedConfig?
    ensures d.configFile.ConfigDoc? ==> r == Success(d.configFile.entries)
    ensures d.configFile.NoConfigFile? ==> r == Success(map[])
  {
    Parse(d.configFile)
  }

  /** `ConfigManager.get(key)`: the stored value, `None` for `undefined`. */
  function Get(d: Disk, key: string): (r: Result<Option<Json.Value>, ConfigError>)
    reads d
    ensures r.Failure? <==> d.configFile.MalformedConfig?
    ensures d.configFile.NoConfigFile? ==> r == Success(None)
    ensures d.configFile.ConfigDoc? ==>
      r == Success(if key in d.configFile.entries then Some(d.configFile.entries[key]) else None)
  {
    match Load(d)
    case Failure(e) => Failure(e)
    case Success(m) => Success(Json.Field(m, key))
  }

  /** `ConfigManager.save(config)`. */
  method Save(d: Disk, m: Config)
    modifies d
    ensures d.configFile == ConfigDoc(m)
    ensures d.sessionFile == old(d.sessionFile) && d.sessionMode == old(d.sessionMode)
    ensures Load(d) == Success(m)
  {
    d.configFile := ConfigDoc(m);
  }

  /** `ConfigManager.set(key, value)`: load, assign, save. Fails without
      writing when the file is malformed. */
  method Set(d: Disk, key: string, value: Json.Value) returns (r: Option<ConfigError>)
    modifies d
    ensures r.Some? <==> old(d.configFile).MalformedConfig?
    ensures r.Some? ==> d.configFile == old(d.configFile)
    ensures r.None? ==> d.configFile == ConfigDoc(old(Load(d)).value[key := value])
    ensures r.None? ==> Get(d, key) == Success(Some(value))
    ensures r.None? ==> forall k :: k != key ==> Get(d, k) == old(Get(d, k))
    ensures d.sessionFile == old(d.sessionFile) && d.sessionMode == old(d.sessionMode)
  {
    var loaded := Load(d);
    if loaded.Failure? {
      return Some(loaded.error);
    }
    Save(d, loaded.value[key := value]);
    r := None;
  }

  /** `ConfigManager.delete(key)`: load, remove, save. */
  method Delete(d: Disk, key: string) returns (r: Option<ConfigError>)
    modifies d
    ensures r.Some? <==> old(d.configFile).MalformedConfig?
    ensures r.Some? ==> d.configFile == old(d.configFile)
    ensures r.None? ==> d.configFile == ConfigDoc(old(Load(d)).value - {key})
    ensures r.None? ==> Get(d, key) == Success(None)
    ensures r.None? ==> forall k :: k != key ==> Get(d, k) == old(Get(d, k))
    ensures d.sessionFile == old(d.sessionFile) && d.sessionMode == old(d.sessionMode)
  {
    var loaded := Load(d);
    if loaded.Failure? {
      return Some(loaded.error);
    }
    Save(d, loaded.value - {key});
    r := None;
  }
}
