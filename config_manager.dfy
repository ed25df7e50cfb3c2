/**
 * config_manager.py: loading config.json and live_data.json and checking the
 * two fields the rest of the program relies on.
 */
module ConfigManager {
  import opened Base

  /**
   * The configuration dictionary, restricted to the keys the core reads.
   * A key missing from the JSON file is `None`; reading it raises `KeyError`.
   */
  datatype Config = Config(
    name: Option<string>,                // 'name'
    recordDuration: Option<real>,        // 'record-duration'
    masterMode: Option<bool>,            // 'master-mode'
    hotWords: Option<seq<string>>,       // 'hot-words'
    useHotWord: Option<bool>)            // 'use-hot-word-in-basic-mode'

  /** `dict()`. */
  const Empty := Config(None, None, None, None, None)

  /** What opening and parsing a JSON file yields. */
  datatype FileRead = Unreadable | Parsed(content: Config)

  /** Why `validate_config` raises. */
  datatype ConfigError = MissingKey(key: string) | EmptyName | NonPositiveRecordDuration

  /** `get_config_from_file`: the parsed content, or an empty dictionary whatever went wrong. */
  function GetConfigFromFile(f: FileRead): (c: Config)
    ensures f.Parsed? ==> c == f.content
    ensures f.Unreadable? ==> c == Empty
  {
    match f
    case Parsed(content) => content
    case Unreadable => Empty
  }

  /**
   * `validate_config`: the name is checked first, then the record duration.
   * (The source repeats the duration check; the repetition can never fire.)
   */
  function ValidateConfig(c: Config): (r: Result<(), ConfigError>)
    ensures r.Ok? <==> c.name.Some? && c.name.value != "" && c.recordDuration.Some? && c.recordDuration.value > 0.0
    ensures r.Err? && c.name.None? ==> r.error == MissingKey("name")
    ensures r.Err? && c.name.Some? && c.name.value != "" && c.recordDuration.None? ==> r.error == MissingKey("record-duration")
  {
    if c.name.None? then Err(MissingKey("name"))
    else if c.name.value == "" then Err(EmptyName)
    else if c.recordDuration.None? then Err(MissingKey("record-duration"))
    else if c.recordDuration.value <= 0.0 then Err(NonPositiveRecordDuration)
    else Ok(())
  }

  /** An unreadable config.json leaves an empty dictionary, which fails on the missing name. */
  lemma UnreadableConfigFailsOnName()
    ensures ValidateConfig(GetConfigFromFile(Unreadable)) == Err(MissingKey("name"))
  {
  }

  /** The module's globals `config` and `live_config`. */
  class Store {
    var config: Config
    var liveConfig: Config

    /** Module import: both globals start as empty dictionaries. */
    constructor ()
      ensures config == Empty && liveConfig == Empty
    {
      config := Empty;
      liveConfig := Empty;
    }

    /**
     * `init`: both globals are assigned before validation runs, so a failed
     * validation still leaves them set.
     */
    method Init(configFile: FileRead, liveFile: FileRead) returns (outcome: Result<(), ConfigError>)
      modifies this
      ensures config == GetConfigFromFile(configFile)
      ensures liveConfig == GetConfigFromFile(liveFile)
      ensures outcome == ValidateConfig(config)
    {
      config := GetConfigFromFile(configFile);
      liveConfig := GetConfigFromFile(liveFile);
      outcome := ValidateConfig(config);
    }
  }
}
