/**
 * Configuration management: the defaults, loading a configuration file as a
 * shallow merge over the defaults, updating it, and checking that the bot
 * credentials are present. The file itself is abstracted to what reading and
 * parsing it can produce.
 */
module Config {
  import opened Base
  import opened Json

  /** What reading and `JSON.parse`-ing the configuration file yields. */
  datatype ConfigFile =
    | Missing                    // the file does not exist
    | Unparsable                 // unreadable, or not valid JSON
    | Parsed(content: Object)    // a JSON object

  const BotTokenRequired := "bot_token is required"
  const ChatIdRequired := "chat_id is required"
  const DefaultWorkerPort := 37778

  /** `DEFAULT_CONFIG` */
  const DefaultConfig: Object := map[
    "bot_token" := JStr(""),
    "chat_id" := JStr(""),
    "allowed_user_ids" := JArr([]),
    "worker_port" := JNum(DefaultWorkerPort),
    "notifications" := JObj(map[
      "on_stop" := JBool(true),
      "on_session_end" := JBool(true),
      "on_error" := JBool(true)]),
    "ask_via_telegram" := JBool(true)]

  /** `loadConfig()`: a copy of the defaults, every key of the file overriding. */
  function LoadConfig(file: ConfigFile): (config: Object)
    ensures !file.Parsed? ==> config == DefaultConfig
    ensures config.Keys >= DefaultConfig.Keys
    ensures file.Parsed? ==> config.Keys == DefaultConfig.Keys + file.content.Keys
    ensures file.Parsed? ==> forall k :: k in file.content ==> config[k] == file.content[k]
    ensures forall k :: k in DefaultConfig && (file.Parsed? ==> k !in file.content) ==> config[k] == DefaultConfig[k]
  {
    match file
    case Parsed(content) => DefaultConfig + content
    case _ => DefaultConfig
  }

  /** `updateConfig(updates)`: the loaded configuration with the updates merged over it; it is then saved. */
  function UpdateConfig(file: ConfigFile, updates: Object): (updated: Object)
    ensures updated.Keys == LoadConfig(file).Keys + updates.Keys
    ensures forall k :: k in updates ==> updated[k] == updates[k]
    ensures forall k :: k in LoadConfig(file) && k !in updates ==> updated[k] == LoadConfig(file)[k]
  {
    LoadConfig(file) + updates
  }

  /** The file as `saveConfig` leaves it after `updateConfig(updates)`. */
  function AfterUpdate(file: ConfigFile, updates: Object): ConfigFile {
    Parsed(UpdateConfig(file, updates))
  }

  /** The result of `validateConfig()`. */
  datatype Validation = Validation(valid: bool, errors: seq<string>)

  /** `validateConfig()`: it loads the configuration and reports the missing credentials in order. */
  function ValidateConfig(file: ConfigFile): (v: Validation)
    ensures v.valid <==> v.errors == []
    ensures BotTokenRequired in v.errors <==> !TruthyOpt(Get(LoadConfig(file), "bot_token"))
    ensures ChatIdRequired in v.errors <==> !TruthyOpt(Get(LoadConfig(file), "chat_id"))
    ensures forall e :: e in v.errors ==> e == BotTokenRequired || e == ChatIdRequired
    ensures |v.errors| == 2 ==> v.errors == [BotTokenRequired, ChatIdRequired]
  {
    var config := LoadConfig(file);
    var errors := if !TruthyOpt(Get(config, "bot_token")) then [BotTokenRequired] else [];
    var errors := if !TruthyOpt(Get(config, "chat_id")) then errors + [ChatIdRequired] else errors;
    Validation(|errors| == 0, errors)
  }

  /** Saving an updated configuration and loading it again gives back exactly what was saved. */
  lemma UpdateThenLoad(file: ConfigFile, updates: Object)
    ensures LoadConfig(AfterUpdate(file, updates)) == UpdateConfig(file, updates)
  {
    var u := UpdateConfig(file, updates);
    assert DefaultConfig.Keys <= u.Keys;
    assert (DefaultConfig + u).Keys == u.Keys;
  }

  /** Applying the same update twice is the same as applying it once. */
  lemma UpdateIdempotent(file: ConfigFile, updates: Object)
    ensures UpdateConfig(AfterUpdate(file, updates), updates) == UpdateConfig(file, updates)
  {
    UpdateThenLoad(file, updates);
  }

  /** With no configuration file the credentials are missing, so both errors are reported. */
  lemma MissingFileInvalid()
    ensures ValidateConfig(Missing) == Validation(false, [BotTokenRequired, ChatIdRequired])
  {
  }
}
