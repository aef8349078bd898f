/** Root-logger configuration of semantic_agent/logging_utils.py. The root logger is an
    object whose handler list and level the code updates in place. */
module LoggingUtils {
  import opened Wrappers
  import opened Strings

  /** The handlers that the modelled code puts on the root logger. */
  datatype Handler =
    | StreamHandler(json: bool)   // console output, JSON formatter or plain text formatter
    | BufferHandler               // the admin log panel's buffer handler

  /** The level names `Logger.setLevel` accepts as strings. */
  const KnownLevels: set<string> :=
    {"CRITICAL", "FATAL", "ERROR", "WARN", "WARNING", "INFO", "DEBUG", "NOTSET"}

  /** The values `_env_bool` reads as true. */
  const TrueWords: set<string> := {"1", "true", "yes", "y", "on"}

  class RootLogger {
    var handlers: seq<Handler>
    var level: string

    /** A root logger as the logging module creates it. */
    constructor ()
      ensures handlers == [] && level == "WARNING"
    {
      handlers := [];
      level := "WARNING";
    }
  }

  /** `_env_bool(name, default)` where `value` is `os.getenv(name)`. */
  function EnvBool(value: Option<string>, default: bool): (r: bool)
    ensures value.None? ==> r == default
    ensures value.Some? ==> (r <==> Lower(Strip(value.value)) in TrueWords)
  {
    match value
    case None => default
    case Some(v) => Lower(Strip(v)) in TrueWords
  }

  /** A set variable decides the result alone: the default then plays no part. */
  lemma EnvBoolIgnoresDefaultWhenSet(v: string)
    ensures EnvBool(Some(v), true) == EnvBool(Some(v), false)
  {
  }

  /** The level name `configure_logging` passes to `setLevel`: the argument unless it is
      None or empty, else `VERIBOND_LOG_LEVEL`, else "INFO", upper-cased. */
  function RequestedLevel(level: Option<string>, envLevel: Option<string>): string {
    Upper(if level.Some? && level.value != "" then level.value else envLevel.GetOr("INFO"))
  }

  /** `configure_logging(level=..., json_logs=...)` with the two environment variables
      given as values. A root logger that already has a handler is left alone; otherwise
      exactly one stream handler is added and then the level is set, which raises
      ValueError for an unknown level name after the handler is already in place. */
  method ConfigureLogging(root: RootLogger, level: Option<string>, jsonLogs: Option<bool>,
                          envLevel: Option<string>, envJson: Option<string>)
    returns (r: Result<()>)
    modifies root
    ensures old(root.handlers) != [] ==>
              r == Ok(()) && root.handlers == old(root.handlers) && root.level == old(root.level)
    ensures old(root.handlers) == [] ==>
              root.handlers == [StreamHandler(
                if jsonLogs.Some? then jsonLogs.value else EnvBool(envJson, false))]
    ensures old(root.handlers) == [] && RequestedLevel(level, envLevel) in KnownLevels ==>
              r == Ok(()) && root.level == RequestedLevel(level, envLevel)
    ensures old(root.handlers) == [] && RequestedLevel(level, envLevel) !in KnownLevels ==>
              r == Err(ValueError) && root.level == old(root.level)
  {
    if root.handlers != [] {
      return Ok(());
    }
    var name := RequestedLevel(level, envLevel);
    var json := if jsonLogs.Some? then jsonLogs.value else EnvBool(envJson, false);
    root.handlers := root.handlers + [StreamHandler(json)];
    if name !in KnownLevels {
      return Err(ValueError);
    }
    root.level := name;
    r := Ok(());
  }
}
