/** lumen_logger/logging_conf.py: the per-record enrichment and the
    one-time configuration of the process's root logger. */
module LoggingConf {
  import opened Options
  import opened Ascii
  import opened Env
  import opened TaskLocal

  // -----------------------------------------------------------------------
  // Record enrichment (`_inject_context_into_log_record`)
  // -----------------------------------------------------------------------

  /** `get_correlation_id() or "-"`: the stored id when it is truthy, the
      placeholder "-" for `None` and for the empty string. */
  function CorrelationField(id: Option<string>): (field: string)
    ensures field != ""
    ensures id.Some? && id.value != "" ==> field == id.value
    ensures id.None? || id.value == "" ==> field == "-"
  {
    if id.Some? && id.value != "" then id.value else "-"
  }

  /** A `logging.LogRecord`; the attributes the factory adds live in
      `attributes`, the record's `__dict__` entries. */
  class LogRecord {
    const name: string
    const message: string
    var attributes: map<string, string>

    constructor (name: string, message: string)
      ensures this.name == name && this.message == message && attributes == map[]
    {
      this.name := name;
      this.message := message;
      attributes := map[];
    }
  }

  /** `_inject_context_into_log_record(record)` run in task `task`: sets the
      four fields in place and returns the same record. The host name and
      the UTC timestamp are parameters. */
  method InjectContext(record: LogRecord, ctx: ContextVar, task: TaskId, env: map<string, string>,
                       hostname: string, timestamp: string) returns (r: LogRecord)
    modifies record
    ensures r == record
    ensures record.attributes == old(record.attributes)[
      "service_name" := if "LOG_SERVICE_NAME" in env then env["LOG_SERVICE_NAME"] else "lumen_service"][
      "hostname" := hostname][
      "correlation_id" := CorrelationField(ctx.Current(task))][
      "timestamp" := timestamp]
  {
    var serviceName := if "LOG_SERVICE_NAME" in env then env["LOG_SERVICE_NAME"] else "lumen_service";
    record.attributes := record.attributes["service_name" := serviceName];
    record.attributes := record.attributes["hostname" := hostname];
    var id := ctx.Get(task);
    record.attributes := record.attributes["correlation_id" := CorrelationField(id)];
    record.attributes := record.attributes["timestamp" := timestamp];
    r := record;
  }

  /** A record emitted by a task carries that task's id, or "-" when the
      task has none; what other tasks stored never shows. */
  method EnrichScenario(a: TaskId, b: TaskId, cid: string, otherCid: string, hostname: string, timestamp: string)
    returns (fieldA: string, fieldB: string)
    requires a != b && cid != ""
    ensures fieldA == cid
    ensures fieldB == "-"
  {
    var ctx := new ContextVar();
    ctx.Set(a, Some(cid));
    var recordB := new LogRecord("app", "before b sets an id");
    recordB := InjectContext(recordB, ctx, b, map[], hostname, timestamp);
    fieldB := recordB.attributes["correlation_id"];
    ctx.Set(b, Some(otherCid));
    var recordA := new LogRecord("app", "inside request a");
    recordA := InjectContext(recordA, ctx, a, map[], hostname, timestamp);
    fieldA := recordA.attributes["correlation_id"];
  }

  // -----------------------------------------------------------------------
  // Levels
  // -----------------------------------------------------------------------

  const WARNING: int := 30

  /** `logging._checkLevel` on a level name: the registered names, anything
      else raises `ValueError`. */
  function LevelByName(name: string): (level: Option<int>)
    ensures level.Some? <==> name in {"CRITICAL", "FATAL", "ERROR", "WARN", "WARNING", "INFO", "DEBUG", "NOTSET"}
    ensures level.Some? ==> 0 <= level.value <= 50 && level.value % 10 == 0
    ensures name == "INFO" ==> level == Some(20)
  {
    if name == "CRITICAL" || name == "FATAL" then Some(50)
    else if name == "ERROR" then Some(40)
    else if name == "WARN" || name == "WARNING" then Some(WARNING)
    else if name == "INFO" then Some(20)
    else if name == "DEBUG" then Some(10)
    else if name == "NOTSET" then Some(0)
    else None
  }

  // -----------------------------------------------------------------------
  // Settings read from the environment (step 1 of `configure_logging`)
  // -----------------------------------------------------------------------

  datatype Settings = Settings(level: string, logToFile: bool, filePath: string,
                               maxBytes: int, backupCount: int, serviceName: string)

  const MiB: int := 1024 * 1024

  /** What `configure_logging` reads: each variable through `_get_env` with
      its default and cast, the level upper-cased, the size scaled from MB
      to bytes. */
  function LoadSettings(env: map<string, string>): (s: Settings)
    ensures s.level == Upper(if "LOG_LEVEL" in env then env["LOG_LEVEL"] else "INFO")
    ensures s.logToFile == ("LOG_TO_FILE" !in env || Lower(env["LOG_TO_FILE"]) in TrueWords)
    ensures s.filePath == if "LOG_FILE_PATH" in env then env["LOG_FILE_PATH"] else "./logs"
    ensures s.maxBytes == MiB * (if "LOG_MAX_SIZE_MB" in env && IsIntLiteral(env["LOG_MAX_SIZE_MB"])
                                 then ParseInt(env["LOG_MAX_SIZE_MB"]).value else 10)
    ensures s.backupCount == if "LOG_BACKUP_COUNT" in env && IsIntLiteral(env["LOG_BACKUP_COUNT"])
                             then ParseInt(env["LOG_BACKUP_COUNT"]).value else 5
    ensures s.serviceName == if "LOG_SERVICE_NAME" in env then env["LOG_SERVICE_NAME"] else "lumen_service"
  {
    DefaultsPass(env);
    var level := GetEnv(env, "LOG_LEVEL", PyStr("INFO"), StrCast).s;
    var toFile := GetEnv(env, "LOG_TO_FILE", PyBool(true), BoolCast).b;
    var path := GetEnv(env, "LOG_FILE_PATH", PyStr("./logs"), StrCast).s;
    var size := GetEnv(env, "LOG_MAX_SIZE_MB", PyInt(10), IntCast).i;
    var backups := GetEnv(env, "LOG_BACKUP_COUNT", PyInt(5), IntCast).i;
    var service := GetEnv(env, "LOG_SERVICE_NAME", PyStr("lumen_service"), StrCast).s;
    Settings(Upper(level), toFile, path, size * 1024 * 1024, backups, service)
  }

  lemma DefaultsPass(env: map<string, string>)
    ensures "LOG_LEVEL" !in env ==> GetEnv(env, "LOG_LEVEL", PyStr("INFO"), StrCast) == PyStr("INFO")
    ensures "LOG_TO_FILE" !in env ==> GetEnv(env, "LOG_TO_FILE", PyBool(true), BoolCast) == PyBool(true)
    ensures "LOG_FILE_PATH" !in env ==> GetEnv(env, "LOG_FILE_PATH", PyStr("./logs"), StrCast) == PyStr("./logs")
    ensures "LOG_MAX_SIZE_MB" !in env ==> GetEnv(env, "LOG_MAX_SIZE_MB", PyInt(10), IntCast) == PyInt(10)
    ensures "LOG_BACKUP_COUNT" !in env ==> GetEnv(env, "LOG_BACKUP_COUNT", PyInt(5), IntCast) == PyInt(5)
    ensures "LOG_SERVICE_NAME" !in env ==> GetEnv(env, "LOG_SERVICE_NAME", PyStr("lumen_service"), StrCast) == PyStr("lumen_service")
  {
    if "LOG_TO_FILE" !in env {
      DefaultPassesThrough(env, "LOG_TO_FILE", PyBool(true), BoolCast);
    }
  }

  /** `os.path.join(directory, name)` on POSIX for two parts. */
  function JoinPath(directory: string, name: string): (path: string)
    ensures |name| > 0 && name[0] == '/' ==> path == name
    ensures (|name| == 0 || name[0] != '/') ==>
              |path| >= |directory| + |name| && path[..|directory|] == directory && path[|path| - |name|..] == name
  {
    if |name| > 0 && name[0] == '/' then name
    else if directory == [] || directory[|directory| - 1] == '/' then directory + name
    else directory + "/" + name
  }

  /** The rotating file: `<LOG_FILE_PATH>/<service>.log`. */
  function LogFile(s: Settings): string
  {
    JoinPath(s.filePath, s.serviceName + ".log")
  }

  // -----------------------------------------------------------------------
  // Handlers and the root logger
  // -----------------------------------------------------------------------

  /** The handlers `configure_logging` creates; formatters and streams are
      not modelled. */
  datatype Handler =
    | Console(level: int)
    | RotatingFile(file: string, maxBytes: int, backupCount: int, encoding: string, level: int)

  /** Step 7: the console handler always, the rotating file handler only
      when writing to a file, both at the configured level. */
  function HandlersFor(s: Settings, level: int): (hs: seq<Handler>)
    ensures |hs| == if s.logToFile then 2 else 1
    ensures hs[0] == Console(level)
    ensures s.logToFile ==> hs[1] == RotatingFile(LogFile(s), s.maxBytes, s.backupCount, "utf-8", level)
    ensures forall i :: 0 <= i < |hs| ==> hs[i].level == level
  {
    var handlers := [Console(level)];
    if s.logToFile then handlers + [RotatingFile(LogFile(s), s.maxBytes, s.backupCount, "utf-8", level)]
    else handlers
  }

  /** Libraries whose loggers are turned down to WARNING. */
  const NoisyLibraries: seq<string> := ["uvicorn", "aioboto3", "botocore", "fastapi"]

  /** Setting each of `names`, in order, to WARNING. */
  function MuteAll(levels: map<string, int>, names: seq<string>): (r: map<string, int>)
    ensures r.Keys == levels.Keys + set n | n in names
    ensures forall n :: n in names ==> r[n] == WARNING
    ensures forall n :: n in levels && n !in names ==> r[n] == levels[n]
    decreases |names|
  {
    if names == [] then levels
    else
      var init := names[..|names| - 1];
      assert forall n :: n in names <==> n in init || n == names[|names| - 1];
      MuteAll(levels, init)[names[|names| - 1] := WARNING]
  }

  /** Step 9's effect on the named loggers' levels. */
  function Muted(levels: map<string, int>): (r: map<string, int>)
    ensures r.Keys == levels.Keys + {"uvicorn", "aioboto3", "botocore", "fastapi"}
    ensures forall n :: n in NoisyLibraries ==> r[n] == WARNING
    ensures forall n :: n in levels && n !in NoisyLibraries ==> r[n] == levels[n]
  {
    assert NoisyLibraries[0] == "uvicorn" && NoisyLibraries[1] == "aioboto3";
    assert NoisyLibraries[2] == "botocore" && NoisyLibraries[3] == "fastapi";
    assert (set n | n in NoisyLibraries) == {"uvicorn", "aioboto3", "botocore", "fastapi"};
    MuteAll(levels, NoisyLibraries)
  }

  datatype ConfigureOutcome =
    | AlreadyConfigured          // the early `return` on a root that has handlers
    | Configured
    | UnknownLevel(name: string) // `root_logger.setLevel` raised ValueError

  /** The logging module's process-wide state this library touches: the
      root logger's handlers and level, and the levels set on named loggers. */
  class LoggingRegistry {
    var rootHandlers: seq<Handler>
    var rootLevel: int
    var loggerLevels: map<string, int>

    /** A fresh process: no handlers, root at WARNING, no named levels. */
    constructor ()
      ensures rootHandlers == [] && rootLevel == WARNING && loggerLevels == map[]
    {
      rootHandlers := [];
      rootLevel := WARNING;
      loggerLevels := map[];
    }

    /** `root_logger.addHandler(h)` for a newly created handler. */
    method AddHandler(h: Handler)
      modifies this
      ensures rootHandlers == old(rootHandlers) + [h]
      ensures rootLevel == old(rootLevel) && loggerLevels == old(loggerLevels)
    {
      rootHandlers := rootHandlers + [h];
    }

    /** `logging.getLogger(name).setLevel(level)`. */
    method SetLoggerLevel(name: string, level: int)
      modifies this
      ensures loggerLevels == old(loggerLevels)[name := level]
      ensures rootHandlers == old(rootHandlers) && rootLevel == old(rootLevel)
    {
      loggerLevels := loggerLevels[name := level];
    }

    /** `configure_logging()`: a root that already has handlers is left as
      it is; otherwise an unknown level name raises before anything changes,
      and a known one sets the root level, attaches the handlers of
      `HandlersFor` and mutes the noisy libraries. */
    method ConfigureLogging(env: map<string, string>) returns (outcome: ConfigureOutcome)
      modifies this
      ensures old(rootHandlers) != [] ==> outcome == AlreadyConfigured && unchanged(this)
      ensures old(rootHandlers) == [] && LevelByName(LoadSettings(env).level).None? ==>
                outcome == UnknownLevel(LoadSettings(env).level) && unchanged(this)
      ensures old(rootHandlers) == [] && LevelByName(LoadSettings(env).level).Some? ==>
                var level := LevelByName(LoadSettings(env).level).value;
                && outcome == Configured
                && rootLevel == level
                && rootHandlers == HandlersFor(LoadSettings(env), level)
                && loggerLevels == Muted(old(loggerLevels))
    {
      var s := LoadSettings(env);
      if rootHandlers != [] {
        return AlreadyConfigured;
      }
      var level := LevelByName(s.level);
      if level.None? {
        return UnknownLevel(s.level);
      }
      rootLevel := level.value;

      var handlers: seq<Handler> := [];
      handlers := handlers + [Console(level.value)];
      if s.logToFile {
        handlers := handlers + [RotatingFile(LogFile(s), s.maxBytes, s.backupCount, "utf-8", level.value)];
      }
      AttachHandlers(handlers);
      MuteNoisyLibraries();
      return Configured;
    }

    /** Step 8: `for handler in handlers: root_logger.addHandler(handler)`. */
    method AttachHandlers(handlers: seq<Handler>)
      modifies this
      ensures rootHandlers == old(rootHandlers) + handlers
      ensures rootLevel == old(rootLevel) && loggerLevels == old(loggerLevels)
    {
      var i := 0;
      while i < |handlers|
        invariant 0 <= i <= |handlers|
        invariant rootHandlers == old(rootHandlers) + handlers[..i]
        invariant rootLevel == old(rootLevel) && loggerLevels == old(loggerLevels)
      {
        AddHandler(handlers[i]);
        assert handlers[..i + 1] == handlers[..i] + [handlers[i]];
        i := i + 1;
      }
      assert handlers[..i] == handlers;
    }

    /** Step 9: each noisy library's logger set to WARNING. */
    method MuteNoisyLibraries()
      modifies this
      ensures loggerLevels == Muted(old(loggerLevels))
      ensures rootHandlers == old(rootHandlers) && rootLevel == old(rootLevel)
    {
      var j := 0;
      while j < |NoisyLibraries|
        invariant 0 <= j <= |NoisyLibraries|
        invariant loggerLevels == MuteAll(old(loggerLevels), NoisyLibraries[..j])
        invariant rootHandlers == old(rootHandlers) && rootLevel == old(rootLevel)
      {
        SetLoggerLevel(NoisyLibraries[j], WARNING);
        assert NoisyLibraries[..j + 1][..j] == NoisyLibraries[..j];
        j := j + 1;
      }
      assert NoisyLibraries[..j] == NoisyLibraries;
    }
  }

  /** The registry's observable state after a call: root handlers, root
      level and named-logger levels. */
  datatype Snapshot = Snapshot(handlers: seq<Handler>, rootLevel: int, loggerLevels: map<string, int>)

  /** Configuring a fresh process twice, as a reload does, attaches the
      handlers once: the second call adds none and changes no level. */
  method ReloadScenario(env: map<string, string>) returns (first: Snapshot, second: Snapshot, again: ConfigureOutcome)
    ensures second == first
    ensures |first.handlers| <= 2
    ensures first.handlers != [] <==> LevelByName(LoadSettings(env).level).Some?
    ensures first.handlers != [] ==> again == AlreadyConfigured
    ensures first.handlers != [] ==>
              && first.rootLevel == LevelByName(LoadSettings(env).level).value
              && forall n :: n in NoisyLibraries ==> n in first.loggerLevels && first.loggerLevels[n] == WARNING
    ensures first.handlers == [] ==> first == Snapshot([], WARNING, map[])
  {
    var registry := new LoggingRegistry();
    var outcome := registry.ConfigureLogging(env);
    first := Snapshot(registry.rootHandlers, registry.rootLevel, registry.loggerLevels);
    again := registry.ConfigureLogging(env);
    second := Snapshot(registry.rootHandlers, registry.rootLevel, registry.loggerLevels);
  }
}
