# Lumen Logger core, modelled in Dafny

Lumen Logger is a shared logging library for web services. It keeps one
correlation id per in-flight request. A middleware installs the id in a
task-local context, echoes it on the response, and clears it afterwards.
A log-record factory copies the id onto every record. A one-time
`configure_logging` attaches the console and file handlers to the root
logger.

The model covers four pieces, one Dafny module per source file or component:

- `TaskLocal` (task_local.dfy) models `contextvars.ContextVar(default=None)`.
  It is a class over a map from an abstract task id to an optional string.
  Beside it is a pure theory of interleaved writes: whatever order the tasks
  write in, each task reads exactly its own latest write.
- `Context` (context.dfy) covers `lumen_logger/context.py`, and `TestContext`
  (test_context.dfy) covers the fuller variant in `tests/test_context.py`.
  That variant generates a UUID when it is given `None`, and it defines
  `clear_correlation_id`.
- `Middleware` (middleware.dfy) models `CorrelationIdMiddleware.dispatch`.
  It is a method over the context, the request and an abstract handler
  (`HandlerView -> Outcome`). It re-raises the handler's exception
  unchanged and returns the handler's response with the two trace headers
  set. It also returns the log lines it emits, each tagged with the context
  value visible when the line was written.
  - `Headers` (headers.dfy) gives the semantics of the header lists it reads
    and writes.
  - `Uuids` (uuids.dfy) gives the text of `uuid.uuid4()`.
- `Env` (env.dfy) models `_get_env`, including Python's `str()`, `int()` and
  the bool rule. `LoggingConf` (logging_conf.py's module, logging_conf.dfy)
  models:
  - the record enricher;
  - the settings read from the environment;
  - the handler plan;
  - a `LoggingRegistry` class for the root logger, whose `ConfigureLogging`
    keeps the idempotence guard.

Facts about the code that the model makes explicit:

- The completion log line comes after the `finally` has cleared the
  context. So its `correlation_id` field is `"-"`, although its message text
  still names the id (`Middleware.CompletionLineLosesId`).
- A handler exception propagates unchanged. The response headers are written
  only on success, so a failed request carries no `X-Correlation-ID`.
- A `BaseException` that is not an `Exception` (for example task
  cancellation) is not logged. The context is still cleared.
- `configure_logging` raises `ValueError` on a first call whose `LOG_LEVEL`
  does not name a logging level. The raise comes from `root_logger.setLevel`,
  and it happens before any handler is attached.

Two points where the code is narrower than its own docstrings:

- The module docstring of `lumen_logger/middleware.py` (line 21) describes
  `X-Correlation-ID` as a "propagated or generated UUID". A generated id is
  only the first 8 hex digits of a UUID (line 42), and the model uses that.
- The same docstring (line 11) promises trace headers on "every response".
  They are written only when the handler returns normally (lines 74-75); an
  exception leaves the middleware before step 8, and the model says so.

Two further facts about the code:

- When no id is set, the `correlation_id` field of a log record is `"-"`
  (`lumen_logger/logging_conf.py`, line 62); the field is always present.
- Nothing reads a switch that turns correlation off: the middleware sets an
  id on every request.

## Model

| member | source | states |
|---|---|---|
| `TaskLocal.Assign` | lumen_logger/context.py:27 | a `set` by task t makes t read the new value and leaves every other task's value unchanged |
| `TaskLocal.ContextVar.constructor` | lumen_logger/context.py:17 | before any `set`, every task reads the default `None` |
| `TaskLocal.ContextVar.Set` | lumen_logger/context.py:27 | after `set(v)` the task reads `v`; all other tasks read what they read before |
| `TaskLocal.ContextVar.Get` | lumen_logger/context.py:37 | `get` returns the caller's value and changes nothing |
| `TaskLocal.ReplaySeesLatestOwn` | lumen_logger/context.py:9-17 | after any interleaving of writes by many tasks, a task reads its own latest write, or its earlier value if it wrote nothing |
| `TaskLocal.Isolation` | lumen_logger/context.py:9-17 | for a given task, the writes of other tasks can be deleted from any run without changing what that task reads |
| `TaskLocal.ClearedTaskReadsNone` | lumen_logger/middleware.py:61-63 | a task whose last write cleared its slot reads `None`, whatever other tasks did before |
| `Context.SetCorrelationId` | lumen_logger/context.py:20-27 | stores the value verbatim, with no validation, for the caller only |
| `Context.GetCorrelationId` | lumen_logger/context.py:30-37 | returns the caller's id, or `None`; it never fails and has no effect |
| `Context.ClearCorrelationId` | lumen_logger/middleware.py:31 | the `clear` the middleware imports: the caller reads `None` afterwards and other tasks are untouched |
| `Context.SetGetScenario` | lumen_logger/context.py:17-37 | `None` before any set; a second set overwrites the first; another task's set is invisible; `None` after a clear |
| `TestContext.GetCorrelationId` | tests/test_context.py:7-9 | returns the caller's current value |
| `TestContext.SetCorrelationId` | tests/test_context.py:11-16 | a given value is stored verbatim and returned; `None` is replaced by `str(uuid4())` (36 characters), and the returned value is the stored one |
| `TestContext.ClearCorrelationId` | tests/test_context.py:18-20 | the caller reads `None` afterwards and other tasks are unchanged |
| `TestContext.ClearIdempotent` | tests/test_context.py:18-20 | clearing twice gives the same state as clearing once |
| `TestContext.SetGetClearScenario` | tests/test_context.py:5-20 | `None` before any set; `get` returns what `set` returned; a generated id has 36 characters with version digit 4; `None` after a clear |
| `Imports.Unresolved` | lumen_logger/middleware.py:31 | the import rule: an import succeeds (nothing unresolved) exactly when every wanted name is defined; any unresolved name is one that was wanted and is not defined |
| `Imports.MiddlewareImportFailsAsWritten` | lumen_logger/middleware.py:31 | as written, `clear_correlation_id` is missing from lumen_logger/context.py, so the import fails |
| `Imports.MiddlewareImportResolvesCorrected` | lumen_logger/context.py:20-37 | with `clear_correlation_id` added, every name the middleware imports resolves |
| `Uuids.HexRoundTrip` | tests/test_context.py:14 | the hex rendering of the random bits reads back as the same number |
| `Uuids.Uuid4Text` | tests/test_context.py:14 | `str(uuid4())` has 36 characters: hyphens at 8, 13, 18 and 23, version digit `4`, a variant digit in 8–b, and hex digits elsewhere |
| `Uuids.ShortId` | lumen_logger/middleware.py:42 | `str(uuid4())[:8]` is 8 hex digits, never empty, and is the UUID text's prefix |
| `Uuids.PrefixCollision` | lumen_logger/middleware.py:42 | two hex renderings cut to a prefix are equal exactly when the numbers agree above the cut |
| `Uuids.UuidSpaceIsPow16` | tests/test_context.py:14 | the 32 hex digits of a UUID span exactly the 2^128 values of its random bits |
| `Uuids.ShortIdCollision` | lumen_logger/middleware.py:42 | two 8-character ids `str(uuid4())[:8]` are equal exactly when the top 32 random bits agree, so generated ids can collide |
| `Headers.Get` | lumen_logger/middleware.py:42 | a case-insensitive lookup that returns the first matching entry's value, or `None` exactly when no entry matches |
| `Headers.SetSpec` | lumen_logger/middleware.py:74-75 | after `headers[k] = v`, reading `k` gives `v`, exactly one entry has that name, and every other entry stays in order, so other lookups are unchanged |
| `Headers.OthersCommute` | lumen_logger/middleware.py:74-75 | removing two header names gives the same list in either order |
| `Middleware.ResolveCid` | lumen_logger/middleware.py:42 | a present, non-empty `X-Correlation-ID` is adopted verbatim; an absent or empty one gives the 8-character prefix of a fresh UUID; the id is never empty |
| `Middleware.TraceHeadersSpec` | lumen_logger/middleware.py:74-75 | the stamped response keeps its status; `X-Correlation-ID` gives the id and `X-Response-Time-ms` the timing value, each present exactly once, replacing any copy the handler wrote; all other headers are unchanged and in order |
| `Middleware.Dispatch` | lumen_logger/middleware.py:40-77 | `request.state` and the context hold the id while the handler runs; afterwards the context is cleared on both paths and other tasks are untouched; an exception propagates unchanged, with no headers; on success the handler's response is stamped with the two trace headers; the log lines come out in source order |
| `Middleware.CompletionLineLosesId` | lumen_logger/middleware.py:61-71 | the start line's `correlation_id` field is the id, but the completion line, emitted after the clear, gets `"-"` |
| `Middleware.RequestScenario` | tests/test_middleware.py:31-53 | one request on a fresh context: a failure passes through unchanged; a success keeps its status and carries the handler's id and a timing header; nothing is left in the context |
| `Middleware.AdoptsSuppliedId` | tests/test_middleware.py:56-63 | an inbound `X-Correlation-ID: test-cid-1234` is the id used and the one echoed |
| `Env.ParseInt` | lumen_logger/logging_conf.py:41-42 | `int(s)` succeeds exactly on an optionally signed run of digits; the result's sign follows the sign character |
| `Env.DecimalRoundTrip` | lumen_logger/logging_conf.py:41-43 | `int(str(i)) == i` for every integer |
| `Env.GetEnv` | lumen_logger/logging_conf.py:34-45 | unset with no default gives `None`; bool gives true exactly when the lowercased value is `1`, `true` or `yes`, and never falls back to the default; int gives the parsed value or the default; str gives the value verbatim |
| `Env.DefaultPassesThrough` | lumen_logger/logging_conf.py:35-43 | an unset variable yields its default unchanged through a cast of the same type (`True`→`True`, `10`→`10`, `"INFO"`→`"INFO"`) |
| `Env.IntCastFallsBack` | lumen_logger/logging_conf.py:41-45 | the int cast falls back to the default exactly when the value is not an integer literal |
| `LoggingConf.CorrelationField` | lumen_logger/logging_conf.py:62 | the record field is the stored id when it is truthy, and `"-"` for `None` or `""`; it is never empty |
| `LoggingConf.InjectContext` | lumen_logger/logging_conf.py:51-64 | sets `service_name`, `hostname`, `correlation_id` and `timestamp` on the record in place and returns the same record |
| `LoggingConf.EnrichScenario` | lumen_logger/logging_conf.py:60-62 | a record carries its own task's id; a task with none gets `"-"`, even while another task holds an id |
| `LoggingConf.LevelByName` | lumen_logger/logging_conf.py:94 | `setLevel` accepts exactly the eight registered level names; any other name raises |
| `LoggingConf.LoadSettings` | lumen_logger/logging_conf.py:77-84 | each setting is the env value cast, or its default: upper-cased level (default INFO), file logging on by default, size in MB × 1024 × 1024 (default 10), 5 backups, service `lumen_service` |
| `LoggingConf.DefaultsPass` | lumen_logger/logging_conf.py:78-84 | every default of `configure_logging` passes unchanged through its own cast |
| `LoggingConf.JoinPath` | lumen_logger/logging_conf.py:88 | `os.path.join`: an absolute name wins; otherwise the result starts with the directory and ends with the name |
| `LoggingConf.HandlersFor` | lumen_logger/logging_conf.py:144-160 | one console handler, plus one rotating-file handler exactly when file logging is on; all at the configured level |
| `LoggingConf.MuteAll` | lumen_logger/logging_conf.py:166-168 | every listed logger is at WARNING; other loggers keep their levels |
| `LoggingConf.Muted` | lumen_logger/logging_conf.py:166-168 | `uvicorn`, `aioboto3`, `botocore` and `fastapi` are at WARNING; no other level changes |
| `LoggingConf.LoggingRegistry.AddHandler` | lumen_logger/logging_conf.py:163-164 | the new handler is appended to the root's handlers |
| `LoggingConf.LoggingRegistry.SetLoggerLevel` | lumen_logger/logging_conf.py:168 | only the named logger's level changes |
| `LoggingConf.LoggingRegistry.AttachHandlers` | lumen_logger/logging_conf.py:162-164 | the root's handler list gains exactly the planned handlers, in order |
| `LoggingConf.LoggingRegistry.MuteNoisyLibraries` | lumen_logger/logging_conf.py:166-168 | the named-logger levels become `Muted` of the old ones |
| `LoggingConf.LoggingRegistry.ConfigureLogging` | lumen_logger/logging_conf.py:70-168 | a root with handlers is left untouched; an unknown level raises before anything changes; otherwise the root level is set, the planned 1 or 2 handlers are attached and the noisy libraries are muted |
| `LoggingConf.ReloadScenario` | lumen_logger/logging_conf.py:91-93 | configuring twice attaches the handlers once (at most 2); the second call returns early and leaves the root handlers, the root level and every named-logger level as the first call left them |

## Findings

| source | as written | input that shows it | evidently intended | confidence | as-written member | corrected member |
|---|---|---|---|---|---|---|
| lumen_logger/middleware.py:31 | imports `clear_correlation_id` from `lumen_logger.context`, which defines only `set_correlation_id` and `get_correlation_id` (lumen_logger/context.py:20-37) | any `import lumen_logger.middleware` (also `import lumen_logger`, which re-exports the middleware) raises `ImportError` | `lumen_logger/context.py` defines `clear_correlation_id` as `tests/test_context.py:18-20` does, setting the slot back to `None`; `Imports.MiddlewareImportResolvesCorrected` shows the import then resolves | not executed | `Imports.MiddlewareImportFailsAsWritten` | `Context.ClearCorrelationId` |

## Left out

- Real concurrency: contextvars are modelled as a map keyed by an abstract task id. A child task does not inherit a copy of its parent's context in this model. Starlette's task scheduling is not modelled.
- UUID randomness: the 128 random bits are a parameter (`random`). Freshness of generated ids is not claimed; `Uuids.ShortIdCollision` states when two ids coincide.
- Headers.SameName: it lowers both names, while Starlette lowers only the looked-up key and compares it byte for byte with the stored raw name. The two agree because ASGI servers deliver header names in lower case, which the model assumes; a stored name with upper-case letters would match here but not in Starlette.
- Timing: `time.perf_counter`, the float duration and its `%.2f` formatting are not modelled. The formatted value is a parameter (`elapsed`), and only the header's presence and value are stated.
- Middleware.Dispatch: the response is a value that the method returns updated. Starlette mutates the response object in place, so aliasing of that object is not captured. The client address, path and method that the log messages mention are not modelled; a log line records only its kind, the id and the visible context.
- Handler side effects on the context: the handler is a function of what it sees. Writes it makes to its own context copy are not modelled.
- Env.ParseInt: it does not accept the surrounding whitespace, underscores or non-ASCII digits that Python's `int()` accepts. The model takes an optional sign followed by ASCII digits.
- Ascii.Lower: `str.lower()` and `str.upper()` are modelled for ASCII letters only. Unicode case mapping is not modelled.
- LoggingConf.LevelByName: integer levels and names added with `logging.addLevelName` are not modelled.
- LoggingConf.LoggingRegistry.ConfigureLogging: several parts are not modelled, because they are I/O or library objects with no state this library reads back:
  - `os.makedirs`, which runs before the guard;
  - the failure of `RotatingFileHandler(...)` to open the log file (line 155). If that open raises, the root level is already set (line 94) and the record factory already chained (line 103), but no handler is attached, so a later call passes the guard and configures again. The model's file handler is a value and cannot fail;
  - the record-factory chaining;
  - the formatters and colours;
  - `json_formatter`, which is never attached;
  - `LOG_FORMAT`, which is only logged;
  - the final info and debug lines.
- LoggingConf.InjectContext: `socket.gethostname()` and `datetime.utcnow()` are parameters.
- `lumen_logger/__init__.py` (re-exports) and `tests/conftest.py` (`.env` loading) are not part of this model.
