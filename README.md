# trantor logger: a Dafny model

This project models the logging front end of the trantor network library:

- the severity levels `kTrace` … `kFatal` and the tag table `logLevelStr`;
- `Logger::SourceFile`, which finds a source path's basename;
- the `LOG_*` / `DLOG_*` statement macros and the static threshold
  `Logger::logLevel_()` they consult;
- the `Logger` record: its four constructors, `stream()`, and the
  destructor, which hands the text on and flushes for errors;
- the process-wide `LoggerManager`: the active sink, the threshold `level_`,
  the `newline_` flag, `setLoggerImplement`, `setLevel`, `getLevel`,
  `output` and `flush`, and the default sink installed at start-up;
- `MarkLogger::output` and the thread-local thread-id cache;
- the `trace` … `fatal` free functions generated by `BUILD_LOGGER_FUNC`, in
  both overloads.

Every call into a sink (`setup`, `output`, `flush`, `MarkLogger::print`) is
recorded, in order, in a ghost event log on the manager. Each sink-facing
operation is a method whose postcondition appends a function of its inputs
to that log. The properties are proved as lemmas about those functions:

- how many `output` and `flush` calls happen;
- the level each call carries;
- the exact shape of every composed line.

Modules, one per file:

| file | module | models |
|---|---|---|
| options.dfy | Options | `Option` (a null pointer is `None`) |
| cstrings.dfy | CStrings | C strings: the text before the first NUL |
| decimal.dfy | Decimal | decimal rendering of integers, with a parser to read it back |
| levels.dfy | Levels | `LogLevel`, the order on it, thresholds, `logLevelStr` |
| source_file.dfy | SourceFiles | `Logger::SourceFile` |
| line_format.dfy | LineFormat | the manager's composed line, the `MarkLogger` line, the `tid` cache |
| manager.dfy | Manager | sinks, the event log, `LoggerManager`, the thread context |
| record.dfy | Records | `Logger` records and `Logger::logLevel_()` |
| macros.dfy | Macros | `LOG_*`, `LOG_*_IF`, `DLOG_*`, `DLOG_*_IF`, `LOG_SYSERR` |
| free_functions.dfy | FreeFunctions | `trace` … `fatal`, and through them `TRANTOR_*` |

Some declarations and definitions in the source do not match. The model
resolves them as follows:

- `LoggerManager::output` is modelled as the one operation the definition in
  `LoggerManager.cc` implements: `(level, msg, file, line, func)`.
- `newline_` is kept as manager state. It has no setter, so it is always true.
- The file suffix follows the code's guard: a file is given and `line != -1`.
  It does not require `line >= 0`.
- A `LogLevel` variable can hold `kNumberOfLogLevels`, and nothing stops
  `setLogLevel` or `setLevel` from storing it. Both thresholds therefore
  range over the numbers 0 … 6 (`Levels.Threshold`); 6 admits no level, so
  it silences every Trace, Debug and Info macro and all six free functions,
  while the Warn, Error and Fatal macros, which do not consult it, still log.
- The macros written with a `Tensor::` namespace are modelled as their
  `trantor::` equivalents.

Two kinds of call carry their text differently:

- A record's buffer reaches the manager with its length, so it is passed
  whole.
- The free functions pass `fmt::format(...).c_str()`, so the manager sees
  the formatted text only up to its first NUL. The same truncation applies
  to everything `MarkLogger::output` prints.

## Model

| member | source | states |
|---|---|---|
| Levels.Rank | trantor/utils/Logger.h:35-44 | a level's number is its position in the declaration order `kTrace` (0) … `kFatal` (5), below `kNumberOfLogLevels` (6) |
| Levels.FromRank | trantor/utils/Logger.h:35-44 | every number below 6 is the number of some level |
| Levels.RankRoundTrip | trantor/utils/Logger.h:35-44 | the levels are numbered without gaps or repeats |
| Levels.Le | trantor/utils/Logger.h:35-44 | `a <= b` holds exactly when `a` is among the levels declared up to and including `b` |
| Levels.LeIsTotalOrder | trantor/utils/Logger.h:35-44 | `<=` on levels is reflexive, antisymmetric, transitive and total |
| Levels.AdmitsLevels | trantor/utils/Logger.h:35-44 | a threshold set to a level admits exactly the levels at or above it; the threshold `kNumberOfLogLevels` admits none; `kTrace` admits all |
| Levels.Tag | trantor/utils/Logger.cc:71-78 | a level's tag has 7 characters and starts and ends with a space |
| Levels.TagTable | trantor/utils/Logger.cc:71-78 | the table has one 7-character entry per level, and different levels have different tags |
| CStrings.CStr | trantor/utils/Logger.h:65-73 | the C string at a memory is the prefix before the first NUL, and holds no NUL |
| SourceFiles.LastIndexOf | trantor/utils/Logger.h:57-58 | `strrchr`: the index of the last `'/'`, or -1, with no `'/'` after it |
| SourceFiles.Basename | trantor/utils/Logger.h:57-61 | a suffix of the path with no `'/'`, right after the last `'/'`; the whole path when there is no `'/'` |
| SourceFiles.BasenameIdempotent | trantor/utils/Logger.h:67-72 | the basename of a basename is itself |
| SourceFiles.FromLiteral | trantor/utils/Logger.h:53-63 | `data_` is the basename of the literal; `size_` is `N - 1` minus the skipped prefix |
| SourceFiles.FromCString | trantor/utils/Logger.h:65-73 | `data_` is the basename of the C string; `size_` is its `strlen` |
| SourceFiles.LiteralAgreesWithRuntime | trantor/utils/Logger.h:53-73 | for a literal without an inner NUL, both constructors give the same offset, size and text |
| Decimal.NatToString | trantor/utils/Logger.cc:167-171 | the thread id prints as a non-empty string of digits with no leading zero |
| Decimal.ParseNatToString | trantor/utils/Logger.cc:167-171 | the printed thread id reads back as the id |
| Decimal.IntToString | trantor/utils/LoggerManager.cc:58-62 | a line number prints as integer text, with a leading `-` exactly when it is negative |
| Decimal.ParseIntToString | trantor/utils/LoggerManager.cc:58-62 | the printed number reads back as the number |
| LineFormat.FileLine | trantor/utils/LoggerManager.cc:58-62 | the file suffix is empty exactly when there is no file or `line == -1`; otherwise it is parenthesised and at least 4 characters longer than the file name |
| LineFormat.FileLineShape | trantor/utils/LoggerManager.cc:58-62 | a non-empty suffix is `"(" + file + ":" + n + ")"`, where `n` reads back as the line |
| LineFormat.FuncName | trantor/utils/LoggerManager.cc:63-66 | the function prefix is empty exactly when there is no function name; otherwise it is 4 characters longer than the name |
| LineFormat.FuncNameShape | trantor/utils/LoggerManager.cc:63-66 | a non-empty prefix is `"[" + func + "]: "` |
| LineFormat.ComposeLine | trantor/utils/LoggerManager.cc:67-71 | the line's length is the prefix's, plus the message's, plus one for the space, plus the suffix's, plus one when the newline flag is set |
| LineFormat.ComposeLineEmbedsMessage | trantor/utils/LoggerManager.cc:67-71 | the line starts with the function prefix; the message follows whole, then a space and the file suffix |
| LineFormat.ComposeLineNewline | trantor/utils/LoggerManager.cc:67-71 | the line ends in `"\n"` exactly when the newline flag is set |
| LineFormat.MarkLine | trantor/utils/Logger.cc:167-171 | the printed line is 14 characters longer than the timestamp, the printed id and the message up to its first NUL together |
| LineFormat.MarkLineLayout | trantor/utils/Logger.cc:167-171 | the printed line is `ts + " [" + tag + "] " + tid + " - " + msg`, with `msg` up to its first NUL and `tid` reading back as the thread id |
| LineFormat.CachedTid | trantor/utils/Logger.cc:128-166 | the id after one call is 0 exactly when both the cached id and the platform id are 0; a non-zero cached id is kept |
| LineFormat.TidAfter | trantor/utils/Logger.cc:128-166 | after a run of calls the id is 0 exactly when it started at 0 and every platform id was 0 |
| LineFormat.TidAfterAppend | trantor/utils/Logger.cc:128-156 | the cached id after two runs of calls is the id after the first run, carried through the second |
| LineFormat.TidStable | trantor/utils/Logger.cc:163-166 | once the cached id is non-zero, no later call changes it |
| LineFormat.TidSettles | trantor/utils/Logger.cc:163-166 | once some calls have set the id, all later calls keep it |
| Manager.DefaultLevel | trantor/utils/LoggerManager.cc:9-14 | `level_` starts at `kTrace` exactly when `NDEBUG` is unset, else at `kInfo`: it always admits `kInfo`, and admits `kDebug` only without `NDEBUG` |
| Manager.SinkOutputEvents | trantor/utils/LoggerManager.cc:48-74 | one sink `output` of the text comes first; a `MarkLogger` sink adds exactly one `print` of its own |
| Manager.ManagerOutputEvents | trantor/utils/LoggerManager.cc:48-74 | no call exactly when there is no sink; otherwise the first call is an `output` to the active sink at the caller's level |
| Manager.ManagerOutputProtocol | trantor/utils/LoggerManager.cc:48-74 | no sink: no call. With a sink: exactly one sink `output`, first, with the caller's level and the message whole; no flush |
| Manager.ThreadContext.constructor | trantor/utils/Logger.cc:124 | the thread-local `tid` starts at 0 |
| Manager.ThreadContext.SetTid | trantor/utils/Logger.cc:128-156 | the platform id is taken only while `tid` is 0; a set id is kept |
| Manager.LoggerManager.constructor | trantor/utils/LoggerManager.cc:37-45 | after start-up, the default formatting sink is active and has been set up once, and `level_` has its default |
| Manager.LoggerManager.SetLoggerImplement | trantor/utils/Logger.h:297-309 | the new sink becomes active, then gets one `setup()` call, and is returned; nothing else changes |
| Manager.LoggerManager.SetLevel | trantor/utils/Logger.h:311-314 | sets `level_` to any enumerator, `kNumberOfLogLevels` included, and changes nothing else |
| Manager.LoggerManager.GetLevel | trantor/utils/Logger.h:323-326 | returns `level_` |
| Manager.TidAfterOutput | trantor/utils/LoggerManager.cc:48-74 | a non-zero cached id is kept; the id stays 0 exactly when it was 0 and either no `MarkLogger` sink is active or the platform id is 0 |
| Manager.LoggerManager.Output | trantor/utils/LoggerManager.cc:48-74 | appends the calls `ManagerOutputProtocol` describes; the thread's cached id becomes `TidAfterOutput` of the old one |
| Manager.LoggerManager.MarkLoggerOutput | trantor/utils/Logger.cc:159-173 | fills the id cache if empty, then makes one `print` of the formatted line |
| Manager.LoggerManager.Flush | trantor/utils/Logger.h:328-331 | one `flush()` call on the active sink |
| Records.DefaultLogLevel | trantor/utils/Logger.h:106-114 | `logLevel_()` starts at `kTrace` exactly outside a `RELEASE` build, else at `kInfo`: it always admits `kInfo`, and admits `kDebug` only outside `RELEASE` |
| Records.LoggerStatics.constructor | trantor/utils/Logger.h:106-114 | the static threshold starts at its build default |
| Records.LoggerStatics.SetLogLevel | trantor/utils/Logger.h:90-93 | sets the record threshold to any enumerator, `kNumberOfLogLevels` included |
| Records.LoggerStatics.CurrentLogLevel | trantor/utils/Logger.h:100-103 | returns the record threshold |
| Records.SysErrText | trantor/utils/Logger.cc:102-105 | the errno text is empty exactly when `errno == 0`; otherwise it starts with `strerror(errno)` and is at least 11 characters longer |
| Records.SysErrTextShape | trantor/utils/Logger.cc:102-105 | the errno text is empty exactly when `errno == 0`; otherwise it is `strerror(e) + " (errno=" + n + ") "`, where `n` reads back as `e` |
| Records.FlushesOnFinish | trantor/utils/Logger.cc:115-116 | finishing flushes exactly for `kError` and `kFatal` |
| Records.FinishEvents | trantor/utils/Logger.cc:107-118 | finishing makes no call exactly when there is no sink; otherwise the manager's calls, followed by one `flush()` exactly when the level flushes |
| Records.FinishProtocol | trantor/utils/Logger.cc:107-118 | finishing: one `output`, first, with the record's level and composed line; then one `flush()` exactly when the level is `kError` or above |
| Records.Logger.constructor | trantor/utils/Logger.cc:79-84 | level `kInfo`, no function name, empty stream |
| Records.Logger.WithLevel | trantor/utils/Logger.cc:85-90 | the given level, no function name, empty stream |
| Records.Logger.WithFunc | trantor/utils/Logger.cc:91-96 | the given level and function name, empty stream |
| Records.Logger.SysErr | trantor/utils/Logger.cc:97-106 | level `kFatal`; the stream starts with the errno text |
| Records.Logger.Append | trantor/utils/Logger.cc:119-122 | the stream only grows at its end |
| Records.Logger.Finish | trantor/utils/Logger.cc:107-118 | appends exactly the calls `FinishProtocol` describes, marks the record finished, and leaves the thread's cached id at `TidAfterOutput` of the old one |
| Macros.PassesThreshold | trantor/utils/Logger.h:125-149 | a macro's level passes exactly when it is `kWarn` or above, or the threshold admits it |
| Macros.Constructs | trantor/utils/Logger.h:125-253 | `LOG_SYSERR` always builds a record; no `DLOG_*` form builds one under `NDEBUG`; no Trace, Debug or Info form builds one when the threshold does not admit its level |
| Macros.PlainMacroGating | trantor/utils/Logger.h:125-149 | `LOG_TRACE/DEBUG/INFO` build a record exactly when the threshold admits their level (never `LOG_TRACE` under `NDEBUG`); `LOG_WARN/ERROR/FATAL/SYSERR` always build one |
| Macros.ConditionalMacroGating | trantor/utils/Logger.h:151-253 | `_IF(cond)` forms add the condition; `DLOG_*` forms build nothing under `NDEBUG` and otherwise gate like `LOG_*` |
| Macros.TopThresholdGating | trantor/utils/Logger.h:125-253 | at threshold `kNumberOfLogLevels` no Trace, Debug or Info form builds a record, while `LOG_WARN/ERROR/FATAL/SYSERR` still do and `LOG_WARN/ERROR/FATAL_IF` follow their condition |
| Macros.RecordLevel | trantor/utils/Logger.h:125-149 | a record's level is `kFatal` exactly for `LOG_SYSERR` and the Fatal forms; otherwise it is the macro's level |
| Macros.RecordFunc | trantor/utils/Logger.h:125-139 | a record carries a function name exactly for the Trace and Debug forms, and the name is `__func__` |
| Macros.InitialBuffer | trantor/utils/Logger.cc:97-106 | the stream starts empty except for `LOG_SYSERR` with a non-zero `errno` |
| Macros.StatementEvents | trantor/utils/Logger.h:125-253 | a statement makes no call exactly when it builds no record or no sink is active |
| Macros.FilteredStatementIsSilent | trantor/utils/Logger.h:125-149 | a statement that builds no record makes no sink call |
| Macros.EnabledStatementProtocol | trantor/utils/Logger.h:125-253 | a statement that builds a record makes no call without a sink; with one it makes one `output`, first, at the record's level, carrying the line composed from its initial and streamed text, the basename of `__FILE__`, the line and the function name; then one `flush()` exactly for `kError` and above |
| Macros.ServerCppBasename | trantor/utils/Logger.h:53-63 | the literal `"server.cpp"` is NUL-terminated and has itself as basename |
| Macros.StartedLine | trantor/utils/LoggerManager.cc:58-71 | text `started`, file `server.cpp`, line 42 and no function name compose to `"started (server.cpp:42)\n"` |
| Macros.InfoStatementLine | trantor/utils/Logger.h:140-142 | a `LOG_INFO` that passes its guard outputs, at `kInfo`, the streamed text with the basename and line and no function name |
| Macros.DebugSilentAtInfo | trantor/utils/Logger.h:136-139 | at threshold `kInfo`, `LOG_DEBUG` makes no sink call |
| Macros.InfoStartedAtInfo | trantor/utils/Logger.h:140-142 | at threshold `kInfo`, `LOG_INFO << "started"` at line 42 of a file whose basename is server.cpp outputs `"started (server.cpp:42)\n"` |
| Macros.NewRecord | trantor/utils/Logger.h:125-149 | each macro picks the constructor with its level, and a function name for Trace and Debug only |
| Macros.EmitRecord | trantor/utils/Logger.cc:107-122 | a built record's life adds the finishing calls for its initial text followed by the caller's text; the thread's cached id becomes `TidAfterOutput` of the old one |
| Macros.LogStatement | trantor/utils/Logger.h:125-253 | a whole statement appends exactly what its guard (read on entry) and record make; the thread's cached id changes as `TidAfterOutput` says when a record is built, and not otherwise |
| FreeFunctions.FileArg | trantor/utils/Logger.h:354-367 | the file name reaches the manager as a C string, or as nothing when it is null |
| FreeFunctions.FreeEvents | trantor/utils/Logger.h:342-368 | no call exactly when `getLevel()` does not admit the level or there is no sink; otherwise the first call is an `output` at the function's level |
| FreeFunctions.FreeFunctionProtocol | trantor/utils/Logger.h:342-368 | below `getLevel()`: no call, and the threshold `kNumberOfLogLevels` silences all six functions. At or above it: one `output` at the function's level carrying the formatted text (up to its first NUL), or nothing when there is no sink. Never a flush |
| FreeFunctions.PlainOverloadLine | trantor/utils/Logger.h:343-353 | the unlocated overload's line is the text, a space, then the newline |
| FreeFunctions.LocatedOverloadLine | trantor/utils/Logger.h:354-390 | the located overload (and `TRANTOR_*`) outputs the text up to its first NUL, a space, then `"(<file>:<line>)"` with the file name up to its first NUL, unless the line is -1, then `"\n"` |
| FreeFunctions.LogPlain | trantor/utils/Logger.h:343-353 | checks the level against `getLevel()`, then appends what `FreeFunctionProtocol` describes; the thread's cached id changes as `TidAfterOutput` says when the level passes, and not otherwise |
| FreeFunctions.LogAt | trantor/utils/Logger.h:354-367 | as `LogPlain`, passing the file name and line on, with the same effect on the thread's cached id |

## Left out

- `LogStream` internals: the stream is an append-only string.
- `Date::now()`, its formatting, and the unused `lastSecond_` / `lastTimeString_`: the timestamp is an opaque string parameter.
- `fmt::format` of user format strings: the formatted text is an input.
- `errno` and `strerror_tl`: an integer parameter and an uninterpreted function from integers to strings.
- The platform thread-id calls (`SYS_gettid`, `pthread_getthreadid_np`, `getthrid`, `std::this_thread`): the id is a parameter.
- `SimpleStdoutLogger`'s `fwrite` / `fflush` and its mutex: `print` and `flush` are events in the log.
- `shared_ptr` lifetimes, and swapping sinks while other threads log: the model is sequential and has one thread context per call.
- `AsyncFileLogger` and the test drivers: their sink is not part of this model.
- Preprocessor mechanics (`TRANTOR_INLINE`, the template line parameter, `__func__`): `NDEBUG` and `RELEASE` are boolean parameters, and `__FILE__`, `__LINE__` and `__func__` are arguments.
- Integer widths: `int` line numbers, `int` sizes and the `uint64_t` thread id are unbounded; no wrap-around is modelled.
- SourceFiles.FromLiteral: with a NUL inside the literal, `size_` counts to the array's end while `data_` stops at the NUL; the model keeps that, but proves agreement with the runtime constructor only for literals without an inner NUL.
- Manager.LoggerManager.Flush: the source dereferences `implement_` unchecked; the model requires a sink instead of modelling the crash.
- Records.Logger.Finish: for `kError` and above it requires a sink, for the same reason.
- Sinks other than `MarkLogger` subclasses: their `output` is recorded as a call, and what they do with the line is not modelled.
