/**
 * The `LOG_*` statement macros: which of them build a record (and so pay
 * any cost) under the current `Logger::logLevel()` and build flags, which
 * constructor each uses, and the sink calls a whole statement makes.
 */
module Macros {
  import opened Options
  import opened CStrings
  import opened Decimal
  import opened Levels
  import opened SourceFiles
  import opened LineFormat
  import opened Manager
  import opened Records

  /**
   * `LOG_<L>`, `LOG_<L>_IF(cond)`, `DLOG_<L>`, `DLOG_<L>_IF(cond)` and
   * `LOG_SYSERR`.
   */
  datatype Macro =
    | Log(level: LogLevel)
    | LogIf(level: LogLevel, cond: bool)
    | DLog(level: LogLevel)
    | DLogIf(level: LogLevel, cond: bool)
    | LogSysErr

  /** Trace, Debug and Info compare against `logLevel()`; Warn, Error and Fatal do not. */
  predicate PassesThreshold(l: LogLevel, threshold: Threshold)
    ensures PassesThreshold(l, threshold) <==> Le(Warn, l) || Admits(threshold, l)
  {
    match l
    case Trace | Debug | Info => Admits(threshold, l)
    case Warn | Error | Fatal => true
  }

  /** Whether the statement constructs a record. `NDEBUG` turns `LOG_TRACE` and every `DLOG_*` into `if (0)`. */
  predicate Constructs(m: Macro, threshold: Threshold, ndebug: bool)
    ensures m.LogSysErr? ==> Constructs(m, threshold, ndebug)
    ensures (m.DLog? || m.DLogIf?) && ndebug ==> !Constructs(m, threshold, ndebug)
    ensures !m.LogSysErr? && Le(m.level, Info) && !Admits(threshold, m.level) ==> !Constructs(m, threshold, ndebug)
  {
    match m
    case Log(l) => !(ndebug && l == Trace) && PassesThreshold(l, threshold)
    case LogIf(l, c) => PassesThreshold(l, threshold) && c
    case DLog(l) => !ndebug && PassesThreshold(l, threshold)
    case DLogIf(l, c) => !ndebug && PassesThreshold(l, threshold) && c
    case LogSysErr => true
  }

  /**
   * The plain macros: Trace, Debug and Info build a record exactly when the
   * threshold admits their level (Trace never under `NDEBUG`); Warn, Error,
   * Fatal and `LOG_SYSERR` always build one.
   */
  lemma PlainMacroGating(l: LogLevel, threshold: Threshold, ndebug: bool)
    ensures Le(l, Info) ==>
      (Constructs(Log(l), threshold, ndebug) <==> Admits(threshold, l) && !(ndebug && l == Trace))
    ensures Le(Warn, l) ==> Constructs(Log(l), threshold, ndebug)
    ensures Constructs(LogSysErr, threshold, ndebug)
  {
  }

  /** A conditional macro builds a record exactly when its plain twin would (ignoring `NDEBUG`) and the condition holds. */
  lemma ConditionalMacroGating(l: LogLevel, cond: bool, threshold: Threshold, ndebug: bool)
    ensures Constructs(LogIf(l, cond), threshold, ndebug) <==> cond && Constructs(Log(l), threshold, false)
    ensures Constructs(DLogIf(l, cond), threshold, ndebug) <==> !ndebug && cond && Constructs(Log(l), threshold, false)
    ensures Constructs(DLog(l), threshold, ndebug) <==> !ndebug && Constructs(Log(l), threshold, false)
  {
  }

  /**
   * The threshold `kNumberOfLogLevels` silences every Trace, Debug and Info
   * form, conditional and debug-only ones included, while the Warn, Error
   * and Fatal macros and `LOG_SYSERR` still build a record.
   */
  lemma TopThresholdGating(m: Macro, ndebug: bool)
    ensures !m.LogSysErr? && Le(m.level, Info) ==> !Constructs(m, NumberOfLogLevels, ndebug)
    ensures m.LogSysErr? || (m.Log? && Le(Warn, m.level)) ==> Constructs(m, NumberOfLogLevels, ndebug)
    ensures (m.LogIf? && Le(Warn, m.level)) ==> (Constructs(m, NumberOfLogLevels, ndebug) <==> m.cond)
  {
    if !m.LogSysErr? {
      AdmitsLevels(m.level, m.level);
    }
  }

  /** The record's level: the macro's, `kFatal` for `LOG_SYSERR`. */
  function RecordLevel(m: Macro): (r: LogLevel)
    ensures r == Fatal <==> m.LogSysErr? || m.level == Fatal
    ensures !m.LogSysErr? ==> r == m.level
  {
    if m.LogSysErr? then Fatal else m.level
  }

  /** Trace and Debug records carry `__func__`; the others use constructors without a function name. */
  function RecordFunc(m: Macro, func: string): (r: Option<string>)
    ensures r.Some? <==> !m.LogSysErr? && Le(m.level, Debug)
    ensures r.Some? ==> r.value == func
  {
    if !m.LogSysErr? && (m.level == Trace || m.level == Debug) then Some(func) else None
  }

  /** What the stream holds before the caller's text. */
  function InitialBuffer(m: Macro, errno: int, strerror: int -> string): (r: string)
    ensures r == "" <==> !m.LogSysErr? || errno == 0
  {
    if m.LogSysErr? then SysErrText(errno, strerror) else ""
  }

  /**
   * The calls a record built by `m` makes when it is finished: its level,
   * its initial text followed by the caller's, and its function name.
   */
  function RecordEvents(m: Macro, file: string, line: int, func: string, errno: int, strerror: int -> string,
                        content: string, active: Option<Sink>, newline: bool, now: string, tid: nat): seq<Event>
    requires FlushesOnFinish(RecordLevel(m)) ==> active.Some?
  {
    FinishEvents(active, RecordLevel(m), InitialBuffer(m, errno, strerror) + content, file, line,
                 RecordFunc(m, func), newline, now, tid)
  }

  /**
   * Sink calls a whole statement makes, `content` being what the caller
   * streams in. Only a record that flushes needs a sink.
   */
  function StatementEvents(m: Macro, threshold: Threshold, ndebug: bool, fileLiteral: seq<char>, line: int,
                           func: string, errno: int, strerror: int -> string, content: string,
                           active: Option<Sink>, newline: bool, now: string, tid: nat): (evs: seq<Event>)
    requires |fileLiteral| >= 1 && fileLiteral[|fileLiteral| - 1] == NUL
    requires Constructs(m, threshold, ndebug) && FlushesOnFinish(RecordLevel(m)) ==> active.Some?
    ensures evs == [] <==> !Constructs(m, threshold, ndebug) || active.None?
  {
    if Constructs(m, threshold, ndebug) then
      RecordEvents(m, FromLiteral(fileLiteral).Data(), line, func, errno, strerror, content, active, newline, now, tid)
    else []
  }

  /** A statement that builds a record makes exactly the calls finishing that record makes. */
  lemma StatementUnfold(m: Macro, threshold: Threshold, ndebug: bool, fileLiteral: seq<char>, line: int,
                        func: string, errno: int, strerror: int -> string, content: string,
                        active: Option<Sink>, newline: bool, now: string, tid: nat)
    requires |fileLiteral| >= 1 && fileLiteral[|fileLiteral| - 1] == NUL
    requires Constructs(m, threshold, ndebug) && FlushesOnFinish(RecordLevel(m)) ==> active.Some?
    requires Constructs(m, threshold, ndebug)
    ensures StatementEvents(m, threshold, ndebug, fileLiteral, line, func, errno, strerror, content,
                            active, newline, now, tid)
         == FinishEvents(active, RecordLevel(m), InitialBuffer(m, errno, strerror) + content,
                         FromLiteral(fileLiteral).Data(), line, RecordFunc(m, func), newline, now, tid)
  {
  }

  /**
   * Filtering: a statement that builds no record makes no sink call; in
   * particular a Trace, Debug or Info statement below the threshold.
   */
  lemma FilteredStatementIsSilent(m: Macro, threshold: Threshold, ndebug: bool, fileLiteral: seq<char>, line: int,
                                  func: string, errno: int, strerror: int -> string, content: string,
                                  active: Option<Sink>, newline: bool, now: string, tid: nat)
    requires |fileLiteral| >= 1 && fileLiteral[|fileLiteral| - 1] == NUL
    requires !Constructs(m, threshold, ndebug) || (!m.LogSysErr? && Le(m.level, Info) && !Admits(threshold, m.level))
    ensures StatementEvents(m, threshold, ndebug, fileLiteral, line, func, errno, strerror, content,
                            active, newline, now, tid) == []
  {
    assert !Constructs(m, threshold, ndebug);
  }

  /**
   * A statement that builds a record makes no call without a sink (its
   * level then is below `kError`). With one, it makes exactly one `output`
   * call, first, at the record's level, carrying the line composed from the
   * initial text and the caller's, the basename of `__FILE__`, the line and
   * the function name; and it flushes exactly when that level is `kError`
   * or above.
   */
  lemma EnabledStatementProtocol(m: Macro, threshold: Threshold, ndebug: bool, fileLiteral: seq<char>, line: int,
                                 func: string, errno: int, strerror: int -> string, content: string,
                                 active: Option<Sink>, newline: bool, now: string, tid: nat)
    requires |fileLiteral| >= 1 && fileLiteral[|fileLiteral| - 1] == NUL
    requires Constructs(m, threshold, ndebug) && FlushesOnFinish(RecordLevel(m)) ==> active.Some?
    requires Constructs(m, threshold, ndebug)
    ensures active.None? ==>
      StatementEvents(m, threshold, ndebug, fileLiteral, line, func, errno, strerror, content,
                      active, newline, now, tid) == []
    ensures active.Some? ==>
      var evs := StatementEvents(m, threshold, ndebug, fileLiteral, line, func, errno, strerror, content,
                                 active, newline, now, tid);
      && CountOutputs(evs) == 1
      && evs[0] == Output(active.value.id, RecordLevel(m),
                          ComposeLine(InitialBuffer(m, errno, strerror) + content,
                                      Some(Basename(CStr(fileLiteral))), line, RecordFunc(m, func), newline))
      && CountFlushes(evs) == (if FlushesOnFinish(RecordLevel(m)) then 1 else 0)
  {
    var lvl, buf, fn := RecordLevel(m), InitialBuffer(m, errno, strerror) + content, RecordFunc(m, func);
    var file := FromLiteral(fileLiteral).Data();
    StatementUnfold(m, threshold, ndebug, fileLiteral, line, func, errno, strerror, content,
                    active, newline, now, tid);
    if active.Some? {
      FinishProtocol(active, lvl, buf, file, line, fn, newline, now, tid);
    }
  }

  /** The text of the literal `"server.cpp"` holds neither a NUL nor a '/'. */
  lemma ServerCppHasNoSlash()
    ensures NUL !in "server.cpp" && Basename("server.cpp") == "server.cpp"
  {
    var s := "server.cpp";
    assert forall i :: 0 <= i < |s| ==> s[i] != '/' && s[i] != NUL;
  }

  /** `__FILE__` as `"server.cpp"`: NUL-terminated, and its own basename. */
  lemma ServerCppBasename()
    ensures var lit := "server.cpp" + [NUL];
      |lit| >= 1 && lit[|lit| - 1] == NUL && Basename(CStr(lit)) == "server.cpp"
  {
    ServerCppHasNoSlash();
    LiteralAgreesWithRuntime("server.cpp");
  }

  /** The line `LOG_INFO << "started"` composes at server.cpp line 42. */
  lemma StartedLine()
    ensures ComposeLine("started", Some("server.cpp"), 42, None, true) == "started (server.cpp:42)\n"
  {
    ServerCppLine42();
  }

  /** The file suffix for server.cpp line 42. */
  lemma ServerCppLine42()
    ensures FileLine(Some("server.cpp"), 42) == "(server.cpp:42)"
  {
    FortyTwoText();
  }

  lemma FortyTwoText()
    ensures IntToString(42) == "42"
  {
    assert NatToString(4) == "4";
  }

  /** `LOG_INFO << content` that passes its guard outputs the content with the file's basename and line. */
  lemma InfoStatementLine(threshold: Threshold, ndebug: bool, fileLiteral: seq<char>, fileName: string, line: int,
                          func: string, errno: int, strerror: int -> string, content: string,
                          active: Option<Sink>, newline: bool, now: string, tid: nat)
    requires |fileLiteral| >= 1 && fileLiteral[|fileLiteral| - 1] == NUL
    requires Basename(CStr(fileLiteral)) == fileName
    requires active.Some?
    requires Admits(threshold, Info)
    ensures var evs := StatementEvents(Log(Info), threshold, ndebug, fileLiteral, line, func, errno, strerror, content,
                                       active, newline, now, tid);
      |evs| >= 1 && evs[0] == Output(active.value.id, Info, ComposeLine(content, Some(fileName), line, None, newline))
  {
    assert InitialBuffer(Log(Info), errno, strerror) + content == content;
    assert RecordLevel(Log(Info)) == Info && RecordFunc(Log(Info), func) == None;
    EnabledStatementProtocol(Log(Info), threshold, ndebug, fileLiteral, line, func, errno, strerror, content,
                             active, newline, now, tid);
  }

  /** With the threshold at `kInfo`, a `LOG_DEBUG` statement at server.cpp line 42 makes no sink call. */
  lemma DebugSilentAtInfo(lit: seq<char>, active: Sink, now: string, tid: nat, strerror: int -> string)
    requires lit == "server.cpp" + [NUL]
    ensures StatementEvents(Log(Debug), Rank(Info), false, lit, 42, "main", 0, strerror, "x=1",
                            Some(active), true, now, tid) == []
  {
    var sink: Option<Sink> := Some(active);
    FilteredStatementIsSilent(Log(Debug), Rank(Info), false, lit, 42, "main", 0, strerror, "x=1",
                              sink, true, now, tid);
  }

  /**
   * With the threshold at `kInfo`, `LOG_INFO << "started"` at line 42 of a
   * `__FILE__` whose basename is server.cpp (such as the literal
   * `"server.cpp"`, by `ServerCppBasename`) outputs `"started (server.cpp:42)\n"`.
   */
  lemma InfoStartedAtInfo(lit: seq<char>, active: Sink, now: string, tid: nat, strerror: int -> string)
    requires |lit| >= 1 && lit[|lit| - 1] == NUL && Basename(CStr(lit)) == "server.cpp"
    ensures var evs := StatementEvents(Log(Info), Rank(Info), false, lit, 42, "main", 0, strerror,
                                       "started", Some(active), true, now, tid);
      |evs| >= 1 && evs[0] == Output(active.id, Info, "started (server.cpp:42)\n")
  {
    var sink: Option<Sink> := Some(active);
    InfoStatementLine(Rank(Info), false, lit, "server.cpp", 42, "main", 0, strerror, "started", sink, true, now, tid);
    StartedLine();
  }

  /** The constructor call a macro expands to. */
  method NewRecord(m: Macro, file: SourceFile, line: int, func: string, errno: int, strerror: int -> string)
    returns (record: Logger)
    requires file.WellFormed()
    ensures fresh(record) && record.Valid() && !record.finished
    ensures record.sourceFile == file && record.fileLine == line
    ensures record.level == RecordLevel(m) && record.func == RecordFunc(m, func)
    ensures record.buffer == InitialBuffer(m, errno, strerror)
  {
    if m.LogSysErr? {
      record := new Logger.SysErr(file, line, errno, strerror);
    } else if m.level == Trace || m.level == Debug {
      record := new Logger.WithFunc(file, line, m.level, Some(func));
    } else if m.level == Info {
      record := new Logger(file, line);
    } else {
      record := new Logger.WithLevel(file, line, m.level);
    }
  }

  /** A constructed record's life: `new`, the caller's `<<`, the destructor. */
  method EmitRecord(m: Macro, mgr: LoggerManager, thread: ThreadContext, file: SourceFile, line: int, func: string,
                    errno: int, strerror: int -> string, content: string, env: Env)
    requires file.WellFormed()
    requires FlushesOnFinish(RecordLevel(m)) ==> mgr.implement.Some?
    modifies mgr`events, thread
    ensures thread.tid == TidAfterOutput(mgr.implement, old(thread.tid), env.osThreadId)
    ensures mgr.events == old(mgr.events) +
      RecordEvents(m, file.Data(), line, func, errno, strerror, content, mgr.implement, mgr.newline, env.now,
                   CachedTid(old(thread.tid), env.osThreadId))
  {
    var record := NewRecord(m, file, line, func, errno, strerror);
    record.Append(content);
    record.Finish(mgr, thread, env);
  }

  /**
   * One `LOG_*` statement as the preprocessor expands it: the guard, then
   * the record's whole life. `fileLiteral` is `__FILE__` with its NUL,
   * `func` is `__func__`.
   */
  method LogStatement(m: Macro, ndebug: bool, statics: LoggerStatics, mgr: LoggerManager, thread: ThreadContext,
                      fileLiteral: seq<char>, line: int, func: string, errno: int, strerror: int -> string,
                      content: string, env: Env)
    requires |fileLiteral| >= 1 && fileLiteral[|fileLiteral| - 1] == NUL
    requires Constructs(m, statics.logLevel, ndebug) && FlushesOnFinish(RecordLevel(m)) ==> mgr.implement.Some?
    modifies mgr`events, thread
    ensures thread.tid == if Constructs(m, old(statics.logLevel), ndebug)
                          then TidAfterOutput(mgr.implement, old(thread.tid), env.osThreadId) else old(thread.tid)
    ensures mgr.events == old(mgr.events) +
      StatementEvents(m, old(statics.logLevel), ndebug, fileLiteral, line, func, errno, strerror, content,
                      mgr.implement, mgr.newline, env.now, CachedTid(old(thread.tid), env.osThreadId))
  {
    var threshold := statics.CurrentLogLevel();
    ghost var tid := CachedTid(thread.tid, env.osThreadId);
    if Constructs(m, threshold, ndebug) {
      var file := FromLiteral(fileLiteral);
      EmitRecord(m, mgr, thread, file, line, func, errno, strerror, content, env);
    }
  }
}
