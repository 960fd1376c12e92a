/**
 * `Logger`: one log record. It is built at the call site, collects the
 * caller's text, and when it is finished (the C++ destructor) hands the text
 * to the manager and, for errors, forces a flush. Also the static threshold
 * `Logger::logLevel_()` that the `LOG_*` macros consult.
 */
module Records {
  import opened Options
  import opened Levels
  import opened Decimal
  import opened SourceFiles
  import opened LineFormat
  import opened Manager

  /** Initial `logLevel_()`: `kInfo` in a `RELEASE` build, `kTrace` otherwise. */
  function DefaultLogLevel(release: bool): (t: Threshold)
    ensures Admits(t, Info) && !(release && Admits(t, Debug))
    ensures t == Rank(Trace) <==> !release
  {
    if release then Rank(Info) else Rank(Trace)
  }

  /**
   * The static `logLevel_()` behind `Logger::setLogLevel` and
   * `Logger::logLevel`; like any `LogLevel` variable it can also hold
   * `kNumberOfLogLevels`.
   */
  class LoggerStatics {
    var logLevel: Threshold

    constructor (release: bool)
      ensures logLevel == DefaultLogLevel(release)
    {
      logLevel := DefaultLogLevel(release);
    }

    method SetLogLevel(l: Threshold)
      modifies this
      ensures logLevel == l
    {
      logLevel := l;
    }

    method CurrentLogLevel() returns (l: Threshold)
      ensures l == logLevel
    {
      l := logLevel;
    }
  }

  /** Text the system-error constructor puts first: `strerror(e) + " (errno=" + e + ") "` unless `e == 0`. */
  function SysErrText(errno: int, strerror: int -> string): (r: string)
    ensures r == "" <==> errno == 0
    ensures errno != 0 ==> |r| >= |strerror(errno)| + 11 && r[..|strerror(errno)|] == strerror(errno)
  {
    if errno != 0 then strerror(errno) + " (errno=" + IntToString(errno) + ") " else ""
  }

  /**
   * The prefix is empty exactly when `errno` is 0; otherwise it starts with
   * the error's description and carries a number that reads back as `errno`.
   */
  lemma SysErrTextShape(errno: int, strerror: int -> string)
    ensures SysErrText(errno, strerror) == "" <==> errno == 0
    ensures errno != 0 ==>
      var s, d := SysErrText(errno, strerror), strerror(errno);
      && |s| >= |d| + 10
      && s[..|d|] == d
      && s[|d|..|d| + 8] == " (errno="
      && s[|s| - 2..] == ") "
      && IsIntText(s[|d| + 8..|s| - 2])
      && ParseInt(s[|d| + 8..|s| - 2]) == errno
  {
    if errno != 0 {
      var d, n := strerror(errno), IntToString(errno);
      var s := SysErrText(errno, strerror);
      assert s == d + " (errno=" + n + ") ";
      assert s[..|d|] == d;
      assert s[|d| + 8..|s| - 2] == n;
      ParseIntToString(errno);
    }
  }

  /** Whether finishing a record at this level forces a flush: `kError` and `kFatal` only. */
  predicate FlushesOnFinish(level: LogLevel)
    ensures FlushesOnFinish(level) <==> level == Error || level == Fatal
  {
    Le(Error, level)
  }

  /** The calls finishing a record makes: the manager's `output`, then `flush()` for errors. */
  function FinishEvents(active: Option<Sink>, level: LogLevel, buffer: string, file: string, line: int,
                        func: Option<string>, newline: bool, now: string, tid: nat): (evs: seq<Event>)
    requires FlushesOnFinish(level) ==> active.Some?
    ensures |evs| == |ManagerOutputEvents(active, level, buffer, Some(file), line, func, newline, now, tid)|
                     + (if FlushesOnFinish(level) then 1 else 0)
    ensures evs == [] <==> active.None?
    ensures FlushesOnFinish(level) ==> evs[|evs| - 1] == Flush(active.value.id)
  {
    ManagerOutputEvents(active, level, buffer, Some(file), line, func, newline, now, tid) +
    (if FlushesOnFinish(level) then [Flush(active.value.id)] else [])
  }

  /**
   * With a sink installed, finishing a record makes exactly one sink
   * `output` call, first, with the record's level and a line that holds the
   * buffer unaltered and ends with `"(<file>:<line>)"` unless the line is -1;
   * then exactly one `flush()` when the level is `kError` or above and none
   * otherwise.
   */
  lemma FinishProtocol(active: Option<Sink>, level: LogLevel, buffer: string, file: string, line: int,
                       func: Option<string>, newline: bool, now: string, tid: nat)
    requires active.Some?
    ensures var evs := FinishEvents(active, level, buffer, file, line, func, newline, now, tid);
      && CountOutputs(evs) == 1
      && CountFlushes(evs) == (if FlushesOnFinish(level) then 1 else 0)
      && evs[0] == Output(active.value.id, level, ComposeLine(buffer, Some(file), line, func, newline))
      && (FlushesOnFinish(level) ==> evs[|evs| - 1] == Flush(active.value.id))
  {
    var out := ManagerOutputEvents(active, level, buffer, Some(file), line, func, newline, now, tid);
    var tail: seq<Event> := if FlushesOnFinish(level) then [Flush(active.value.id)] else [];
    ManagerOutputProtocol(active, level, buffer, Some(file), line, func, newline, now, tid);
    CountAppend(out, tail);
  }

  class Logger {
    const sourceFile: SourceFile
    const fileLine: int
    const level: LogLevel
    /** `func_`: null unless given. */
    const func: Option<string>
    /** The contents of `logStream_`. */
    var buffer: string
    /** Whether the record has been finished (destroyed). */
    var finished: bool

    ghost predicate Valid()
      reads this
    {
      sourceFile.WellFormed()
    }

    /** `Logger(file, line)`: level `kInfo`, no function name. */
    constructor (file: SourceFile, line: int)
      requires file.WellFormed()
      ensures Valid() && !finished
      ensures sourceFile == file && fileLine == line
      ensures level == Info && func == None && buffer == []
    {
      sourceFile, fileLine, level, func := file, line, Info, None;
      buffer, finished := [], false;
    }

    /** `Logger(file, line, level)`: the given level, no function name. */
    constructor WithLevel(file: SourceFile, line: int, lvl: LogLevel)
      requires file.WellFormed()
      ensures Valid() && !finished
      ensures sourceFile == file && fileLine == line
      ensures level == lvl && func == None && buffer == []
    {
      sourceFile, fileLine, level, func := file, line, lvl, None;
      buffer, finished := [], false;
    }

    /** `Logger(file, line, level, func)`: the given level and function name (a null `func` is `None`). */
    constructor WithFunc(file: SourceFile, line: int, lvl: LogLevel, fn: Option<string>)
      requires file.WellFormed()
      ensures Valid() && !finished
      ensures sourceFile == file && fileLine == line
      ensures level == lvl && func == fn && buffer == []
    {
      sourceFile, fileLine, level, func := file, line, lvl, fn;
      buffer, finished := [], false;
    }

    /**
     * `Logger(file, line, isSysErr)`: level `kFatal`; when `errno` is not 0
     * the stream starts with the error's description and number.
     */
    constructor SysErr(file: SourceFile, line: int, errno: int, strerror: int -> string)
      requires file.WellFormed()
      ensures Valid() && !finished
      ensures sourceFile == file && fileLine == line
      ensures level == Fatal && func == None
      ensures buffer == SysErrText(errno, strerror)
    {
      sourceFile, fileLine, level, func := file, line, Fatal, None;
      finished := false;
      if errno != 0 {
        buffer := strerror(errno) + " (errno=" + IntToString(errno) + ") ";
      } else {
        buffer := [];
      }
    }

    /** `stream() << text`: the stream only ever grows at its end. */
    method Append(text: string)
      requires !finished
      modifies this`buffer
      ensures buffer == old(buffer) + text
    {
      buffer := buffer + text;
    }

    /**
     * `~Logger`: one `LoggerManager::output` with the buffer, the basename,
     * the line and the function name, then `LoggerManager::flush()` when the
     * level is `kError` or above. A record is finished once.
     */
    method Finish(mgr: LoggerManager, thread: ThreadContext, env: Env)
      requires Valid() && !finished
      requires FlushesOnFinish(level) ==> mgr.implement.Some?
      modifies this`finished, mgr`events, thread
      ensures finished
      ensures thread.tid == TidAfterOutput(mgr.implement, old(thread.tid), env.osThreadId)
      ensures mgr.events == old(mgr.events) +
        FinishEvents(mgr.implement, level, buffer, sourceFile.Data(), fileLine, func, mgr.newline,
                     env.now, CachedTid(old(thread.tid), env.osThreadId))
    {
      mgr.Output(level, buffer, Some(sourceFile.Data()), fileLine, func, thread, env);
      if FlushesOnFinish(level) {
        mgr.Flush();
      }
      finished := true;
    }
  }
}
