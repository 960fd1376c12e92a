/**
 * The free functions `trace`, `debug`, `info`, `warn`, `error` and `fatal`
 * that `BUILD_LOGGER_FUNC` generates, in their two overloads: without a
 * location, and with a file name and a compile-time line. Each compares
 * the manager's threshold with its own level and, when it passes, hands
 * the formatted text to `LoggerManager::output`. The formatting itself is
 * the caller's: `formatted` is what `fmt::format` produced, and `.c_str()`
 * makes the manager see it only up to its first NUL.
 */
module FreeFunctions {
  import opened Options
  import opened CStrings
  import opened Decimal
  import opened Levels
  import opened LineFormat
  import opened Manager

  /** The file argument as the manager sees it: a C string, or none for a null pointer. */
  function FileArg(filename: Option<seq<char>>): (f: Option<string>)
    ensures f.Some? <==> filename.Some?
    ensures filename.Some? ==>
      NUL !in f.value && |f.value| <= |filename.value| && f.value == filename.value[..|f.value|]
  {
    if filename.Some? then Some(CStr(filename.value)) else None
  }

  /**
   * The sink calls one free-function call makes: nothing below the
   * threshold, otherwise those of one manager `output` with no function name.
   */
  function FreeEvents(threshold: Threshold, level: LogLevel, formatted: seq<char>, filename: Option<seq<char>>,
                      line: int, active: Option<Sink>, newline: bool, now: string, tid: nat): (evs: seq<Event>)
    ensures evs == [] <==> !Admits(threshold, level) || active.None?
    ensures evs != [] ==> evs[0].Output? && evs[0].level == level
  {
    if Admits(threshold, level) then
      ManagerOutputEvents(active, level, CStr(formatted), FileArg(filename), line, None, newline, now, tid)
    else []
  }

  /**
   * A call below the threshold makes no sink call. One that passes makes
   * none without a sink, and otherwise exactly one sink `output`, first,
   * at the function's level, whose line starts with the formatted text up
   * to its first NUL; it never flushes, whatever the level. The threshold
   * `kNumberOfLogLevels` silences all six functions.
   */
  lemma FreeFunctionProtocol(threshold: Threshold, level: LogLevel, formatted: seq<char>, filename: Option<seq<char>>,
                             line: int, active: Option<Sink>, newline: bool, now: string, tid: nat)
    ensures var evs := FreeEvents(threshold, level, formatted, filename, line, active, newline, now, tid);
      && (!Admits(threshold, level) || active.None? ==> evs == [])
      && (threshold == NumberOfLogLevels ==> evs == [])
      && CountFlushes(evs) == 0
      && (Admits(threshold, level) && active.Some? ==>
            && CountOutputs(evs) == 1
            && evs[0] == Output(active.value.id, level, evs[0].text)
            && var msg := CStr(formatted);
               |msg| <= |evs[0].text| && evs[0].text[..|msg|] == msg)
  {
    if Admits(threshold, level) {
      ManagerOutputProtocol(active, level, CStr(formatted), FileArg(filename), line, None, newline, now, tid);
    }
  }

  /**
   * The overload without a location composes `"<text> "` and the newline:
   * the file suffix is absent, but the space before it is not.
   */
  lemma PlainOverloadLine(threshold: Threshold, level: LogLevel, formatted: seq<char>, active: Sink,
                          newline: bool, now: string, tid: nat)
    requires Admits(threshold, level)
    ensures var evs := FreeEvents(threshold, level, formatted, None, -1, Some(active), newline, now, tid);
      |evs| >= 1 && evs[0] == Output(active.id, level, CStr(formatted) + " " + (if newline then "\n" else ""))
  {
    FileLineShape(None, -1);
  }

  /** The shape of a composed line with a file and no function name, as a predicate on the text. */
  predicate LocatedShape(t: string, text: string, filename: string, line: int) {
    var k := |text| + 1;
    && |t| >= k + 1 && t[..k] == text + " " && t[|t| - 1] == '\n'
    && (line == -1 ==> |t| == k + 1)
    && (line != -1 ==>
          var s := t[k..|t| - 1];
          && |s| >= |filename| + 4
          && s == "(" + filename + ":" + s[|filename| + 2..|s| - 1] + ")"
          && IsIntText(s[|filename| + 2..|s| - 1])
          && ParseInt(s[|filename| + 2..|s| - 1]) == line)
  }

  lemma LocatedLine(text: string, filename: string, line: int)
    ensures LocatedShape(ComposeLine(text, Some(filename), line, None, true), text, filename, line)
  {
    var k := |text| + 1;
    if line == -1 {
      assert ComposeLine(text, Some(filename), line, None, true) == text + " " + "\n";
    } else {
      var n := IntToString(line);
      var suffix := "(" + filename + ":" + n + ")";
      assert FileLine(Some(filename), line) == suffix;
      var t := text + " " + suffix + "\n";
      assert ComposeLine(text, Some(filename), line, None, true) == t;
      assert t[..k] == text + " ";
      assert t[k..|t| - 1] == suffix;
      assert suffix[|filename| + 2..|suffix| - 1] == n;
      ParseIntToString(line);
    }
  }

  /**
   * The located overload appends `"(<file>:<line>)"` unless the line is -1,
   * where only the space before it remains; the text and the file name are
   * each read up to their first NUL, as `c_str()` and `const char *` are.
   */
  lemma LocatedOverloadLine(threshold: Threshold, level: LogLevel, formatted: seq<char>, filename: seq<char>,
                            line: int, active: Sink, now: string, tid: nat)
    requires Admits(threshold, level)
    ensures var evs := FreeEvents(threshold, level, formatted, Some(filename), line, Some(active), true, now, tid);
      |evs| >= 1 && evs[0].Output? && evs[0].level == level && LocatedShape(evs[0].text, CStr(formatted), CStr(filename), line)
  {
    LocatedLine(CStr(formatted), CStr(filename), line);
  }

  /** `name(format_str, args...)`: the check `getLevel() <= level`, then `output(level, text)`. */
  method LogPlain(mgr: LoggerManager, level: LogLevel, formatted: seq<char>, thread: ThreadContext, env: Env)
    modifies mgr`events, thread
    ensures thread.tid == if Admits(mgr.level, level) then TidAfterOutput(mgr.implement, old(thread.tid), env.osThreadId)
                          else old(thread.tid)
    ensures mgr.events == old(mgr.events) + FreeEvents(mgr.level, level, formatted, None, -1, mgr.implement,
                                                      mgr.newline, env.now, CachedTid(old(thread.tid), env.osThreadId))
  {
    var threshold := mgr.GetLevel();
    if Admits(threshold, level) {
      mgr.Output(level, CStr(formatted), None, -1, None, thread, env);
    }
  }

  /** `name<line>(filename, format_str, args...)`: as `LogPlain`, passing the file name and line on. */
  method LogAt(mgr: LoggerManager, line: int, filename: Option<seq<char>>, level: LogLevel, formatted: seq<char>,
               thread: ThreadContext, env: Env)
    modifies mgr`events, thread
    ensures thread.tid == if Admits(mgr.level, level) then TidAfterOutput(mgr.implement, old(thread.tid), env.osThreadId)
                          else old(thread.tid)
    ensures mgr.events == old(mgr.events) + FreeEvents(mgr.level, level, formatted, filename, line, mgr.implement,
                                                      mgr.newline, env.now, CachedTid(old(thread.tid), env.osThreadId))
  {
    var threshold := mgr.GetLevel();
    if Admits(threshold, level) {
      mgr.Output(level, CStr(formatted), FileArg(filename), line, None, thread, env);
    }
  }
}
