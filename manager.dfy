/**
 * `LoggerManager`: the process-wide sink manager, the sinks it drives and
 * the thread-local thread id a formatting sink prints. Calls into sinks are
 * recorded, in order, in a ghost event log.
 */
module Manager {
  import opened Options
  import opened Levels
  import opened LineFormat

  /**
   * `MarkLogger` sinks (such as the default standard-output sink) format
   * every line and hand it to `print`; any other `AbstractLogger` handles
   * `output` itself, and the model sees only the call.
   */
  datatype SinkKind = MarkLogger | DirectLogger

  /** One sink object; `id` tells apart the objects `setLoggerImplement` creates. */
  datatype Sink = Sink(id: nat, kind: SinkKind)

  /** Calls made on sinks: `setup()`, `output(level, text)`, `flush()` and `MarkLogger::print`. */
  datatype Event =
    | Setup(sink: nat)
    | Output(sink: nat, level: LogLevel, text: string)
    | Flush(sink: nat)
    | Print(sink: nat, bytes: string)

  /** What an output call sees of the outside world: `Date::now()` rendered, and the platform thread id. */
  datatype Env = Env(now: string, osThreadId: nat)

  /** Initial `level_`: `kTrace` unless `NDEBUG` is defined, then `kInfo`. */
  function DefaultLevel(ndebug: bool): (t: Threshold)
    ensures Admits(t, Info) && !(ndebug && Admits(t, Debug))
    ensures t == Rank(Trace) <==> !ndebug
  {
    if ndebug then Rank(Info) else Rank(Trace)
  }

  /** The calls one sink `output` makes: the call itself, then a formatting sink's `print`. */
  function SinkOutputEvents(s: Sink, level: LogLevel, text: string, now: string, tid: nat): (evs: seq<Event>)
    ensures |evs| == (if s.kind == MarkLogger then 2 else 1)
    ensures evs[0] == Output(s.id, level, text)
    ensures forall i :: 0 < i < |evs| ==> evs[i].Print? && evs[i].sink == s.id
  {
    [Output(s.id, level, text)] + (if s.kind == MarkLogger then [Print(s.id, MarkLine(now, level, tid, text))] else [])
  }

  /** The calls `LoggerManager::output` makes: none without a sink, else one sink `output` of the composed line. */
  function ManagerOutputEvents(active: Option<Sink>, level: LogLevel, msg: string, file: Option<string>, line: int,
                               func: Option<string>, newline: bool, now: string, tid: nat): (evs: seq<Event>)
    ensures evs == [] <==> active.None?
    ensures active.Some? ==> evs[0].Output? && evs[0].sink == active.value.id && evs[0].level == level
  {
    if active.None? then []
    else SinkOutputEvents(active.value, level, ComposeLine(msg, file, line, func, newline), now, tid)
  }

  /** The thread's cached id after one manager `output`: only a `MarkLogger` sink fetches it. */
  function TidAfterOutput(active: Option<Sink>, tid: nat, osTid: nat): (r: nat)
    ensures tid != 0 ==> r == tid
    ensures r == 0 <==> tid == 0 && (active.None? || active.value.kind != MarkLogger || osTid == 0)
  {
    if active.Some? && active.value.kind == MarkLogger then CachedTid(tid, osTid) else tid
  }

  function CountOutputs(evs: seq<Event>): nat {
    if evs == [] then 0 else (if evs[0].Output? then 1 else 0) + CountOutputs(evs[1..])
  }

  function CountFlushes(evs: seq<Event>): nat {
    if evs == [] then 0 else (if evs[0].Flush? then 1 else 0) + CountFlushes(evs[1..])
  }

  lemma {:induction false} CountAppend(a: seq<Event>, b: seq<Event>)
    ensures CountOutputs(a + b) == CountOutputs(a) + CountOutputs(b)
    ensures CountFlushes(a + b) == CountFlushes(a) + CountFlushes(b)
  {
    if a == [] {
      assert a + b == b;
    } else {
      assert (a + b)[1..] == a[1..] + b;
      CountAppend(a[1..], b);
    }
  }

  /**
   * With a sink installed, `output` makes exactly one sink `output` call,
   * first, carrying the caller's level and a line that holds the message
   * unaltered; it never flushes. Without a sink it makes no call at all.
   */
  lemma ManagerOutputProtocol(active: Option<Sink>, level: LogLevel, msg: string, file: Option<string>, line: int,
                              func: Option<string>, newline: bool, now: string, tid: nat)
    ensures var evs := ManagerOutputEvents(active, level, msg, file, line, func, newline, now, tid);
      && (active.None? ==> evs == [])
      && (active.Some? ==>
            && CountOutputs(evs) == 1
            && CountFlushes(evs) == 0
            && evs[0].Output? && evs[0].sink == active.value.id && evs[0].level == level
            && var p := |FuncName(func)|;
               p + |msg| <= |evs[0].text| && evs[0].text[p..p + |msg|] == msg)
  {
    if active.Some? {
      var text := ComposeLine(msg, file, line, func, newline);
      SinkOutputCounts(active.value, level, text, now, tid);
      ComposeLineEmbedsMessage(msg, file, line, func, newline);
    }
  }

  /** One sink `output`, and a `print` for a formatting sink: never a flush. */
  lemma SinkOutputCounts(s: Sink, level: LogLevel, text: string, now: string, tid: nat)
    ensures CountOutputs(SinkOutputEvents(s, level, text, now, tid)) == 1
    ensures CountFlushes(SinkOutputEvents(s, level, text, now, tid)) == 0
  {
    var extra := if s.kind == MarkLogger then [Print(s.id, MarkLine(now, level, tid, text))] else [];
    assert |extra| <= 1 && (extra != [] ==> extra[0].Print? && extra[1..] == []);
    CountAppend([Output(s.id, level, text)], extra);
  }

  /** One thread's `thread_local uint64_t tid`, 0 until first obtained. */
  class ThreadContext {
    var tid: nat

    constructor ()
      ensures tid == 0
    {
      tid := 0;
    }

    /** `setTid`: asks the platform for the id only while `tid` is still 0. */
    method SetTid(osTid: nat)
      modifies this
      ensures tid == CachedTid(old(tid), osTid)
      ensures old(tid) != 0 ==> tid == old(tid)
    {
      if tid == 0 {
        tid := osTid;
      }
    }
  }

  class LoggerManager {
    /** `implement_`: the active sink, absent only before the installer has run. */
    var implement: Option<Sink>
    /** `level_`: the threshold of the free functions. */
    var level: Threshold
    /** `newline_`: whether composed lines end in "\n". */
    var newline: bool
    /** Identity the next sink object created will get. */
    var nextId: nat
    ghost var events: seq<Event>

    /**
     * Static initialisation followed by `DefaultLogManagerInstaller`: the
     * default standard-output sink is installed through `SetLoggerImplement`.
     */
    constructor (ndebug: bool)
      ensures level == DefaultLevel(ndebug) && newline
      ensures implement == Some(Sink(0, MarkLogger)) && nextId == 1
      ensures events == [Setup(0)]
    {
      implement := None;
      level := DefaultLevel(ndebug);
      newline := true;
      nextId := 0;
      events := [];
      new;
      var s := SetLoggerImplement(MarkLogger);
    }

    /** Creates a sink, makes it the active one, then calls its `setup()` once; returns it. */
    method SetLoggerImplement(kind: SinkKind) returns (s: Sink)
      modifies this
      ensures s == Sink(old(nextId), kind) && nextId == old(nextId) + 1
      ensures implement == Some(s)
      ensures events == old(events) + [Setup(s.id)]
      ensures level == old(level) && newline == old(newline)
    {
      s := Sink(nextId, kind);
      nextId := nextId + 1;
      implement := Some(s);
      events := events + [Setup(s.id)];
    }

    /** `setLevel`: any enumerator, `kNumberOfLogLevels` included. */
    method SetLevel(l: Threshold)
      modifies this
      ensures level == l
      ensures implement == old(implement) && newline == old(newline) && nextId == old(nextId)
      ensures events == old(events)
    {
      level := l;
    }

    method GetLevel() returns (l: Threshold)
      ensures l == level
    {
      l := level;
    }

    /**
     * `output(level, msg, file, line, func)`: composes the line and hands it
     * to the active sink, if there is one.
     */
    method Output(lvl: LogLevel, msg: string, file: Option<string>, line: int, func: Option<string>,
                  thread: ThreadContext, env: Env)
      modifies this`events, thread
      ensures events == old(events) + ManagerOutputEvents(implement, lvl, msg, file, line, func, newline,
                                                          env.now, CachedTid(old(thread.tid), env.osThreadId))
      ensures thread.tid == TidAfterOutput(implement, old(thread.tid), env.osThreadId)
    {
      if implement.Some? {
        var text := ComposeLine(msg, file, line, func, newline);
        var s := implement.value;
        ghost var expected := SinkOutputEvents(s, lvl, text, env.now, CachedTid(thread.tid, env.osThreadId));
        events := events + [Event.Output(s.id, lvl, text)];
        if s.kind == MarkLogger {
          MarkLoggerOutput(s, lvl, text, thread, env);
        }
        assert events == old(events) + expected;
      }
    }

    /**
     * `MarkLogger::output`: fetches the thread id if this thread has none
     * yet, then prints `"<ts> [<tag>] <tid> - <text>"` once.
     */
    method MarkLoggerOutput(s: Sink, lvl: LogLevel, text: string, thread: ThreadContext, env: Env)
      modifies this`events, thread
      ensures thread.tid == CachedTid(old(thread.tid), env.osThreadId)
      ensures events == old(events) + [Print(s.id, MarkLine(env.now, lvl, thread.tid, text))]
    {
      if thread.tid == 0 {
        thread.SetTid(env.osThreadId);
      }
      var message := MarkLine(env.now, lvl, thread.tid, text);
      events := events + [Print(s.id, message)];
    }

    /** `flush()`: forwards to the active sink (dereferenced without a check). */
    method Flush()
      requires implement.Some?
      modifies this`events
      ensures events == old(events) + [Event.Flush(implement.value.id)]
    {
      events := events + [Event.Flush(implement.value.id)];
    }
  }
}
