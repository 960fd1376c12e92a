/**
 * The text a finished record becomes: the line `LoggerManager::output`
 * composes, the line `MarkLogger::output` prints, and the thread-local
 * thread id cached for the latter.
 */
module LineFormat {
  import opened Options
  import opened CStrings
  import opened Decimal
  import opened Levels

  /** `"(<file>:<line>)"` when a file is given and `line != -1`, else empty. */
  function FileLine(file: Option<string>, line: int): (r: string)
    ensures r == "" <==> file.None? || line == -1
    ensures r != "" ==> |r| >= |file.value| + 4 && r[0] == '(' && r[|r| - 1] == ')'
  {
    if file.Some? && line != -1 then "(" + file.value + ":" + IntToString(line) + ")" else ""
  }

  /** `"[<func>]: "` when a function name is given, else empty. */
  function FuncName(func: Option<string>): (r: string)
    ensures r == "" <==> func.None?
    ensures func.Some? ==> |r| == |func.value| + 4
  {
    if func.Some? then "[" + func.value + "]: " else ""
  }

  /** The manager's line: function prefix, message, a space, file suffix, optional newline. */
  function ComposeLine(msg: string, file: Option<string>, line: int, func: Option<string>, newline: bool): (r: string)
    ensures |r| == |FuncName(func)| + |msg| + 1 + |FileLine(file, line)| + (if newline then 1 else 0)
  {
    FuncName(func) + msg + " " + FileLine(file, line) + (if newline then "\n" else "")
  }

  /**
   * A non-empty suffix is parenthesised and holds the file name and a line
   * number that reads back as the given line.
   */
  lemma FileLineShape(file: Option<string>, line: int)
    ensures file.Some? && line != -1 ==>
      var s, f := FileLine(file, line), file.value;
      && |s| >= |f| + 4
      && s[0] == '(' && s[1..|f| + 1] == f && s[|f| + 1] == ':' && s[|s| - 1] == ')'
      && IsIntText(s[|f| + 2..|s| - 1])
      && ParseInt(s[|f| + 2..|s| - 1]) == line
  {
    if file.Some? && line != -1 {
      var f := file.value;
      var n := IntToString(line);
      var s := FileLine(file, line);
      assert s == "(" + f + ":" + n + ")";
      assert s[1..|f| + 1] == f;
      assert s[|f| + 2..|s| - 1] == n;
      ParseIntToString(line);
    }
  }

  /** A non-empty prefix brackets the function name. */
  lemma FuncNameShape(func: Option<string>)
    ensures func.Some? ==>
      var p, f := FuncName(func), func.value;
      |p| == |f| + 4 && p[0] == '[' && p[1..|f| + 1] == f && p[|f| + 1..] == "]: "
  {
  }

  /** Slicing a five-part concatenation whose third part is one character. */
  lemma SplitParts(a: string, b: string, c: string, d: string, e: string)
    requires |c| == 1
    ensures var s := a + b + c + d + e;
      && |a| + |b| < |s|
      && s[..|a|] == a
      && s[|a|..|a| + |b|] == b
      && s[|a| + |b|] == c[0]
      && s[|a| + |b| + 1..|a| + |b| + 1 + |d|] == d
  {
    var s := a + b + c + d + e;
    assert s == a + (b + (c + (d + e)));
  }

  /**
   * The message appears unaltered and contiguous, right after the function
   * prefix, and is followed by a space and the file suffix.
   */
  lemma ComposeLineEmbedsMessage(msg: string, file: Option<string>, line: int, func: Option<string>, newline: bool)
    ensures var s, p, fl := ComposeLine(msg, file, line, func, newline), |FuncName(func)|, FileLine(file, line);
      && p + |msg| + 1 + |fl| <= |s|
      && s[..p] == FuncName(func)
      && s[p..p + |msg|] == msg
      && s[p + |msg|] == ' '
      && s[p + |msg| + 1..p + |msg| + 1 + |fl|] == fl
  {
    SplitParts(FuncName(func), msg, " ", FileLine(file, line), if newline then "\n" else "");
  }

  /** The line ends in a newline exactly when the flag is set. */
  lemma ComposeLineNewline(msg: string, file: Option<string>, line: int, func: Option<string>, newline: bool)
    ensures var s := ComposeLine(msg, file, line, func, newline);
      |s| > 0 && (s[|s| - 1] == '\n' <==> newline)
  {
    var fl := FileLine(file, line);
    var head := FuncName(func) + msg + " " + fl;
    var s := ComposeLine(msg, file, line, func, newline);
    if newline {
      assert s == head + "\n";
    } else {
      assert s == head;
      FileLineShape(file, line);
      if fl == "" {
        assert s == FuncName(func) + msg + " ";
      } else {
        assert s[|s| - 1] == fl[|fl| - 1];
      }
    }
  }

  /** `MarkLogger::output`'s text: `"<ts> [<tag>] <tid> - <msg>"`, msg read as a C string. */
  function MarkLine(now: string, level: LogLevel, tid: nat, msg: string): (r: string)
    ensures |r| == |now| + 14 + |NatToString(tid)| + |CStr(msg)|
  {
    now + " [" + Tag(level) + "] " + NatToString(tid) + " - " + CStr(msg)
  }

  /**
   * The printed text starts with the timestamp, carries the level's tag at a
   * fixed position, a thread id that reads back, and ends with the message
   * (all of it when it holds no NUL).
   */
  lemma MarkLineLayout(now: string, level: LogLevel, tid: nat, msg: string)
    ensures var s, n, m := MarkLine(now, level, tid, msg), |now|, |CStr(msg)|;
      && s[..n] == now
      && s[n..n + 2] == " [" && s[n + 2..n + 9] == Tag(level) && s[n + 9..n + 11] == "] "
      && AllDigits(s[n + 11..|s| - m - 3])
      && ParseNat(s[n + 11..|s| - m - 3]) == tid
      && s[|s| - m - 3..|s| - m] == " - "
      && s[|s| - m..] == CStr(msg)
      && (NUL !in msg ==> s[|s| - |msg|..] == msg)
  {
    var t := NatToString(tid);
    MarkParts(now, Tag(level), t, CStr(msg));
    ParseNatToString(tid);
    if NUL !in msg {
      CStrOfNulFree(msg);
    }
  }

  /** Slicing the `"{} [{}] {} - {}"` layout with a 7-character tag. */
  lemma MarkParts(now: string, tag: string, t: string, c: string)
    requires |tag| == 7
    ensures var s, n, m := now + " [" + tag + "] " + t + " - " + c, |now|, |c|;
      && |s| == n + 14 + |t| + m
      && s[..n] == now
      && s[n..n + 2] == " [" && s[n + 2..n + 9] == tag && s[n + 9..n + 11] == "] "
      && s[n + 11..|s| - m - 3] == t
      && s[|s| - m - 3..|s| - m] == " - "
      && s[|s| - m..] == c
  {
    var s := now + " [" + tag + "] " + t + " - " + c;
    assert s == now + (" [" + (tag + ("] " + (t + (" - " + c)))));
  }

  /** The thread-local `tid` after `setTid`: written only while it is still 0. */
  function CachedTid(tid: nat, osTid: nat): (r: nat)
    ensures r == 0 <==> tid == 0 && osTid == 0
    ensures tid != 0 ==> r == tid
  {
    if tid == 0 then osTid else tid
  }

  /** `tid` after a series of outputs on one thread, each seeing the platform id in `osTids`. */
  function TidAfter(tid: nat, osTids: seq<nat>): (r: nat)
    ensures r == 0 <==> tid == 0 && forall i :: 0 <= i < |osTids| ==> osTids[i] == 0
    decreases osTids
  {
    if osTids == [] then tid else TidAfter(CachedTid(tid, osTids[0]), osTids[1..])
  }

  lemma {:induction false} TidAfterAppend(tid: nat, a: seq<nat>, b: seq<nat>)
    ensures TidAfter(tid, a + b) == TidAfter(TidAfter(tid, a), b)
    decreases a
  {
    if a == [] {
      assert a + b == b;
    } else {
      assert (a + b)[1..] == a[1..] + b;
      TidAfterAppend(CachedTid(tid, a[0]), a[1..], b);
    }
  }

  /** Once non-zero, the cached id survives any number of further outputs. */
  lemma {:induction false} TidStable(tid: nat, osTids: seq<nat>)
    requires tid != 0
    ensures TidAfter(tid, osTids) == tid
    decreases osTids
  {
    if osTids != [] {
      TidStable(tid, osTids[1..]);
    }
  }

  /** After the first output that obtains a non-zero id, later outputs see that same id. */
  lemma TidSettles(tid: nat, before: seq<nat>, after: seq<nat>)
    requires TidAfter(tid, before) != 0
    ensures TidAfter(tid, before + after) == TidAfter(tid, before)
  {
    TidAfterAppend(tid, before, after);
    TidStable(TidAfter(tid, before), after);
  }
}
