/*
 * src/log.c: pkcs11_logger_log, which picks the sinks for each line and
 * keeps the log-file handle, and the helpers that render one kind of
 * argument each.
 */
module Log {
  import opened LoggerDefs
  import opened Format
  import opened Translate

  // ---------------------------------------------------------------------
  // pkcs11_logger_log: specification
  // ---------------------------------------------------------------------

  function ConfigOf(core: CoreState): LogConfig {
    LogConfig(core.flags, core.envVarsRead, core.logFilePath)
  }

  /** The `%0#10x : ` process id and `%0#18lx : ` thread id prefixes, each unless disabled. */
  function Prefix(flags: nat, host: Host): string {
    (if HasFlag(flags, DISABLE_PROCESS_ID) then "" else host.pidText + " : ")
    + (if HasFlag(flags, DISABLE_THREAD_ID) then "" else host.tidText + " : ")
  }

  /** The text a sink receives for one message. */
  function Line(flags: nat, host: Host, msg: string): string {
    Prefix(flags, host) + msg
  }

  /** Whether a line tries to open the log file: logging to the file is on, a path is set and no handle is open. */
  predicate OpensFile(s: SinkState, c: LogConfig) {
    !HasFlag(c.flags, DISABLE_LOG_FILE) && c.logFilePath.Some? && s.logFileHandle.None?
  }

  /** Step 1: fopen(path, "a") when OpensFile; it succeeds exactly on a writable path. */
  function OpenStep(s: SinkState, c: LogConfig, host: Host): SinkState {
    if OpensFile(s, c) && c.logFilePath.value in host.writable then
      s.(logFileHandle := Some(s.nextHandle), nextHandle := s.nextHandle + 1,
         file := s.file + [Open(c.logFilePath.value, s.nextHandle)])
    else s
  }

  /** Step 2: the three destinations. */
  function WriteStep(s: SinkState, c: LogConfig, host: Host, msg: string): SinkState {
    var line := Line(c.flags, host, msg);
    var toFile := !HasFlag(c.flags, DISABLE_LOG_FILE) && s.logFileHandle.Some?;
    var toStdout := HasFlag(c.flags, ENABLE_STDOUT);
    var toStderr := HasFlag(c.flags, ENABLE_STDERR) || !c.envVarsRead;
    s.(file := if toFile then s.file + [Write(s.logFileHandle.value, line)] else s.file,
       stdout := if toStdout then s.stdout + [line] else s.stdout,
       stderr := if toStderr then s.stderr + [line] else s.stderr)
  }

  /** Step 3: CALL_N_CLEAR(fclose, handle) with ENABLE_FCLOSE, otherwise fflush of an open handle. */
  function CleanupStep(s: SinkState, c: LogConfig): SinkState {
    if HasFlag(c.flags, ENABLE_FCLOSE) then
      var cleared := CallNClear(s.logFileHandle);
      s.(file := s.file + (match s.logFileHandle case Some(h) => [Close(h)] case None => []),
         logFileHandle := cleared.pointer)
    else if s.logFileHandle.Some? then
      s.(file := s.file + [Flush(s.logFileHandle.value)])
    else s
  }

  /**
   * One call of pkcs11_logger_log with the configuration c. The steps start
   * from LogLines(s, c, host, []), which is s itself; writing it that way puts
   * LogLine in one recursive group with LogLines, so a proof sees the steps
   * of a line only where it asks for them.
   */
  function LogLine(s: SinkState, c: LogConfig, host: Host, msg: string): SinkState
    decreases 1, 0
  {
    CleanupStep(WriteStep(OpenStep(LogLines(s, c, host, []), c, host), c, host, msg), c)
  }

  /** Several calls in a row, with the configuration unchanged. */
  function LogLines(s: SinkState, c: LogConfig, host: Host, msgs: seq<string>): SinkState
    decreases |msgs|, 1
  {
    if msgs == [] then s
    else LogLine(LogLines(s, c, host, msgs[..|msgs| - 1]), c, host, msgs[|msgs| - 1])
  }

  /** One more message is one more LogLine step. */
  lemma LogLinesSnoc(s: SinkState, c: LogConfig, host: Host, msgs: seq<string>, msg: string)
    ensures LogLines(s, c, host, msgs + [msg]) == LogLine(LogLines(s, c, host, msgs), c, host, msg)
  {
    assert (msgs + [msg])[..|msgs|] == msgs;
  }

  /**
   * With the configuration unchanged, the sinks after more messages are the
   * sinks after the earlier ones, taken further by the new ones.
   */
  lemma LogLinesFrom(s: SinkState, c: LogConfig, host: Host, t: seq<string>, since: nat, t0: seq<string>)
    requires since <= |t0| && t0 <= t
    ensures LogLines(s, c, host, t[since..]) == LogLines(LogLines(s, c, host, t0[since..]), c, host, t[|t0|..])
  {
    assert t[since..] == t0[since..] + t[|t0|..];
    LogLinesAppend(s, c, host, t0[since..], t[|t0|..]);
  }

  lemma {:induction false} LogLinesAppend(s: SinkState, c: LogConfig, host: Host, a: seq<string>, b: seq<string>)
    ensures LogLines(s, c, host, a + b) == LogLines(LogLines(s, c, host, a), c, host, b)
    decreases |b|
  {
    if b == [] {
      assert a + b == a;
    } else {
      assert (a + b)[..|a + b| - 1] == a + b[..|b| - 1];
      assert (a + b)[|a + b| - 1] == b[|b| - 1];
      LogLinesAppend(s, c, host, a, b[..|b| - 1]);
    }
  }

  /**
   * The sinks are what logging every message since the configuration last
   * changed, with the current configuration, made of the sinks as they were
   * then; those messages are the end of the trace from `since` on.
   */
  ghost predicate Valid(g: Globals)
    reads g`logFileHandle, g`nextFileHandle, g`logFile, g`stdout, g`stderr
    reads g`flags, g`envVarsRead, g`envVarLogFilePath, g`base, g`since, g`trace
  {
    && g.since <= |g.trace|
    && g.Sinks() == LogLines(g.base, g.Config(), g.host, g.trace[g.since..])
  }

  // ---------------------------------------------------------------------
  // pkcs11_logger_log: the imperative operation
  // ---------------------------------------------------------------------

  /**
   * pkcs11_logger_log(message). The flags, the path and env_vars_read are
   * read from the globals; only the handle and the sinks change. The three
   * stages of the C function are the three helpers below.
   */
  method Log(g: Globals, msg: string)
    requires Valid(g)
    modifies g`logFileHandle, g`nextFileHandle, g`logFile, g`stdout, g`stderr, g`trace
    ensures Valid(g) && g.trace == old(g.trace) + [msg]
    ensures g.Core() == old(g.Core())
  {
    ghost var p := g.trace[g.since..];
    WriteMessage(g, msg);
    g.trace := g.trace + [msg];
    assert g.trace[g.since..] == p + [msg];
    LogLinesSnoc(g.base, g.Config(), g.host, p, msg);
  }

  /** The three stages in order: the sinks take one LogLine step. */
  method WriteMessage(g: Globals, msg: string)
    modifies g`logFileHandle, g`nextFileHandle, g`logFile, g`stdout, g`stderr
    ensures g.Sinks() == LogLine(old(g.Sinks()), g.Config(), g.host, msg)
    ensures g.Core() == old(g.Core())
  {
    ghost var s0 := g.Sinks();
    OpenLogFile(g);
    WriteLine(g, msg);
    Cleanup(g);
    assert LogLines(s0, g.Config(), g.host, []) == s0;
  }

  /** "Open log file": fopen in append mode, only when no handle is open. */
  method OpenLogFile(g: Globals)
    modifies g`logFileHandle, g`nextFileHandle, g`logFile, g`stdout, g`stderr
    ensures g.Sinks() == OpenStep(old(g.Sinks()), g.Config(), g.host)
  {
    var disableLogFile := HasFlag(g.flags, DISABLE_LOG_FILE);
    if !disableLogFile && g.envVarLogFilePath.Some? && g.logFileHandle.None? {
      if g.envVarLogFilePath.value in g.host.writable {
        g.logFileHandle := Some(g.nextFileHandle);
        g.logFile := g.logFile + [Open(g.envVarLogFilePath.value, g.nextFileHandle)];
        g.nextFileHandle := g.nextFileHandle + 1;
      }
    }
  }

  /** "Log to file", "Log to stdout", "Log to stderr". */
  method WriteLine(g: Globals, msg: string)
    modifies g`logFileHandle, g`nextFileHandle, g`logFile, g`stdout, g`stderr
    ensures g.Sinks() == WriteStep(old(g.Sinks()), g.Config(), g.host, msg)
  {
    var disableLogFile := HasFlag(g.flags, DISABLE_LOG_FILE);
    var enableStdout := HasFlag(g.flags, ENABLE_STDOUT);
    var enableStderr := HasFlag(g.flags, ENABLE_STDERR);
    var line := Prefix(g.flags, g.host) + msg;
    if !disableLogFile && g.logFileHandle.Some? {
      g.logFile := g.logFile + [Write(g.logFileHandle.value, line)];
    }
    if enableStdout {
      g.stdout := g.stdout + [line];
    }
    if enableStderr || !g.envVarsRead {
      g.stderr := g.stderr + [line];
    }
  }

  /** "Cleanup": CALL_N_CLEAR(fclose, handle) with ENABLE_FCLOSE, otherwise fflush. */
  method Cleanup(g: Globals)
    modifies g`logFileHandle, g`nextFileHandle, g`logFile, g`stdout, g`stderr
    ensures g.Sinks() == CleanupStep(old(g.Sinks()), g.Config())
  {
    var enableFclose := HasFlag(g.flags, ENABLE_FCLOSE);
    if enableFclose {
      if g.logFileHandle.Some? {
        g.logFile := g.logFile + [Close(g.logFileHandle.value)];
        g.logFileHandle := None;
      }
    } else {
      if g.logFileHandle.Some? {
        g.logFile := g.logFile + [Flush(g.logFileHandle.value)];
      }
    }
  }

  // ---------------------------------------------------------------------
  // Properties of the sink selection
  // ---------------------------------------------------------------------

  /** The operations on the log file, keeping only the opens. */
  function OpenCount(ops: seq<FileOp>): (n: nat)
    ensures n <= |ops|
  {
    if ops == [] then 0 else OpenCount(ops[..|ops| - 1]) + (if ops[|ops| - 1].Open? then 1 else 0)
  }

  /** The texts written to the log file, in order. */
  function Written(ops: seq<FileOp>): (texts: seq<string>)
    ensures |texts| <= |ops|
  {
    if ops == [] then []
    else Written(ops[..|ops| - 1]) + (if ops[|ops| - 1].Write? then [ops[|ops| - 1].text] else [])
  }

  lemma {:induction false} OpenCountAppend(a: seq<FileOp>, b: seq<FileOp>)
    ensures OpenCount(a + b) == OpenCount(a) + OpenCount(b)
    decreases |b|
  {
    if b == [] {
      assert a + b == a;
    } else {
      assert (a + b)[..|a + b| - 1] == a + b[..|b| - 1];
      OpenCountAppend(a, b[..|b| - 1]);
    }
  }

  lemma {:induction false} WrittenAppend(a: seq<FileOp>, b: seq<FileOp>)
    ensures Written(a + b) == Written(a) + Written(b)
    decreases |b|
  {
    if b == [] {
      assert a + b == a;
    } else {
      assert (a + b)[..|a + b| - 1] == a + b[..|b| - 1];
      WrittenAppend(a, b[..|b| - 1]);
    }
  }

  /**
   * The log file is opened lazily: a line opens it exactly when logging to
   * the file is on, a path is set, no handle is open and the path can be
   * opened for appending; a new handle is never opened otherwise.
   */
  lemma LazyOpen(s: SinkState, c: LogConfig, host: Host, msg: string)
    ensures var r := LogLine(s, c, host, msg);
      OpenCount(r.file) == OpenCount(s.file) + (if OpensFile(s, c) && c.logFilePath.value in host.writable then 1 else 0)
  {
    var s1 := OpenStep(s, c, host);
    var s2 := WriteStep(s1, c, host, msg);
    var r := CleanupStep(s2, c);
    assert LogLines(s, c, host, []) == s;
    assert LogLine(s, c, host, msg) == r;
    if OpensFile(s, c) && c.logFilePath.value in host.writable {
      OpenCountAppend(s.file, [Open(c.logFilePath.value, s.nextHandle)]);
    }
    OpenCountAppend(s1.file, s2.file[|s1.file|..]);
    assert s2.file == s1.file + s2.file[|s1.file|..];
    OpenCountAppend(s2.file, r.file[|s2.file|..]);
    assert r.file == s2.file + r.file[|s2.file|..];
    var added := s2.file[|s1.file|..] + r.file[|s2.file|..];
    assert OpenCount(s2.file[|s1.file|..]) == 0 by {
      NoOpens(s2.file[|s1.file|..]);
    }
    assert OpenCount(r.file[|s2.file|..]) == 0 by {
      NoOpens(r.file[|s2.file|..]);
    }
  }

  lemma {:induction false} NoOpens(ops: seq<FileOp>)
    requires forall k :: 0 <= k < |ops| ==> !ops[k].Open?
    ensures OpenCount(ops) == 0
    decreases |ops|
  {
    if ops != [] {
      NoOpens(ops[..|ops| - 1]);
    }
  }

  /**
   * An open handle is reused: the line goes to it, and it is then closed
   * (ENABLE_FCLOSE) or flushed and kept.
   */
  lemma ReusesOpenHandle(s: SinkState, c: LogConfig, host: Host, msg: string, h: nat)
    requires !HasFlag(c.flags, DISABLE_LOG_FILE) && s.logFileHandle == Some(h)
    ensures var r := LogLine(s, c, host, msg);
      if HasFlag(c.flags, ENABLE_FCLOSE) then
        r.file == s.file + [Write(h, Line(c.flags, host, msg)), Close(h)] && r.logFileHandle.None?
      else
        r.file == s.file + [Write(h, Line(c.flags, host, msg)), Flush(h)] && r.logFileHandle == Some(h)
  {
  }

  /** With DISABLE_LOG_FILE nothing is opened and nothing is written to the file. */
  lemma DisabledFileUntouched(s: SinkState, c: LogConfig, host: Host, msg: string)
    requires HasFlag(c.flags, DISABLE_LOG_FILE) && s.logFileHandle.None?
    ensures LogLine(s, c, host, msg).file == s.file
    ensures LogLine(s, c, host, msg).logFileHandle.None?
  {
  }

  /**
   * stdout receives the line exactly when ENABLE_STDOUT is set; stderr
   * exactly when ENABLE_STDERR is set or the configuration has not been
   * read yet. Nothing else reaches either stream.
   */
  lemma StreamSelection(s: SinkState, c: LogConfig, host: Host, msg: string)
    ensures var r := LogLine(s, c, host, msg);
      r.stdout == (if HasFlag(c.flags, ENABLE_STDOUT) then s.stdout + [Line(c.flags, host, msg)] else s.stdout)
    ensures var r := LogLine(s, c, host, msg);
      r.stderr == (if HasFlag(c.flags, ENABLE_STDERR) || !c.envVarsRead then s.stderr + [Line(c.flags, host, msg)] else s.stderr)
  {
  }

  /** Each prefix appears unless its flag disables it, process id first. */
  lemma PrefixOrder(flags: nat, host: Host, msg: string)
    ensures !HasFlag(flags, DISABLE_PROCESS_ID) && !HasFlag(flags, DISABLE_THREAD_ID) ==>
      Line(flags, host, msg) == host.pidText + " : " + host.tidText + " : " + msg
    ensures HasFlag(flags, DISABLE_PROCESS_ID) && !HasFlag(flags, DISABLE_THREAD_ID) ==>
      Line(flags, host, msg) == host.tidText + " : " + msg
    ensures !HasFlag(flags, DISABLE_PROCESS_ID) && HasFlag(flags, DISABLE_THREAD_ID) ==>
      Line(flags, host, msg) == host.pidText + " : " + msg
    ensures HasFlag(flags, DISABLE_PROCESS_ID) && HasFlag(flags, DISABLE_THREAD_ID) ==>
      Line(flags, host, msg) == msg
  {
  }

  /** The lines as a sink receives them. */
  function Lines(flags: nat, host: Host, msgs: seq<string>): (lines: seq<string>)
    ensures |lines| == |msgs|
  {
    if msgs == [] then [] else Lines(flags, host, msgs[..|msgs| - 1]) + [Line(flags, host, msgs[|msgs| - 1])]
  }

  /**
   * When the file can be logged to, every message reaches it, in order,
   * whatever the handle was beforehand and whether or not it is closed
   * after each line.
   */
  lemma {:induction false} FileReceivesEveryLine(s: SinkState, c: LogConfig, host: Host, msgs: seq<string>)
    requires !HasFlag(c.flags, DISABLE_LOG_FILE) && c.logFilePath.Some? && c.logFilePath.value in host.writable
    ensures Written(LogLines(s, c, host, msgs).file) == Written(s.file) + Lines(c.flags, host, msgs)
    decreases |msgs|
  {
    if msgs != [] {
      var init := msgs[..|msgs| - 1];
      var m := msgs[|msgs| - 1];
      FileReceivesEveryLine(s, c, host, init);
      FileReceivesLine(LogLines(s, c, host, init), c, host, m);
    }
  }

  /** One line: exactly its text is written to the file. */
  lemma FileReceivesLine(s: SinkState, c: LogConfig, host: Host, m: string)
    requires !HasFlag(c.flags, DISABLE_LOG_FILE) && c.logFilePath.Some? && c.logFilePath.value in host.writable
    ensures Written(LogLine(s, c, host, m).file) == Written(s.file) + [Line(c.flags, host, m)]
  {
    var s1 := OpenStep(s, c, host);
    var s2 := WriteStep(s1, c, host, m);
    var r := CleanupStep(s2, c);
    assert LogLines(s, c, host, []) == s;
    assert LogLine(s, c, host, m) == r;
    var h := s1.logFileHandle.value;
    if OpensFile(s, c) {
      WrittenAppend(s.file, [Open(c.logFilePath.value, s.nextHandle)]);
      NoWrites([Open(c.logFilePath.value, s.nextHandle)]);
    }
    assert Written(s1.file) == Written(s.file);
    WrittenAppend(s1.file, [Write(h, Line(c.flags, host, m))]);
    WrittenOne(h, Line(c.flags, host, m));
    var tail := r.file[|s2.file|..];
    assert r.file == s2.file + tail;
    WrittenAppend(s2.file, tail);
    NoWrites(tail);
  }

  lemma WrittenOne(h: nat, text: string)
    ensures Written([Write(h, text)]) == [text]
  {
    assert [Write(h, text)][..0] == [];
  }

  lemma {:induction false} NoWrites(ops: seq<FileOp>)
    requires forall k :: 0 <= k < |ops| ==> !ops[k].Write?
    ensures Written(ops) == []
    decreases |ops|
  {
    if ops != [] {
      NoWrites(ops[..|ops| - 1]);
    }
  }

  /**
   * Without ENABLE_FCLOSE the log file is opened at most once over any
   * number of lines, and a handle that is open stays open.
   */
  lemma {:induction false} OpensAtMostOnce(s: SinkState, c: LogConfig, host: Host, msgs: seq<string>)
    requires !HasFlag(c.flags, ENABLE_FCLOSE)
    ensures var r := LogLines(s, c, host, msgs);
      OpenCount(r.file) <= OpenCount(s.file) + 1
      && (OpenCount(r.file) == OpenCount(s.file) + 1 ==> r.logFileHandle.Some?)
      && (s.logFileHandle.Some? ==> OpenCount(r.file) == OpenCount(s.file) && r.logFileHandle == s.logFileHandle)
    decreases |msgs|
  {
    if msgs != [] {
      var p := LogLines(s, c, host, msgs[..|msgs| - 1]);
      OpensAtMostOnce(s, c, host, msgs[..|msgs| - 1]);
      LazyOpen(p, c, host, msgs[|msgs| - 1]);
    }
  }

  /**
   * With ENABLE_FCLOSE every line reopens the file (when it can be logged
   * to) and no handle is left open afterwards.
   */
  lemma {:induction false} FcloseReopensEveryLine(s: SinkState, c: LogConfig, host: Host, msgs: seq<string>)
    requires HasFlag(c.flags, ENABLE_FCLOSE) && !HasFlag(c.flags, DISABLE_LOG_FILE)
    requires c.logFilePath.Some? && c.logFilePath.value in host.writable
    requires s.logFileHandle.None?
    ensures var r := LogLines(s, c, host, msgs);
      OpenCount(r.file) == OpenCount(s.file) + |msgs| && r.logFileHandle.None?
    decreases |msgs|
  {
    if msgs != [] {
      var p := LogLines(s, c, host, msgs[..|msgs| - 1]);
      FcloseReopensEveryLine(s, c, host, msgs[..|msgs| - 1]);
      LazyOpen(p, c, host, msgs[|msgs| - 1]);
    }
  }

  // ---------------------------------------------------------------------
  // Fixed lines: separator, enter, exit, input and output notices
  // ---------------------------------------------------------------------

  /** The separator line around the current time (the formatted time is an input). */
  function SeparatorLine(now: string): string {
    "****************************** " + now + " ***"
  }

  function ExitLine(rv: nat): string {
    "Returning " + Decimal(rv) + " (" + TranslateCkRv(rv) + ")"
  }

  /** pkcs11_logger_log_separator. */
  method LogSeparator(g: Globals, now: string)
    requires Valid(g)
    modifies g`logFileHandle, g`nextFileHandle, g`logFile, g`stdout, g`stderr, g`trace
    ensures Valid(g) && g.trace == old(g.trace) + [SeparatorLine(now)]
    ensures g.Core() == old(g.Core())
  {
    Log(g, SeparatorLine(now));
  }

  /** pkcs11_logger_log_function_enter: the separator, then the name of the function called. */
  method LogFunctionEnter(g: Globals, function_name: string, now: string)
    requires Valid(g)
    modifies g`logFileHandle, g`nextFileHandle, g`logFile, g`stdout, g`stderr, g`trace
    ensures Valid(g) && g.trace == old(g.trace) + [SeparatorLine(now), "Calling " + function_name]
    ensures g.Core() == old(g.Core())
  {
    LogSeparator(g, now);
    Log(g, "Calling " + function_name);
    assert [SeparatorLine(now)] + ["Calling " + function_name] == [SeparatorLine(now), "Calling " + function_name];
  }

  /** pkcs11_logger_log_function_exit: the return value and its name. */
  method LogFunctionExit(g: Globals, rv: nat)
    requires Valid(g)
    modifies g`logFileHandle, g`nextFileHandle, g`logFile, g`stdout, g`stderr, g`trace
    ensures Valid(g) && g.trace == old(g.trace) + [ExitLine(rv)]
    ensures g.Core() == old(g.Core())
  {
    Log(g, ExitLine(rv));
  }

  /** pkcs11_logger_log_input_params. */
  method LogInputParams(g: Globals)
    requires Valid(g)
    modifies g`logFileHandle, g`nextFileHandle, g`logFile, g`stdout, g`stderr, g`trace
    ensures Valid(g) && g.trace == old(g.trace) + ["Input"]
    ensures g.Core() == old(g.Core())
  {
    Log(g, "Input");
  }

  /** pkcs11_logger_log_output_params. */
  method LogOutputParams(g: Globals)
    requires Valid(g)
    modifies g`logFileHandle, g`nextFileHandle, g`logFile, g`stdout, g`stderr, g`trace
    ensures Valid(g) && g.trace == old(g.trace) + ["Output"]
    ensures g.Core() == old(g.Core())
  {
    Log(g, "Output");
  }

  // ---------------------------------------------------------------------
  // pkcs11_logger_log_flag
  // ---------------------------------------------------------------------

  /** The line for one flag: TRUE exactly when `flags & flag_value` is non-zero. */
  function FlagLine(flags: nat, flagValue: nat, flagName: string): (line: string)
    ensures line == flagName + ": TRUE" || line == flagName + ": FALSE"
    ensures line == flagName + ": TRUE" <==> MaskAny(flags, flagValue)
  {
    assert |flagName + ": TRUE"| != |flagName + ": FALSE"|;
    if MaskAny(flags, flagValue) then flagName + ": TRUE" else flagName + ": FALSE"
  }

  /** For a flag that is a single bit, the line reports exactly that bit of flags. */
  lemma FlagLineOfSingleBit(flags: nat, k: nat, flagName: string)
    requires k < 64
    ensures FlagLine(flags, Pow2(k), flagName) == (if Bit(flags, k) then flagName + ": TRUE" else flagName + ": FALSE")
  {
    MaskAnySingleBit(flags, k);
  }

  method LogFlag(g: Globals, flags: nat, flagValue: nat, flagName: string)
    requires Valid(g)
    modifies g`logFileHandle, g`nextFileHandle, g`logFile, g`stdout, g`stderr, g`trace
    ensures Valid(g) && g.trace == old(g.trace) + [FlagLine(flags, flagValue, flagName)]
    ensures g.Core() == old(g.Core())
  {
    if MaskAny(flags, flagValue) {
      Log(g, flagName + ": TRUE");
    } else {
      Log(g, flagName + ": FALSE");
    }
  }

  // ---------------------------------------------------------------------
  // pkcs11_logger_log_nonzero_string
  // ---------------------------------------------------------------------

  /** Bytes read as the characters `%s` prints. */
  function Chars(bs: seq<byte>): (cs: string)
    ensures |cs| == |bs|
    ensures forall k :: 0 <= k < |bs| ==> cs[k] == bs[k] as char
  {
    if bs == [] then [] else Chars(bs[..|bs| - 1]) + [bs[|bs| - 1] as char]
  }

  /**
   * NULL logs nothing; a failed malloc of len+1 bytes logs the fallback;
   * otherwise the first len bytes, copied into a zero-filled buffer of
   * len+1, are printed with `%s`.
   */
  function NonzeroStringLines(name: string, str: Option<seq<byte>>, len: nat, heapLimit: HeapSize): (lines: seq<string>)
    requires str.Some? ==> len <= |str.value|
    ensures str.None? <==> lines == []
    ensures |lines| <= 1
    ensures str.Some? && len + 1 > heapLimit ==> lines == [name + ": *** cannot be displayed ***"]
  {
    if str.None? then []
    else if len + 1 > heapLimit then [name + ": *** cannot be displayed ***"]
    else [name + ": " + CString(Chars(str.value[..len]) + ['\0'])]
  }

  /**
   * What is shown is exactly the bytes before the first zero byte among the
   * first len: all of them when none is zero.
   */
  lemma NonzeroStringShown(str: seq<byte>, len: nat, k: nat)
    requires len <= |str| && k <= len
    requires forall j :: 0 <= j < k ==> str[j] != 0
    requires k == len || str[k] == 0
    ensures CString(Chars(str[..len]) + ['\0']) == Chars(str[..k])
  {
    var buffer := Chars(str[..len]) + ['\0'];
    var shown := Chars(str[..k]);
    assert '\0' !in shown by {
      forall j | 0 <= j < |shown| ensures shown[j] != '\0' {
        assert shown[j] == str[j] as char;
      }
    }
    assert buffer[..k] == shown;
    assert buffer[k] == '\0';
    CStringOfPrefix(shown, buffer);
  }

  /** `%s` of a buffer that holds a NUL-free text and then a NUL prints that text. */
  lemma {:induction false} CStringOfPrefix(t: string, buffer: string)
    requires '\0' !in t
    requires |buffer| > |t| && buffer[..|t|] == t && buffer[|t|] == '\0'
    ensures CString(buffer) == t
    decreases |t|
  {
    if t != [] {
      assert buffer[0] == t[0];
      assert buffer[1..][..|t| - 1] == t[1..];
      CStringOfPrefix(t[1..], buffer[1..]);
    }
  }

  method LogNonzeroString(g: Globals, name: string, str: Option<seq<byte>>, len: nat)
    requires str.Some? ==> len <= |str.value|
    requires Valid(g)
    modifies g`logFileHandle, g`nextFileHandle, g`logFile, g`stdout, g`stderr, g`trace
    ensures Valid(g) && g.trace == old(g.trace) + NonzeroStringLines(name, str, len, g.host.heapLimit)
    ensures g.Core() == old(g.Core())
  {
    if str.Some? {
      if len + 1 <= g.host.heapLimit {
        var zeroString := new char[len + 1](_ => '\0');
        for k := 0 to len
          modifies zeroString
          invariant forall j :: 0 <= j < k ==> zeroString[j] == str.value[j] as char
          invariant forall j :: k <= j <= len ==> zeroString[j] == '\0'
        {
          zeroString[k] := str.value[k] as char;
        }
        assert zeroString[..] == Chars(str.value[..len]) + ['\0'];
        Log(g, name + ": " + CString(zeroString[..]));
      } else {
        Log(g, name + ": *** cannot be displayed ***");
      }
    }
  }

  // ---------------------------------------------------------------------
  // pkcs11_logger_log_byte_array
  // ---------------------------------------------------------------------

  /** NULL logs nothing; a failed encoding logs the fallback; otherwise the bytes in hex. */
  function ByteArrayLines(name: string, bytes: Option<seq<byte>>, len: nat, heapLimit: HeapSize): (lines: seq<string>)
    requires bytes.Some? ==> HexReadable(bytes.value, len)
    ensures bytes.None? <==> lines == []
    ensures |lines| <= 1
    ensures bytes.Some? && 2 * len + 1 > heapLimit ==> lines == [name + ": *** cannot be displayed ***"]
  {
    if bytes.None? then []
    else if 2 * len + 1 > heapLimit then [name + ": *** cannot be displayed ***"]
    else [name + ": HEX(" + Hex(bytes.value[..len]) + ")"]
  }

  /** The hex shown for a byte array decodes back to exactly its first len bytes. */
  lemma ByteArrayLineDecodes(name: string, bytes: seq<byte>, len: nat, heapLimit: HeapSize)
    requires len <= |bytes| && 2 * len + 1 <= heapLimit
    ensures exists hex :: ByteArrayLines(name, Some(bytes), len, heapLimit) == [name + ": HEX(" + hex + ")"]
                          && Unhex(hex) == Some(bytes[..len])
  {
    UnhexHex(bytes[..len]);
    var hex := Hex(bytes[..len]);
    assert ByteArrayLines(name, Some(bytes), len, heapLimit) == [name + ": HEX(" + hex + ")"];
  }

  method LogByteArray(g: Globals, name: string, bytes: Option<seq<byte>>, len: nat)
    requires bytes.Some? ==> HexReadable(bytes.value, len)
    requires Valid(g)
    modifies g`logFileHandle, g`nextFileHandle, g`logFile, g`stdout, g`stderr, g`trace
    ensures Valid(g) && g.trace == old(g.trace) + ByteArrayLines(name, bytes, len, g.host.heapLimit)
    ensures g.Core() == old(g.Core())
  {
    if bytes.Some? {
      var hexText := TranslateCkBytePtr(bytes.value, len, g.host.heapLimit);
      if hexText.Some? {
        Log(g, name + ": HEX(" + CString(hexText.value) + ")");
      } else {
        Log(g, name + ": *** cannot be displayed ***");
      }
    }
  }

  // ---------------------------------------------------------------------
  // pkcs11_logger_log_attribute_template
  // ---------------------------------------------------------------------

  /** A CK_ATTRIBUTE: its type, what pValue points to (None for NULL), and ulValueLen. */
  datatype Attribute = Attribute(attrType: nat, pValue: Option<Pointee>, ulValueLen: nat)

  /**
   * The memory at a non-NULL pValue, as the renderer may read it: as bytes,
   * or (for an array attribute) as an array of CK_ATTRIBUTE.
   */
  datatype Pointee = Pointee(addr: Address, bytes: seq<byte>, nested: seq<Attribute>)

  const BeginTemplate: string := "  *** Begin attribute template ***"
  const EndTemplate: string := "  *** End attribute template ***"

  /** `(type & CKF_ARRAY_ATTRIBUTE) == CKF_ARRAY_ATTRIBUTE` and a length that is a whole number of entries. */
  predicate IsNestedTemplate(a: Attribute) {
    a.pValue.Some? && MaskSet(a.attrType, CKF_ARRAY_ATTRIBUTE) && a.ulValueLen % SIZEOF_CK_ATTRIBUTE == 0
  }

  /**
   * What the caller must supply: each of the first count entries points to
   * as much memory as the renderer reads from it, all the way down.
   */
  predicate ReadableTemplate(t: seq<Attribute>, count: nat)
    decreases t, 1
  {
    count <= |t| && forall i :: 0 <= i < count ==> ReadableAttribute(t[i])
  }

  predicate ReadableAttribute(a: Attribute)
    decreases a, 0
  {
    match a.pValue
    case None => true
    case Some(p) =>
      if MaskSet(a.attrType, CKF_ARRAY_ATTRIBUTE) && a.ulValueLen % SIZEOF_CK_ATTRIBUTE == 0
      then ReadableTemplate(p.nested, a.ulValueLen / SIZEOF_CK_ATTRIBUTE)
      else HexReadable(p.bytes, a.ulValueLen)
  }

  function AddressOf(p: Option<Pointee>): Option<Address> {
    match p
    case None => None
    case Some(q) => Some(q.addr)
  }

  /** The four lines every entry starts with. */
  function EntryHeader(a: Attribute, i: nat): seq<string> {
    [ "  Attribute " + Decimal(i),
      "   Attribute: " + Decimal(a.attrType) + " (" + TranslateCkAttribute(a.attrType) + ")",
      "   pValue: " + PointerText(AddressOf(a.pValue)),
      "   ulValueLen: " + Decimal(a.ulValueLen) ]
  }

  /** The lines of the template block for a non-NULL template. */
  function TemplateBlock(t: seq<Attribute>, count: nat, heapLimit: HeapSize): (lines: seq<string>)
    requires ReadableTemplate(t, count)
    ensures count == 0 <==> lines == []
    decreases t, 2, 0
  {
    if count < 1 then [] else [BeginTemplate] + EntriesUpTo(t, count, heapLimit) + [EndTemplate]
  }

  /** The lines for entries 0 .. n-1. */
  function EntriesUpTo(t: seq<Attribute>, n: nat, heapLimit: HeapSize): seq<string>
    requires n <= |t| && forall i :: 0 <= i < n ==> ReadableAttribute(t[i])
    decreases t, 1, n
  {
    if n == 0 then [] else EntriesUpTo(t, n - 1, heapLimit) + EntryLines(t[n - 1], n - 1, heapLimit)
  }

  /** One entry: the header, then what its value renders to. */
  function EntryLines(a: Attribute, i: nat, heapLimit: HeapSize): seq<string>
    requires ReadableAttribute(a)
    decreases a, 0, 1
  {
    EntryHeader(a, i) + EntryValue(a, heapLimit)
  }

  /**
   * Nothing for NULL, the nested block for an array attribute of whole
   * entries, and otherwise one hex line (or the fallback when the hex buffer
   * cannot be allocated).
   */
  function EntryValue(a: Attribute, heapLimit: HeapSize): seq<string>
    requires ReadableAttribute(a)
    decreases a, 0, 0
  {
    match a.pValue
    case None => []
    case Some(p) =>
      if MaskSet(a.attrType, CKF_ARRAY_ATTRIBUTE) && a.ulValueLen % SIZEOF_CK_ATTRIBUTE == 0 then
        TemplateBlock(p.nested, a.ulValueLen / SIZEOF_CK_ATTRIBUTE, heapLimit)
      else if 2 * a.ulValueLen + 1 > heapLimit then
        ["   *pValue: *** cannot be displayed ***"]
      else
        ["   *pValue: HEX(" + Hex(p.bytes[..a.ulValueLen]) + ")"]
  }

  /**
   * An entry the token answered with CK_UNAVAILABLE_INFORMATION (a sensitive
   * or invalid attribute, or a buffer too small) keeps a non-NULL pValue it
   * did not write. Its length is no whole number of entries, and the hex
   * buffer would need ULONG_MAX bytes, which malloc never supplies: the entry
   * ends with the fallback line and no byte of it is read.
   */
  lemma UnavailableValueNotDisplayed(a: Attribute, i: nat, heapLimit: HeapSize)
    requires a.pValue.Some? && a.ulValueLen == CK_UNAVAILABLE_INFORMATION
    ensures ReadableAttribute(a)
    ensures EntryLines(a, i, heapLimit) == EntryHeader(a, i) + ["   *pValue: *** cannot be displayed ***"]
  {
    assert CK_UNAVAILABLE_INFORMATION % SIZEOF_CK_ATTRIBUTE == 15;
  }

  /** Everything pkcs11_logger_log_attribute_template(pTemplate, ulCount) logs. */
  function AttributeTemplateLines(t: Option<seq<Attribute>>, count: nat, heapLimit: HeapSize): (lines: seq<string>)
    requires t.Some? ==> ReadableTemplate(t.value, count)
    ensures t.None? || count < 1 <==> lines == []
    ensures lines != [] ==> lines[0] == BeginTemplate && lines[|lines| - 1] == EndTemplate
  {
    if t.None? then [] else TemplateBlock(t.value, count, heapLimit)
  }

  method LogAttributeTemplate(g: Globals, t: Option<seq<Attribute>>, count: nat)
    requires t.Some? ==> ReadableTemplate(t.value, count)
    requires Valid(g)
    modifies g`logFileHandle, g`nextFileHandle, g`logFile, g`stdout, g`stderr, g`trace
    ensures Valid(g) && g.trace == old(g.trace) + AttributeTemplateLines(t, count, g.host.heapLimit)
    ensures g.Core() == old(g.Core())
    decreases if t.Some? then t.value else [], 4
  {
    if t.None? || count < 1 {
      return;
    }
    ghost var start := g.trace;
    ghost var entries := EntriesUpTo(t.value, count, g.host.heapLimit);
    ghost var begin, end := [BeginTemplate], [EndTemplate];
    assert AttributeTemplateLines(t, count, g.host.heapLimit) == begin + entries + end;
    Log(g, BeginTemplate);
    assert g.trace == start + begin;
    LogEntries(g, t.value, count);
    assert g.trace == start + begin + entries;
    Log(g, EndTemplate);
    assert g.trace == start + begin + entries + end;
    ConcatAssoc(start, begin, entries);
    ConcatAssoc(start, begin + entries, end);
  }

  /** The loop over the first count entries. */
  method LogEntries(g: Globals, template: seq<Attribute>, count: nat)
    requires ReadableTemplate(template, count)
    requires Valid(g)
    modifies g`logFileHandle, g`nextFileHandle, g`logFile, g`stdout, g`stderr, g`trace
    ensures Valid(g) && g.trace == old(g.trace) + EntriesUpTo(template, count, g.host.heapLimit)
    ensures g.Core() == old(g.Core())
    decreases template, 3
  {
    ghost var heapLimit := g.host.heapLimit;
    for i := 0 to count
      invariant Valid(g) && g.trace == old(g.trace) + EntriesUpTo(template, i, heapLimit)
      invariant g.Core() == old(g.Core())
    {
      LogEntry(g, template[i], i);
      EntriesUpToStep(template, i, heapLimit);
      ConcatAssoc(old(g.trace), EntriesUpTo(template, i, heapLimit), EntryLines(template[i], i, heapLimit));
    }
  }

  lemma EntriesUpToStep(t: seq<Attribute>, i: nat, heapLimit: HeapSize)
    requires ReadableTemplate(t, i + 1)
    ensures EntriesUpTo(t, i + 1, heapLimit) == EntriesUpTo(t, i, heapLimit) + EntryLines(t[i], i, heapLimit)
  {
  }

  /** The body of the loop for entry i. */
  method LogEntry(g: Globals, a: Attribute, i: nat)
    requires ReadableAttribute(a)
    requires Valid(g)
    modifies g`logFileHandle, g`nextFileHandle, g`logFile, g`stdout, g`stderr, g`trace
    ensures Valid(g) && g.trace == old(g.trace) + EntryLines(a, i, g.host.heapLimit)
    ensures g.Core() == old(g.Core())
    decreases a, 2
  {
    ghost var start := g.trace;
    LogEntryHeader(g, a, i);
    ghost var header := EntryHeader(a, i);
    ghost var middle := g.trace;
    LogEntryValue(g, a);
    ghost var value := EntryValue(a, g.host.heapLimit);
    assert g.trace == middle + value;
    assert middle == start + header;
    assert EntryLines(a, i, g.host.heapLimit) == header + value;
    ConcatAssoc(start, header, value);
  }

  /** The value of one entry; an array attribute of whole entries recurses. */
  method LogEntryValue(g: Globals, a: Attribute)
    requires ReadableAttribute(a)
    requires Valid(g)
    modifies g`logFileHandle, g`nextFileHandle, g`logFile, g`stdout, g`stderr, g`trace
    ensures Valid(g) && g.trace == old(g.trace) + EntryValue(a, g.host.heapLimit)
    ensures g.Core() == old(g.Core())
    decreases a, 1
  {
    if a.pValue.Some? {
      if MaskSet(a.attrType, CKF_ARRAY_ATTRIBUTE) {
        if a.ulValueLen % SIZEOF_CK_ATTRIBUTE == 0 {
          LogAttributeTemplate(g, Some(a.pValue.value.nested), a.ulValueLen / SIZEOF_CK_ATTRIBUTE);
          return;
        }
      }
      var value := TranslateCkBytePtr(a.pValue.value.bytes, a.ulValueLen, g.host.heapLimit);
      if value.Some? {
        Log(g, "   *pValue: HEX(" + CString(value.value) + ")");
      } else {
        Log(g, "   *pValue: *** cannot be displayed ***");
      }
    }
  }

  lemma ConcatAssoc<T>(a: seq<T>, b: seq<T>, c: seq<T>)
    ensures (a + b) + c == a + (b + c)
  {
  }

  /** The four header lines of entry i. */
  method LogEntryHeader(g: Globals, a: Attribute, i: nat)
    requires Valid(g)
    modifies g`logFileHandle, g`nextFileHandle, g`logFile, g`stdout, g`stderr, g`trace
    ensures Valid(g) && g.trace == old(g.trace) + EntryHeader(a, i)
    ensures g.Core() == old(g.Core())
  {
    Log(g, "  Attribute " + Decimal(i));
    Log(g, "   Attribute: " + Decimal(a.attrType) + " (" + TranslateCkAttribute(a.attrType) + ")");
    Log(g, "   pValue: " + PointerText(AddressOf(a.pValue)));
    Log(g, "   ulValueLen: " + Decimal(a.ulValueLen));
  }
}
