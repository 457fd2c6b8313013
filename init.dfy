/*
 * src/init.c: resetting the globals, reading the three environment
 * variables, and loading the original PKCS #11 library on first use.
 */
module Init {
  import opened LoggerDefs
  import opened Format
  import opened Translate
  import opened Log
  import Utils

  // ---------------------------------------------------------------------
  // What the process supplies
  // ---------------------------------------------------------------------

  const LIBRARY_PATH_VAR: string := "PKCS11_LOGGER_LIBRARY_PATH"
  const LOG_FILE_PATH_VAR: string := "PKCS11_LOGGER_LOG_FILE_PATH"
  const FLAGS_VAR: string := "PKCS11_LOGGER_FLAGS"

  /** What the original C_GetFunctionList returns and what it stored through its argument. */
  datatype Reply = Reply(rv: nat, table: Option<FunctionList>)

  /** A library that reports CKR_OK has stored a function list. */
  type GetFunctionListReply = r: Reply | r.rv != CKR_OK || r.table.Some? witness Reply(CKR_GENERAL_ERROR, None)

  /** A loadable library: its handle, and its C_GetFunctionList if the symbol exists. */
  datatype Library = Library(handle: Address, getFunctionList: Option<GetFunctionListReply>)

  /**
   * The environment variables, whether the mutex can be created, the
   * libraries dlopen can load (by path), and what dlerror reports otherwise.
   */
  datatype Env = Env(
    vars: map<string, string>,
    lockCreated: bool,
    libraries: map<string, Library>,
    dlError: Option<string>)

  /** The result of one stage: the internal return code, the globals after it, and the lines it logged. */
  datatype Step = Step(rv: int, core: CoreState, lines: seq<string>)

  /** getenv: the value, or NULL when the variable is not defined. */
  function ReadEnvVar(vars: map<string, string>, name: string): (value: Option<string>)
    ensures value.Some? <==> name in vars
    ensures value.Some? ==> value.value == vars[name]
  {
    if name in vars then Some(vars[name]) else None
  }

  /** The first character is a double or a single quote. */
  predicate Quoted(s: string) {
    |s| > 0 && (s[0] == '"' || s[0] == '\'')
  }

  // ---------------------------------------------------------------------
  // pkcs11_logger_init_globals
  // ---------------------------------------------------------------------

  /** Every global back to its initial value, except the logger's own table. */
  function ResetCore(c: CoreState): (r: CoreState)
    ensures r.origLibHandle.None? && r.origLibFunctions.None? && !r.envVarsRead
    ensures r.libraryPath.None? && r.logFilePath.None? && r.flagsText.None? && r.flags == 0
    ensures r.loggerFunctions == c.loggerFunctions && r.unloaded == c.unloaded
  {
    c.(origLibHandle := None, origLibFunctions := None, envVarsRead := false,
       libraryPath := None, logFilePath := None, flagsText := None, flags := 0)
  }

  /** CALL_N_CLEAR(fclose, log_file_handle). */
  function CloseLogFile(s: SinkState): (r: SinkState)
    ensures r.logFileHandle.None?
    ensures s.logFileHandle.Some? ==> r.file == s.file + [Close(s.logFileHandle.value)]
    ensures s.logFileHandle.None? ==> r == s
    ensures r.stdout == s.stdout && r.stderr == s.stderr && r.nextHandle == s.nextHandle
  {
    var cleared := CallNClear(s.logFileHandle);
    s.(file := s.file + (match s.logFileHandle case Some(h) => [Close(h)] case None => []),
       logFileHandle := cleared.pointer)
  }

  /**
   * pkcs11_logger_init_globals. The library handle is forgotten, not
   * unloaded; the log file is closed.
   */
  method InitGlobals(g: Globals)
    modifies g`origLibHandle, g`origLibFunctions, g`envVarsRead, g`envVarLibraryPath
    modifies g`envVarLogFilePath, g`envVarFlags, g`flags, g`logFileHandle, g`logFile, g`base, g`since
    ensures g.Core() == ResetCore(old(g.Core()))
    ensures g.Sinks() == CloseLogFile(old(g.Sinks()))
    ensures Valid(g) && g.base == g.Sinks() && g.since == |g.trace|
  {
    ResetGlobals(g);
    CloseLog(g);
  }

  /** The assignments of pkcs11_logger_init_globals, up to the log file. */
  method ResetGlobals(g: Globals)
    modifies g`origLibHandle, g`origLibFunctions, g`envVarsRead, g`envVarLibraryPath
    modifies g`envVarLogFilePath, g`envVarFlags, g`flags
    ensures g.Core() == ResetCore(old(g.Core()))
  {
    g.origLibHandle := None;
    g.origLibFunctions := None;
    g.envVarsRead := false;
    g.envVarLibraryPath := None;
    g.envVarLogFilePath := None;
    g.envVarFlags := None;
    g.flags := 0;
  }

  /** CALL_N_CLEAR(fclose, log_file_handle), which starts a new logging configuration. */
  method CloseLog(g: Globals)
    modifies g`logFileHandle, g`logFile, g`base, g`since
    ensures g.Sinks() == CloseLogFile(old(g.Sinks()))
    ensures Valid(g) && g.base == g.Sinks() && g.since == |g.trace|
  {
    if g.logFileHandle.Some? {
      g.logFile := g.logFile + [Close(g.logFileHandle.value)];
      g.logFileHandle := None;
    }
    g.base, g.since := g.Sinks(), |g.trace|;
  }

  /** Resetting twice is resetting once, and a reset closes a log file only once. */
  lemma ResetIdempotent(c: CoreState, s: SinkState)
    ensures ResetCore(ResetCore(c)) == ResetCore(c)
    ensures CloseLogFile(CloseLogFile(s)) == CloseLogFile(s)
  {
  }

  // ---------------------------------------------------------------------
  // Changes of the logging configuration
  // ---------------------------------------------------------------------

  /**
   * Storing the log-file path. The sinks are left as they are, and the
   * lines logged from now on are logged under the new path.
   */
  method SetLogFilePath(g: Globals, path: Option<string>)
    modifies g`envVarLogFilePath, g`base, g`since
    ensures g.Core() == old(g.Core()).(logFilePath := path)
    ensures Valid(g) && g.base == g.Sinks() && g.since == |g.trace|
  {
    g.envVarLogFilePath := path;
    g.base, g.since := g.Sinks(), |g.trace|;
  }

  /**
   * Storing the flags. The sinks are left as they are, and the lines
   * logged from now on are logged under the new flags.
   */
  method SetFlags(g: Globals, flags: nat)
    modifies g`flags, g`base, g`since
    ensures g.Core() == old(g.Core()).(flags := flags)
    ensures Valid(g) && g.base == g.Sinks() && g.since == |g.trace|
  {
    g.flags := flags;
    g.base, g.since := g.Sinks(), |g.trace|;
  }

  /**
   * env_vars_read = CK_TRUE. The sinks are left as they are; from now on
   * stderr receives only what ENABLE_STDERR asks for.
   */
  method SetEnvVarsRead(g: Globals)
    modifies g`envVarsRead, g`base, g`since
    ensures g.Core() == old(g.Core()).(envVarsRead := true)
    ensures Valid(g) && g.base == g.Sinks() && g.since == |g.trace|
  {
    g.envVarsRead := true;
    g.base, g.since := g.Sinks(), |g.trace|;
  }

  // ---------------------------------------------------------------------
  // pkcs11_logger_init_parse_env_vars
  // ---------------------------------------------------------------------

  function NotDefinedLine(name: string): string {
    "Environment variable " + name + " is not defined"
  }

  function QuotesLine(name: string): string {
    "Value of " + name + " environment variable needs to be provided without enclosing quotes"
  }

  const FlagsNotNumberLine: string :=
    "Unable to read the value of PKCS11_LOGGER_FLAGS environment variable as a number"

  /** pkcs11_logger_utils_str_to_long accepts the text. */
  predicate IsNumber(text: string) {
    Utils.StrToLong(Some(text), Some(0)).rv == RV_SUCCESS
  }

  /**
   * The configuration is acceptable: a library path that does not start
   * with a quote, no log-file path or one that does not start with a
   * quote, and no flags or flags that are a number.
   */
  predicate Acceptable(vars: map<string, string>) {
    && LIBRARY_PATH_VAR in vars && !Quoted(vars[LIBRARY_PATH_VAR])
    && (LOG_FILE_PATH_VAR in vars ==> !Quoted(vars[LOG_FILE_PATH_VAR]))
    && (FLAGS_VAR in vars ==> IsNumber(vars[FLAGS_VAR]))
  }

  /** Reading PKCS11_LOGGER_LIBRARY_PATH: it must be defined and must not start with a quote. */
  function LibraryPathSpec(c: CoreState, vars: map<string, string>): Step {
    var path := ReadEnvVar(vars, LIBRARY_PATH_VAR);
    var c1 := c.(libraryPath := path);
    if path.None? then Step(RV_ERROR, c1, [NotDefinedLine(LIBRARY_PATH_VAR)])
    else if Quoted(path.value) then Step(RV_ERROR, c1, [QuotesLine(LIBRARY_PATH_VAR)])
    else Step(RV_SUCCESS, c1, [])
  }

  /** Reading PKCS11_LOGGER_LOG_FILE_PATH: it may be missing, but must not start with a quote. */
  function LogFilePathSpec(c: CoreState, vars: map<string, string>): Step {
    var path := ReadEnvVar(vars, LOG_FILE_PATH_VAR);
    var c1 := c.(logFilePath := path);
    if path.Some? && Quoted(path.value) then Step(RV_ERROR, c1, [QuotesLine(LOG_FILE_PATH_VAR)])
    else Step(RV_SUCCESS, c1, [])
  }

  /** Reading PKCS11_LOGGER_FLAGS: str_to_long writes `flags` only when it succeeds. */
  function FlagsSpec(c: CoreState, vars: map<string, string>): Step {
    var text := ReadEnvVar(vars, FLAGS_VAR);
    var c1 := c.(flagsText := text);
    if text.None? then Step(RV_SUCCESS, c1, [])
    else
      var parsed := Utils.StrToLong(text, Some(c.flags));
      if parsed.rv == RV_SUCCESS then Step(RV_SUCCESS, c1.(flags := parsed.val.value), [])
      else Step(RV_ERROR, c1, [FlagsNotNumberLine])
  }

  /**
   * The body of pkcs11_logger_init_parse_env_vars up to the `err` label:
   * each variable is stored as soon as it is read, and the first bad one
   * is reported. A variable that is accepted logs nothing.
   */
  function ReadSpec(c: CoreState, vars: map<string, string>): Step {
    var library := LibraryPathSpec(c, vars);
    if library.rv != RV_SUCCESS then library
    else ReadRestSpec(library.core, vars)
  }

  /** The log-file path, then the flags. */
  function ReadRestSpec(c: CoreState, vars: map<string, string>): Step {
    var logFile := LogFilePathSpec(c, vars);
    if logFile.rv != RV_SUCCESS then logFile
    else FlagsSpec(logFile.core, vars)
  }

  /** What pkcs11_logger_init_parse_env_vars does to the globals c: on an error the three strings are freed. */
  function ParseEnvVarsSpec(c: CoreState, vars: map<string, string>): (r: Step)
    ensures r.rv == RV_SUCCESS <==> Acceptable(vars)
    ensures r.rv == RV_SUCCESS ==> r.lines == [] && r.core == c.(
      libraryPath := Some(vars[LIBRARY_PATH_VAR]),
      logFilePath := ReadEnvVar(vars, LOG_FILE_PATH_VAR),
      flagsText := ReadEnvVar(vars, FLAGS_VAR),
      flags := if FLAGS_VAR in vars then Utils.Strtoul(vars[FLAGS_VAR]).value else c.flags)
    ensures r.rv != RV_SUCCESS ==> r.rv == RV_ERROR && |r.lines| == 1 && r.core == c.(
      libraryPath := None, logFilePath := None, flagsText := None)
  {
    var read := ReadSpec(c, vars);
    if read.rv == RV_SUCCESS then read
    else read.(core := read.core.(libraryPath := None, logFilePath := None, flagsText := None))
  }

  /** pkcs11_logger_init_parse_env_vars. */
  method ParseEnvVars(g: Globals, vars: map<string, string>) returns (rv: int)
    requires Valid(g)
    modifies g`envVarLibraryPath, g`envVarLogFilePath, g`envVarFlags, g`flags, g`base, g`since
    modifies g`logFileHandle, g`nextFileHandle, g`logFile, g`stdout, g`stderr, g`trace
    ensures rv == ParseEnvVarsSpec(old(g.Core()), vars).rv
    ensures g.Core() == ParseEnvVarsSpec(old(g.Core()), vars).core
    ensures Valid(g) && g.trace == old(g.trace) + ParseEnvVarsSpec(old(g.Core()), vars).lines
    ensures g.Sinks() == LogLines(old(g.Sinks()), ConfigOf(ReadSpec(old(g.Core()), vars).core), g.host,
      ParseEnvVarsSpec(old(g.Core()), vars).lines)
  {
    rv := ReadEnvVars(g, vars);
    if rv != RV_SUCCESS {
      ForgetEnvVars(g);
    }
  }

  /** The error path of pkcs11_logger_init_parse_env_vars: none of the three values is kept. */
  method ForgetEnvVars(g: Globals)
    requires Valid(g)
    modifies g`envVarLibraryPath, g`envVarLogFilePath, g`envVarFlags, g`base, g`since
    ensures g.Core() == old(g.Core()).(libraryPath := None, logFilePath := None, flagsText := None)
    ensures Valid(g) && g.Sinks() == old(g.Sinks()) && g.trace == old(g.trace)
  {
    g.envVarLibraryPath := None;
    SetLogFilePath(g, None);
    g.envVarFlags := None;
  }

  /** The reading part of pkcs11_logger_init_parse_env_vars, one variable after the other. */
  method ReadEnvVars(g: Globals, vars: map<string, string>) returns (rv: int)
    requires Valid(g)
    modifies g`envVarLibraryPath, g`envVarLogFilePath, g`envVarFlags, g`flags, g`base, g`since
    modifies g`logFileHandle, g`nextFileHandle, g`logFile, g`stdout, g`stderr, g`trace
    ensures rv == ReadSpec(old(g.Core()), vars).rv
    ensures g.Core() == ReadSpec(old(g.Core()), vars).core
    ensures Valid(g) && g.trace == old(g.trace) + ReadSpec(old(g.Core()), vars).lines
    ensures g.Sinks() == LogLines(old(g.Sinks()), g.Config(), g.host, ReadSpec(old(g.Core()), vars).lines)
  {
    ghost var c0, t0 := g.Core(), g.trace;
    rv := ReadLibraryPath(g, vars);
    if rv != RV_SUCCESS {
      return;
    }
    ghost var library := LibraryPathSpec(c0, vars);
    assert library.lines == [] && g.trace == t0 && g.Core() == library.core;
    rv := ReadRest(g, vars);
  }

  method ReadRest(g: Globals, vars: map<string, string>) returns (rv: int)
    requires Valid(g)
    modifies g`envVarLogFilePath, g`envVarFlags, g`flags, g`base, g`since
    modifies g`logFileHandle, g`nextFileHandle, g`logFile, g`stdout, g`stderr, g`trace
    ensures rv == ReadRestSpec(old(g.Core()), vars).rv
    ensures g.Core() == ReadRestSpec(old(g.Core()), vars).core
    ensures Valid(g) && g.trace == old(g.trace) + ReadRestSpec(old(g.Core()), vars).lines
    ensures g.Sinks() == LogLines(old(g.Sinks()), g.Config(), g.host, ReadRestSpec(old(g.Core()), vars).lines)
  {
    ghost var c0, t0 := g.Core(), g.trace;
    rv := ReadLogFilePath(g, vars);
    if rv != RV_SUCCESS {
      return;
    }
    ghost var path := LogFilePathSpec(c0, vars);
    assert path.lines == [] && g.trace == t0 && g.Core() == path.core;
    rv := ReadFlags(g, vars);
  }

  method ReadLibraryPath(g: Globals, vars: map<string, string>) returns (rv: int)
    requires Valid(g)
    modifies g`envVarLibraryPath
    modifies g`logFileHandle, g`nextFileHandle, g`logFile, g`stdout, g`stderr, g`trace
    ensures rv == LibraryPathSpec(old(g.Core()), vars).rv
    ensures g.Core() == LibraryPathSpec(old(g.Core()), vars).core
    ensures Valid(g) && g.trace == old(g.trace) + LibraryPathSpec(old(g.Core()), vars).lines
    ensures g.Sinks() == LogLines(old(g.Sinks()), g.Config(), g.host, LibraryPathSpec(old(g.Core()), vars).lines)
  {
    ghost var t0 := g.trace;
    var path := ReadEnvVar(vars, LIBRARY_PATH_VAR);
    g.envVarLibraryPath := path;
    if path.None? {
      Log.Log(g, NotDefinedLine(LIBRARY_PATH_VAR));
      LogLinesFrom(g.base, g.Config(), g.host, g.trace, g.since, t0);
      return RV_ERROR;
    }
    if Quoted(path.value) {
      Log.Log(g, QuotesLine(LIBRARY_PATH_VAR));
      LogLinesFrom(g.base, g.Config(), g.host, g.trace, g.since, t0);
      return RV_ERROR;
    }
    rv := RV_SUCCESS;
  }

  /** The complaint about quotes is logged with the quoted path already configured. */
  method ReadLogFilePath(g: Globals, vars: map<string, string>) returns (rv: int)
    requires Valid(g)
    modifies g`envVarLogFilePath, g`base, g`since
    modifies g`logFileHandle, g`nextFileHandle, g`logFile, g`stdout, g`stderr, g`trace
    ensures rv == LogFilePathSpec(old(g.Core()), vars).rv
    ensures g.Core() == LogFilePathSpec(old(g.Core()), vars).core
    ensures Valid(g) && g.trace == old(g.trace) + LogFilePathSpec(old(g.Core()), vars).lines
    ensures g.Sinks() == LogLines(old(g.Sinks()), g.Config(), g.host, LogFilePathSpec(old(g.Core()), vars).lines)
  {
    var path := ReadEnvVar(vars, LOG_FILE_PATH_VAR);
    SetLogFilePath(g, path);
    if path.Some? && Quoted(path.value) {
      Log.Log(g, QuotesLine(LOG_FILE_PATH_VAR));
      assert g.trace[g.since..] == [QuotesLine(LOG_FILE_PATH_VAR)];
      return RV_ERROR;
    }
    rv := RV_SUCCESS;
  }

  method ReadFlags(g: Globals, vars: map<string, string>) returns (rv: int)
    requires Valid(g)
    modifies g`envVarFlags, g`flags, g`base, g`since
    modifies g`logFileHandle, g`nextFileHandle, g`logFile, g`stdout, g`stderr, g`trace
    ensures rv == FlagsSpec(old(g.Core()), vars).rv
    ensures g.Core() == FlagsSpec(old(g.Core()), vars).core
    ensures Valid(g) && g.trace == old(g.trace) + FlagsSpec(old(g.Core()), vars).lines
    ensures g.Sinks() == LogLines(old(g.Sinks()), g.Config(), g.host, FlagsSpec(old(g.Core()), vars).lines)
  {
    var text := ReadEnvVar(vars, FLAGS_VAR);
    g.envVarFlags := text;
    if text.None? {
      return RV_SUCCESS;
    }
    var parsed := Utils.StrToLong(text, Some(g.flags));
    if parsed.rv != RV_SUCCESS {
      ghost var t0 := g.trace;
      Log.Log(g, FlagsNotNumberLine);
      LogLinesFrom(g.base, g.Config(), g.host, g.trace, g.since, t0);
      return RV_ERROR;
    }
    SetFlags(g, parsed.val.value);
    rv := RV_SUCCESS;
  }

  /** A path given in quotes is rejected, whichever of the two path variables holds it. */
  lemma QuotedPathsRejected(c: CoreState, vars: map<string, string>)
    requires (LIBRARY_PATH_VAR in vars && Quoted(vars[LIBRARY_PATH_VAR]))
      || (LOG_FILE_PATH_VAR in vars && Quoted(vars[LOG_FILE_PATH_VAR]))
    ensures ParseEnvVarsSpec(c, vars).rv == RV_ERROR
    ensures ParseEnvVarsSpec(c, vars).core.libraryPath.None?
  {
  }

  /**
   * A quoted log-file path is stored before it is rejected, so its one
   * error line is logged under a configuration holding that path (and
   * `env_vars_read` as before the parse); only then is the path cleared.
   */
  lemma QuoteComplaintUnderQuotedPath(c: CoreState, vars: map<string, string>)
    requires LIBRARY_PATH_VAR in vars && !Quoted(vars[LIBRARY_PATH_VAR])
    requires LOG_FILE_PATH_VAR in vars && Quoted(vars[LOG_FILE_PATH_VAR])
    ensures ParseEnvVarsSpec(c, vars).lines == [QuotesLine(LOG_FILE_PATH_VAR)]
    ensures ConfigOf(ReadSpec(c, vars).core) == ConfigOf(c).(logFilePath := Some(vars[LOG_FILE_PATH_VAR]))
    ensures ParseEnvVarsSpec(c, vars).core.logFilePath.None?
  {
  }

  /** Flags that are not a decimal number make the configuration unacceptable. */
  lemma NonNumericFlagsRejected(c: CoreState, library: string, flags: string)
    requires !Quoted(library)
    requires flags == "InvalidValue" || flags == "0x10"
    ensures ParseEnvVarsSpec(c, map[LIBRARY_PATH_VAR := library, FLAGS_VAR := flags]).rv == RV_ERROR
  {
    Utils.TrailingTextRejected(0);
    var vars := map[LIBRARY_PATH_VAR := library, FLAGS_VAR := flags];
    assert FLAGS_VAR in vars && vars[FLAGS_VAR] == flags;
    assert !IsNumber(flags);
  }

  /** A flags value written in decimal configures exactly that value. */
  lemma DecimalFlagsAccepted(c: CoreState, library: string, flags: nat)
    requires !Quoted(library)
    requires flags <= ULONG_MAX
    ensures var r := ParseEnvVarsSpec(c, map[LIBRARY_PATH_VAR := library, FLAGS_VAR := Decimal(flags)]);
      r.rv == RV_SUCCESS && r.core.flags == flags
  {
    Utils.DecimalRoundTrip(flags, 0);
    Utils.DecimalRoundTrip(flags, c.flags);
    var vars := map[LIBRARY_PATH_VAR := library, FLAGS_VAR := Decimal(flags)];
    assert LOG_FILE_PATH_VAR !in vars;
    assert vars[FLAGS_VAR] == Decimal(flags);
  }

  // ---------------------------------------------------------------------
  // pkcs11_logger_dl_open and CALL_N_CLEAR(pkcs11_logger_dl_close, ...)
  // ---------------------------------------------------------------------

  function LoadingLine(path: string): string {
    "Going to load PKCS#11 library \"" + path + "\""
  }

  function LoadFailedLine(dlError: Option<string>): string {
    match dlError
    case None => "Unable to load PKCS#11 library"
    case Some(e) => "Unable to load PKCS#11 library. Error: " + e
  }

  const LoadedLine: string := "Successfully loaded PKCS#11 library"

  /** What dlopen gives for a path, and the lines logged around it. */
  datatype Opened = Opened(handle: Option<Address>, lines: seq<string>)

  function DlOpenSpec(env: Env, path: string): (r: Opened)
    ensures r.handle.Some? <==> path in env.libraries
    ensures r.handle.Some? ==> r.handle.value == env.libraries[path].handle && r.lines == [LoadingLine(path), LoadedLine]
    ensures r.handle.None? ==> r.lines == [LoadingLine(path), LoadFailedLine(env.dlError)]
  {
    if path in env.libraries then Opened(Some(env.libraries[path].handle), [LoadingLine(path), LoadedLine])
    else Opened(None, [LoadingLine(path), LoadFailedLine(env.dlError)])
  }

  /** pkcs11_logger_dl_open on a POSIX system. */
  method DlOpen(g: Globals, env: Env, path: string) returns (handle: Option<Address>)
    requires Valid(g)
    modifies g`logFileHandle, g`nextFileHandle, g`logFile, g`stdout, g`stderr, g`trace
    ensures handle == DlOpenSpec(env, path).handle
    ensures Valid(g) && g.trace == old(g.trace) + DlOpenSpec(env, path).lines
    ensures g.Core() == old(g.Core())
  {
    Log.Log(g, LoadingLine(path));
    if path !in env.libraries {
      Log.Log(g, LoadFailedLine(env.dlError));
      return None;
    }
    Log.Log(g, LoadedLine);
    handle := Some(env.libraries[path].handle);
  }

  /** CALL_N_CLEAR(pkcs11_logger_dl_close, orig_lib_handle). */
  method CloseOrigLib(g: Globals)
    modifies g`origLibHandle, g`unloaded
    ensures g.Core() == old(g.Core()).(origLibHandle := None,
      unloaded := old(g.unloaded) + CallNClear(old(g.origLibHandle)).released)
  {
    var cleared := CallNClear(g.origLibHandle);
    g.unloaded := g.unloaded + cleared.released;
    g.origLibHandle := cleared.pointer;
  }

  // ---------------------------------------------------------------------
  // pkcs11_logger_init_orig_lib
  // ---------------------------------------------------------------------

  const LockFailedLine: string := "Unable to create lock"

  /** The informational header logged once the configuration has been read. */
  function BannerLines(now: string): (lines: seq<string>)
    ensures |lines| == 6 && lines[0] == lines[5] == SeparatorLine(now)
  {
    [SeparatorLine(now)] + AboutLines + [SeparatorLine(now)]
  }

  /** PKCS11_LOGGER_NAME and PKCS11_LOGGER_VERSION, the description, and where to read more. */
  const AboutLines: seq<string> := [
    "PKCS11-LOGGER 2.2.0",
    "PKCS#11 logging proxy module",
    "Developed as a part of the Pkcs11Interop project",
    "Please visit www.pkcs11interop.net for more information"]

  const CallingLine: string := "Going to call C_GetFunctionList function from the original library"
  const ReceivedLine: string := "Received response from C_GetFunctionList function"
  const EndiannessLine: string := "NOTE: Memory contents will be logged without the endianness conversion"

  function ReturnedLine(rv: nat): string {
    "C_GetFunctionList returned " + Decimal(rv) + " (" + TranslateCkRv(rv) + ")"
  }

  /**
   * Calling the original C_GetFunctionList of the library loaded in c: the
   * table it stores is kept; CKR_OK hands its version to the logger's
   * table, anything else unloads the library and clears the handle.
   */
  function CallSpec(c: CoreState, reply: GetFunctionListReply, now: string): Step
    requires c.origLibHandle.Some?
  {
    var called := c.(origLibFunctions := if reply.table.Some? then reply.table else c.origLibFunctions);
    if reply.rv != CKR_OK then
      Step(RV_ERROR, called.(origLibHandle := None, unloaded := c.unloaded + [c.origLibHandle.value]),
           [CallingLine, ReceivedLine, ReturnedLine(reply.rv)])
    else
      Step(RV_SUCCESS, called.(loggerFunctions := c.loggerFunctions.(version := reply.table.value.version)),
           [CallingLine, ReceivedLine, SeparatorLine(now), EndiannessLine])
  }

  /** Resolving C_GetFunctionList in the library loaded in c, and calling it when it is there. */
  function ResolveSpec(c: CoreState, symbol: Option<GetFunctionListReply>, now: string): Step
    requires c.origLibHandle.Some?
  {
    match symbol
    case None => Step(RV_ERROR, c.(origLibHandle := None, unloaded := c.unloaded + [c.origLibHandle.value]), [])
    case Some(reply) => CallSpec(c, reply, now)
  }

  /** From pkcs11_logger_dl_open on: load the library named by the configuration, then resolve and call. */
  function LoadSpec(c: CoreState, env: Env, now: string): Step
    requires c.libraryPath.Some?
  {
    var path := c.libraryPath.value;
    var dl := DlOpenSpec(env, path);
    var loaded := c.(origLibHandle := dl.handle);
    if dl.handle.None? then Step(RV_ERROR, loaded, dl.lines)
    else
      var resolved := ResolveSpec(loaded, env.libraries[path].getFunctionList, now);
      Step(resolved.rv, resolved.core, dl.lines + resolved.lines)
  }

  /** After the configuration has been read: mark it read, log the banner, load the library. */
  function StartSpec(c: CoreState, env: Env, now: string): Step
    requires c.libraryPath.Some?
  {
    var loaded := LoadSpec(c.(envVarsRead := true), env, now);
    Step(loaded.rv, loaded.core, BannerLines(now) + loaded.lines)
  }

  /**
   * The slow path of pkcs11_logger_init_orig_lib, after the globals were
   * reset: create the lock, parse the configuration, then start.
   */
  function ReloadSpec(c: CoreState, env: Env, now: string): Step {
    if !env.lockCreated then Step(RV_ERROR, c, [LockFailedLine])
    else
      var parsed := ParseEnvVarsSpec(c, env.vars);
      if parsed.rv != RV_SUCCESS then parsed
      else StartSpec(parsed.core, env, now)
  }

  /**
   * The logging configuration under which the slow path logs its lines:
   * the one it starts with when the lock fails, the one the reading left
   * behind when the configuration is rejected (the paths are cleared only
   * afterwards), and that one with env_vars_read set once it is accepted.
   */
  function ReloadConfig(c: CoreState, env: Env): LogConfig {
    if !env.lockCreated then ConfigOf(c)
    else
      var read := ConfigOf(ReadSpec(c, env.vars).core);
      if Acceptable(env.vars) then read.(envVarsRead := true) else read
  }

  /**
   * The sinks after pkcs11_logger_init_orig_lib: untouched on the fast
   * path; otherwise the log file is closed by the reset and the lines of
   * the slow path are logged under ReloadConfig.
   */
  function InitOrigLibSinks(c: CoreState, s: SinkState, host: Host, env: Env, now: string): SinkState {
    if c.origLibHandle.Some? then s
    else LogLines(CloseLogFile(s), ReloadConfig(ResetCore(c), env), host, ReloadSpec(ResetCore(c), env, now).lines)
  }

  /** pkcs11_logger_init_orig_lib, on the globals c. */
  function InitOrigLibSpec(c: CoreState, env: Env, now: string): Step {
    if c.origLibHandle.Some? then Step(RV_SUCCESS, c, [])
    else ReloadSpec(ResetCore(c), env, now)
  }

  /**
   * pkcs11_logger_init_orig_lib. Nothing happens when the library is
   * already loaded; otherwise the globals are reset and loading starts over.
   */
  method InitOrigLib(g: Globals, env: Env, now: string) returns (rv: int)
    requires Valid(g)
    modifies g`origLibHandle, g`origLibFunctions, g`loggerFunctions, g`envVarsRead, g`unloaded
    modifies g`envVarLibraryPath, g`envVarLogFilePath, g`envVarFlags, g`flags, g`base, g`since
    modifies g`logFileHandle, g`nextFileHandle, g`logFile, g`stdout, g`stderr, g`trace
    ensures rv == InitOrigLibSpec(old(g.Core()), env, now).rv
    ensures g.Core() == InitOrigLibSpec(old(g.Core()), env, now).core
    ensures Valid(g) && g.trace == old(g.trace) + InitOrigLibSpec(old(g.Core()), env, now).lines
    ensures g.Sinks() == InitOrigLibSinks(old(g.Core()), old(g.Sinks()), g.host, env, now)
  {
    if g.origLibHandle.Some? {
      return RV_SUCCESS;
    }
    InitGlobals(g);
    rv := Reload(g, env, now);
  }

  /** The slow path, after pkcs11_logger_init_globals. */
  method Reload(g: Globals, env: Env, now: string) returns (rv: int)
    requires Valid(g)
    modifies g`origLibHandle, g`origLibFunctions, g`loggerFunctions, g`envVarsRead, g`unloaded
    modifies g`envVarLibraryPath, g`envVarLogFilePath, g`envVarFlags, g`flags, g`base, g`since
    modifies g`logFileHandle, g`nextFileHandle, g`logFile, g`stdout, g`stderr, g`trace
    ensures rv == ReloadSpec(old(g.Core()), env, now).rv
    ensures g.Core() == ReloadSpec(old(g.Core()), env, now).core
    ensures Valid(g) && g.trace == old(g.trace) + ReloadSpec(old(g.Core()), env, now).lines
    ensures g.Sinks() == LogLines(old(g.Sinks()), ReloadConfig(old(g.Core()), env), g.host,
      ReloadSpec(old(g.Core()), env, now).lines)
  {
    if !env.lockCreated {
      ghost var t0 := g.trace;
      Log.Log(g, LockFailedLine);
      LogLinesFrom(g.base, g.Config(), g.host, g.trace, g.since, t0);
      return RV_ERROR;
    }
    ghost var c0, t0 := g.Core(), g.trace;
    rv := ParseEnvVars(g, env.vars);
    if rv != RV_SUCCESS {
      return RV_ERROR;
    }
    ghost var parsed := ParseEnvVarsSpec(c0, env.vars);
    assert parsed.lines == [] && g.trace == t0 && g.Core() == parsed.core;
    rv := Start(g, env, now);
  }

  /** env_vars_read becomes true, the banner is logged and the library is loaded. */
  method Start(g: Globals, env: Env, now: string) returns (rv: int)
    requires Valid(g) && g.envVarLibraryPath.Some?
    modifies g`origLibHandle, g`origLibFunctions, g`loggerFunctions, g`envVarsRead, g`unloaded, g`base, g`since
    modifies g`logFileHandle, g`nextFileHandle, g`logFile, g`stdout, g`stderr, g`trace
    ensures rv == StartSpec(old(g.Core()), env, now).rv
    ensures g.Core() == StartSpec(old(g.Core()), env, now).core
    ensures Valid(g) && g.trace == old(g.trace) + StartSpec(old(g.Core()), env, now).lines
    ensures g.Sinks() == LogLines(old(g.Sinks()), ConfigOf(old(g.Core()).(envVarsRead := true)), g.host,
      StartSpec(old(g.Core()), env, now).lines)
  {
    SetEnvVarsRead(g);
    LogBanner(g, now);
    ghost var bannered := g.trace;
    rv := LoadOrigLib(g, env, now);
    ConcatAssoc(old(g.trace), BannerLines(now), g.trace[|bannered|..]);
    assert g.trace[g.since..] == StartSpec(old(g.Core()), env, now).lines;
  }

  /** The banner logged once the configuration has been read. */
  method LogBanner(g: Globals, now: string)
    requires Valid(g)
    modifies g`logFileHandle, g`nextFileHandle, g`logFile, g`stdout, g`stderr, g`trace
    ensures Valid(g) && g.trace == old(g.trace) + BannerLines(now)
    ensures g.Core() == old(g.Core())
  {
    LogSeparator(g, now);
    LogAbout(g);
    LogSeparator(g, now);
    ConcatAssoc(old(g.trace), [SeparatorLine(now)], AboutLines);
  }

  method LogAbout(g: Globals)
    requires Valid(g)
    modifies g`logFileHandle, g`nextFileHandle, g`logFile, g`stdout, g`stderr, g`trace
    ensures Valid(g) && g.trace == old(g.trace) + AboutLines
    ensures g.Core() == old(g.Core())
  {
    Log.Log(g, "PKCS11-LOGGER 2.2.0");
    Log.Log(g, "PKCS#11 logging proxy module");
    Log.Log(g, "Developed as a part of the Pkcs11Interop project");
    Log.Log(g, "Please visit www.pkcs11interop.net for more information");
  }

  /** pkcs11_logger_init_orig_lib from the call of pkcs11_logger_dl_open on. */
  method LoadOrigLib(g: Globals, env: Env, now: string) returns (rv: int)
    requires Valid(g) && g.envVarLibraryPath.Some?
    modifies g`origLibHandle, g`origLibFunctions, g`loggerFunctions, g`unloaded
    modifies g`logFileHandle, g`nextFileHandle, g`logFile, g`stdout, g`stderr, g`trace
    ensures rv == LoadSpec(old(g.Core()), env, now).rv
    ensures g.Core() == LoadSpec(old(g.Core()), env, now).core
    ensures Valid(g) && g.trace == old(g.trace) + LoadSpec(old(g.Core()), env, now).lines
  {
    var path := g.envVarLibraryPath.value;
    var handle := DlOpen(g, env, path);
    g.origLibHandle := handle;
    if handle.None? {
      return RV_ERROR;
    }
    ghost var loaded := g.Core();
    rv := Resolve(g, env.libraries[path].getFunctionList, now);
    ConcatAssoc(old(g.trace), DlOpenSpec(env, path).lines,
      ResolveSpec(loaded, env.libraries[path].getFunctionList, now).lines);
  }

  /** pkcs11_logger_dl_sym for C_GetFunctionList; without it the library is unloaded again. */
  method Resolve(g: Globals, symbol: Option<GetFunctionListReply>, now: string) returns (rv: int)
    requires Valid(g) && g.origLibHandle.Some?
    modifies g`origLibHandle, g`origLibFunctions, g`loggerFunctions, g`unloaded
    modifies g`logFileHandle, g`nextFileHandle, g`logFile, g`stdout, g`stderr, g`trace
    ensures rv == ResolveSpec(old(g.Core()), symbol, now).rv
    ensures g.Core() == ResolveSpec(old(g.Core()), symbol, now).core
    ensures Valid(g) && g.trace == old(g.trace) + ResolveSpec(old(g.Core()), symbol, now).lines
  {
    if symbol.None? {
      CloseOrigLib(g);
      return RV_ERROR;
    }
    rv := CallGetFunctionList(g, symbol.value, now);
  }

  /** Calling the original C_GetFunctionList and acting on its return value. */
  method CallGetFunctionList(g: Globals, reply: GetFunctionListReply, now: string) returns (rv: int)
    requires Valid(g) && g.origLibHandle.Some?
    modifies g`origLibHandle, g`origLibFunctions, g`loggerFunctions, g`unloaded
    modifies g`logFileHandle, g`nextFileHandle, g`logFile, g`stdout, g`stderr, g`trace
    ensures rv == CallSpec(old(g.Core()), reply, now).rv
    ensures g.Core() == CallSpec(old(g.Core()), reply, now).core
    ensures Valid(g) && g.trace == old(g.trace) + CallSpec(old(g.Core()), reply, now).lines
  {
    CallOriginal(g, reply);
    if reply.rv != CKR_OK {
      ReportFailure(g, reply.rv);
      ConcatAssoc(old(g.trace), [CallingLine, ReceivedLine], [ReturnedLine(reply.rv)]);
      rv := RV_ERROR;
    } else {
      AdoptVersion(g, reply.table.value.version, now);
      ConcatAssoc(old(g.trace), [CallingLine, ReceivedLine], [SeparatorLine(now), EndiannessLine]);
      rv := RV_SUCCESS;
    }
  }

  /** The call itself: the function list it stores through its argument is kept whatever it returns. */
  method CallOriginal(g: Globals, reply: GetFunctionListReply)
    requires Valid(g)
    modifies g`origLibFunctions
    modifies g`logFileHandle, g`nextFileHandle, g`logFile, g`stdout, g`stderr, g`trace
    ensures g.Core() == old(g.Core()).(
      origLibFunctions := if reply.table.Some? then reply.table else old(g.origLibFunctions))
    ensures Valid(g) && g.trace == old(g.trace) + [CallingLine, ReceivedLine]
  {
    Log.Log(g, CallingLine);
    if reply.table.Some? {
      g.origLibFunctions := reply.table;
    }
    Log.Log(g, ReceivedLine);
  }

  /** A return value other than CKR_OK is logged and the library is unloaded. */
  method ReportFailure(g: Globals, rv: nat)
    requires Valid(g)
    modifies g`origLibHandle, g`unloaded
    modifies g`logFileHandle, g`nextFileHandle, g`logFile, g`stdout, g`stderr, g`trace
    ensures g.Core() == old(g.Core()).(origLibHandle := None,
      unloaded := old(g.unloaded) + CallNClear(old(g.origLibHandle)).released)
    ensures Valid(g) && g.trace == old(g.trace) + [ReturnedLine(rv)]
  {
    Log.Log(g, ReturnedLine(rv));
    CloseOrigLib(g);
  }

  /** CKR_OK: the original library's version becomes the logger's, and setting up is complete. */
  method AdoptVersion(g: Globals, version: Version, now: string)
    requires Valid(g)
    modifies g`loggerFunctions
    modifies g`logFileHandle, g`nextFileHandle, g`logFile, g`stdout, g`stderr, g`trace
    ensures g.Core() == old(g.Core()).(loggerFunctions := old(g.loggerFunctions).(version := version))
    ensures Valid(g) && g.trace == old(g.trace) + [SeparatorLine(now), EndiannessLine]
  {
    g.loggerFunctions := g.loggerFunctions.(version := version);
    LogSeparator(g, now);
    Log.Log(g, EndiannessLine);
  }

  // ---------------------------------------------------------------------
  // Properties of loading
  // ---------------------------------------------------------------------

  /** A library handle is only kept together with the function list it returned. */
  predicate HandleHasTable(c: CoreState) {
    c.origLibHandle.Some? ==> c.origLibFunctions.Some?
  }

  /** dlopen finds the library, it exports C_GetFunctionList, and that returns CKR_OK. */
  predicate Usable(env: Env, path: string) {
    && path in env.libraries
    && env.libraries[path].getFunctionList.Some?
    && env.libraries[path].getFunctionList.value.rv == CKR_OK
  }

  /**
   * Loading succeeds exactly when the library is usable. Then its handle and
   * function list are kept and its version becomes the logger's; otherwise
   * no handle is kept, and a library that was opened has been closed again.
   * The configuration is left as it was.
   */
  lemma LoadOutcome(c: CoreState, env: Env, now: string)
    requires c.libraryPath.Some? && c.origLibHandle.None?
    ensures var path := c.libraryPath.value;
      var r := LoadSpec(c, env, now);
      && (r.rv == RV_SUCCESS <==> Usable(env, path))
      && (r.rv == RV_SUCCESS <==> r.core.origLibHandle.Some?)
      && (r.rv != RV_SUCCESS ==> r.rv == RV_ERROR && r.core.loggerFunctions == c.loggerFunctions)
      && (r.rv != RV_SUCCESS ==>
            r.core.unloaded == c.unloaded + (if path in env.libraries then [env.libraries[path].handle] else []))
      && (r.rv == RV_SUCCESS ==>
            var table := env.libraries[path].getFunctionList.value.table.value;
            && r.core.origLibHandle == Some(env.libraries[path].handle)
            && r.core.origLibFunctions == Some(table)
            && r.core.loggerFunctions == c.loggerFunctions.(version := table.version)
            && r.core.unloaded == c.unloaded)
      && r.lines[0] == LoadingLine(path)
      && r.core.envVarsRead == c.envVarsRead && r.core.libraryPath == c.libraryPath
      && r.core.logFilePath == c.logFilePath && r.core.flagsText == c.flagsText && r.core.flags == c.flags
  {
  }

  /**
   * pkcs11_logger_init_orig_lib succeeds exactly when a library handle is
   * kept afterwards, so a failed attempt is repeated by the next call. From
   * an unloaded state it succeeds exactly when the lock can be created, the
   * configuration is acceptable and the library is usable; the banner comes
   * first whenever the configuration was accepted; once it has succeeded,
   * further calls do nothing; and a kept handle always comes with a table.
   */
  lemma {:induction false} InitOrigLibOutcome(c: CoreState, env: Env, now: string, env2: Env, now2: string)
    ensures var r := InitOrigLibSpec(c, env, now);
      && (r.rv == RV_SUCCESS <==> r.core.origLibHandle.Some?)
      && (c.origLibHandle.Some? ==> r == Step(RV_SUCCESS, c, []))
      && (c.origLibHandle.None? ==>
            && (r.rv == RV_SUCCESS <==>
                  env.lockCreated && Acceptable(env.vars) && Usable(env, env.vars[LIBRARY_PATH_VAR]))
            && (r.core.envVarsRead <==> env.lockCreated && Acceptable(env.vars))
            && (env.lockCreated && Acceptable(env.vars) ==> r.lines[..6] == BannerLines(now)))
      && (r.rv == RV_SUCCESS ==> InitOrigLibSpec(r.core, env2, now2) == Step(RV_SUCCESS, r.core, []))
      && (HandleHasTable(c) ==> HandleHasTable(r.core))
  {
    if c.origLibHandle.None? && env.lockCreated {
      var parsed := ParseEnvVarsSpec(ResetCore(c), env.vars);
      if parsed.rv == RV_SUCCESS {
        var started := parsed.core.(envVarsRead := true);
        LoadOutcome(started, env, now);
        var loaded := LoadSpec(started, env, now);
        assert (BannerLines(now) + loaded.lines)[..6] == BannerLines(now);
      }
    }
  }
}
