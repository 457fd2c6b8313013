/*
 * Declarations shared by the whole logger: the PKCS11_LOGGER_GLOBALS record,
 * the PKCS11_LOGGER_FLAG_* bits, the internal return codes, the CALL_N_CLEAR
 * macro and the few PKCS #11 (v2.20) constants the model needs.
 */
module LoggerDefs {

  type byte = b: int | 0 <= b < 256

  datatype Option<T> = None | Some(value: T)

  // ---------------------------------------------------------------------
  // Unsigned long arithmetic and bit tests
  // ---------------------------------------------------------------------

  /** ULONG_MAX of an LP64 platform (CK_ULONG is `unsigned long`). */
  const ULONG_MAX: nat := 0xFFFF_FFFF_FFFF_FFFF

  /** CK_UNAVAILABLE_INFORMATION (`~0UL`): the ulValueLen a token reports for a value it does not return. */
  const CK_UNAVAILABLE_INFORMATION: nat := ULONG_MAX

  function Pow2(k: nat): (p: nat)
    ensures p >= 1
  {
    if k == 0 then 1 else 2 * Pow2(k - 1)
  }

  /** Bit k of x. */
  predicate Bit(x: nat, k: nat) {
    if k == 0 then x % 2 == 1 else Bit(x / 2, k - 1)
  }

  /** The C test `(x & m) == m` on 64-bit unsigned values. */
  predicate MaskSet(x: nat, m: nat) {
    forall k :: 0 <= k < 64 && Bit(m, k) ==> Bit(x, k)
  }

  /** The C test `(x & m) != 0` on 64-bit unsigned values. */
  predicate MaskAny(x: nat, m: nat) {
    exists k :: 0 <= k < 64 && Bit(m, k) && Bit(x, k)
  }

  lemma {:induction false} NoBitOfZero(k: nat)
    ensures !Bit(0, k)
  {
    if k > 0 {
      NoBitOfZero(k - 1);
    }
  }

  /** A power of two has exactly one bit set: Pow2(j) has bit k iff k == j. */
  lemma {:induction false} SingleBit(j: nat, k: nat)
    ensures Bit(Pow2(j), k) <==> j == k
  {
    if k > 0 {
      if j == 0 {
        NoBitOfZero(k - 1);
      } else {
        assert Pow2(j) / 2 == Pow2(j - 1);
        SingleBit(j - 1, k - 1);
      }
    }
  }

  /** For a one-bit mask, the C test `(x & m) == m` is the test of that bit. */
  lemma MaskSetSingleBit(x: nat, j: nat)
    requires j < 64
    ensures MaskSet(x, Pow2(j)) <==> Bit(x, j)
  {
    SingleBit(j, j);
    forall k | 0 <= k < 64
      ensures Bit(Pow2(j), k) <==> k == j
    {
      SingleBit(j, k);
    }
  }

  /** For a one-bit mask, the C test `(x & m) != 0` is the test of that bit. */
  lemma MaskAnySingleBit(x: nat, j: nat)
    requires j < 64
    ensures MaskAny(x, Pow2(j)) <==> Bit(x, j)
  {
    SingleBit(j, j);
    forall k | 0 <= k < 64
      ensures Bit(Pow2(j), k) <==> k == j
    {
      SingleBit(j, k);
    }
  }

  // ---------------------------------------------------------------------
  // C strings and addresses
  // ---------------------------------------------------------------------

  /** A non-NULL address. */
  type Address = a: nat | a > 0 witness 1

  /** What `%s` prints of a character buffer: everything before the first NUL. */
  function CString(s: string): (r: string)
    ensures |r| <= |s| && r == s[..|r|]
    ensures '\0' !in r
    ensures |r| < |s| ==> s[|r|] == '\0'
  {
    if s == [] || s[0] == '\0' then [] else [s[0]] + CString(s[1..])
  }

  // ---------------------------------------------------------------------
  // PKCS11_LOGGER_FLAG_* (each a single bit, identified by its position)
  // ---------------------------------------------------------------------

  const DISABLE_LOG_FILE: nat := 0
  const DISABLE_PROCESS_ID: nat := 1
  const DISABLE_THREAD_ID: nat := 2
  const ENABLE_PIN: nat := 3
  const ENABLE_STDOUT: nat := 4
  const ENABLE_STDERR: nat := 5
  const ENABLE_FCLOSE: nat := 6
  const ENABLE_USECS: nat := 7

  /** The numeric value of the flag whose bit position is `bit`. */
  function FlagValue(bit: nat): nat {
    Pow2(bit)
  }

  /** `(flags & PKCS11_LOGGER_FLAG_X) == PKCS11_LOGGER_FLAG_X`, as the test of the flag's bit. */
  predicate HasFlag(flags: nat, bit: nat) {
    Bit(flags, bit)
  }

  /** HasFlag is the C mask test with the flag's value. */
  lemma HasFlagIsMaskTest(flags: nat, bit: nat)
    requires bit < 64
    ensures HasFlag(flags, bit) <==> MaskSet(flags, FlagValue(bit))
  {
    MaskSetSingleBit(flags, bit);
  }

  /** The eight flags have the values 0x01 .. 0x80 of the header. */
  lemma FlagValues()
    ensures FlagValue(DISABLE_LOG_FILE) == 0x01
    ensures FlagValue(DISABLE_PROCESS_ID) == 0x02
    ensures FlagValue(DISABLE_THREAD_ID) == 0x04
    ensures FlagValue(ENABLE_PIN) == 0x08
    ensures FlagValue(ENABLE_STDOUT) == 0x10
    ensures FlagValue(ENABLE_STDERR) == 0x20
    ensures FlagValue(ENABLE_FCLOSE) == 0x40
    ensures FlagValue(ENABLE_USECS) == 0x80
  {
  }

  /**
   * The flags are eight distinct single bits: flag i has exactly bit i set,
   * so testing one flag reads one bit of the configured value and no other.
   */
  lemma FlagsAreDistinctBits(i: nat, j: nat, flags: nat)
    requires i < 8 && j < 8
    ensures Bit(FlagValue(i), j) <==> i == j
    ensures HasFlag(flags, i) <==> Bit(flags, i)
    ensures i != j ==> FlagValue(i) != FlagValue(j)
  {
    SingleBit(i, j);
    SingleBit(j, i);
    SingleBit(i, i);
    MaskSetSingleBit(flags, i);
  }

  // ---------------------------------------------------------------------
  // Internal return values and PKCS #11 return values
  // ---------------------------------------------------------------------

  const RV_SUCCESS: int := 1
  const RV_ERROR: int := -1

  const CKR_OK: nat := 0x000
  const CKR_CANCEL: nat := 0x001
  const CKR_HOST_MEMORY: nat := 0x002
  const CKR_SLOT_ID_INVALID: nat := 0x003
  const CKR_GENERAL_ERROR: nat := 0x005
  const CKR_FUNCTION_FAILED: nat := 0x006
  const CKR_ARGUMENTS_BAD: nat := 0x007
  const CKR_ATTRIBUTE_SENSITIVE: nat := 0x011
  const CKR_ATTRIBUTE_TYPE_INVALID: nat := 0x012
  const CKR_FUNCTION_NOT_SUPPORTED: nat := 0x054
  const CKR_PIN_INCORRECT: nat := 0x0A0
  const CKR_USER_NOT_LOGGED_IN: nat := 0x101
  const CKR_BUFFER_TOO_SMALL: nat := 0x150
  const CKR_CRYPTOKI_NOT_INITIALIZED: nat := 0x190

  /** CKF_ARRAY_ATTRIBUTE, bit 30 of an attribute type. */
  const CKF_ARRAY_ATTRIBUTE: nat := 0x4000_0000
  const ARRAY_ATTRIBUTE_BIT: nat := 30

  /** sizeof(CK_ATTRIBUTE) on an LP64 platform: three 8-byte members. */
  const SIZEOF_CK_ATTRIBUTE: nat := 24

  // ---------------------------------------------------------------------
  // CALL_N_CLEAR(function, pointer)
  // ---------------------------------------------------------------------

  /** What CALL_N_CLEAR did: the values handed to `function`, and the pointer afterwards. */
  datatype Cleared<T> = Cleared(released: seq<T>, pointer: Option<T>)

  function CallNClear<T>(p: Option<T>): (r: Cleared<T>)
    ensures r.pointer == None
    ensures r.released != [] <==> p.Some?
    ensures p.Some? ==> r.released == [p.value]
  {
    match p
    case Some(v) => Cleared([v], None)
    case None => Cleared([], None)
  }

  /** Applying CALL_N_CLEAR to a pointer it has already cleared calls nothing. */
  lemma CallNClearIdempotent<T>(p: Option<T>)
    ensures CallNClear(CallNClear(p).pointer) == Cleared([], None)
  {
  }

  // ---------------------------------------------------------------------
  // Function tables
  // ---------------------------------------------------------------------

  datatype Version = Version(major: byte, minor: byte)

  /** A CK_FUNCTION_LIST: its version and, in order, the operation behind each slot. */
  datatype FunctionList = FunctionList(version: Version, entries: seq<string>)

  /** The 68 slots of the logger's own table, in PKCS #11 v2.20 order. */
  const LoggerEntries: seq<string> := [
    "C_Initialize", "C_Finalize", "C_GetInfo", "C_GetFunctionList", "C_GetSlotList",
    "C_GetSlotInfo", "C_GetTokenInfo", "C_GetMechanismList", "C_GetMechanismInfo",
    "C_InitToken", "C_InitPIN", "C_SetPIN", "C_OpenSession", "C_CloseSession",
    "C_CloseAllSessions", "C_GetSessionInfo", "C_GetOperationState", "C_SetOperationState",
    "C_Login", "C_Logout", "C_CreateObject", "C_CopyObject", "C_DestroyObject",
    "C_GetObjectSize", "C_GetAttributeValue", "C_SetAttributeValue", "C_FindObjectsInit",
    "C_FindObjects", "C_FindObjectsFinal", "C_EncryptInit", "C_Encrypt", "C_EncryptUpdate",
    "C_EncryptFinal", "C_DecryptInit", "C_Decrypt", "C_DecryptUpdate", "C_DecryptFinal",
    "C_DigestInit", "C_Digest", "C_DigestUpdate", "C_DigestKey", "C_DigestFinal",
    "C_SignInit", "C_Sign", "C_SignUpdate", "C_SignFinal", "C_SignRecoverInit",
    "C_SignRecover", "C_VerifyInit", "C_Verify", "C_VerifyUpdate", "C_VerifyFinal",
    "C_VerifyRecoverInit", "C_VerifyRecover", "C_DigestEncryptUpdate",
    "C_DecryptDigestUpdate", "C_SignEncryptUpdate", "C_DecryptVerifyUpdate",
    "C_GenerateKey", "C_GenerateKeyPair", "C_WrapKey", "C_UnwrapKey", "C_DeriveKey",
    "C_SeedRandom", "C_GenerateRandom", "C_GetFunctionStatus", "C_CancelFunction",
    "C_WaitForSlotEvent"
  ]

  /** The table the logger starts with: version 2.20 and its own 68 trampolines. */
  const InitialLoggerFunctions: FunctionList := FunctionList(Version(2, 20), LoggerEntries)

  // ---------------------------------------------------------------------
  // The process the logger runs in, and what it writes to
  // ---------------------------------------------------------------------

  /** The most malloc can supply at once; never the whole address space, so malloc(ULONG_MAX) fails. */
  type HeapSize = n: nat | n < ULONG_MAX

  /**
   * What the operating system supplies: the already formatted process and
   * thread id prefixes, the paths fopen(path, "a") can open, and how many
   * bytes malloc can hand out at once.
   */
  datatype Host = Host(pidText: string, tidText: string, writable: set<string>, heapLimit: HeapSize)

  /** What happens to the log file, in order. */
  datatype FileOp =
    | Open(path: string, handle: nat)
    | Write(handle: nat, text: string)
    | Flush(handle: nat)
    | Close(handle: nat)

  /** The sinks: the open log-file handle (if any) and what each destination received. */
  datatype SinkState = SinkState(
    logFileHandle: Option<nat>,
    nextHandle: nat,
    file: seq<FileOp>,
    stdout: seq<string>,
    stderr: seq<string>)

  /** The globals pkcs11_logger_log consults. */
  datatype LogConfig = LogConfig(flags: nat, envVarsRead: bool, logFilePath: Option<string>)

  /** Every global other than the log-file handle, plus the dl_close calls made. */
  datatype CoreState = CoreState(
    origLibHandle: Option<Address>,
    origLibFunctions: Option<FunctionList>,
    loggerFunctions: FunctionList,
    envVarsRead: bool,
    libraryPath: Option<string>,
    logFilePath: Option<string>,
    flagsText: Option<string>,
    flags: nat,
    unloaded: seq<Address>)

  /** A call into the original library's table, and how many lines had been logged before it. */
  datatype DelegateCall = DelegateCall(name: string, linesBefore: nat)

  /** PKCS11_LOGGER_GLOBALS, together with the destinations the logger writes to. */
  class Globals {
    const host: Host

    var origLibHandle: Option<Address>
    var origLibFunctions: Option<FunctionList>
    var loggerFunctions: FunctionList
    var envVarsRead: bool
    var envVarLibraryPath: Option<string>
    var envVarLogFilePath: Option<string>
    var envVarFlags: Option<string>
    var flags: nat
    var logFileHandle: Option<nat>

    // The outside world: file handles handed out so far, what reached each
    // destination, and the library handles passed to dl_close.
    var nextFileHandle: nat
    var logFile: seq<FileOp>
    var stdout: seq<string>
    var stderr: seq<string>
    var unloaded: seq<Address>

    /** Every message passed to pkcs11_logger_log, in order. */
    ghost var trace: seq<string>
    /** Every call made into the original library's function table, in order. */
    ghost var delegateCalls: seq<DelegateCall>
    /** The sinks when the logging configuration last changed. */
    ghost var base: SinkState
    /** Where the messages logged since then start in the trace. */
    ghost var since: nat

    function Sinks(): SinkState
      reads this`logFileHandle, this`nextFileHandle, this`logFile, this`stdout, this`stderr
    {
      SinkState(logFileHandle, nextFileHandle, logFile, stdout, stderr)
    }

    function Config(): LogConfig
      reads this`flags, this`envVarsRead, this`envVarLogFilePath
    {
      LogConfig(flags, envVarsRead, envVarLogFilePath)
    }

    function Core(): CoreState
      reads this`origLibHandle, this`origLibFunctions, this`loggerFunctions, this`envVarsRead,
        this`envVarLibraryPath, this`envVarLogFilePath, this`envVarFlags, this`flags, this`unloaded
    {
      CoreState(origLibHandle, origLibFunctions, loggerFunctions, envVarsRead,
                envVarLibraryPath, envVarLogFilePath, envVarFlags, flags, unloaded)
    }

    /** The static initialiser of pkcs11_logger_globals. */
    constructor (host: Host)
      ensures this.host == host
      ensures Core() == CoreState(None, None, InitialLoggerFunctions, false, None, None, None, 0, [])
      ensures Sinks() == SinkState(None, 1, [], [], [])
      ensures trace == [] && delegateCalls == []
      ensures base == Sinks() && since == 0
    {
      this.host := host;
      origLibHandle := None;
      origLibFunctions := None;
      loggerFunctions := InitialLoggerFunctions;
      envVarsRead := false;
      envVarLibraryPath := None;
      envVarLogFilePath := None;
      envVarFlags := None;
      flags := 0;
      logFileHandle := None;
      nextFileHandle := 1;
      logFile := [];
      stdout := [];
      stderr := [];
      unloaded := [];
      trace := [];
      delegateCalls := [];
      base := SinkState(None, 1, [], [], []);
      since := 0;
    }
  }

  /** The logger's table starts at version 2.20 with 68 slots. */
  lemma LoggerTableShape()
    ensures |InitialLoggerFunctions.entries| == 68
    ensures InitialLoggerFunctions.version == Version(2, 20)
  {
  }
}
