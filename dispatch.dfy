/*
 * src/pkcs11-logger.c: the exported PKCS #11 functions. Each one makes sure
 * the original library is loaded, logs its name and inputs, calls the
 * original function through the stored table, logs the outputs for the
 * return values where they are meaningful, and hands the original's return
 * value back unchanged. C_GetFunctionList is the exception: it answers
 * with the logger's own table.
 */
module Dispatch {
  import opened LoggerDefs
  import opened Format
  import opened Translate
  import opened Log
  import opened Init

  // ---------------------------------------------------------------------
  // The shape of every call
  // ---------------------------------------------------------------------

  /** pkcs11_logger_log_function_enter and pkcs11_logger_log_input_params. */
  function EnterLines(name: string, now: string): seq<string> {
    [SeparatorLine(now), "Calling " + name, "Input"]
  }


  /** The memory a pointer argument refers to: its address and the bytes there. */
  datatype Buffer = Buffer(addr: Address, bytes: seq<byte>)

  /** A CK_ULONG_PTR argument: its address and the value there. */
  datatype Counter = Counter(addr: Address, value: nat)

  function BufferAddress(b: Option<Buffer>): Option<Address> {
    match b
    case None => None
    case Some(x) => Some(x.addr)
  }

  function BufferBytes(b: Option<Buffer>): Option<seq<byte>> {
    match b
    case None => None
    case Some(x) => Some(x.bytes)
  }

  function CounterAddress(c: Option<Counter>): Option<Address> {
    match c
    case None => None
    case Some(x) => Some(x.addr)
  }

  /** The counter after the original function stored `value` through it. */
  function Stored(c: Option<Counter>, value: nat): Option<Counter> {
    match c
    case None => None
    case Some(x) => Some(x.(value := value))
  }

  /** `<name>: %lu` of the value a counter holds, when the pointer is not NULL. */
  function CounterLines(name: string, c: Option<Counter>): seq<string> {
    match c
    case None => []
    case Some(x) => [name + ": " + Decimal(x.value)]
  }

  /** A CK_ULONG_PTR argument: the pointer, then the value behind it when it is not NULL. */
  function CounterBlock(names: CounterNames, c: Option<Counter>): seq<string> {
    [names.pointer + ": " + PointerText(CounterAddress(c))] + CounterLines(names.value, c)
  }

  datatype CounterNames = CounterNames(pointer: string, value: string)

  /** pkcs11_logger_log_output_params, then the first output line. */
  function OutputHeader(line: string): seq<string> {
    ["Output", line]
  }

  /** Four pieces logged one after the other make one piece. */
  lemma Regroup(t: seq<string>, a: seq<string>, b: seq<string>, c: seq<string>)
    ensures t + a + b + c == t + (a + b + c)
  {
    ConcatAssoc(t, a, b);
    ConcatAssoc(t, a + b, c);
  }

  /**
   * SAFELY_INIT_ORIG_LIB_OR_FAIL: pkcs11_logger_init_orig_lib, and whether
   * the trampoline may go on. The sinks init leaves become the starting
   * point for the trampoline's own lines.
   */
  method SafelyInit(g: Globals, env: Env, now: string) returns (ready: bool)
    requires Valid(g) && HandleHasTable(g.Core())
    modifies g`origLibHandle, g`origLibFunctions, g`loggerFunctions, g`envVarsRead, g`unloaded
    modifies g`envVarLibraryPath, g`envVarLogFilePath, g`envVarFlags, g`flags, g`base, g`since
    modifies g`logFileHandle, g`nextFileHandle, g`logFile, g`stdout, g`stderr, g`trace
    ensures ready <==> InitOrigLibSpec(old(g.Core()), env, now).rv == RV_SUCCESS
    ensures g.Core() == InitOrigLibSpec(old(g.Core()), env, now).core
    ensures Valid(g) && g.trace == old(g.trace) + InitOrigLibSpec(old(g.Core()), env, now).lines
    ensures HandleHasTable(g.Core()) && (ready ==> g.origLibFunctions.Some?)
    ensures g.Sinks() == InitOrigLibSinks(old(g.Core()), old(g.Sinks()), g.host, env, now)
    ensures g.base == g.Sinks() && g.since == |g.trace|
  {
    InitOutcome(old(g.Core()), env, now);
    var rv := InitOrigLib(g, env, now);
    ready := rv == RV_SUCCESS;
    g.base, g.since := g.Sinks(), |g.trace|;
  }

  /** The facts of InitOrigLibOutcome a trampoline relies on. */
  lemma InitOutcome(c: CoreState, env: Env, now: string)
    requires HandleHasTable(c)
    ensures var r := InitOrigLibSpec(c, env, now);
      HandleHasTable(r.core) && (r.rv == RV_SUCCESS ==> r.core.origLibFunctions.Some?)
  {
    InitOrigLibOutcome(c, env, now, env, now);
  }

  /**
   * The call through orig_lib_functions. What the original function does
   * is an input: here its return value, which comes back unchanged, and
   * the record that it was called after the lines logged so far.
   */
  method CallOriginalFunction(g: Globals, name: string, reply: nat) returns (rv: nat)
    requires g.origLibFunctions.Some?
    modifies g`delegateCalls
    ensures rv == reply
    ensures g.delegateCalls == old(g.delegateCalls) + [DelegateCall(name, |g.trace|)]
    ensures g.Core() == old(g.Core()) && g.Sinks() == old(g.Sinks())
    ensures g.trace == old(g.trace) && g.since == old(g.since) && g.base == old(g.base)
  {
    g.delegateCalls := g.delegateCalls + [DelegateCall(name, |g.trace|)];
    rv := reply;
  }

  /** The entry lines of a trampoline. */
  method Enter(g: Globals, name: string, now: string)
    requires Valid(g)
    modifies g`logFileHandle, g`nextFileHandle, g`logFile, g`stdout, g`stderr, g`trace
    ensures Valid(g) && g.trace == old(g.trace) + EnterLines(name, now)
    ensures g.Core() == old(g.Core())
  {
    LogFunctionEnter(g, name, now);
    LogInputParams(g);
  }

  /** Two consecutive pkcs11_logger_log calls. */
  method LogTwo(g: Globals, first: string, second: string)
    requires Valid(g)
    modifies g`logFileHandle, g`nextFileHandle, g`logFile, g`stdout, g`stderr, g`trace
    ensures Valid(g) && g.trace == old(g.trace) + [first, second]
    ensures g.Core() == old(g.Core())
  {
    Log.Log(g, first);
    Log.Log(g, second);
  }

  method LogOutputHeader(g: Globals, line: string)
    requires Valid(g)
    modifies g`logFileHandle, g`nextFileHandle, g`logFile, g`stdout, g`stderr, g`trace
    ensures Valid(g) && g.trace == old(g.trace) + OutputHeader(line)
    ensures g.Core() == old(g.Core())
  {
    LogOutputParams(g);
    Log.Log(g, line);
  }

  /** Logs the counter pointer, then the value it points to when the pointer is given. */
  method LogCounterBlock(g: Globals, names: CounterNames, c: Option<Counter>)
    requires Valid(g)
    modifies g`logFileHandle, g`nextFileHandle, g`logFile, g`stdout, g`stderr, g`trace
    ensures Valid(g) && g.trace == old(g.trace) + CounterBlock(names, c)
    ensures g.Core() == old(g.Core())
  {
    Log.Log(g, names.pointer + ": " + PointerText(CounterAddress(c)));
    if c.Some? {
      Log.Log(g, names.value + ": " + Decimal(c.value.value));
    }
  }

  // ---------------------------------------------------------------------
  // C_GetFunctionList: answered by the logger itself
  // ---------------------------------------------------------------------

  const ReturningOwnList: string := " Note: Returning function list of PKCS11-LOGGER"

  /**
   * C_GetFunctionList. After loading, `*ppFunctionList` receives the
   * logger's own table (None: nothing was stored); the original's
   * C_GetFunctionList is not called again and the answer is CKR_OK.
   */
  method GetFunctionList(g: Globals, env: Env, now: string, ppFunctionList: Address)
    returns (rv: nat, stored: Option<FunctionList>)
    requires Valid(g) && HandleHasTable(g.Core())
    modifies g`origLibHandle, g`origLibFunctions, g`loggerFunctions, g`envVarsRead, g`unloaded
    modifies g`envVarLibraryPath, g`envVarLogFilePath, g`envVarFlags, g`flags, g`base, g`since
    modifies g`logFileHandle, g`nextFileHandle, g`logFile, g`stdout, g`stderr, g`trace
    ensures var init := InitOrigLibSpec(old(g.Core()), env, now);
      && g.Core() == init.core && Valid(g) && HandleHasTable(g.Core())
      && (init.rv != RV_SUCCESS ==>
            rv == CKR_GENERAL_ERROR && stored.None? && g.trace == old(g.trace) + init.lines)
      && (init.rv == RV_SUCCESS ==>
            && rv == CKR_OK
            && stored == Some(init.core.loggerFunctions)
            && g.trace == old(g.trace) + init.lines + EnterLines("C_GetFunctionList", now)
                 + [" ppFunctionList: " + PointerText(Some(ppFunctionList))]
                 + OutputHeader(ReturningOwnList) + [ExitLine(CKR_OK)])
    ensures g.delegateCalls == old(g.delegateCalls)
    ensures g.base == InitOrigLibSinks(old(g.Core()), old(g.Sinks()), g.host, env, now)
    ensures g.since == |old(g.trace)| + |InitOrigLibSpec(old(g.Core()), env, now).lines|
  {
    var ready := SafelyInit(g, env, now);
    if !ready {
      return CKR_GENERAL_ERROR, None;
    }
    rv, stored := GetFunctionListCall(g, now, ppFunctionList);
  }

  method GetFunctionListCall(g: Globals, now: string, ppFunctionList: Address)
    returns (rv: nat, stored: Option<FunctionList>)
    requires Valid(g)
    modifies g`logFileHandle, g`nextFileHandle, g`logFile, g`stdout, g`stderr, g`trace
    ensures g.Core() == old(g.Core()) && Valid(g)
    ensures rv == CKR_OK && stored == Some(g.loggerFunctions)
    ensures g.trace == old(g.trace) + EnterLines("C_GetFunctionList", now)
      + [" ppFunctionList: " + PointerText(Some(ppFunctionList))] + OutputHeader(ReturningOwnList) + [ExitLine(CKR_OK)]
  {
    Enter(g, "C_GetFunctionList", now);
    Log.Log(g, " ppFunctionList: " + PointerText(Some(ppFunctionList)));
    stored := Some(g.loggerFunctions);
    LogOutputHeader(g, ReturningOwnList);
    rv := CKR_OK;
    LogFunctionExit(g, rv);
  }

  /**
   * The table handed out keeps the logger's 68 entries; only its version
   * follows the original library's.
   */
  lemma HandsOutOwnTable(c: CoreState, env: Env, now: string)
    requires c.loggerFunctions.entries == LoggerEntries
    ensures InitOrigLibSpec(c, env, now).core.loggerFunctions.entries == LoggerEntries
  {
    if c.origLibHandle.None? && env.lockCreated {
      var parsed := ParseEnvVarsSpec(ResetCore(c), env.vars);
      if parsed.rv == RV_SUCCESS && parsed.core.libraryPath.Some? {
        LoadOutcome(parsed.core.(envVarsRead := true), env, now);
      }
    }
  }

  // ---------------------------------------------------------------------
  // C_GetSlotList: the slot list is logged only for CKR_OK
  // ---------------------------------------------------------------------

  /** What the original C_GetSlotList leaves behind: its return value, the slot array and `*pulCount`. */
  datatype SlotListReply = SlotListReply(rv: nat, slots: seq<nat>, count: nat)

  function SlotLine(i: nat, slot: nat): string {
    " pSlotList[" + Decimal(i) + "]: " + Decimal(slot)
  }

  /** The lines of the loop over the first n slots. */
  function SlotLines(slots: seq<nat>, n: nat): (lines: seq<string>)
    requires n <= |slots|
  {
    if n == 0 then [] else SlotLines(slots, n - 1) + [SlotLine(n - 1, slots[n - 1])]
  }

  /** One line per slot, in order. */
  lemma {:induction false} SlotLinesInOrder(slots: seq<nat>, n: nat)
    requires n <= |slots|
    ensures |SlotLines(slots, n)| == n
    ensures forall i :: 0 <= i < n ==> SlotLines(slots, n)[i] == SlotLine(i, slots[i])
  {
    if n > 0 {
      SlotLinesInOrder(slots, n - 1);
    }
  }

  const PulCount := CounterNames(" pulCount", " *pulCount")

  function SlotListInputs(tokenPresent: nat, slotList: Option<Address>, count: Option<Counter>): seq<string> {
    [" tokenPresent: " + Decimal(tokenPresent), " pSlotList: " + PointerText(slotList)]
    + CounterBlock(PulCount, count)
  }

  /** The slot array is read only when both pointers are given; the original guarantees count entries then. */
  predicate SlotsReadable(slotList: Option<Address>, count: Option<Counter>, reply: SlotListReply) {
    reply.rv == CKR_OK && slotList.Some? && count.Some? ==> reply.count <= |reply.slots|
  }

  /** The loop runs only when both pointers are given. */
  function SlotsPart(slotList: Option<Address>, count: Option<Counter>, reply: SlotListReply): seq<string>
    requires SlotsReadable(slotList, count, reply) && reply.rv == CKR_OK
  {
    if slotList.Some? && count.Some? then SlotLines(reply.slots, reply.count) else []
  }

  /** The output block, logged only for CKR_OK. */
  function SlotListOutputs(slotList: Option<Address>, count: Option<Counter>, reply: SlotListReply): seq<string>
    requires SlotsReadable(slotList, count, reply)
  {
    if reply.rv != CKR_OK then []
    else
      OutputHeader(" pSlotList: " + PointerText(slotList))
      + SlotsPart(slotList, count, reply)
      + CounterBlock(PulCount, Stored(count, reply.count))
  }

  /**
   * C_GetSlotList. The inputs are logged, the original is called, and the
   * slots it wrote are logged one by one only when it returned CKR_OK.
   */
  method GetSlotList(g: Globals, env: Env, now: string, tokenPresent: nat, slotList: Option<Address>,
                     count: Option<Counter>, reply: SlotListReply)
    returns (rv: nat)
    requires Valid(g) && HandleHasTable(g.Core())
    requires SlotsReadable(slotList, count, reply)
    modifies g`origLibHandle, g`origLibFunctions, g`loggerFunctions, g`envVarsRead, g`unloaded
    modifies g`envVarLibraryPath, g`envVarLogFilePath, g`envVarFlags, g`flags, g`base, g`since
    modifies g`logFileHandle, g`nextFileHandle, g`logFile, g`stdout, g`stderr, g`trace, g`delegateCalls
    ensures var init := InitOrigLibSpec(old(g.Core()), env, now);
      && g.Core() == init.core && Valid(g) && HandleHasTable(g.Core())
      && (init.rv != RV_SUCCESS ==>
            rv == CKR_GENERAL_ERROR && g.trace == old(g.trace) + init.lines && g.delegateCalls == old(g.delegateCalls))
      && (init.rv == RV_SUCCESS ==>
            var inputs := SlotListInputs(tokenPresent, slotList, count);
            && rv == reply.rv
            && g.trace == old(g.trace) + init.lines + EnterLines("C_GetSlotList", now) + inputs
                 + SlotListOutputs(slotList, count, reply) + [ExitLine(rv)]
            && g.delegateCalls == old(g.delegateCalls)
                 + [DelegateCall("C_GetSlotList", |old(g.trace) + init.lines + EnterLines("C_GetSlotList", now) + inputs|)])
    ensures g.base == InitOrigLibSinks(old(g.Core()), old(g.Sinks()), g.host, env, now)
    ensures g.since == |old(g.trace)| + |InitOrigLibSpec(old(g.Core()), env, now).lines|
  {
    var ready := SafelyInit(g, env, now);
    if !ready {
      return CKR_GENERAL_ERROR;
    }
    rv := GetSlotListCall(g, now, tokenPresent, slotList, count, reply);
  }

  method GetSlotListCall(g: Globals, now: string, tokenPresent: nat, slotList: Option<Address>,
                         count: Option<Counter>, reply: SlotListReply)
    returns (rv: nat)
    requires Valid(g) && g.origLibFunctions.Some?
    requires SlotsReadable(slotList, count, reply)
    modifies g`logFileHandle, g`nextFileHandle, g`logFile, g`stdout, g`stderr, g`trace, g`delegateCalls
    ensures rv == reply.rv && Valid(g) && g.Core() == old(g.Core())
    ensures g.trace == old(g.trace) + EnterLines("C_GetSlotList", now) + SlotListInputs(tokenPresent, slotList, count)
      + SlotListOutputs(slotList, count, reply) + [ExitLine(rv)]
    ensures g.delegateCalls == old(g.delegateCalls)
      + [DelegateCall("C_GetSlotList", |old(g.trace) + EnterLines("C_GetSlotList", now) + SlotListInputs(tokenPresent, slotList, count)|)]
  {
    Enter(g, "C_GetSlotList", now);
    LogSlotListInputs(g, tokenPresent, slotList, count);
    rv := CallOriginalFunction(g, "C_GetSlotList", reply.rv);
    LogSlotListOutputs(g, slotList, count, reply);
    LogFunctionExit(g, rv);
  }

  method LogSlotListInputs(g: Globals, tokenPresent: nat, slotList: Option<Address>, count: Option<Counter>)
    requires Valid(g)
    modifies g`logFileHandle, g`nextFileHandle, g`logFile, g`stdout, g`stderr, g`trace
    ensures Valid(g) && g.trace == old(g.trace) + SlotListInputs(tokenPresent, slotList, count)
    ensures g.Core() == old(g.Core())
  {
    var first := [" tokenPresent: " + Decimal(tokenPresent), " pSlotList: " + PointerText(slotList)];
    LogTwo(g, first[0], first[1]);
    LogCounterBlock(g, PulCount, count);
    ConcatAssoc(old(g.trace), first, CounterBlock(PulCount, count));
  }

  method LogSlotListOutputs(g: Globals, slotList: Option<Address>, count: Option<Counter>, reply: SlotListReply)
    requires Valid(g)
    requires SlotsReadable(slotList, count, reply)
    modifies g`logFileHandle, g`nextFileHandle, g`logFile, g`stdout, g`stderr, g`trace
    ensures Valid(g) && g.trace == old(g.trace) + SlotListOutputs(slotList, count, reply)
    ensures g.Core() == old(g.Core())
  {
    if reply.rv == CKR_OK {
      LogSlotListBlock(g, slotList, count, reply);
      Regroup(old(g.trace), OutputHeader(" pSlotList: " + PointerText(slotList)), SlotsPart(slotList, count, reply),
        CounterBlock(PulCount, Stored(count, reply.count)));
    }
  }

  /** The output block of CKR_OK: header, slots, count. */
  method LogSlotListBlock(g: Globals, slotList: Option<Address>, count: Option<Counter>, reply: SlotListReply)
    requires Valid(g) && SlotsReadable(slotList, count, reply) && reply.rv == CKR_OK
    modifies g`logFileHandle, g`nextFileHandle, g`logFile, g`stdout, g`stderr, g`trace
    ensures Valid(g) && g.Core() == old(g.Core())
    ensures g.trace == old(g.trace) + OutputHeader(" pSlotList: " + PointerText(slotList))
      + SlotsPart(slotList, count, reply) + CounterBlock(PulCount, Stored(count, reply.count))
  {
    LogOutputHeader(g, " pSlotList: " + PointerText(slotList));
    LogSlotsPart(g, slotList, count, reply);
    LogCounterBlock(g, PulCount, Stored(count, reply.count));
  }

  /** The slot lines, when both pointers are given. */
  method LogSlotsPart(g: Globals, slotList: Option<Address>, count: Option<Counter>, reply: SlotListReply)
    requires Valid(g) && SlotsReadable(slotList, count, reply) && reply.rv == CKR_OK
    modifies g`logFileHandle, g`nextFileHandle, g`logFile, g`stdout, g`stderr, g`trace
    ensures Valid(g) && g.trace == old(g.trace) + SlotsPart(slotList, count, reply)
    ensures g.Core() == old(g.Core())
  {
    if slotList.Some? && count.Some? {
      LogSlots(g, reply.slots, reply.count);
    }
  }

  /** Logs one line ` pSlotList[i]: <slot>` for each index i below the count, in order. */
  method LogSlots(g: Globals, slots: seq<nat>, count: nat)
    requires Valid(g) && count <= |slots|
    modifies g`logFileHandle, g`nextFileHandle, g`logFile, g`stdout, g`stderr, g`trace
    ensures Valid(g) && g.trace == old(g.trace) + SlotLines(slots, count)
    ensures g.Core() == old(g.Core())
  {
    for i := 0 to count
      invariant Valid(g) && g.trace == old(g.trace) + SlotLines(slots, i)
      invariant g.Core() == old(g.Core())
    {
      Log.Log(g, SlotLine(i, slots[i]));
      ConcatAssoc(old(g.trace), SlotLines(slots, i), [SlotLine(i, slots[i])]);
    }
  }

  /** Output lines appear exactly for CKR_OK. */
  lemma SlotListOutputsOnlyOnSuccess(slotList: Option<Address>, count: Option<Counter>, reply: SlotListReply)
    requires SlotsReadable(slotList, count, reply)
    ensures SlotListOutputs(slotList, count, reply) != [] <==> reply.rv == CKR_OK
  {
  }

  /**
   * For CKR_OK with both pointers given, the output block holds one line per
   * slot the original reported, in order, and ends with the count it stored.
   */
  lemma {:induction false} SlotsLoggedInOrder(slotList: Address, count: Counter, reply: SlotListReply)
    requires reply.rv == CKR_OK && reply.count <= |reply.slots|
    ensures var out := SlotListOutputs(Some(slotList), Some(count), reply);
      && |out| == reply.count + 4
      && (forall i :: 0 <= i < reply.count ==> out[2 + i] == SlotLine(i, reply.slots[i]))
      && out[|out| - 1] == " *pulCount: " + Decimal(reply.count)
  {
    SlotLinesInOrder(reply.slots, reply.count);
    var head := OutputHeader(" pSlotList: " + PointerText(Some(slotList)));
    var slots := SlotLines(reply.slots, reply.count);
    var tail := CounterBlock(PulCount, Stored(Some(count), reply.count));
    assert SlotListOutputs(Some(slotList), Some(count), reply) == head + slots + tail;
    assert |tail| == 2 && tail[1] == " *pulCount: " + Decimal(reply.count);
  }

  // ---------------------------------------------------------------------
  // C_Login and C_SetPIN: a PIN is shown only with ENABLE_PIN
  // ---------------------------------------------------------------------

  const HiddenPin: string := ": *** Intentionally hidden ***"

  /** The contents of a PIN argument: the text before its first zero byte with ENABLE_PIN, a fixed notice otherwise. */
  function PinLines(flags: nat, name: string, pin: Option<Buffer>, len: nat, heapLimit: HeapSize): (lines: seq<string>)
    requires pin.Some? ==> len <= |pin.value.bytes|
    ensures !HasFlag(flags, ENABLE_PIN) ==> lines == [name + HiddenPin]
    ensures HasFlag(flags, ENABLE_PIN) && pin.None? ==> lines == []
  {
    if HasFlag(flags, ENABLE_PIN) then NonzeroStringLines(name, BufferBytes(pin), len, heapLimit)
    else [name + HiddenPin]
  }

  /** How a function labels the pointer, the contents and the length of one PIN. */
  datatype PinNames = PinNames(pointer: string, contents: string, length: string)

  const LoginPin := PinNames(" pPin", " *pPin", " ulPinLen")
  const OldPin := PinNames(" pOldPin", " *pOldPin", " ulOldLen")
  const NewPin := PinNames(" pNewPin", " *pNewPin", " ulNewLen")

  /** A PIN argument: its pointer, its contents or the notice, and its length. */
  function PinArgLines(names: PinNames, flags: nat, pin: Option<Buffer>, len: nat, heapLimit: HeapSize): seq<string>
    requires pin.Some? ==> len <= |pin.value.bytes|
  {
    [names.pointer + ": " + PointerText(BufferAddress(pin))]
    + PinLines(flags, names.contents, pin, len, heapLimit)
    + [names.length + ": " + Decimal(len)]
  }

  function LoginInputs(flags: nat, heapLimit: HeapSize, session: nat, userType: nat, pin: Option<Buffer>, pinLen: nat): seq<string>
    requires pin.Some? ==> pinLen <= |pin.value.bytes|
  {
    [" hSession: " + Decimal(session),
     " userType: " + Decimal(userType) + " (" + TranslateCkUserType(userType) + ")"]
    + PinArgLines(LoginPin, flags, pin, pinLen, heapLimit)
  }

  function SetPinInputs(flags: nat, heapLimit: HeapSize, session: nat, oldPin: Option<Buffer>, oldLen: nat,
                        newPin: Option<Buffer>, newLen: nat): seq<string>
    requires oldPin.Some? ==> oldLen <= |oldPin.value.bytes|
    requires newPin.Some? ==> newLen <= |newPin.value.bytes|
  {
    [" hSession: " + Decimal(session)]
    + PinArgLines(OldPin, flags, oldPin, oldLen, heapLimit)
    + PinArgLines(NewPin, flags, newPin, newLen, heapLimit)
  }

  /**
   * C_Login. The PIN is logged according to ENABLE_PIN, the original is
   * called once after the inputs, and its return value is handed back;
   * there is no output block.
   */
  method Login(g: Globals, env: Env, now: string, session: nat, userType: nat, pin: Option<Buffer>, pinLen: nat, reply: nat)
    returns (rv: nat)
    requires Valid(g) && HandleHasTable(g.Core())
    requires pin.Some? ==> pinLen <= |pin.value.bytes|
    modifies g`origLibHandle, g`origLibFunctions, g`loggerFunctions, g`envVarsRead, g`unloaded
    modifies g`envVarLibraryPath, g`envVarLogFilePath, g`envVarFlags, g`flags, g`base, g`since
    modifies g`logFileHandle, g`nextFileHandle, g`logFile, g`stdout, g`stderr, g`trace, g`delegateCalls
    ensures var init := InitOrigLibSpec(old(g.Core()), env, now);
      && g.Core() == init.core && Valid(g) && HandleHasTable(g.Core())
      && (init.rv != RV_SUCCESS ==>
            rv == CKR_GENERAL_ERROR && g.trace == old(g.trace) + init.lines && g.delegateCalls == old(g.delegateCalls))
      && (init.rv == RV_SUCCESS ==>
            var inputs := LoginInputs(init.core.flags, g.host.heapLimit, session, userType, pin, pinLen);
            && rv == reply
            && g.trace == old(g.trace) + init.lines + EnterLines("C_Login", now) + inputs
                 + [ExitLine(rv)]
            && g.delegateCalls == old(g.delegateCalls)
                 + [DelegateCall("C_Login", |old(g.trace) + init.lines + EnterLines("C_Login", now) + inputs|)])
    ensures g.base == InitOrigLibSinks(old(g.Core()), old(g.Sinks()), g.host, env, now)
    ensures g.since == |old(g.trace)| + |InitOrigLibSpec(old(g.Core()), env, now).lines|
  {
    var ready := SafelyInit(g, env, now);
    if !ready {
      return CKR_GENERAL_ERROR;
    }
    rv := LoginCall(g, now, session, userType, pin, pinLen, reply);
  }

  /** C_Login once the original library is loaded. */
  method LoginCall(g: Globals, now: string, session: nat, userType: nat, pin: Option<Buffer>, pinLen: nat, reply: nat)
    returns (rv: nat)
    requires Valid(g) && g.origLibFunctions.Some?
    requires pin.Some? ==> pinLen <= |pin.value.bytes|
    modifies g`logFileHandle, g`nextFileHandle, g`logFile, g`stdout, g`stderr, g`trace, g`delegateCalls
    ensures rv == reply && Valid(g) && g.Core() == old(g.Core())
    ensures g.trace == old(g.trace) + EnterLines("C_Login", now) + LoginInputs(g.flags, g.host.heapLimit, session, userType, pin, pinLen)
      + [ExitLine(rv)]
    ensures g.delegateCalls == old(g.delegateCalls)
      + [DelegateCall("C_Login", |old(g.trace) + EnterLines("C_Login", now) + LoginInputs(g.flags, g.host.heapLimit, session, userType, pin, pinLen)|)]
  {
    Enter(g, "C_Login", now);
    LogLoginInputs(g, session, userType, pin, pinLen);
    rv := CallOriginalFunction(g, "C_Login", reply);
    LogFunctionExit(g, rv);
  }

  method LogLoginInputs(g: Globals, session: nat, userType: nat, pin: Option<Buffer>, pinLen: nat)
    requires Valid(g)
    requires pin.Some? ==> pinLen <= |pin.value.bytes|
    modifies g`logFileHandle, g`nextFileHandle, g`logFile, g`stdout, g`stderr, g`trace
    ensures Valid(g) && g.Core() == old(g.Core())
    ensures g.trace == old(g.trace) + LoginInputs(g.flags, g.host.heapLimit, session, userType, pin, pinLen)
  {
    var first := [" hSession: " + Decimal(session),
                  " userType: " + Decimal(userType) + " (" + TranslateCkUserType(userType) + ")"];
    LogTwo(g, first[0], first[1]);
    LogPinArgument(g, LoginPin, pin, pinLen);
    ConcatAssoc(old(g.trace), first, PinArgLines(LoginPin, g.flags, pin, pinLen, g.host.heapLimit));
  }

  /** The three lines of one PIN argument. */
  method LogPinArgument(g: Globals, names: PinNames, pin: Option<Buffer>, len: nat)
    requires Valid(g)
    requires pin.Some? ==> len <= |pin.value.bytes|
    modifies g`logFileHandle, g`nextFileHandle, g`logFile, g`stdout, g`stderr, g`trace
    ensures Valid(g) && g.Core() == old(g.Core())
    ensures g.trace == old(g.trace) + PinArgLines(names, g.flags, pin, len, g.host.heapLimit)
  {
    var pointer := names.pointer + ": " + PointerText(BufferAddress(pin));
    var length := names.length + ": " + Decimal(len);
    Log.Log(g, pointer);
    LogPin(g, names.contents, pin, len);
    Log.Log(g, length);
    Regroup(old(g.trace), [pointer], PinLines(g.flags, names.contents, pin, len, g.host.heapLimit), [length]);
  }

  /** The flag test of C_Login and C_SetPIN: `(flags & ENABLE_PIN) == ENABLE_PIN`. */
  method LogPin(g: Globals, name: string, pin: Option<Buffer>, len: nat)
    requires Valid(g)
    requires pin.Some? ==> len <= |pin.value.bytes|
    modifies g`logFileHandle, g`nextFileHandle, g`logFile, g`stdout, g`stderr, g`trace
    ensures Valid(g) && g.Core() == old(g.Core())
    ensures g.trace == old(g.trace) + PinLines(g.flags, name, pin, len, g.host.heapLimit)
  {
    HasFlagIsMaskTest(g.flags, ENABLE_PIN);
    if MaskSet(g.flags, FlagValue(ENABLE_PIN)) {
      LogNonzeroString(g, name, BufferBytes(pin), len);
    } else {
      Log.Log(g, name + HiddenPin);
    }
  }

  /**
   * C_SetPIN: like C_Login, with the old and the new PIN each logged
   * according to ENABLE_PIN.
   */
  method SetPin(g: Globals, env: Env, now: string, session: nat, oldPin: Option<Buffer>, oldLen: nat, newPin: Option<Buffer>, newLen: nat, reply: nat)
    returns (rv: nat)
    requires Valid(g) && HandleHasTable(g.Core())
    requires oldPin.Some? ==> oldLen <= |oldPin.value.bytes|
    requires newPin.Some? ==> newLen <= |newPin.value.bytes|
    modifies g`origLibHandle, g`origLibFunctions, g`loggerFunctions, g`envVarsRead, g`unloaded
    modifies g`envVarLibraryPath, g`envVarLogFilePath, g`envVarFlags, g`flags, g`base, g`since
    modifies g`logFileHandle, g`nextFileHandle, g`logFile, g`stdout, g`stderr, g`trace, g`delegateCalls
    ensures var init := InitOrigLibSpec(old(g.Core()), env, now);
      && g.Core() == init.core && Valid(g) && HandleHasTable(g.Core())
      && (init.rv != RV_SUCCESS ==>
            rv == CKR_GENERAL_ERROR && g.trace == old(g.trace) + init.lines && g.delegateCalls == old(g.delegateCalls))
      && (init.rv == RV_SUCCESS ==>
            var inputs := SetPinInputs(init.core.flags, g.host.heapLimit, session, oldPin, oldLen, newPin, newLen);
            && rv == reply
            && g.trace == old(g.trace) + init.lines + EnterLines("C_SetPIN", now) + inputs
                 + [ExitLine(rv)]
            && g.delegateCalls == old(g.delegateCalls)
                 + [DelegateCall("C_SetPIN", |old(g.trace) + init.lines + EnterLines("C_SetPIN", now) + inputs|)])
    ensures g.base == InitOrigLibSinks(old(g.Core()), old(g.Sinks()), g.host, env, now)
    ensures g.since == |old(g.trace)| + |InitOrigLibSpec(old(g.Core()), env, now).lines|
  {
    var ready := SafelyInit(g, env, now);
    if !ready {
      return CKR_GENERAL_ERROR;
    }
    rv := SetPinCall(g, now, session, oldPin, oldLen, newPin, newLen, reply);
  }

  /** C_SetPIN once the original library is loaded. */
  method SetPinCall(g: Globals, now: string, session: nat, oldPin: Option<Buffer>, oldLen: nat, newPin: Option<Buffer>, newLen: nat, reply: nat)
    returns (rv: nat)
    requires Valid(g) && g.origLibFunctions.Some?
    requires oldPin.Some? ==> oldLen <= |oldPin.value.bytes|
    requires newPin.Some? ==> newLen <= |newPin.value.bytes|
    modifies g`logFileHandle, g`nextFileHandle, g`logFile, g`stdout, g`stderr, g`trace, g`delegateCalls
    ensures rv == reply && Valid(g) && g.Core() == old(g.Core())
    ensures g.trace == old(g.trace) + EnterLines("C_SetPIN", now) + SetPinInputs(g.flags, g.host.heapLimit, session, oldPin, oldLen, newPin, newLen)
      + [ExitLine(rv)]
    ensures g.delegateCalls == old(g.delegateCalls)
      + [DelegateCall("C_SetPIN", |old(g.trace) + EnterLines("C_SetPIN", now) + SetPinInputs(g.flags, g.host.heapLimit, session, oldPin, oldLen, newPin, newLen)|)]
  {
    Enter(g, "C_SetPIN", now);
    LogSetPinInputs(g, session, oldPin, oldLen, newPin, newLen);
    rv := CallOriginalFunction(g, "C_SetPIN", reply);
    LogFunctionExit(g, rv);
  }

  method LogSetPinInputs(g: Globals, session: nat, oldPin: Option<Buffer>, oldLen: nat, newPin: Option<Buffer>, newLen: nat)
    requires Valid(g)
    requires oldPin.Some? ==> oldLen <= |oldPin.value.bytes|
    requires newPin.Some? ==> newLen <= |newPin.value.bytes|
    modifies g`logFileHandle, g`nextFileHandle, g`logFile, g`stdout, g`stderr, g`trace
    ensures Valid(g) && g.Core() == old(g.Core())
    ensures g.trace == old(g.trace) + SetPinInputs(g.flags, g.host.heapLimit, session, oldPin, oldLen, newPin, newLen)
  {
    var first := [" hSession: " + Decimal(session)];
    Log.Log(g, first[0]);
    LogPinArgument(g, OldPin, oldPin, oldLen);
    LogPinArgument(g, NewPin, newPin, newLen);
    Regroup(old(g.trace), first, PinArgLines(OldPin, g.flags, oldPin, oldLen, g.host.heapLimit),
      PinArgLines(NewPin, g.flags, newPin, newLen, g.host.heapLimit));
  }

  /**
   * Without ENABLE_PIN the lines of C_Login do not depend on the PIN's
   * bytes: two PINs at the same address log the same lines.
   */
  lemma LoginPinHidden(flags: nat, heapLimit: HeapSize, session: nat, userType: nat,
                       pin1: Option<Buffer>, pin2: Option<Buffer>, pinLen: nat)
    requires pin1.Some? ==> pinLen <= |pin1.value.bytes|
    requires pin2.Some? ==> pinLen <= |pin2.value.bytes|
    requires !HasFlag(flags, ENABLE_PIN) && BufferAddress(pin1) == BufferAddress(pin2)
    ensures LoginInputs(flags, heapLimit, session, userType, pin1, pinLen)
         == LoginInputs(flags, heapLimit, session, userType, pin2, pinLen)
    ensures LoginInputs(flags, heapLimit, session, userType, pin1, pinLen)[3] == " *pPin" + HiddenPin
  {
  }

  /** The same for both PINs of C_SetPIN. */
  lemma SetPinHidden(flags: nat, heapLimit: HeapSize, session: nat,
                     old1: Option<Buffer>, old2: Option<Buffer>, oldLen: nat,
                     new1: Option<Buffer>, new2: Option<Buffer>, newLen: nat)
    requires old1.Some? ==> oldLen <= |old1.value.bytes|
    requires old2.Some? ==> oldLen <= |old2.value.bytes|
    requires new1.Some? ==> newLen <= |new1.value.bytes|
    requires new2.Some? ==> newLen <= |new2.value.bytes|
    requires !HasFlag(flags, ENABLE_PIN)
    requires BufferAddress(old1) == BufferAddress(old2) && BufferAddress(new1) == BufferAddress(new2)
    ensures SetPinInputs(flags, heapLimit, session, old1, oldLen, new1, newLen)
         == SetPinInputs(flags, heapLimit, session, old2, oldLen, new2, newLen)
  {
  }

  /**
   * With ENABLE_PIN and room for the copy, the line for a PIN shows exactly
   * its bytes before the first zero byte among the first len.
   */
  lemma PinShownWithFlag(flags: nat, name: string, pin: Buffer, len: nat, heapLimit: HeapSize, k: nat)
    requires HasFlag(flags, ENABLE_PIN)
    requires len <= |pin.bytes| && len + 1 <= heapLimit
    requires k <= len && (k == len || pin.bytes[k] == 0)
    requires forall j :: 0 <= j < k ==> pin.bytes[j] != 0
    ensures PinLines(flags, name, Some(pin), len, heapLimit) == [name + ": " + Chars(pin.bytes[..k])]
  {
    NonzeroStringShown(pin.bytes, len, k);
  }

  // ---------------------------------------------------------------------
  // C_GetAttributeValue: the template before and after the call
  // ---------------------------------------------------------------------

  /** A CK_ATTRIBUTE_PTR argument: its address and the entries there. */
  datatype TemplateRef = TemplateRef(addr: Address, entries: seq<Attribute>)

  function TemplateAddress(t: Option<TemplateRef>): Option<Address> {
    match t
    case None => None
    case Some(x) => Some(x.addr)
  }

  function TemplateEntries(t: Option<TemplateRef>): Option<seq<Attribute>> {
    match t
    case None => None
    case Some(x) => Some(x.entries)
  }

  /** The template after the original function filled it in. */
  function Filled(t: Option<TemplateRef>, entries: seq<Attribute>): Option<TemplateRef> {
    match t
    case None => None
    case Some(x) => Some(x.(entries := entries))
  }

  predicate TemplateReadable(t: Option<TemplateRef>, count: nat) {
    t.Some? ==> ReadableTemplate(t.value.entries, count)
  }

  /** What the original C_GetAttributeValue leaves behind: its return value and the template's entries. */
  datatype AttributeReply = AttributeReply(rv: nat, entries: seq<Attribute>)

  /** The return values for which the template is logged again. */
  const AttributeOutputCodes: set<nat> := {CKR_OK, CKR_ATTRIBUTE_SENSITIVE, CKR_ATTRIBUTE_TYPE_INVALID, CKR_BUFFER_TOO_SMALL}

  predicate AttributeReplyReadable(t: Option<TemplateRef>, count: nat, reply: AttributeReply) {
    reply.rv in AttributeOutputCodes ==> TemplateReadable(Filled(t, reply.entries), count)
  }

  /** `pTemplate`, `ulCount` and pkcs11_logger_log_attribute_template(pTemplate, ulCount). */
  function TemplateArgLines(t: Option<TemplateRef>, count: nat, heapLimit: HeapSize): seq<string>
    requires TemplateReadable(t, count)
  {
    [" pTemplate: " + PointerText(TemplateAddress(t)), " ulCount: " + Decimal(count)]
    + AttributeTemplateLines(TemplateEntries(t), count, heapLimit)
  }

  function AttributeInputs(heapLimit: HeapSize, session: nat, hObject: nat, t: Option<TemplateRef>, count: nat): seq<string>
    requires TemplateReadable(t, count)
  {
    [" hSession: " + Decimal(session), " hObject: " + Decimal(hObject)] + TemplateArgLines(t, count, heapLimit)
  }

  function AttributeOutputs(heapLimit: HeapSize, t: Option<TemplateRef>, count: nat, reply: AttributeReply): seq<string>
    requires AttributeReplyReadable(t, count, reply)
  {
    if reply.rv in AttributeOutputCodes then ["Output"] + TemplateArgLines(Filled(t, reply.entries), count, heapLimit)
    else []
  }

  /**
   * C_GetAttributeValue. The template is logged before the call and, for
   * the four return values where the original fills it in, again after.
   */
  method GetAttributeValue(g: Globals, env: Env, now: string, session: nat, hObject: nat, t: Option<TemplateRef>, count: nat, reply: AttributeReply)
    returns (rv: nat)
    requires Valid(g) && HandleHasTable(g.Core())
    requires TemplateReadable(t, count) && AttributeReplyReadable(t, count, reply)
    modifies g`origLibHandle, g`origLibFunctions, g`loggerFunctions, g`envVarsRead, g`unloaded
    modifies g`envVarLibraryPath, g`envVarLogFilePath, g`envVarFlags, g`flags, g`base, g`since
    modifies g`logFileHandle, g`nextFileHandle, g`logFile, g`stdout, g`stderr, g`trace, g`delegateCalls
    ensures var init := InitOrigLibSpec(old(g.Core()), env, now);
      && g.Core() == init.core && Valid(g) && HandleHasTable(g.Core())
      && (init.rv != RV_SUCCESS ==>
            rv == CKR_GENERAL_ERROR && g.trace == old(g.trace) + init.lines && g.delegateCalls == old(g.delegateCalls))
      && (init.rv == RV_SUCCESS ==>
            var inputs := AttributeInputs(g.host.heapLimit, session, hObject, t, count);
            && rv == reply.rv
            && g.trace == old(g.trace) + init.lines + EnterLines("C_GetAttributeValue", now) + inputs
                 + AttributeOutputs(g.host.heapLimit, t, count, reply) + [ExitLine(rv)]
            && g.delegateCalls == old(g.delegateCalls)
                 + [DelegateCall("C_GetAttributeValue", |old(g.trace) + init.lines + EnterLines("C_GetAttributeValue", now) + inputs|)])
    ensures g.base == InitOrigLibSinks(old(g.Core()), old(g.Sinks()), g.host, env, now)
    ensures g.since == |old(g.trace)| + |InitOrigLibSpec(old(g.Core()), env, now).lines|
  {
    var ready := SafelyInit(g, env, now);
    if !ready {
      return CKR_GENERAL_ERROR;
    }
    rv := GetAttributeValueCall(g, now, session, hObject, t, count, reply);
  }

  /** C_GetAttributeValue once the original library is loaded. */
  method GetAttributeValueCall(g: Globals, now: string, session: nat, hObject: nat, t: Option<TemplateRef>, count: nat, reply: AttributeReply)
    returns (rv: nat)
    requires Valid(g) && g.origLibFunctions.Some?
    requires TemplateReadable(t, count) && AttributeReplyReadable(t, count, reply)
    modifies g`logFileHandle, g`nextFileHandle, g`logFile, g`stdout, g`stderr, g`trace, g`delegateCalls
    ensures rv == reply.rv && Valid(g) && g.Core() == old(g.Core())
    ensures g.trace == old(g.trace) + EnterLines("C_GetAttributeValue", now) + AttributeInputs(g.host.heapLimit, session, hObject, t, count)
      + AttributeOutputs(g.host.heapLimit, t, count, reply) + [ExitLine(rv)]
    ensures g.delegateCalls == old(g.delegateCalls)
      + [DelegateCall("C_GetAttributeValue", |old(g.trace) + EnterLines("C_GetAttributeValue", now) + AttributeInputs(g.host.heapLimit, session, hObject, t, count)|)]
  {
    Enter(g, "C_GetAttributeValue", now);
    LogAttributeInputs(g, session, hObject, t, count);
    rv := CallOriginalFunction(g, "C_GetAttributeValue", reply.rv);
    LogAttributeOutputs(g, t, count, reply);
    LogFunctionExit(g, rv);
  }

  method LogTemplateArg(g: Globals, t: Option<TemplateRef>, count: nat)
    requires Valid(g) && TemplateReadable(t, count)
    modifies g`logFileHandle, g`nextFileHandle, g`logFile, g`stdout, g`stderr, g`trace
    ensures Valid(g) && g.Core() == old(g.Core())
    ensures g.trace == old(g.trace) + TemplateArgLines(t, count, g.host.heapLimit)
  {
    var first := [" pTemplate: " + PointerText(TemplateAddress(t)), " ulCount: " + Decimal(count)];
    LogTwo(g, first[0], first[1]);
    LogAttributeTemplate(g, TemplateEntries(t), count);
    ConcatAssoc(old(g.trace), first, AttributeTemplateLines(TemplateEntries(t), count, g.host.heapLimit));
  }

  method LogAttributeInputs(g: Globals, session: nat, hObject: nat, t: Option<TemplateRef>, count: nat)
    requires Valid(g) && TemplateReadable(t, count)
    modifies g`logFileHandle, g`nextFileHandle, g`logFile, g`stdout, g`stderr, g`trace
    ensures Valid(g) && g.Core() == old(g.Core())
    ensures g.trace == old(g.trace) + AttributeInputs(g.host.heapLimit, session, hObject, t, count)
  {
    var first := [" hSession: " + Decimal(session), " hObject: " + Decimal(hObject)];
    LogTwo(g, first[0], first[1]);
    LogTemplateArg(g, t, count);
    ConcatAssoc(old(g.trace), first, TemplateArgLines(t, count, g.host.heapLimit));
  }

  method LogAttributeOutputs(g: Globals, t: Option<TemplateRef>, count: nat, reply: AttributeReply)
    requires Valid(g) && AttributeReplyReadable(t, count, reply)
    modifies g`logFileHandle, g`nextFileHandle, g`logFile, g`stdout, g`stderr, g`trace
    ensures Valid(g) && g.Core() == old(g.Core())
    ensures g.trace == old(g.trace) + AttributeOutputs(g.host.heapLimit, t, count, reply)
  {
    if reply.rv in AttributeOutputCodes {
      LogOutputParams(g);
      LogTemplateArg(g, Filled(t, reply.entries), count);
      ConcatAssoc(old(g.trace), ["Output"], TemplateArgLines(Filled(t, reply.entries), count, g.host.heapLimit));
    }
  }

  /**
   * The template is logged a second time exactly for CKR_OK,
   * CKR_ATTRIBUTE_SENSITIVE, CKR_ATTRIBUTE_TYPE_INVALID and
   * CKR_BUFFER_TOO_SMALL.
   */
  lemma AttributeOutputsShownIff(heapLimit: HeapSize, t: Option<TemplateRef>, count: nat, reply: AttributeReply)
    requires AttributeReplyReadable(t, count, reply)
    ensures AttributeOutputs(heapLimit, t, count, reply) != [] <==>
      reply.rv in {CKR_OK, CKR_ATTRIBUTE_SENSITIVE, CKR_ATTRIBUTE_TYPE_INVALID, CKR_BUFFER_TOO_SMALL}
  {
    assert AttributeOutputCodes == {CKR_OK, CKR_ATTRIBUTE_SENSITIVE, CKR_ATTRIBUTE_TYPE_INVALID, CKR_BUFFER_TOO_SMALL};
    if reply.rv in AttributeOutputCodes {
      assert AttributeOutputs(heapLimit, t, count, reply)[0] == "Output";
    }
  }

  /** The second time, the template shows what the original wrote into it. */
  lemma AttributeOutputsShowFilled(heapLimit: HeapSize, t: Option<TemplateRef>, count: nat, reply: AttributeReply)
    requires AttributeReplyReadable(t, count, reply)
    requires reply.rv in AttributeOutputCodes && t.Some? && count > 0
    ensures AttributeOutputs(heapLimit, t, count, reply)[3..] == TemplateBlock(reply.entries, count, heapLimit)
  {
    var lines := TemplateArgLines(Filled(t, reply.entries), count, heapLimit);
    assert AttributeOutputs(heapLimit, t, count, reply) == ["Output"] + lines;
    assert TemplateEntries(Filled(t, reply.entries)) == Some(reply.entries);
    assert (["Output"] + lines)[3..] == lines[2..];
  }

  // ---------------------------------------------------------------------
  // C_Digest: the digest is logged only for CKR_OK
  // ---------------------------------------------------------------------

  const PulDigestLen := CounterNames(" pulDigestLen", " *pulDigestLen")

  /** What the original C_Digest leaves behind: its return value, the bytes at pDigest and `*pulDigestLen`. */
  datatype DigestReply = DigestReply(rv: nat, digest: seq<byte>, length: nat)

  /** The digest is read only when both pointers are given; the original wrote `*pulDigestLen` bytes then. */
  predicate DigestReadable(digest: Option<Address>, digestLen: Option<Counter>, reply: DigestReply) {
    reply.rv == CKR_OK && digest.Some? && digestLen.Some? ==> HexReadable(reply.digest, reply.length)
  }

  function DigestInputs(heapLimit: HeapSize, session: nat, data: Option<Buffer>, dataLen: nat,
                        digest: Option<Address>, digestLen: Option<Counter>): seq<string>
    requires data.Some? ==> HexReadable(data.value.bytes, dataLen)
  {
    [" hSession: " + Decimal(session), " pData: " + PointerText(BufferAddress(data))]
    + ByteArrayLines(" *pData", BufferBytes(data), dataLen, heapLimit)
    + DigestArgLines(dataLen, digest, digestLen)
  }

  /** The inputs after `*pData`: the data length and the two output pointers. */
  function DigestArgLines(dataLen: nat, digest: Option<Address>, digestLen: Option<Counter>): seq<string> {
    [" ulDataLen: " + Decimal(dataLen), " pDigest: " + PointerText(digest)] + CounterBlock(PulDigestLen, digestLen)
  }

  /** `*pDigest` and `*pulDigestLen`, both logged only when pulDigestLen is not NULL. */
  function DigestValue(heapLimit: HeapSize, digest: Option<Address>, digestLen: Option<Counter>, reply: DigestReply): seq<string>
    requires DigestReadable(digest, digestLen, reply) && reply.rv == CKR_OK
  {
    if digestLen.None? then []
    else
      ByteArrayLines(" *pDigest", if digest.Some? then Some(reply.digest) else None, reply.length, heapLimit)
      + [" *pulDigestLen: " + Decimal(reply.length)]
  }

  function DigestOutputs(heapLimit: HeapSize, digest: Option<Address>, digestLen: Option<Counter>, reply: DigestReply): seq<string>
    requires DigestReadable(digest, digestLen, reply)
  {
    if reply.rv != CKR_OK then []
    else
      OutputHeader(" pDigest: " + PointerText(digest))
      + [" pulDigestLen: " + PointerText(CounterAddress(digestLen))]
      + DigestValue(heapLimit, digest, digestLen, reply)
  }

  /**
   * C_Digest. The data is logged in hex before the call; the digest and
   * its length are logged after it only for CKR_OK.
   */
  method Digest(g: Globals, env: Env, now: string, session: nat, data: Option<Buffer>, dataLen: nat, digest: Option<Address>, digestLen: Option<Counter>, reply: DigestReply)
    returns (rv: nat)
    requires Valid(g) && HandleHasTable(g.Core())
    requires data.Some? ==> HexReadable(data.value.bytes, dataLen)
    requires DigestReadable(digest, digestLen, reply)
    modifies g`origLibHandle, g`origLibFunctions, g`loggerFunctions, g`envVarsRead, g`unloaded
    modifies g`envVarLibraryPath, g`envVarLogFilePath, g`envVarFlags, g`flags, g`base, g`since
    modifies g`logFileHandle, g`nextFileHandle, g`logFile, g`stdout, g`stderr, g`trace, g`delegateCalls
    ensures var init := InitOrigLibSpec(old(g.Core()), env, now);
      && g.Core() == init.core && Valid(g) && HandleHasTable(g.Core())
      && (init.rv != RV_SUCCESS ==>
            rv == CKR_GENERAL_ERROR && g.trace == old(g.trace) + init.lines && g.delegateCalls == old(g.delegateCalls))
      && (init.rv == RV_SUCCESS ==>
            var inputs := DigestInputs(g.host.heapLimit, session, data, dataLen, digest, digestLen);
            && rv == reply.rv
            && g.trace == old(g.trace) + init.lines + EnterLines("C_Digest", now) + inputs
                 + DigestOutputs(g.host.heapLimit, digest, digestLen, reply) + [ExitLine(rv)]
            && g.delegateCalls == old(g.delegateCalls)
                 + [DelegateCall("C_Digest", |old(g.trace) + init.lines + EnterLines("C_Digest", now) + inputs|)])
    ensures g.base == InitOrigLibSinks(old(g.Core()), old(g.Sinks()), g.host, env, now)
    ensures g.since == |old(g.trace)| + |InitOrigLibSpec(old(g.Core()), env, now).lines|
  {
    var ready := SafelyInit(g, env, now);
    if !ready {
      return CKR_GENERAL_ERROR;
    }
    rv := DigestCall(g, now, session, data, dataLen, digest, digestLen, reply);
  }

  /** C_Digest once the original library is loaded. */
  method DigestCall(g: Globals, now: string, session: nat, data: Option<Buffer>, dataLen: nat, digest: Option<Address>, digestLen: Option<Counter>, reply: DigestReply)
    returns (rv: nat)
    requires Valid(g) && g.origLibFunctions.Some?
    requires data.Some? ==> HexReadable(data.value.bytes, dataLen)
    requires DigestReadable(digest, digestLen, reply)
    modifies g`logFileHandle, g`nextFileHandle, g`logFile, g`stdout, g`stderr, g`trace, g`delegateCalls
    ensures rv == reply.rv && Valid(g) && g.Core() == old(g.Core())
    ensures g.trace == old(g.trace) + EnterLines("C_Digest", now) + DigestInputs(g.host.heapLimit, session, data, dataLen, digest, digestLen)
      + DigestOutputs(g.host.heapLimit, digest, digestLen, reply) + [ExitLine(rv)]
    ensures g.delegateCalls == old(g.delegateCalls)
      + [DelegateCall("C_Digest", |old(g.trace) + EnterLines("C_Digest", now) + DigestInputs(g.host.heapLimit, session, data, dataLen, digest, digestLen)|)]
  {
    Enter(g, "C_Digest", now);
    LogDigestInputs(g, session, data, dataLen, digest, digestLen);
    rv := CallOriginalFunction(g, "C_Digest", reply.rv);
    LogDigestOutputs(g, digest, digestLen, reply);
    LogFunctionExit(g, rv);
  }

  method LogDigestInputs(g: Globals, session: nat, data: Option<Buffer>, dataLen: nat,
                         digest: Option<Address>, digestLen: Option<Counter>)
    requires Valid(g)
    requires data.Some? ==> HexReadable(data.value.bytes, dataLen)
    modifies g`logFileHandle, g`nextFileHandle, g`logFile, g`stdout, g`stderr, g`trace
    ensures Valid(g) && g.Core() == old(g.Core())
    ensures g.trace == old(g.trace) + DigestInputs(g.host.heapLimit, session, data, dataLen, digest, digestLen)
  {
    var first := [" hSession: " + Decimal(session), " pData: " + PointerText(BufferAddress(data))];
    LogTwo(g, first[0], first[1]);
    LogByteArray(g, " *pData", BufferBytes(data), dataLen);
    LogDigestArgs(g, dataLen, digest, digestLen);
    Regroup(old(g.trace), first, ByteArrayLines(" *pData", BufferBytes(data), dataLen, g.host.heapLimit),
      DigestArgLines(dataLen, digest, digestLen));
  }

  method LogDigestArgs(g: Globals, dataLen: nat, digest: Option<Address>, digestLen: Option<Counter>)
    requires Valid(g)
    modifies g`logFileHandle, g`nextFileHandle, g`logFile, g`stdout, g`stderr, g`trace
    ensures Valid(g) && g.Core() == old(g.Core())
    ensures g.trace == old(g.trace) + DigestArgLines(dataLen, digest, digestLen)
  {
    var first := [" ulDataLen: " + Decimal(dataLen), " pDigest: " + PointerText(digest)];
    LogTwo(g, first[0], first[1]);
    LogCounterBlock(g, PulDigestLen, digestLen);
    ConcatAssoc(old(g.trace), first, CounterBlock(PulDigestLen, digestLen));
  }

  method LogDigestOutputs(g: Globals, digest: Option<Address>, digestLen: Option<Counter>, reply: DigestReply)
    requires Valid(g) && DigestReadable(digest, digestLen, reply)
    modifies g`logFileHandle, g`nextFileHandle, g`logFile, g`stdout, g`stderr, g`trace
    ensures Valid(g) && g.Core() == old(g.Core())
    ensures g.trace == old(g.trace) + DigestOutputs(g.host.heapLimit, digest, digestLen, reply)
  {
    if reply.rv != CKR_OK {
      return;
    }
    var header := " pDigest: " + PointerText(digest);
    var pointer := " pulDigestLen: " + PointerText(CounterAddress(digestLen));
    LogOutputHeader(g, header);
    Log.Log(g, pointer);
    LogDigestValue(g, digest, digestLen, reply);
    Regroup(old(g.trace), OutputHeader(header), [pointer], DigestValue(g.host.heapLimit, digest, digestLen, reply));
  }

  method LogDigestValue(g: Globals, digest: Option<Address>, digestLen: Option<Counter>, reply: DigestReply)
    requires Valid(g) && DigestReadable(digest, digestLen, reply) && reply.rv == CKR_OK
    modifies g`logFileHandle, g`nextFileHandle, g`logFile, g`stdout, g`stderr, g`trace
    ensures Valid(g) && g.Core() == old(g.Core())
    ensures g.trace == old(g.trace) + DigestValue(g.host.heapLimit, digest, digestLen, reply)
  {
    if digestLen.Some? {
      var bytes := if digest.Some? then Some(reply.digest) else None;
      LogByteArray(g, " *pDigest", bytes, reply.length);
      Log.Log(g, " *pulDigestLen: " + Decimal(reply.length));
      ConcatAssoc(old(g.trace), ByteArrayLines(" *pDigest", bytes, reply.length, g.host.heapLimit),
        [" *pulDigestLen: " + Decimal(reply.length)]);
    }
  }

  /** Output lines appear exactly for CKR_OK. */
  lemma DigestOutputsOnlyOnSuccess(heapLimit: HeapSize, digest: Option<Address>, digestLen: Option<Counter>, reply: DigestReply)
    requires DigestReadable(digest, digestLen, reply)
    ensures DigestOutputs(heapLimit, digest, digestLen, reply) != [] <==> reply.rv == CKR_OK
  {
  }

  /**
   * For CKR_OK with both pointers given, the fourth output line is the hex
   * of exactly the first `*pulDigestLen` bytes the original wrote.
   */
  lemma DigestShownInHex(heapLimit: HeapSize, digest: Address, digestLen: Counter, reply: DigestReply)
    requires reply.rv == CKR_OK && reply.length <= |reply.digest| && 2 * reply.length + 1 <= heapLimit
    ensures DigestOutputs(heapLimit, Some(digest), Some(digestLen), reply)[3]
         == " *pDigest: HEX(" + Hex(reply.digest[..reply.length]) + ")"
  {
    var head := OutputHeader(" pDigest: " + PointerText(Some(digest))) + [" pulDigestLen: " + PointerText(Some(digestLen.addr))];
    var value := DigestValue(heapLimit, Some(digest), Some(digestLen), reply);
    assert value[0] == " *pDigest: HEX(" + Hex(reply.digest[..reply.length]) + ")";
    assert |head| == 3;
  }
}
