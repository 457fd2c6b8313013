# pkcs11-logger, modelled in Dafny

pkcs11-logger is a PKCS #11 module that sits between an application and a
real PKCS #11 library. Every exported function makes sure the real library
is loaded and logs its own name and input arguments. It then calls the real
function through the library's function list and logs the outputs for the
return values where they mean something. Finally it logs the return value
and hands it back unchanged. Three environment variables drive it:

- `PKCS11_LOGGER_LIBRARY_PATH` names the real library;
- `PKCS11_LOGGER_LOG_FILE_PATH` names the log file;
- `PKCS11_LOGGER_FLAGS` is a decimal bit mask. It selects the sinks, the line prefixes, whether PINs are shown and whether the file is closed after every line.

The model follows the C files one module each:

| module | C file | form |
|---|---|---|
| `LoggerDefs` (logger_defs.dfy) | src/pkcs11-logger.h, the globals of src/pkcs11-logger.c | flag bits, `CALL_N_CLEAR`, the state record `PKCS11_LOGGER_GLOBALS` as the class `Globals` |
| `Format` (format.dfy) | `%lu` and `%p` | pure functions |
| `Translate` (translate.dfy) | src/translate.c | the hex encoder as a method over an array; the name tables as total functions |
| `Utils` (utils.dfy) | src/utils.c | `strtoul` (ISO C11 section 7.22.1.4) and `pkcs11_logger_utils_str_to_long` as functions |
| `Log` (log.dfy) | src/log.c | `pkcs11_logger_log` and its helpers as methods on `Globals`, each proved against a specification function |
| `Init` (init.dfy) | src/init.c, the loading steps of src/dl.c | `init_globals`, `parse_env_vars`, `init_orig_lib` as methods on `Globals`, each proved against a specification function |
| `Dispatch` (dispatch.dfy) | src/pkcs11-logger.c | `SAFELY_INIT_ORIG_LIB_OR_FAIL` and six trampolines: C_GetFunctionList, C_GetSlotList, C_Login, C_SetPIN, C_GetAttributeValue and C_Digest |

`Globals` holds the C fields. The handle fields are `Option`s, and the three
configuration strings are `Option<string>`. It also holds what the outside
world sees:

- the operations on the log file (open, write, close, as `FileOp`s);
- the lines on stdout and on stderr;
- the libraries that have been unloaded.

Ghost fields record the history:

- `trace`: every message handed to `pkcs11_logger_log`, in order;
- `delegateCalls`: every call into the real library, with the number of lines logged before it;
- `base` and `since`: the sinks as they were when the logging configuration (flags, log-file path, `env_vars_read`, the open handle at a reset) last changed, and how long the trace was then.

The predicate `Valid` ties the sinks to the trace. The file, stdout and
stderr are exactly what logging `trace[since..]`, the messages since the
last configuration change, one by one produces from `base`
(`Log.LogLines`). Every method keeps it. Only the methods that change the
configuration move `base` and `since`, and each of them ensures that the
sinks are then the new `base` and the trace length the new `since`. So
after any method that leaves the configuration alone, the sinks are fixed
by the messages it logged, and `Log`'s lemmas say where each message ends
up.

The methods that do change the configuration state their sinks outright:

- each step of the parse (`Init.ReadLibraryPath` up to `Init.ParseEnvVars`) ensures the new sinks are the old ones with its lines logged under the configuration the parse leaves;
- `Init.Reload`, `Init.Start` and `Init.InitOrigLib` do the same with `Init.ReloadConfig`, the configuration in effect after the parse, and `Init.InitOrigLibSinks`, the sinks `init_orig_lib` leaves;
- `Dispatch.SafelyInit` ensures the sinks are `InitOrigLibSinks`, and each trampoline ensures that `base` is `InitOrigLibSinks` and `since` is where init's lines end, so by `Valid` its own lines are logged from there under the configuration init left.

The world outside the process becomes inputs:

- the environment is a `map<string, string>` (`Init.Env.vars`);
- `dlopen` is a map from path to library (`Init.Env.libraries`), with what that library's `C_GetFunctionList` returns;
- whether the lock can be created is `Init.Env.lockCreated`;
- `malloc(n)` succeeds exactly when `n <= host.heapLimit`, and the heap is smaller than `ULONG_MAX` bytes (`HeapSize`), so `malloc(ULONG_MAX)` always fails;
- `fopen` succeeds exactly for the paths in `host.writable`;
- the timestamp is the string `now`, and the process and thread id prefixes are `host.pidText` and `host.tidText`;
- what the real PKCS #11 function does is a reply value: its return value and whatever it writes through the pointers.

Integer widths are 64-bit (LP64):

- `ULONG_MAX` is 2^64 - 1;
- `sizeof(CK_ATTRIBUTE)` is 24;
- `CKF_ARRAY_ATTRIBUTE` is 0x40000000;
- the C mask tests are stated on the low 64 bits (`MaskSet`, `MaskAny`).

Behaviours of the code worth noting:

- On POSIX a failed `pkcs11_logger_init_orig_lib` is not permanent. It leaves the handle NULL, so the next call resets the globals and tries again (`Init.InitOrigLibOutcome`). On Windows the lock it failed after is not released, so every later attempt fails; see "Left out".
- The informational banner is logged only after the configuration has been parsed successfully.
- `log_byte_array` and `log_nonzero_string` log nothing at all for a NULL pointer; the fallback line is only for a failed allocation.
- When the log-file path is rejected for its quotes, the path has already been stored. The error line is logged with it in effect, so it goes to that file; only afterwards is the path cleared (`Init.QuoteComplaintUnderQuotedPath`, with the sinks stated by `Init.ParseEnvVars`).
- A value that `C_GetAttributeValue` reports as CK_UNAVAILABLE_INFORMATION (`ulValueLen` = `ULONG_MAX`) keeps its non-NULL `pValue`. The encoder's size `2*ULONG_MAX+1` wraps to `ULONG_MAX`, the allocation fails, and the entry is logged with the fallback line.

## Model

| member | source | states |
|---|---|---|
| LoggerDefs.HasFlagIsMaskTest | src/log.c:34-39 | testing a flag's bit is the same as the C test `(flags & FLAG) == FLAG` on 64-bit values |
| LoggerDefs.MaskAnySingleBit | src/log.c:161 | for a single-bit flag value, `flags & value` is non-zero exactly when that bit is set |
| LoggerDefs.FlagValues | src/pkcs11-logger.h:142-156 | the eight flags are 0x01, 0x02, 0x04, 0x08, 0x10, 0x20, 0x40 and 0x80 |
| LoggerDefs.FlagsAreDistinctBits | src/pkcs11-logger.h:142-156 | each flag value has exactly its own bit set, so distinct flags have distinct values |
| LoggerDefs.CString | src/log.c:179 | what `%s` prints is the prefix of the buffer before its first NUL, or all of it when there is none |
| LoggerDefs.CallNClear | src/pkcs11-logger.h:171 | the pointer is NULL afterwards, and the function is called on it exactly when it was non-NULL |
| LoggerDefs.CallNClearIdempotent | src/pkcs11-logger.h:171 | applying `CALL_N_CLEAR` a second time calls nothing and leaves NULL |
| LoggerDefs.Globals.constructor | src/pkcs11-logger.c:27-108 | the globals start with no library, no configuration, flags 0, no log file, the logger's own table and empty sinks |
| LoggerDefs.LoggerTableShape | src/pkcs11-logger.c:27-108 | the logger's table has version 2.20 and 68 entries |
| Format.Decimal | src/log.c:140 | `%lu` prints at least one character, all decimal digits |
| Format.PointerText | src/pkcs11-logger.c:207 | `%p` of NULL prints `(nil)`, and no other pointer does |
| Translate.HexBufferSizeWrap | src/translate.c:1150 | `(length * 2) + 1` in CK_ULONG is exact up to `ULONG_MAX / 2`, and is `ULONG_MAX` for CK_UNAVAILABLE_INFORMATION |
| Translate.TranslateCkBytePtr | src/translate.c:1146-1168 | NULL exactly when the wrapped `(length * 2) + 1` buffer cannot be allocated, so always for CK_UNAVAILABLE_INFORMATION; otherwise the hex of `bytes[0..length)` followed by a NUL, which `%s` prints whole |
| Translate.EncodeHex | src/translate.c:1155-1165 | the zeroed buffer filled by the loop is the hex of the first `length` bytes and a NUL |
| Translate.PutHexPair | src/translate.c:1160-1163 | one pass of the loop extends the filled prefix by the high and then the low digit of byte `i`, and leaves the final NUL alone |
| Translate.TerminatedHex | src/translate.c:1155-1165 | a buffer holding the hex text followed by the NUL left by `memset` prints as exactly that text |
| Translate.Hex | src/translate.c:1159-1165 | two characters per byte |
| Translate.HexAt | src/translate.c:1161-1164 | character `2i` is the digit of the high nibble of `bytes[i]`, character `2i+1` that of the low nibble |
| Translate.HexAlphabet | src/translate.c:1151 | every character is one of `0123456789ABCDEF`; none is NUL |
| Translate.UnhexHex | src/translate.c:1159-1165 | decoding the digit pairs gives back exactly the input bytes |
| Translate.HexInjective | src/translate.c:1159-1165 | different byte strings never render to the same hex |
| Translate.HexAppend | src/translate.c:1159-1165 | the hex of a concatenation is the concatenation of the hex |
| Translate.TranslateCkRv | src/translate.c:27-302 | total; `Unknown` exactly for the return values outside its case list |
| Translate.TranslateCkMechanismType | src/translate.c:306-1088 | total; `Unknown` exactly for the mechanisms outside its case list |
| Translate.TranslateCkUserType | src/translate.c:1092-1112 | `Unknown` exactly for user types above `CKU_CONTEXT_SPECIFIC` |
| Translate.TranslateCkState | src/translate.c:1116-1142 | `Unknown` exactly for states above `CKS_RW_SO_FUNCTIONS` |
| Translate.TranslateCkAttribute | src/translate.c:1172-1483 | total; `Unknown` exactly for the attribute types outside its case list |
| Utils.Strtoul | src/utils.c:36 | the value is at most `ULONG_MAX`; ERANGE gives `ULONG_MAX`; when nothing is consumed the value is 0 and errno is untouched |
| Utils.SkipSpace | src/utils.c:36 | the leading white space `strtoul` skips, and nothing beyond it |
| Utils.DigitRun | src/utils.c:36 | the run of decimal digits `strtoul` consumes, stopping at the first non-digit |
| Utils.StrToLong | src/utils.c:27-43 | success exactly when both pointers are given, errno stays 0 and `endptr` is at the NUL; `*val` then holds the converted value and is untouched on every error |
| Utils.DecimalRoundTrip | src/utils.c:27-43 | every unsigned long written in decimal is read back exactly |
| Utils.TrailingTextRejected | src/utils.c:37-38 | `InvalidValue` and `0x10` are rejected and `*val` keeps its value |
| Utils.OverflowRejected | src/utils.c:35-38 | a run of digits worth more than `ULONG_MAX` is rejected and `*val` keeps its value |
| Utils.StrtoulEdgeCases | src/utils.c:36-42 | the empty string gives 0, ` +16` gives 16, and `-1` gives `ULONG_MAX`, all as successes |
| Log.Log | src/log.c:30-117 | one more message in the trace, with the configuration and its starting point unchanged, so the sinks take exactly one `LogLine` step for it; the rest of the globals are unchanged |
| Log.LogLinesSnoc | src/log.c:30-117 | logging a list of messages and then one more is one more `LogLine` step, which is how `Valid` before and after `Log` pins the sinks |
| Log.WriteMessage | src/log.c:49-113 | the sinks move by one `LogLine` step: open, write to each selected sink, then close or flush |
| Log.OpenLogFile | src/log.c:49-53 | the file is opened only with the file enabled, a path set and no handle held |
| Log.WriteLine | src/log.c:59-102 | the prefixed line goes to the file, stdout and stderr as selected |
| Log.Cleanup | src/log.c:104-113 | with `ENABLE_FCLOSE` the handle is closed and cleared, otherwise kept |
| Log.LogLinesAppend | src/log.c:30-117 | logging two batches of messages one after the other is logging their concatenation |
| Log.LogLinesFrom | src/log.c:30-117 | logging a trace from a starting point is logging the part already seen and then the rest, which is how a caller carries `Valid` across a logged error line |
| Log.LazyOpen | src/log.c:50-53 | one line opens the file once exactly when it is enabled, has a path, has no handle and the path can be opened; otherwise it opens nothing |
| Log.ReusesOpenHandle | src/log.c:50-113 | with a handle already held nothing is opened; the handle is kept without `ENABLE_FCLOSE` and closed with it |
| Log.DisabledFileUntouched | src/log.c:50-72 | with `DISABLE_LOG_FILE` the file sees no operation and no handle is held |
| Log.StreamSelection | src/log.c:74-102 | stdout gets the line exactly with `ENABLE_STDOUT`; stderr exactly with `ENABLE_STDERR` or before the configuration has been read |
| Log.PrefixOrder | src/log.c:64-69 | the process id prefix comes first, then the thread id prefix, each left out when its disable flag is set |
| Log.FileReceivesEveryLine | src/log.c:30-117 | with the file enabled and openable, the file receives every message in order |
| Log.OpensAtMostOnce | src/log.c:50-53 | without `ENABLE_FCLOSE` a run of messages opens the file at most once |
| Log.FcloseReopensEveryLine | src/log.c:105-108 | with `ENABLE_FCLOSE` every message opens the file again and no handle is left |
| Log.LogSeparator | src/log.c:121-126 | logs the separator line with the timestamp |
| Log.LogFunctionEnter | src/log.c:130-134 | logs the separator and `Calling <name>` |
| Log.LogFunctionExit | src/log.c:138-141 | logs `Returning <rv> (<name>)` |
| Log.LogInputParams | src/log.c:145-148 | logs `Input` |
| Log.LogOutputParams | src/log.c:152-155 | logs `Output` |
| Log.FlagLine | src/log.c:159-165 | `TRUE` exactly when `flags & flag_value` is non-zero, `FALSE` otherwise |
| Log.FlagLineOfSingleBit | src/log.c:159-165 | for a single-bit value the line says whether that bit is set |
| Log.LogFlag | src/log.c:159-165 | logs the `FlagLine` |
| Log.NonzeroStringLines | src/log.c:169-187 | nothing for NULL; the fallback line when `len + 1` bytes cannot be allocated; otherwise one line |
| Log.NonzeroStringShown | src/log.c:173-179 | the line shows exactly the bytes before the first zero byte among the first `len` |
| Log.LogNonzeroString | src/log.c:169-187 | copies exactly `len` bytes into a zero-filled buffer of `len + 1` and logs what `NonzeroStringLines` says |
| Log.ByteArrayLines | src/log.c:191-207 | nothing for NULL; the fallback line when the hex buffer cannot be allocated; otherwise one line |
| Log.ByteArrayLineDecodes | src/log.c:191-207 | the hex shown decodes back to exactly the first `len` bytes |
| Log.LogByteArray | src/log.c:191-207 | logs what `ByteArrayLines` says |
| Log.TemplateBlock | src/log.c:215-253 | empty exactly when the count is 0 |
| Log.AttributeTemplateLines | src/log.c:211-254 | nothing for a NULL template or `ulCount < 1`; otherwise starts with the Begin marker and ends with the End marker |
| Log.LogAttributeTemplate | src/log.c:211-254 | logs what `AttributeTemplateLines` says, recursing into array attributes of whole entries |
| Log.LogEntries | src/log.c:220-251 | the loop logs the entries 0 .. count-1 in order |
| Log.LogEntry | src/log.c:222-250 | one entry: its four header lines, then its value |
| Log.LogEntryHeader | src/log.c:222-225 | the index, the type with its name, the value pointer and the length |
| Log.UnavailableValueNotDisplayed | src/log.c:227-249 | an entry whose `ulValueLen` is CK_UNAVAILABLE_INFORMATION and whose `pValue` is not NULL is accepted, is not taken for a nested template, and logs its four header lines and then the fallback line |
| Log.LogEntryValue | src/log.c:227-249 | nothing for NULL; the nested block for an array attribute whose length is a multiple of 24, and no hex line then; otherwise the hex of exactly `ulValueLen` bytes, or the fallback when the wrapped buffer size cannot be allocated (always for CK_UNAVAILABLE_INFORMATION) |
| Init.ReadEnvVar | src/init.c:241-260 | the variable's value exactly when it is defined |
| Init.ResetCore | src/init.c:61-74 | no handle, no table, configuration not read, the three strings cleared, flags 0; the logger's table is kept |
| Init.CloseLogFile | src/init.c:73 | an open log file is closed and its handle cleared; nothing else changes |
| Init.InitGlobals | src/init.c:61-74 | the globals become `ResetCore` and the sinks `CloseLogFile` of what they were, which become the new starting point |
| Init.ResetGlobals | src/init.c:65-72 | the field assignments of `init_globals` |
| Init.CloseLog | src/init.c:73 | the `CALL_N_CLEAR(fclose, …)` of `init_globals`; the closed sinks are the new starting point |
| Init.ResetIdempotent | src/init.c:61-74 | resetting twice is resetting once |
| Init.SetEnvVarsRead | src/init.c:97 | `env_vars_read` becomes true and nothing else changes; the sinks stay and are the starting point for the lines logged from then on |
| Init.SetFlags | src/init.c:179 | `flags` receives the parsed value and nothing else changes; the sinks stay and are the starting point for the lines logged from then on |
| Init.SetLogFilePath | src/init.c:165 | the log-file path changes and nothing else does; the sinks stay and are the starting point for the lines logged from then on |
| Init.ParseEnvVarsSpec | src/init.c:146-198 | success exactly when the configuration is acceptable; then the three values are stored and `flags` holds the parsed number; otherwise one error line and the three strings are all NULL |
| Init.ParseEnvVars | src/init.c:146-198 | does what `ParseEnvVarsSpec` says to the globals and the log; the sinks receive its lines under the configuration the reading left, before the strings are cleared on an error |
| Init.ForgetEnvVars | src/init.c:190-195 | on a failed parse the three strings become NULL; the sinks and the trace are unchanged |
| Init.ReadEnvVars | src/init.c:150-186 | the three variables are read in order and the first bad one ends the parse; the sinks receive its lines under the configuration it leaves |
| Init.ReadRest | src/init.c:164-186 | the log-file path, then the flags, the first bad one ending the parse; the sinks receive its lines under the configuration it leaves |
| Init.ReadLibraryPath | src/init.c:150-162 | the library path is stored; it must be defined and must not start with a quote; the sinks receive its error line, if any, under the unchanged configuration |
| Init.ReadLogFilePath | src/init.c:164-173 | the log path is stored; it is optional, but must not start with a quote; the complaint about quotes reaches the sinks under the configuration holding the rejected path |
| Init.ReadFlags | src/init.c:175-184 | flags are optional; when present they must be a number, and `flags` is written only then; the sinks receive its error line, if any, under the unchanged configuration |
| Init.QuotedPathsRejected | src/init.c:158-172 | a library path or a log path starting with `"` or `'` fails the parse and leaves no library path |
| Init.QuoteComplaintUnderQuotedPath | src/init.c:164-173 | a quoted log-file path gives exactly the one complaint line, logged under a configuration that holds that path and is otherwise as before the parse; the path is cleared afterwards |
| Init.NonNumericFlagsRejected | src/init.c:177-183 | flags that `str_to_long` rejects fail the parse |
| Init.DecimalFlagsAccepted | src/init.c:175-186 | any unsigned long written in decimal is accepted and becomes `flags` |
| Init.DlOpenSpec | src/dl.c:27-77 | a handle exactly when the library can be loaded; the loading line, then the success or failure line |
| Init.DlOpen | src/dl.c:27-77 | returns the handle `DlOpenSpec` gives and logs its lines; the globals are unchanged |
| Init.CloseOrigLib | src/init.c:118 | the handle is unloaded if there was one, and cleared |
| Init.BannerLines | src/init.c:99-105 | six lines framed by two separators |
| Init.LogAbout | src/init.c:101-104 | the name and version, the description and the two project lines, in order |
| Init.LogBanner | src/init.c:99-105 | logs the banner |
| Init.InitOrigLib | src/init.c:78-142 | does to the globals and the log what `InitOrigLibSpec` says, and leaves the sinks `InitOrigLibSinks` says |
| Init.Reload | src/init.c:86-142 | the slow path: reset the globals, create the lock, parse, then start; its lines reach the sinks under `ReloadConfig`, the configuration in effect after the parse |
| Init.Start | src/init.c:97-142 | marks the configuration read, logs the banner, then loads; its lines reach the sinks with the configuration marked read |
| Init.LoadOrigLib | src/init.c:107-142 | opens the configured library and, when it opens, resolves and calls its `C_GetFunctionList` |
| Init.Resolve | src/init.c:114-142 | a missing symbol unloads and clears the handle |
| Init.CallGetFunctionList | src/init.c:122-141 | a return value other than CKR_OK is logged and unloads the library; CKR_OK adopts the version |
| Init.CallOriginal | src/init.c:123-125 | the table is stored and the two timestamped lines are logged |
| Init.ReportFailure | src/init.c:126-131 | logs the return value with its name, then unloads and clears the handle |
| Init.AdoptVersion | src/init.c:133-139 | the logger's table takes the original's version; then the separator and the endianness note |
| Init.LoadOutcome | src/init.c:107-141 | loading succeeds exactly when the library opens, exports `C_GetFunctionList`, and that returns CKR_OK. Then the handle and the table are kept and the version is adopted. Otherwise no handle is kept and an opened library is unloaded. The configuration is untouched |
| Init.InitOrigLibOutcome | src/init.c:78-142 | success exactly when a handle is held afterwards. With a handle already held it is a no-op. From no handle it succeeds exactly when the lock can be created, the configuration is acceptable and the library is usable. `env_vars_read` is set exactly when the parse succeeds, and the banner comes first then. After a success the next call is a no-op. A held handle always comes with a table |
| Dispatch.SafelyInit | src/pkcs11-logger.h:173 | the trampoline may go on exactly when init returned `PKCS11_LOGGER_RV_SUCCESS`, and then the real function list is present; the sinks are what `InitOrigLibSinks` says |
| Dispatch.CallOriginalFunction | src/pkcs11-logger.c:237 | the real function is called once, after everything logged so far, and its return value is kept unchanged |
| Dispatch.GetFunctionList | src/pkcs11-logger.c:199-218 | if init fails: CKR_GENERAL_ERROR, nothing stored, only init's lines. Otherwise `*ppFunctionList` receives the logger's own table, the answer is CKR_OK, the lines come in the order enter, input, output, exit, and the real library is not called; the sinks hold what init left, followed by every later line logged under the configuration init left |
| Dispatch.GetFunctionListCall | src/pkcs11-logger.c:204-217 | the lines and the stored table after a successful init |
| Dispatch.HandsOutOwnTable | src/pkcs11-logger.c:209 | the table handed out keeps the logger's 68 entries whatever init does; only its version changes |
| Dispatch.GetSlotList | src/pkcs11-logger.c:221-260 | if init fails: CKR_GENERAL_ERROR, no call, only init's lines. Otherwise the real function is called once after the inputs; its return value comes back unchanged; the output block is logged only for CKR_OK; the sinks hold what init left, followed by every later line logged under the configuration init left |
| Dispatch.GetSlotListCall | src/pkcs11-logger.c:227-259 | the lines and the call after a successful init |
| Dispatch.LogSlotListInputs | src/pkcs11-logger.c:230-234 | the input lines; `*pulCount` only when the pointer is given |
| Dispatch.LogSlotListOutputs | src/pkcs11-logger.c:240-256 | nothing unless CKR_OK; otherwise the slots only when both pointers are given, then the stored count |
| Dispatch.LogSlotListBlock | src/pkcs11-logger.c:242-255 | the CKR_OK block: the output header, the slots, then the stored count |
| Dispatch.LogSlotsPart | src/pkcs11-logger.c:245-251 | the slot lines only when both pointers are given |
| Dispatch.LogSlots | src/pkcs11-logger.c:247-250 | the loop logs slots 0 .. `*pulCount`-1 |
| Dispatch.SlotLinesInOrder | src/pkcs11-logger.c:247-250 | one line per slot, the i-th naming index i and slot i |
| Dispatch.SlotListOutputsOnlyOnSuccess | src/pkcs11-logger.c:240 | output lines appear exactly for CKR_OK |
| Dispatch.SlotsLoggedInOrder | src/pkcs11-logger.c:240-256 | for CKR_OK with both pointers given, the block has one line per reported slot in order and ends with the stored count |
| Dispatch.PinLines | src/pkcs11-logger.c:735-738 | without `ENABLE_PIN` exactly the fixed notice; with it, nothing for a NULL PIN |
| Dispatch.LogPin | src/pkcs11-logger.c:735-738 | the flag test decides between the PIN's text and the notice |
| Dispatch.LogPinArgument | src/pkcs11-logger.c:734-739 | the pointer, the contents or notice, then the length |
| Dispatch.Login | src/pkcs11-logger.c:724-747 | if init fails: CKR_GENERAL_ERROR and no call. Otherwise the real function is called once after the inputs, its return value comes back unchanged, and there is no output block; the sinks hold what init left, followed by every later line logged under the configuration init left |
| Dispatch.LoginCall | src/pkcs11-logger.c:729-746 | the lines and the call after a successful init |
| Dispatch.LogLoginInputs | src/pkcs11-logger.c:732-739 | the session, the user type with its name, then the PIN argument |
| Dispatch.SetPin | src/pkcs11-logger.c:524-552 | like `Login`, with the old and the new PIN; the sinks hold what init left, followed by every later line logged under the configuration init left |
| Dispatch.SetPinCall | src/pkcs11-logger.c:529-551 | the lines and the call after a successful init |
| Dispatch.LogSetPinInputs | src/pkcs11-logger.c:532-544 | the session, then both PIN arguments |
| Dispatch.LoginPinHidden | src/pkcs11-logger.c:735-738 | without `ENABLE_PIN` the lines do not depend on the PIN's bytes, and the notice is logged |
| Dispatch.SetPinHidden | src/pkcs11-logger.c:534-543 | without `ENABLE_PIN` neither PIN's bytes affect the lines |
| Dispatch.PinShownWithFlag | src/pkcs11-logger.c:735-736 | with `ENABLE_PIN` and room for the copy, the line shows exactly the PIN's bytes before its first zero byte |
| Dispatch.GetAttributeValue | src/pkcs11-logger.c:890-919 | if init fails: CKR_GENERAL_ERROR and no call. Otherwise the template is logged before the call and again, as the real function left it, after the call for the four return values that fill it in; the sinks hold what init left, followed by every later line logged under the configuration init left |
| Dispatch.GetAttributeValueCall | src/pkcs11-logger.c:895-918 | the lines and the call after a successful init |
| Dispatch.LogAttributeInputs | src/pkcs11-logger.c:898-902 | session, object, then the template argument |
| Dispatch.LogTemplateArg | src/pkcs11-logger.c:900-902 | the template pointer, the count, then the template |
| Dispatch.LogAttributeOutputs | src/pkcs11-logger.c:908-915 | the output block exactly for the four codes |
| Dispatch.AttributeOutputsShownIff | src/pkcs11-logger.c:908-915 | output lines appear exactly for CKR_OK, CKR_ATTRIBUTE_SENSITIVE, CKR_ATTRIBUTE_TYPE_INVALID and CKR_BUFFER_TOO_SMALL |
| Dispatch.AttributeOutputsShowFilled | src/pkcs11-logger.c:908-915 | in those cases the template logged after the call is the one the real function wrote, entry by entry |
| Dispatch.Digest | src/pkcs11-logger.c:1344-1379 | if init fails: CKR_GENERAL_ERROR and no call. Otherwise the data is logged in hex before the call, the real function is called once, and the digest with its length is logged only for CKR_OK; the sinks hold what init left, followed by every later line logged under the configuration init left |
| Dispatch.DigestCall | src/pkcs11-logger.c:1349-1378 | the lines and the call after a successful init |
| Dispatch.LogDigestInputs | src/pkcs11-logger.c:1352-1359 | session, data pointer and hex, then the remaining arguments |
| Dispatch.LogDigestArgs | src/pkcs11-logger.c:1355-1359 | the data length, the digest pointer, then the length pointer and its value when given |
| Dispatch.LogDigestOutputs | src/pkcs11-logger.c:1365-1375 | nothing unless CKR_OK |
| Dispatch.LogDigestValue | src/pkcs11-logger.c:1371-1374 | the digest and its length only when `pulDigestLen` is given |
| Dispatch.DigestOutputsOnlyOnSuccess | src/pkcs11-logger.c:1365 | output lines appear exactly for CKR_OK |
| Dispatch.DigestShownInHex | src/pkcs11-logger.c:1371-1372 | for CKR_OK with both pointers, the digest line is the hex of exactly the first `*pulDigestLen` bytes |

## Left out

- The lock (src/lock.c) is not part of this model. It does appear as one input: whether it can be created. Acquire and release around each line, and the race on the unsynchronized fast path of `init_orig_lib`, are left out because they are concurrency.
- Init.InitOrigLib: the lock is taken as POSIX creates it, afresh on every attempt. On Windows, src/lock.c:40-44 refuses to create a lock that already exists and logs "Lock already exists". A lock kept from an attempt that failed later therefore makes every retry fail, which the model's `Env.lockCreated` input does not tie to earlier attempts.
- Real file I/O, `fflush`, and the text of the timestamp, the process id and the thread id are left out as I/O and clocks. They become `FileOp`s, `now`, `host.pidText` and `host.tidText`.
- `pkcs11_logger_init_read_env_var` is reduced to a map lookup. A failing `strdup` and the Windows variant are left out as OS calls.
- Library loading is an input. `dlopen`, `dlsym` and `dlclose` are foreign calls, and `dlerror`'s text is `Env.dlError`. The Windows absolute-path check is left out.
- `pkcs11_logger_log_with_timestamp` logs its message as a plain line. `pkcs11_logger_log_orig_function_enter` and `_exit` log nothing. Their definitions are not part of this model.
- Only six of the roughly seventy trampolines are modelled. The rest repeat the same pattern with other arguments.
- Only the shape of the name tables is modelled: a name for each listed code and the fallback to `Unknown` for any other. The code values come from the PKCS #11 headers, which are not part of this model, so only a few codes per table are listed.
- Translate.TranslateCkRv: lists 14 of the 88 return values of the C table. The other 74 come out as `Unknown` in the model, where C prints their names.
- Translate.TranslateCkMechanismType: lists 5 of the 248 mechanisms of the C table. The other 243 come out as `Unknown` in the model, where C prints their names.
- Translate.TranslateCkAttribute: lists 10 of the 98 attribute types of the C table. The other 88 come out as `Unknown` in the model, where C prints their names.
- Init.GetFunctionListReply: an original `C_GetFunctionList` that returns CKR_OK without storing a table would make the C code dereference NULL. The model rules that reply out by its type.
- Dispatch.GetFunctionList: a NULL `ppFunctionList` makes the C code write through NULL. The model takes the argument as a non-NULL address.
- Log.LogAttributeTemplate: a template whose `pValue` points back into itself would recurse without end in C. The `Attribute` datatype is finite, which rules this out.
- Utils.StrToLong: the NULL `val` pointer is an `Option` and `*val` comes back in the result. The write through the pointer is in `Init.ReadFlags`, which changes `flags` only on success.
- Dispatch.LogSlots: `%d` of an index above `INT_MAX` is printed as the plain number, without wrap-around.
- Log.LogEntryHeader: `%d` of the CK_ULONG index `i` is printed as the plain number. On LP64 `%d` reads only an `int`, so an index above `INT_MAX` would print differently; a template that long cannot be allocated.
- Translate.TranslateCkBytePtr: lengths above `ULONG_MAX / 2` other than CK_UNAVAILABLE_INFORMATION are excluded by `HexReadable`. For them `(length * 2) + 1` wraps to a small size that may be allocated, and the C loop then writes past the buffer.
- Log.NonzeroStringLines: a length of `ULONG_MAX`, for which `len + 1` wraps to 0 in C, is treated as an allocation that fails. In C, `malloc(0)` may succeed and the copy then overruns the buffer.
