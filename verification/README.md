# Sandboxie driver channel and service-side message handling, in Dafny

This project models two pieces of Sandboxie that talk to the kernel driver
SbieDrv.

- **SbieApi, the user-mode driver interface** (`core/dll/sbieapi.c`). It keeps
  one process-wide handle to the driver's control device and opens it on
  demand. Each API packs its arguments into an 8-slot parameter block
  ("frame") and sends it with one synchronous device I/O control request.
  When a request fails, most encoders reset the output buffers their caller
  supplied; a few do not. The project models:
  - the handle state machine of `SbieApi_Ioctl`;
  - the frames of `SbieApi_CallZero`..`SbieApi_CallThree` and of the
    encoders that skip zeroing;
  - the failure-reset rules of the encoders;
  - `SbieApi_QueryConf`, `SbieApi_QueryConfBool` and `SbieApi_EnumBoxesEx`;
  - the device-name truncation of `SbieApi_CheckInternetAccess`;
  - the length check and text layout of `SbieApi_Log2199`.
- **DriverAssist, the service side** (`core/svc/DriverAssist.cpp`). The driver
  posts datagrams to the service's LPC port. A worker decodes each datagram
  and runs one handler. The project models:
  - the decoder and dispatcher `MsgWorkerThread`;
  - the empty wake messages that `ShutdownPortAndThreads` posts;
  - `LookupSid` and `LookupSid2`, which resolve a SID to a user name;
  - `CancelProcess`, which terminates a process only if its creation time matches;
  - `UnmountHive`, which has three bounded retry loops.

Every operating-system and driver reply is a parameter of the model:
NtOpenFile, NtDeviceIoControlFile, the registry, OpenProcess and
GetProcessTimes, WaitForSingleObject, and each poll's answer. A loop becomes
a function over a sequence of replies, and time becomes a count of
`Sleep(100)` calls. Statuses are signed 32-bit NTSTATUS values, and success
means a status of at least 0.

Files:
- `base.dfy`: Option/Result, NTSTATUS constants, WCHAR buffers and their
  C-string view, and log entries.
- `call_frames.dfy`: the 8-slot parameter block.
- `driver_channel.dfy`: the handle and the call primitives.
- `encoders.dfy`: the failure resets and the frames that skip zeroing.
- `conf.dfy`: configuration queries and the box enumeration.
- `log_text.dfy`: message 2199.
- `port_messages.dfy`: port datagrams, the decoder and the wake messages.
- `sid_lookup.dfy`, `cancel_process.dfy`, `unmount_hive.dfy`: the handlers.

## Model

| member | source | states |
|---|---|---|
| DriverChannel.Ioctl | core/dll/sbieapi.c:88-132 | The device is opened only when the handle is invalid. The request is sent iff the handle was open or the open succeeded, and then the driver's status is returned and the handle is open. A name-not-found or no-such-device open becomes STATUS_SERVER_DISABLED. Any other failed open status is returned unchanged. Every failed open leaves the handle invalid. |
| DriverChannel.CallZero | core/dll/sbieapi.c:140-157 | The frame holds only the code, with zeros elsewhere. The handle is closed iff the code is API_UNLOAD_DRIVER and the status is a success. Otherwise the handle is as the call left it. |
| DriverChannel.CallArgs | core/dll/sbieapi.c:165-217 | For one to three arguments: slot 0 holds the code, slots 1..k hold the arguments, the rest are zero. The reply is the plain Ioctl reply and the handle is never closed. |
| CallFrames.CallFrame | core/dll/sbieapi.c:165-217 | A zeroed frame with the code in slot 0 and argument i in slot i+1. |
| CallFrames.Fill | core/dll/sbieapi.c:802-806 | Filling a frame leaves every slot that is not assigned as it was, and the last store to a slot wins. |
| DriverChannel.DriverAbsentEveryCallDisabled | core/dll/sbieapi.c:93-115 | If every open reports the device missing, every call in a sequence returns STATUS_SERVER_DISABLED, the handle stays invalid, and each call tries to open once. |
| DriverChannel.OpenHandleIsReused | core/dll/sbieapi.c:109-129 | From an open handle, calls that do not unload the driver never reopen it. They return exactly the driver's statuses, including failures, and keep the handle open. |
| DriverChannel.OpensPerCall | core/dll/sbieapi.c:93-115 | A call makes at most one open attempt. A run that starts with an invalid handle makes at least one. |
| Encoders.AfterCall | core/dll/sbieapi.c:1498-1501 | After a call, NULL outputs stay NULL. On success every output is what the driver left. After a failure to which the encoder's reset applies, every output in its reset set gets the reset value: cleared, or "unknown" for GetVersion. When the reset does not apply, nothing changes. An output outside the reset set is never touched. |
| Encoders.FailureClearsPaths | core/dll/sbieapi.c:684-691 | A failed QueryBoxPath, or QueryProcessPath at lines 750-757, empties each of the file, key and IPC paths it was given, and leaves the three length pointers as they were. |
| Encoders.FailureClearsEveryOutput | core/dll/sbieapi.c:447-480 | For the encoders that reset unconditionally, a failed call leaves every supplied output empty or zero. |
| Encoders.GetVersionFailureIsUnknown | core/dll/sbieapi.c:236-239 | A failed GetVersion leaves "unknown" in the version buffer. |
| Encoders.QueryProcessResetUnlessFlag | core/dll/sbieapi.c:576-595 | On a failed QueryProcessEx2 with an out_session_id pointer value of 1..4, no output changes. Otherwise the box, image and SID strings and the session id are cleared and the creation time is kept. |
| Encoders.QueryConfResetNeedsRoom | core/dll/sbieapi.c:1239-1243 | A failed QueryConf clears out_buffer[0] iff buffer_len is more than one WCHAR. |
| Encoders.MonitorGetExKeepsSeqAndPid | core/dll/sbieapi.c:1468-1476 | A failed MonitorGetEx resets the type and the name but keeps the sequence number and the pid. |
| Encoders.NeverClearing | core/dll/sbieapi.c:165-217 | The call wrappers, GetMessage, QueryPathList and RenameFile leave their outputs as the driver left them, whatever the status. |
| Encoders.StaleOutputAfterFailure | core/dll/sbieapi.c:576-595 | A failed QueryProcessEx2 with session flag 2 hands back the stale box name. |
| Encoders.EncoderFrame | core/dll/sbieapi.c:1487-1496 | The slots an encoder does not assign hold zero if it zeroes the block first. If it does not zero the block, they hold the stale stack contents. Assigned slots hold the last value stored. |
| Encoders.ZeroedFrameIgnoresStale | core/dll/sbieapi.c:143-146 | For an encoder that zeroes the block, the previous stack contents never reach the driver. |
| Encoders.EnumProcessExFrame | core/dll/sbieapi.c:795-815 | Slots 0..4 hold the code, the pid buffer, the box name, all_sessions and which_session. Slots 5..7 keep what the stack held. |
| Encoders.QueryConfFrame | core/dll/sbieapi.c:1233-1238 | Slots 0..4 hold the code, the section buffer, the setting buffer, the index pointer and the output descriptor. Slots 5..7 keep what the stack held. |
| Encoders.PrefixFrame | core/dll/sbieapi.c:851-862 | For an encoder that skips memzero and assigns its leading slots in order, those slots hold the values and every later slot keeps the stack contents. |
| Encoders.HookTrampFrame | core/dll/sbieapi.c:851-862 | Slots 0..2 hold the code, the source and the trampoline. Slots 3..7 keep what the stack held. |
| Encoders.ReloadConfFrame | core/dll/sbieapi.c:1191-1200 | Slots 0..1 hold the code and the session id. Slots 2..7 keep what the stack held. |
| Encoders.MonitorPutFrame | core/dll/sbieapi.c:1376-1391 | Slots 0..3 hold the code, the address of Type, twice the name length (as a 64-bit size) and the name pointer. Slots 4..7 keep what the stack held. |
| Encoders.MonitorPut2Frame | core/dll/sbieapi.c:1398-1414 | As MonitorPut, with bCheckObjectExists in slot 4. Slots 5..7 keep what the stack held. |
| Encoders.EnumProcessExSendsStaleSlot | core/dll/sbieapi.c:802-808 | Some stack contents make EnumProcessEx send a nonzero value in a slot it never set. |
| WideStrings.FixedBuffer | core/dll/sbieapi.c:1219-1226 | A zeroed buffer of `size` WCHARs into which at most `cap` characters are copied. Everything from index `cap` on, and everything after the copied name, is NUL, and the C-string view is the name truncated to `cap`, or empty for NULL. |
| Conf.QueryConfCall | core/dll/sbieapi.c:1209-1246 | The section and setting buffers are 66 WCHARs, NUL at indices 64 and 65. Each reads back as its name truncated to 64, or empty for NULL. The output follows the QueryConf reset rule. |
| Conf.QueryConfBool | core/dll/sbieapi.c:1254-1268 | The result is true for a value starting with y/Y and false for n/N. In every other case, including a failed query or an empty value, it is the default. |
| Conf.EnumBoxesEx | core/dll/sbieapi.c:1289-1307 | Each query is for the next index. STATUS_BUFFER_TOO_SMALL and disabled boxes (unless all sections are asked for) are skipped. An empty name returns -1. Otherwise the result is the index reached, which is strictly greater than the starting index, and the box is enabled unless all sections were asked for. |
| Conf.DeviceNameBuffer | core/dll/sbieapi.c:974-980 | The device name buffer is 34 WCHARs with at most 32 characters of the name, and both trailing WCHARs are NUL. |
| LogText.Log2199 | core/dll/sbieapi.c:403-439 | The request is refused with STATUS_INSUFFICIENT_RESOURCES iff the byte count (box + path + 4) * 2 reaches the maximum. Otherwise it is sent with session -1 and message 2199, and its text is the box name, one space and the path. |
| LogText.Log2199Fits | core/dll/sbieapi.c:409-425 | For realistic sizes, Length is twice the text length, MaximumLength is Length + 2, and both are below the checked allocation. |
| LogText.Log2199TextRoundTrip | core/dll/sbieapi.c:414-419 | A box name holds no space, so splitting the text at its first space gives back the box name and the path. |
| PortMessages.Decode | core/svc/DriverAssist.cpp:247-293 | A message runs no handler unless it is a datagram with at least 4 data bytes. Otherwise the handler's id is the first little-endian ULONG, and its payload is the bytes after it. |
| PortMessages.DecodeRunsHandlerIff | core/svc/DriverAssist.cpp:250-292 | With distinct ids, handler h runs iff the message is a datagram, has at least 4 data bytes and carries h's id. |
| PortMessages.UnknownIdRunsNothing | core/svc/DriverAssist.cpp:266-292 | An id outside the table runs no handler. |
| PortMessages.DecodeEncode | core/svc/DriverAssist.cpp:259-264 | A datagram built from a handler's id and a payload decodes to that handler and that payload. |
| PortMessages.WakeMessage | core/svc/DriverAssist.cpp:208-212 | The wake message is zero-filled, its TotalLength is the header size and its DataLength is 0. |
| PortMessages.ShutdownWakes | core/svc/DriverAssist.cpp:198-213 | One wake message is posted per listener thread, and none when the port handle was already cleared. |
| PortMessages.WakeRunsNoHandler | core/svc/DriverAssist.cpp:250-257 | Whatever type the port stamps on it, a delivered wake message runs no handler. |
| SidLookup.LookupSid2 | core/svc/DriverAssist.cpp:395-419 | The key opened is the SID string plus the Explorer suffix. When the allocation or the open fails, the name buffer is untouched. The value is kept iff the query returns 0 and the type is REG_SZ. Otherwise the first character is emptied. |
| SidLookup.LookupSid | core/svc/DriverAssist.cpp:342-387 | If the SID string does not convert, one 2209 is logged and SetUserName is not called. The fallback runs iff the primary lookup failed with ERROR_NONE_MAPPED. The name sent is non-empty, NUL-free and at most 252 characters. A successful lookup's name is sent unless it is empty; when neither lookup produced a name, "*?*?*?*" is sent. A nonzero SetUserName status logs 2209. |
| SidLookup.NameBuffer | core/svc/DriverAssist.cpp:353-382 | The user-name buffer before it is reported has a NUL at index 252 and a non-NUL first character. It holds the account name, or else the placeholder, each terminated. |
| SidLookup.RegistryNameReported | core/svc/DriverAssist.cpp:364-373 | When the fallback finds a terminated REG_SZ value, that value is the name sent. |
| SidLookup.RegistryMissReportsPlaceholder | core/svc/DriverAssist.cpp:364-378 | When the fallback finds no usable name, the placeholder is sent. |
| SidLookup.UnterminatedValueRunsIntoStaleBuffer | core/svc/DriverAssist.cpp:353-382 | A REG_SZ value stored without its NUL is read on into the uninitialised array, up to the NUL forced at index 252. |
| Cancellation.CancelProcess | core/svc/DriverAssist.cpp:427-456 | The process is terminated iff it could be opened, its times could be read and its creation time equals the message's. Message 2314 is always logged, in the name/pid/reason form iff the reason is nonzero. |
| Cancellation.ReusedIdIsSpared | core/svc/DriverAssist.cpp:443-447 | A process holding a reused id with another creation time is never terminated. |
| HiveUnmount.Polls | core/svc/DriverAssist.cpp:499-507 | A loop of at most `limit` polls stops at the first hit. Every earlier poll was a miss. It stopped early only on a hit, and it found a hit iff one exists within the bound. |
| HiveUnmount.PollLoop | core/svc/DriverAssist.cpp:526-537 | The source's for/break loop makes as many polls as the recursive definition says. |
| HiveUnmount.WaitForExit | core/svc/DriverAssist.cpp:484-508 | The QueryProcess polls are skipped iff the wait saw the process end. Otherwise there are 1..20 polls, all but the last returned 0, and an early stop means a nonzero status. |
| HiveUnmount.CheckBoxEmpty | core/svc/DriverAssist.cpp:520-540 | Without a pid buffer there are no polls and no unmount. With one there are 1..20 polls, and the box counts as empty iff some poll within the bound returned status 0 and a zero count, which was then the last poll. |
| HiveUnmount.HivePath | core/dll/sbieapi.c:1487-1504 | The hive path is what the driver wrote, or empty after a failed call. |
| HiveUnmount.UnloadAsWritten | core/svc/DriverAssist.cpp:564-581 | The retries stop at the first successful unload, at a re-check that finds the key gone, or after 25 attempts. The final rc is 0 after a successful unload; otherwise it is the re-check's status, which is 0 if the key could still be opened. |
| HiveUnmount.UnloadLoopAsWritten | core/svc/DriverAssist.cpp:564-578 | The source's loop, with one rc for both calls, computes UnloadAsWritten. |
| HiveUnmount.UnloadCorrected | core/svc/DriverAssist.cpp:564-581 | With the re-check's status kept apart, the final rc is the last unload's status. It is nonzero iff every attempt failed, and an early stop with a failure means the key was gone. |
| HiveUnmount.UnloadLoopCorrected | core/svc/DriverAssist.cpp:564-578 | The loop with a separate re-check status computes UnloadCorrected. |
| HiveUnmount.AsWrittenHidesFailure | core/svc/DriverAssist.cpp:564-581 | As written, if every unload fails and every re-check opens the key, 25 attempts are made and rc ends at 0. |
| HiveUnmount.HiveStaysMountedSilently | core/svc/DriverAssist.cpp:564-581 | For 25 refused unloads of a hive that stays openable, rc ends at 0 as written but nonzero once corrected. |
| HiveUnmount.UnloadHive | core/svc/DriverAssist.cpp:549-584 | The unload runs iff GetUnmountHive produced a non-empty path. There are then 1..25 attempts, all but the last failed. With the loop as corrected, message 2208 with the final status is logged iff every attempt failed. |
| HiveUnmount.UnmountHive | core/svc/DriverAssist.cpp:474-585 | Composes the three phases. NtUnloadKey is attempted only if the box was seen empty and the hive path is non-empty. The unmount decision rests on the last enumeration poll, which saw the box empty. At most one 2208 is logged, for this session, with a nonzero status. At most 65 sleeps are made. |
| HiveUnmount.UnmountTimeBounded | core/svc/DriverAssist.cpp:486-570 | The handler waits at most 2 s plus 65 sleeps of 100 ms. |
| HiveUnmount.GoneAtSixthPoll | core/svc/DriverAssist.cpp:497-507 | A process that cannot be waited on and is seen gone at the sixth poll costs six polls and five sleeps. |
| HiveUnmount.EmptyAtSixthEnumeration | core/svc/DriverAssist.cpp:520-540 | A box first seen empty at the sixth enumeration costs six polls and five sleeps, and the unmount goes ahead. |
| HiveUnmount.BusyBoxKeepsHive | core/svc/DriverAssist.cpp:520-558 | A box never seen empty is never unmounted, and nothing is logged. |

## Left out

- The listener threads and their shutdown are not modelled, because they are thread and OS-port behaviour. This covers port creation, the listener pool, the worker-thread stubs and the wait/TerminateThread in ShutdownPortAndThreads. Only the wake messages and the decoder are modelled.
- RestartHostInjectedSvcs only takes a lock around a function defined elsewhere. InjectLow, LogMessage and StartDriverAsync live in DriverAssistStart.cpp, DriverAssistInject.cpp and DriverAssistLog.cpp, which are not part of this model. The decoder still selects all six handlers.
- The printf-style formatting of log messages (SbieApi_vLogEx, Sbie_swprintf) is not modelled. A log entry keeps its format's arguments, not the formatted text.
- Calls from several threads are not modelled. SbieApi_DeviceHandle is a plain global that is tested, opened into, reset and closed without synchronisation (core/dll/sbieapi.c:48, 95-116, 151-152). Two threads that both find it invalid each open a handle and one leaks, and an unload on one thread can close the handle another is about to use. DriverChannel.RunCalls models one thread's calls in sequence.
- NT and Win32 calls are not run. Their results are parameters, and timing is counted in polls and sleeps.
- Constants from headers that are not part of this model are not known. The API function codes (API_UNLOAD_DRIVER and the others) are distinct placeholder numbers; only equality with them matters. The service message ids are a parameter table, required to be distinct. API_LOG_MESSAGE_MAX_LEN is a parameter. The number of listener threads is a parameter.
- Encoders.MonitorPutFrame and Encoders.MonitorPut2Frame: the argument structures are declared in a header that is not part of this model; their fields are taken to occupy slots 0, 1, 2, ... in declaration order.
- Pointer-width casts and the 64-bit packing of buffer addresses are not modelled. Frame slots hold abstract 64-bit words.
- Conf.EnumBoxesEx: the source loops until a reply ends it, so the model's replies can run out, which the result reports as None. The 32-bit LONG index could wrap, which is not modelled. The CONF_GET_NO_EXPAND flag OR-ed into the index is not modelled.
- Conf.QueryConfBool: it takes the driver's reply to the query directly; the section and setting names are covered by QueryConfCall.
- SidLookup.LookupSid2: the 512-WCHAR heap buffer for the key path is not bounded in the model. A SID string longer than 460 characters would overrun it in the source.
- SidLookup.LookupSid: a successful LookupAccountSid is assumed to write a NUL-terminated name of fewer than 252 characters, as its buffer size argument demands. A RegQueryValueEx that returns 0 is assumed to write at most the 252 bytes it is offered.
- HiveUnmount.UnmountHive and HiveUnmount.UnloadHive: the unload retries follow the corrected loop (see Findings), so 2208 is logged whenever every attempt failed. As written, the source skips 2208 when the last re-check opened the key; that loop is UnloadAsWritten.
- HiveUnmount.BoxEmpty reads the count from the first ULONG of the pid buffer only; the pids themselves are not modelled.
- The reset-on-failure rule is not uniform, and not every encoder zeroes its parameter block before filling it. The model follows the code: see Encoders.ResetMask, Encoders.LeavesFrameStale and Encoders.StaleOutputAfterFailure.

## Findings

| source | as written | input that shows it | evidently intended | confidence | as-written member | corrected member |
|---|---|---|---|---|---|---|
| core/svc/DriverAssist.cpp:564-581 | The NtOpenKey re-check writes its status into the `rc` that held the unload status. When all 25 unloads fail and the key can still be opened, `rc` ends at 0 and message 2208 is not logged although the hive is still mounted. | NtUnloadKey returns STATUS_ACCESS_DENIED 25 times and NtOpenKey returns 0 each time | log 2208, with the unload's status, whenever no unload attempt succeeded | medium, not executed | HiveUnmount.UnloadAsWritten | HiveUnmount.UnloadCorrected |
