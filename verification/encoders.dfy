/** The SbieApi encoders: each fills a frame, passes caller-owned output
    buffers to the driver and, depending on the encoder, resets some of them
    when the call fails. An output is seen through the caller's pointer: NULL,
    a WCHAR string (its C-string content) or an integer (a ULONG, a flag, a
    handle value, the first ULONG of the pid array). */
module Encoders {
  import opened NtStatus
  import opened CallFrames

  datatype Out = Null | Text(s: string) | Word(n: int)

  /** An output a caller can read as "nothing": an empty string or a zero. */
  predicate IsEmpty(o: Out) {
    o == Text([]) || o == Word(0)
  }

  /** `*p = L'\0'` for a string output, `*p = 0` (or FALSE) for an integer one. */
  function Clear(o: Out): (r: Out)
    ensures r.Null? <==> o.Null?
    ensures !o.Null? ==> IsEmpty(r)
  {
    match o
    case Null => Null
    case Text(_) => Text([])
    case Word(_) => Word(0)
  }

  datatype Encoder =
    | GetVersion | GetHomePath | QueryProcessEx2 | QueryProcessInfo
    | QueryBoxPath | QueryProcessPath | EnumProcessEx | DisableForceProcess
    | GetFileName | OpenFile | GetBlockedDll | DuplicateObject | OpenProcess
    | OpenDeviceMap | QuerySymbolicLink | QueryConf | MonitorControl
    | MonitorGet | MonitorGetEx | GetUnmountHive | SessionLeader | OpenKey
    | CallOne | CallTwo | CallThree | GetMessage | QueryPathList | RenameFile
    | HookTramp | ReloadConf | MonitorPut | MonitorPut2

  /** Which of the encoder's outputs, in parameter order, its failure path
      resets. */
  function ResetMask(e: Encoder): seq<bool> {
    match e
    case GetVersion => [true]                          // version text
    case GetHomePath => [true, true]                   // NT path, DOS path
    case QueryProcessEx2 => [true, true, true, true, false]
                                                       // box, image, SID, session id, create time
    case QueryProcessInfo => [true]                    // the returned value
    case QueryBoxPath => [true, true, true, false, false, false]
                                                       // file, key, ipc path; their in/out lengths
    case QueryProcessPath => [true, true, true, false, false, false]
    case EnumProcessEx => [true]                       // boxed_pids[0], the count
    case DisableForceProcess => [true]                 // old state
    case GetFileName => [true]
    case OpenFile => [true]                            // handle
    case GetBlockedDll => [true]
    case DuplicateObject => [true]                     // handle
    case OpenProcess => [true]                         // handle
    case OpenDeviceMap => [true]                       // handle
    case QuerySymbolicLink => [true]
    case QueryConf => [true]                           // out_buffer
    case MonitorControl => [true]                      // old state
    case MonitorGet => [true, true]                    // type, name
    case MonitorGetEx => [false, true, false, true]    // sequence number, type, pid, name
    case GetUnmountHive => [true]                      // path
    case SessionLeader => [true]                       // process id
    case OpenKey => [true]                             // handle
    case CallOne => []
    case CallTwo => []
    case CallThree => []
    case GetMessage => [false, false, false]           // message number, message id, text
    case QueryPathList => [false, false]               // length, path list
    case RenameFile => []
    case HookTramp => []
    case ReloadConf => []
    case MonitorPut => []
    case MonitorPut2 => []
  }

  /** Outputs the encoder writes through without a NULL check, so the caller
      must supply them. */
  function MustBeSupplied(e: Encoder): seq<bool>
    ensures |MustBeSupplied(e)| == |ResetMask(e)|
  {
    match e
    case GetVersion => [true]
    case QueryProcessInfo => [true]
    case EnumProcessEx => [true]
    case OpenFile => [true]
    case OpenKey => [true]
    case _ => seq(|ResetMask(e)|, _ => false)
  }

  /** Per-call facts two encoders consult: the numeric value of QueryProcessEx2's
      `out_session_id` pointer, and QueryConf's `buffer_len` in bytes. */
  datatype CallContext = CallContext(sessionArg: nat, bufferLen: nat)

  predicate WellFormed(e: Encoder, outs: seq<Out>, ctx: CallContext) {
    && |outs| == |ResetMask(e)|
    && (forall i :: 0 <= i < |outs| && MustBeSupplied(e)[i] ==> !outs[i].Null?)
    && (e == QueryProcessEx2 ==> (outs[3].Null? <==> ctx.sessionArg == 0))
    && (e == QueryConf && ctx.bufferLen > 2 ==> !outs[0].Null?)
  }

  /** Whether the failure path runs at all: QueryProcessEx2 skips it when
      `out_session_id` is one of the internal flag values 1..4, QueryConf
      when the buffer is no larger than one WCHAR. */
  predicate ResetApplies(e: Encoder, ctx: CallContext) {
    match e
    case QueryProcessEx2 => ctx.sessionArg == 0 || ctx.sessionArg > 4
    case QueryConf => ctx.bufferLen > 2
    case _ => true
  }

  /** The value a reset output gets: GetVersion copies "unknown", the rest clear. */
  function ResetValue(e: Encoder, o: Out): Out {
    if e == GetVersion then Text("unknown") else Clear(o)
  }

  /** The caller's outputs after the encoder returns with `status`; `outs` is
      what they held when the driver returned. */
  function AfterCall(e: Encoder, status: Status, outs: seq<Out>, ctx: CallContext): (r: seq<Out>)
    requires WellFormed(e, outs, ctx)
    ensures |r| == |outs|
    ensures forall i :: 0 <= i < |r| ==> (r[i].Null? <==> outs[i].Null?)
    ensures NtSuccess(status) ==> r == outs
    ensures !ResetApplies(e, ctx) ==> r == outs
    ensures forall i :: 0 <= i < |r| && !ResetMask(e)[i] ==> r[i] == outs[i]
    ensures !NtSuccess(status) && ResetApplies(e, ctx) ==>
              forall i :: 0 <= i < |r| && ResetMask(e)[i] ==> r[i] == ResetValue(e, outs[i])
  {
    if NtSuccess(status) || !ResetApplies(e, ctx) then outs
    else seq(|outs|, i requires 0 <= i < |outs| => if ResetMask(e)[i] then ResetValue(e, outs[i]) else outs[i])
  }

  /** The encoders whose failure path resets every output without condition. */
  predicate ClearsEverything(e: Encoder) {
    e in {GetHomePath, QueryProcessInfo, EnumProcessEx, DisableForceProcess, GetFileName,
          OpenFile, GetBlockedDll, DuplicateObject, OpenProcess, OpenDeviceMap,
          QuerySymbolicLink, MonitorControl, MonitorGet, GetUnmountHive, SessionLeader, OpenKey}
  }

  /** For these encoders a failed call leaves every supplied output empty or zero. */
  lemma FailureClearsEveryOutput(e: Encoder, status: Status, outs: seq<Out>, ctx: CallContext)
    requires ClearsEverything(e) && WellFormed(e, outs, ctx) && !NtSuccess(status)
    ensures var r := AfterCall(e, status, outs, ctx);
      forall i :: 0 <= i < |r| ==> r[i].Null? || IsEmpty(r[i])
  {
  }

  /** GetVersion reports "unknown" after a failed call. */
  lemma GetVersionFailureIsUnknown(status: Status, written: string)
    requires !NtSuccess(status)
    ensures AfterCall(GetVersion, status, [Text(written)], CallContext(0, 0)) == [Text("unknown")]
  {
  }

  /** QueryProcessEx2 on failure: with a real (or NULL) session pointer, the
      box, image and SID strings and the session id are cleared and the
      creation time is left alone; with a flag value 1..4 nothing changes. */
  lemma QueryProcessResetUnlessFlag(status: Status, outs: seq<Out>, ctx: CallContext)
    requires WellFormed(QueryProcessEx2, outs, ctx) && !NtSuccess(status)
    ensures var r := AfterCall(QueryProcessEx2, status, outs, ctx);
      && (1 <= ctx.sessionArg <= 4 ==> r == outs)
      && (ctx.sessionArg == 0 || ctx.sessionArg > 4 ==>
            (forall i :: 0 <= i < 4 ==> r[i].Null? || IsEmpty(r[i])) && r[4] == outs[4])
  {
  }

  /** QueryConf on failure clears out_buffer[0] only when buffer_len exceeds
      sizeof(WCHAR). */
  lemma QueryConfResetNeedsRoom(status: Status, out: Out, ctx: CallContext)
    requires WellFormed(QueryConf, [out], ctx) && !NtSuccess(status)
    ensures ctx.bufferLen > 2 ==> AfterCall(QueryConf, status, [out], ctx) == [Clear(out)]
    ensures ctx.bufferLen <= 2 ==> AfterCall(QueryConf, status, [out], ctx) == [out]
  {
  }

  /** MonitorGetEx resets the type and the name but not the sequence number or pid. */
  lemma MonitorGetExKeepsSeqAndPid(status: Status, outs: seq<Out>, ctx: CallContext)
    requires WellFormed(MonitorGetEx, outs, ctx) && !NtSuccess(status)
    ensures var r := AfterCall(MonitorGetEx, status, outs, ctx);
      r[0] == outs[0] && r[2] == outs[2] && r[1] == Clear(outs[1]) && r[3] == Clear(outs[3])
  {
  }

  /** QueryBoxPath and QueryProcessPath on failure empty the file, key and
      IPC paths they were given and leave the three length pointers alone. */
  lemma FailureClearsPaths(e: Encoder, status: Status, outs: seq<Out>)
    requires e == QueryBoxPath || e == QueryProcessPath
    requires WellFormed(e, outs, CallContext(0, 0)) && !NtSuccess(status)
    ensures var r := AfterCall(e, status, outs, CallContext(0, 0));
      && (forall i :: 0 <= i < 3 ==> r[i] == Clear(outs[i]))
      && r[3..] == outs[3..]
  {
  }

  /** The call wrappers, GetMessage, QueryPathList and RenameFile leave their
      outputs exactly as the driver left them, success or not. */
  lemma NeverClearing(e: Encoder, status: Status, outs: seq<Out>, ctx: CallContext)
    requires e in {CallOne, CallTwo, CallThree, GetMessage, QueryPathList, RenameFile}
    requires WellFormed(e, outs, ctx)
    ensures AfterCall(e, status, outs, ctx) == outs
  {
  }

  /** Resetting is not uniform: a failed QueryProcessEx2 with session flag 2
      hands back the stale box name. */
  lemma StaleOutputAfterFailure()
    ensures var outs := [Text("DefaultBox"), Null, Null, Word(7), Null];
      AfterCall(QueryProcessEx2, ObjectNameNotFound, outs, CallContext(2, 0))[0] == Text("DefaultBox")
  {
  }

  // ---------------------------------------------------------------------
  // Frames. Most encoders memzero the parameter block first; the ones below
  // do not, so the slots they do not assign keep whatever the stack held.
  // ---------------------------------------------------------------------

  /** Encoders that assign into `parms` without zeroing it first. */
  predicate LeavesFrameStale(e: Encoder) {
    e in {EnumProcessEx, DisableForceProcess, QueryConf, MonitorControl, MonitorGet,
          MonitorGetEx, GetUnmountHive, SessionLeader, GetFileName, OpenDeviceMap,
          HookTramp, ReloadConf, MonitorPut, MonitorPut2}
  }

  /** The block an encoder sends: its assignments on top of a zeroed frame, or
      on top of `stale` (the uninitialised stack contents) if it skips memzero. */
  function EncoderFrame(e: Encoder, stale: Frame, ws: seq<Store>): (r: Frame)
    requires InFrame(ws)
    ensures forall i :: 0 <= i < NumArgs && Untouched(ws, i) ==>
              r[i] == (if LeavesFrameStale(e) then stale[i] else 0)
    ensures forall k :: 0 <= k < |ws| && LastStoreTo(ws, k) ==> r[ws[k].slot] == ws[k].value
  {
    Fill(if LeavesFrameStale(e) then stale else ZeroFrame, ws)
  }

  /** For an encoder that zeroes the block, the stack's previous contents never
      reach the driver. */
  lemma ZeroedFrameIgnoresStale(e: Encoder, s1: Frame, s2: Frame, ws: seq<Store>)
    requires InFrame(ws) && !LeavesFrameStale(e)
    ensures EncoderFrame(e, s1, ws) == EncoderFrame(e, s2, ws)
  {
  }

  /** `parms[k] = values[k]` for the first |values| slots, in order. */
  function SlotStores(values: seq<Word64>): (ws: seq<Store>)
    requires |values| <= NumArgs
    ensures |ws| == |values| && InFrame(ws)
    ensures forall k :: 0 <= k < |ws| ==> ws[k] == Store(k, values[k])
  {
    seq(|values|, k requires 0 <= k < |values| => Store(k, values[k]))
  }

  /** The frame of an encoder that skips memzero and assigns its leading
      slots: those slots hold the values, the rest what the stack held. */
  function PrefixFrame(e: Encoder, stale: Frame, values: seq<Word64>): (r: Frame)
    requires LeavesFrameStale(e) && |values| <= NumArgs
    ensures r[..|values|] == values
    ensures r[|values|..] == stale[|values|..]
  {
    var ws := SlotStores(values);
    assert forall k :: 0 <= k < |ws| ==> LastStoreTo(ws, k);
    assert forall i :: |values| <= i < NumArgs ==> Untouched(ws, i);
    var r := EncoderFrame(e, stale, ws);
    assert forall k :: 0 <= k < |ws| ==> r[k] == r[ws[k].slot] == ws[k].value;
    r
  }

  /** SbieApi_EnumProcessEx: parms[0..4] = code, pid buffer, box name,
      all_sessions, which_session; slots 5..7 are not written. */
  function EnumProcessExFrame(stale: Frame, pids: Word64, boxName: Word64, allSessions: bool, whichSession: Word64): (r: Frame)
    ensures r[..5] == [ApiEnumProcesses, pids, boxName, if allSessions then 1 else 0, whichSession]
    ensures r[5..] == stale[5..]
  {
    PrefixFrame(EnumProcessEx, stale, [ApiEnumProcesses, pids, boxName, if allSessions then 1 else 0, whichSession])
  }

  /** SbieApi_QueryConf: parms[0..4] = code, section buffer, setting buffer,
      index pointer, output descriptor; slots 5..7 are not written. */
  function QueryConfFrame(stale: Frame, section: Word64, setting: Word64, index: Word64, output: Word64): (r: Frame)
    ensures r[..5] == [ApiQueryConf, section, setting, index, output]
    ensures r[5..] == stale[5..]
  {
    PrefixFrame(QueryConf, stale, [ApiQueryConf, section, setting, index, output])
  }

  /** SbieApi_HookTramp: parms[0..2] = code, source, trampoline. */
  function HookTrampFrame(stale: Frame, source: Word64, trampoline: Word64): (r: Frame)
    ensures r[..3] == [ApiHookTramp, source, trampoline]
    ensures r[3..] == stale[3..]
  {
    PrefixFrame(HookTramp, stale, [ApiHookTramp, source, trampoline])
  }

  /** SbieApi_ReloadConf: parms[0..1] = code, session id. */
  function ReloadConfFrame(stale: Frame, sessionId: Word64): (r: Frame)
    ensures r[..2] == [ApiReloadConf, sessionId]
    ensures r[2..] == stale[2..]
  {
    PrefixFrame(ReloadConf, stale, [ApiReloadConf, sessionId])
  }

  /** `wcslen(Name) * sizeof(WCHAR)` as a 64-bit size_t. */
  function NameBytes(name: string): (n: Word64)
    ensures 2 * |name| < 0x1_0000_0000_0000_0000 ==> n == 2 * |name|
  {
    (2 * |name|) % 0x1_0000_0000_0000_0000
  }

  /** SbieApi_MonitorPut: the code, the address of Type, the name's byte
      length and the name pointer, one per slot in the order of the
      argument structure's fields. */
  function MonitorPutFrame(stale: Frame, typePtr: Word64, name: string, namePtr: Word64): (r: Frame)
    ensures r[..4] == [ApiMonitorPut, typePtr, NameBytes(name), namePtr]
    ensures r[4..] == stale[4..]
  {
    PrefixFrame(MonitorPut, stale, [ApiMonitorPut, typePtr, NameBytes(name), namePtr])
  }

  /** SbieApi_MonitorPut2: as MonitorPut, then bCheckObjectExists. */
  function MonitorPut2Frame(stale: Frame, typePtr: Word64, name: string, namePtr: Word64, checkExists: bool): (r: Frame)
    ensures r[..5] == [ApiMonitorPut2, typePtr, NameBytes(name), namePtr, if checkExists then 1 else 0]
    ensures r[5..] == stale[5..]
  {
    PrefixFrame(MonitorPut2, stale, [ApiMonitorPut2, typePtr, NameBytes(name), namePtr, if checkExists then 1 else 0])
  }

  /** The driver can receive a nonzero word in a slot EnumProcessEx never set. */
  lemma EnumProcessExSendsStaleSlot()
    ensures exists stale: Frame :: EnumProcessExFrame(stale, 0, 0, false, 0)[7] != 0
  {
    var stale: Frame := [9, 9, 9, 9, 9, 9, 9, 9];
    assert EnumProcessExFrame(stale, 0, 0, false, 0)[5..][2] == 9;
  }
}
