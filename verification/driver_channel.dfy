/** The driver channel of SbieApi: one process-wide handle to the driver's
    control device, opened on demand, and the synchronous call primitive.
    NtOpenFile and NtDeviceIoControlFile are not run: their statuses are
    parameters of each call. */
module DriverChannel {
  import opened NtStatus
  import opened CallFrames

  /** SbieApi_DeviceHandle: INVALID_HANDLE_VALUE or an open device handle. */
  datatype Handle = Invalid | Open

  /** What one call through the channel did. */
  datatype Reply = Reply(
    status: Status,      // the status returned to the caller
    handle: Handle,      // SbieApi_DeviceHandle afterwards
    openAttempted: bool, // NtOpenFile was called
    requestSent: bool    // NtDeviceIoControlFile was called
  )

  /** SbieApi_Ioctl. `openStatus` is what NtOpenFile would return if the
      device had to be opened; `ioctlStatus` is the driver's reply. */
  function Ioctl(h: Handle, openStatus: Status, ioctlStatus: Status): (r: Reply)
    ensures r.openAttempted <==> h.Invalid?
    ensures r.requestSent <==> (h.Open? || openStatus == Success)
    ensures r.requestSent ==> r.status == ioctlStatus && r.handle.Open?
    ensures !r.requestSent ==> r.handle.Invalid? && r.status != Success
    ensures !r.requestSent ==> r.status != ObjectNameNotFound && r.status != NoSuchDevice
    ensures !r.requestSent && (openStatus == ObjectNameNotFound || openStatus == NoSuchDevice) ==>
              r.status == ServerDisabled
    ensures !r.requestSent && openStatus != ObjectNameNotFound && openStatus != NoSuchDevice ==>
              r.status == openStatus
  {
    var status :=
      if h.Open? then Success
      else if openStatus == ObjectNameNotFound || openStatus == NoSuchDevice then ServerDisabled
      else openStatus;
    if status != Success then Reply(status, Invalid, h.Invalid?, false)
    else Reply(ioctlStatus, Open, h.Invalid?, true)
  }

  /** A call together with the parameter block it sent. */
  datatype Call = Call(frame: Frame, reply: Reply, closedHandle: bool)

  /** SbieApi_CallZero: a frame holding only the code; a successful
      API_UNLOAD_DRIVER also closes the handle. */
  function CallZero(h: Handle, code: Word64, openStatus: Status, ioctlStatus: Status): (c: Call)
    ensures c.frame[0] == code
    ensures forall i :: 1 <= i < NumArgs ==> c.frame[i] == 0
    ensures c.reply.status == Ioctl(h, openStatus, ioctlStatus).status
    ensures c.closedHandle <==> code == ApiUnloadDriver && NtSuccess(c.reply.status)
    ensures c.closedHandle ==> c.reply.handle.Invalid?
    ensures !c.closedHandle ==> c.reply.handle == Ioctl(h, openStatus, ioctlStatus).handle
  {
    var r := Ioctl(h, openStatus, ioctlStatus);
    if NtSuccess(r.status) && code == ApiUnloadDriver then
      Call(CallFrame(code, []), r.(handle := Invalid), true)
    else
      Call(CallFrame(code, []), r, false)
  }

  /** SbieApi_CallOne, SbieApi_CallTwo and SbieApi_CallThree: the frame holds
      the code and the arguments; the handle is left as the call left it. */
  function CallArgs(h: Handle, code: Word64, args: seq<Word64>, openStatus: Status, ioctlStatus: Status): (c: Call)
    requires 1 <= |args| <= 3
    ensures c.frame[0] == code
    ensures forall i :: 1 <= i <= |args| ==> c.frame[i] == args[i - 1]
    ensures forall i :: |args| < i < NumArgs ==> c.frame[i] == 0
    ensures c.reply == Ioctl(h, openStatus, ioctlStatus) && !c.closedHandle
  {
    Call(CallFrame(code, args), Ioctl(h, openStatus, ioctlStatus), false)
  }

  /** The replies the OS and the driver give to one SbieApi_CallZero. */
  datatype Attempt = Attempt(code: Word64, openStatus: Status, ioctlStatus: Status)

  datatype Trace = Trace(statuses: seq<Status>, handle: Handle, opens: nat)

  /** A thread's successive SbieApi_CallZero calls, starting from handle h. */
  function RunCalls(h: Handle, calls: seq<Attempt>): (t: Trace)
    ensures |t.statuses| == |calls|
    decreases |calls|
  {
    if |calls| == 0 then Trace([], h, 0)
    else
      var c := CallZero(h, calls[0].code, calls[0].openStatus, calls[0].ioctlStatus);
      var rest := RunCalls(c.reply.handle, calls[1..]);
      Trace([c.reply.status] + rest.statuses, rest.handle, (if c.reply.openAttempted then 1 else 0) + rest.opens)
  }

  /** The device is absent: every open reports name-not-found or no-such-device. */
  predicate DeviceAbsent(calls: seq<Attempt>) {
    forall i :: 0 <= i < |calls| ==>
      calls[i].openStatus == ObjectNameNotFound || calls[i].openStatus == NoSuchDevice
  }

  /** With the driver absent, every call reports STATUS_SERVER_DISABLED, the
      handle stays invalid, and each call makes exactly one open attempt. */
  lemma {:induction false} DriverAbsentEveryCallDisabled(calls: seq<Attempt>)
    requires DeviceAbsent(calls)
    ensures var t := RunCalls(Invalid, calls);
      && (forall i :: 0 <= i < |calls| ==> t.statuses[i] == ServerDisabled)
      && t.handle.Invalid?
      && t.opens == |calls|
    decreases |calls|
  {
    if |calls| > 0 {
      assert DeviceAbsent(calls[1..]) by {
        forall i | 0 <= i < |calls[1..]| ensures
          calls[1..][i].openStatus == ObjectNameNotFound || calls[1..][i].openStatus == NoSuchDevice
        {
          assert calls[1..][i] == calls[i + 1];
        }
      }
      DriverAbsentEveryCallDisabled(calls[1..]);
    }
  }

  predicate NoUnload(calls: seq<Attempt>) {
    forall i :: 0 <= i < |calls| ==> calls[i].code != ApiUnloadDriver
  }

  /** Once the handle is open, calls that do not unload the driver never open
      the device again, keep the handle, and return the driver's replies. */
  lemma {:induction false} OpenHandleIsReused(calls: seq<Attempt>)
    requires NoUnload(calls)
    ensures var t := RunCalls(Open, calls);
      && (forall i :: 0 <= i < |calls| ==> t.statuses[i] == calls[i].ioctlStatus)
      && t.handle.Open?
      && t.opens == 0
    decreases |calls|
  {
    if |calls| > 0 {
      assert NoUnload(calls[1..]) by {
        forall i | 0 <= i < |calls[1..]| ensures calls[1..][i].code != ApiUnloadDriver {
          assert calls[1..][i] == calls[i + 1];
        }
      }
      OpenHandleIsReused(calls[1..]);
    }
  }

  /** Never more than one open attempt per call; a run that starts with an
      invalid handle (initially, or after a failed open) opens at least once. */
  lemma {:induction false} OpensPerCall(h: Handle, calls: seq<Attempt>)
    ensures RunCalls(h, calls).opens <= |calls|
    ensures h.Invalid? && |calls| > 0 ==> RunCalls(h, calls).opens >= 1
    decreases |calls|
  {
    if |calls| > 0 {
      OpensPerCall(CallZero(h, calls[0].code, calls[0].openStatus, calls[0].ioctlStatus).reply.handle, calls[1..]);
    }
  }
}
