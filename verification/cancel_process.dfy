/** DriverAssist::CancelProcess: the driver asks the service to terminate a
    process; the service kills it only if the process still alive under that
    id is the one the driver meant, and always logs message 2314. */
module Cancellation {
  import opened Diagnostics

  const Msg2314: nat := 2314

  /** The SVC_PROCESS_MSG fields the handler reads; `createTime` is the
      creation FILETIME as a 64-bit count. */
  datatype ProcessMsg = ProcessMsg(sessionId: int, processId: nat, createTime: nat, reason: int, processName: string)

  /** What the OS answers: OpenProcess succeeded, GetProcessTimes succeeded,
      and the creation time of the process now holding the id. */
  datatype ProcessReplies = ProcessReplies(processOpened: bool, timesOk: bool, liveCreateTime: nat)

  datatype CancelOutcome = CancelOutcome(terminated: bool, log: LogEntry)

  /** The process holding the id is the one the message names. */
  predicate SameProcess(msg: ProcessMsg, p: ProcessReplies) {
    p.processOpened && p.timesOk && p.liveCreateTime == msg.createTime
  }

  /** DriverAssist::CancelProcess. */
  function CancelProcess(msg: ProcessMsg, p: ProcessReplies): (o: CancelOutcome)
    ensures o.terminated <==> SameProcess(msg, p)
    ensures o.log.sessionId == msg.sessionId && o.log.msgId == Msg2314
    ensures msg.reason != 0 ==> o.log.detail == ProcessCancelled(msg.processName, msg.processId, msg.reason)
    ensures msg.reason == 0 ==> o.log.detail == ProcessCancelledBare(msg.processName)
  {
    var terminated := p.processOpened && p.timesOk && p.liveCreateTime == msg.createTime;
    var detail := if msg.reason != 0 then ProcessCancelled(msg.processName, msg.processId, msg.reason)
                  else ProcessCancelledBare(msg.processName);
    CancelOutcome(terminated, LogEntry(msg.sessionId, Msg2314, detail))
  }

  /** A process id reused by a process created at another time is never
      terminated. */
  lemma ReusedIdIsSpared(msg: ProcessMsg, p: ProcessReplies)
    requires p.liveCreateTime != msg.createTime
    ensures !CancelProcess(msg, p).terminated
  {
  }
}
