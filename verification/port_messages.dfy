/** The messages the driver posts to the service's LPC port, how
    DriverAssist::MsgWorkerThread decodes them and picks a handler, and the
    empty message ShutdownPortAndThreads posts to wake each listener. */
module PortMessages {
  import opened Base

  type Byte = b: int | 0 <= b < 0x100

  /** LPC_DATAGRAM, the type NtRequestPort messages arrive with. */
  const LpcDatagram: nat := 3

  /** sizeof(ULONG): the message id in front of the payload. */
  const UlongBytes: nat := 4

  /** A PORT_MESSAGE as received: its header fields, and the bytes the port
      delivered after the header. The receive buffer is VirtualAlloc'ed, so
      everything past the delivered bytes reads as zero. */
  datatype PortMessage = PortMessage(dataLength: nat, totalLength: nat, msgType: nat, data: seq<Byte>)

  /** The service message ids of core/svc/msgids.h, which is not part of this
      model; the dispatcher is stated for any table of them. */
  datatype MsgIds = MsgIds(
    lookupSid: nat, injectProcess: nat, cancelProcess: nat,
    unmountHive: nat, logMessage: nat, restartHostInjectedSvcs: nat)

  datatype Handler =
    | LookupSid | InjectLow | CancelProcess | UnmountHive | LogMessage | RestartHostInjectedSvcs

  function IdOf(ids: MsgIds, h: Handler): nat {
    match h
    case LookupSid => ids.lookupSid
    case InjectLow => ids.injectProcess
    case CancelProcess => ids.cancelProcess
    case UnmountHive => ids.unmountHive
    case LogMessage => ids.logMessage
    case RestartHostInjectedSvcs => ids.restartHostInjectedSvcs
  }

  /** The ids name six different messages, each fitting in a ULONG. */
  predicate Distinct(ids: MsgIds) {
    && (forall h1: Handler, h2: Handler :: h1 != h2 ==> IdOf(ids, h1) != IdOf(ids, h2))
    && (forall h: Handler :: IdOf(ids, h) < 0x1_0000_0000)
  }

  /** The handler to run and the bytes its message structure starts at. */
  datatype Dispatch = Dispatch(handler: Handler, payload: seq<Byte>)

  function ByteAt(data: seq<Byte>, i: nat): Byte {
    if i < |data| then data[i] else 0
  }

  /** The little-endian ULONG at the start of the data. */
  function MessageId(data: seq<Byte>): nat {
    ByteAt(data, 0) + 0x100 * ByteAt(data, 1) + 0x1_0000 * ByteAt(data, 2) + 0x100_0000 * ByteAt(data, 3)
  }

  /** The if/else-if chain over the message id. */
  function HandlerFor(ids: MsgIds, msgid: nat): Option<Handler> {
    if msgid == ids.lookupSid then Some(LookupSid)
    else if msgid == ids.injectProcess then Some(InjectLow)
    else if msgid == ids.cancelProcess then Some(CancelProcess)
    else if msgid == ids.unmountHive then Some(UnmountHive)
    else if msgid == ids.logMessage then Some(LogMessage)
    else if msgid == ids.restartHostInjectedSvcs then Some(RestartHostInjectedSvcs)
    else None
  }

  /** DriverAssist::MsgWorkerThread: the handler a message runs, if any. */
  function Decode(m: PortMessage, ids: MsgIds): (r: Option<Dispatch>)
    ensures m.msgType != LpcDatagram || m.dataLength < UlongBytes ==> r.None?
    ensures r.Some? ==> IdOf(ids, r.value.handler) == MessageId(m.data)
    ensures r.Some? ==> r.value.payload == (if |m.data| >= UlongBytes then m.data[UlongBytes..] else [])
  {
    if m.msgType != LpcDatagram || m.dataLength < UlongBytes then None
    else
      match HandlerFor(ids, MessageId(m.data))
      case None => None
      case Some(h) => Some(Dispatch(h, if |m.data| >= UlongBytes then m.data[UlongBytes..] else []))
  }

  /** With distinct ids, a message runs handler h exactly when it is a
      datagram with room for the id and carries h's id. */
  lemma DecodeRunsHandlerIff(m: PortMessage, ids: MsgIds, h: Handler)
    requires Distinct(ids)
    ensures (Decode(m, ids).Some? && Decode(m, ids).value.handler == h) <==>
            (m.msgType == LpcDatagram && m.dataLength >= UlongBytes && MessageId(m.data) == IdOf(ids, h))
  {
  }

  /** An id outside the table runs no handler. */
  lemma UnknownIdRunsNothing(m: PortMessage, ids: MsgIds)
    requires forall h: Handler :: MessageId(m.data) != IdOf(ids, h)
    ensures Decode(m, ids).None?
  {
  }

  function LittleEndian(n: nat): (b: seq<Byte>)
    requires n < 0x1_0000_0000
    ensures |b| == UlongBytes
  {
    var q1 := n / 0x100;
    var q2 := q1 / 0x100;
    [n % 0x100, q1 % 0x100, q2 % 0x100, q2 / 0x100]
  }

  /** The datagram the driver posts for handler h with a given payload;
      `headerSize` is sizeof(PORT_MESSAGE). */
  function Encode(ids: MsgIds, h: Handler, payload: seq<Byte>, headerSize: nat): (m: PortMessage)
    requires Distinct(ids)
    ensures m.msgType == LpcDatagram && m.dataLength == UlongBytes + |payload|
    ensures m.totalLength == headerSize + m.dataLength
  {
    PortMessage(UlongBytes + |payload|, headerSize + UlongBytes + |payload|, LpcDatagram,
                LittleEndian(IdOf(ids, h)) + payload)
  }

  /** Decoding a posted datagram runs its handler on its payload. */
  lemma DecodeEncode(ids: MsgIds, h: Handler, payload: seq<Byte>, headerSize: nat)
    requires Distinct(ids)
    ensures Decode(Encode(ids, h, payload, headerSize), ids) == Some(Dispatch(h, payload))
  {
  }

  /** The wake message: a zeroed buffer of `bufferLen` bytes whose header
      claims TotalLength = sizeof(PORT_MESSAGE), so DataLength stays 0. */
  function WakeMessage(headerSize: nat, bufferLen: nat): (m: PortMessage)
    requires headerSize <= bufferLen
    ensures m.totalLength == headerSize && m.dataLength == 0
    ensures forall i :: 0 <= i < |m.data| ==> m.data[i] == 0
  {
    PortMessage(0, headerSize, 0, seq(bufferLen - headerSize, _ => 0))
  }

  /** What a listener receives for a posted message: the port stamps the
      message type and carries DataLength bytes of data. */
  function Deliver(m: PortMessage, stampedType: nat): (d: PortMessage)
    ensures d.dataLength == m.dataLength && d.totalLength == m.totalLength && d.msgType == stampedType
    ensures |d.data| <= m.dataLength && |d.data| <= |m.data| && d.data == m.data[..|d.data|]
  {
    var n := if m.dataLength <= |m.data| then m.dataLength else |m.data|;
    PortMessage(m.dataLength, m.totalLength, stampedType, m.data[..n])
  }

  /** The messages ShutdownPortAndThreads posts: one wake message per
      listener thread, none when the port handle was already cleared. */
  function ShutdownWakes(portOpen: bool, threads: nat, headerSize: nat, bufferLen: nat): (ms: seq<PortMessage>)
    requires headerSize <= bufferLen
    ensures |ms| == (if portOpen then threads else 0)
    ensures forall i :: 0 <= i < |ms| ==> ms[i].dataLength == 0 && ms[i].totalLength == headerSize
  {
    if portOpen then seq(threads, _ => WakeMessage(headerSize, bufferLen)) else []
  }

  /** However the port stamps it, a wake message runs no handler. */
  lemma WakeRunsNoHandler(portOpen: bool, threads: nat, headerSize: nat, bufferLen: nat, ids: MsgIds, stampedType: nat)
    requires headerSize <= bufferLen
    ensures forall m :: m in ShutdownWakes(portOpen, threads, headerSize, bufferLen) ==>
              Decode(Deliver(m, stampedType), ids).None?
  {
  }
}
