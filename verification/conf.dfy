/** Configuration queries of SbieApi: SbieApi_QueryConf with its fixed-size
    name buffers, SbieApi_QueryConfBool, the box enumeration of
    SbieApi_EnumBoxesEx, and the device-name buffer of
    SbieApi_CheckInternetAccess. */
module Conf {
  import opened Base
  import opened NtStatus
  import opened WideStrings
  import opened Encoders

  /** wcsncpy(x_section, section_name, 64) into a zeroed WCHAR[66]. */
  const NameCap: nat := 64
  const NameBufferLen: nat := 66

  /** What SbieApi_QueryConf hands the driver and leaves the caller. */
  datatype ConfQuery = ConfQuery(section: seq<char>, setting: seq<char>, output: Out)

  /** SbieApi_QueryConf. `written` is the output buffer as the driver left it. */
  function QueryConfCall(section: Option<string>, setting: Option<string>, bufferLen: nat,
                         status: Status, written: Out): (q: ConfQuery)
    requires section.Some? ==> NoNul(section.value)
    requires setting.Some? ==> NoNul(setting.value)
    requires bufferLen > 2 ==> !written.Null?
    ensures |q.section| == NameBufferLen && |q.setting| == NameBufferLen
    ensures q.section[64] == Nul && q.section[65] == Nul
    ensures q.setting[64] == Nul && q.setting[65] == Nul
    ensures CStr(q.section) == (if section.Some? then Truncate(section.value, NameCap) else [])
    ensures CStr(q.setting) == (if setting.Some? then Truncate(setting.value, NameCap) else [])
    ensures NtSuccess(status) ==> q.output == written
    ensures !NtSuccess(status) && bufferLen > 2 ==> q.output == Clear(written)
    ensures !NtSuccess(status) && bufferLen <= 2 ==> q.output == written
  {
    var outs := AfterCall(QueryConf, status, [written], CallContext(0, bufferLen));
    ConfQuery(FixedBuffer(section, NameCap, NameBufferLen), FixedBuffer(setting, NameCap, NameBufferLen), outs[0])
  }

  /** The value buffer of SbieApi_QueryConfBool is WCHAR[16]. */
  const BoolValueBytes: nat := 32

  /** SbieApi_QueryConfBool. `written` is the value the driver returns. */
  function QueryConfBool(status: Status, written: string, def: bool): (b: bool)
    ensures NtSuccess(status) && |written| > 0 && written[0] in {'y', 'Y'} ==> b
    ensures NtSuccess(status) && |written| > 0 && written[0] in {'n', 'N'} ==> !b
    ensures !NtSuccess(status) || |written| == 0 || written[0] !in {'y', 'Y', 'n', 'N'} ==> b == def
  {
    var value := AfterCall(QueryConf, status, [Text(written)], CallContext(0, BoolValueBytes))[0].s;
    if |value| > 0 && (value[0] == 'y' || value[0] == 'Y') then true
    else if |value| > 0 && (value[0] == 'n' || value[0] == 'N') then false
    else def
  }

  /** SbieApi_EnumBoxesEx passes a WCHAR[34] box-name buffer. */
  const BoxNameBytes: nat := 68

  /** The replies to one iteration of SbieApi_EnumBoxesEx: QueryConf's status,
      the name the driver wrote, and IsBoxEnabled's status for that name. */
  datatype BoxReply = BoxReply(rc: Status, written: string, enabledStatus: Status)

  /** The box name after QueryConf: what the driver wrote, or empty on failure. */
  function NameAfter(reply: BoxReply): (name: string)
    ensures NtSuccess(reply.rc) ==> name == reply.written
    ensures !NtSuccess(reply.rc) ==> name == []
  {
    AfterCall(QueryConf, reply.rc, [Text(reply.written)], CallContext(0, BoxNameBytes))[0].s
  }

  /** The loop goes on past this reply. */
  predicate Skipped(reply: BoxReply, returnAll: bool) {
    || reply.rc == BufferTooSmall
    || (NameAfter(reply) != [] && !returnAll && reply.enabledStatus != Success)
  }

  /** SbieApi_EnumBoxesEx. replies[k] answers the k-th query, for index + k + 1.
      The source loops until a reply ends it; `None` stands for the replies
      running out first. `queries` counts the QueryConf calls made. */
  method EnumBoxesEx(index: int, returnAll: bool, replies: seq<BoxReply>) returns (r: Option<int>, queries: nat)
    ensures queries <= |replies|
    ensures r.None? ==> queries == |replies|
    ensures r.Some? ==> queries >= 1 && !Skipped(replies[queries - 1], returnAll)
    ensures forall k :: 0 <= k < queries && (r.None? || k < queries - 1) ==> Skipped(replies[k], returnAll)
    ensures r.Some? && NameAfter(replies[queries - 1]) == [] ==> r.value == -1
    ensures r.Some? && NameAfter(replies[queries - 1]) != [] ==>
              r.value == index + queries && r.value > index
              && (returnAll || replies[queries - 1].enabledStatus == Success)
  {
    var i := index;
    queries := 0;
    while queries < |replies|
      invariant queries <= |replies|
      invariant i == index + queries
      invariant forall k :: 0 <= k < queries ==> Skipped(replies[k], returnAll)
    {
      var reply := replies[queries];
      i := i + 1;
      queries := queries + 1;
      if reply.rc == BufferTooSmall {
        continue;
      }
      var name := NameAfter(reply);
      if name == [] {
        return Some(-1), queries;
      }
      if returnAll || reply.enabledStatus == Success {
        return Some(i), queries;
      }
    }
    return None, queries;
  }

  /** SbieApi_CheckInternetAccess copies at most 32 characters of the device
      name into a zeroed WCHAR[34]. */
  function DeviceNameBuffer(deviceName: string): (buf: seq<char>)
    requires NoNul(deviceName)
    ensures |buf| == 34 && buf[32] == Nul && buf[33] == Nul
    ensures CStr(buf) == Truncate(deviceName, 32)
  {
    FixedBuffer(Some(deviceName), 32, 34)
  }
}
