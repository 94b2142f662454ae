/** DriverAssist::LookupSid and DriverAssist::LookupSid2: the service resolves
    a SID string to a user name and hands it to the driver with
    SbieApi_SetUserName. The Win32 calls are not run; their replies are
    parameters. */
module SidLookup {
  import opened Base
  import opened NtStatus
  import opened WideStrings
  import opened Diagnostics

  const Msg2209: nat := 2209

  /** ERROR_NONE_MAPPED, the one LookupAccountSid failure that triggers the fallback. */
  const NoneMapped: nat := 1332

  /** REG_SZ. */
  const RegSz: nat := 1

  /** `WCHAR username[256]`, of which 256 - 4 = 252 characters are offered. */
  const UserNameChars: nat := 256
  const UserNameLen: nat := 252

  /** Reported when no name could be found. */
  const Placeholder: string := "*?*?*?*"

  /** Appended to the SID string to name the per-user Explorer key under HKEY_USERS. */
  const ExplorerSuffix: string := "\\Software\\Microsoft\\Windows\\CurrentVersion\\Explorer"

  /** The SVC_LOOKUP_SID_MSG fields the handler reads. */
  datatype SidMsg = SidMsg(sessionId: int, sidString: string)

  /** ConvertStringSidToSid's result and GetLastError after it. */
  datatype ConvertReply = ConvertReply(ok: bool, lastError: nat)

  /** LookupAccountSid's result, GetLastError after it, and the name it wrote. */
  datatype AccountReply = AccountReply(ok: bool, lastError: nat, name: string)

  /** A successful LookupAccountSid writes a name and its NUL within the
      252 characters it was offered. */
  predicate AccountReplyValid(a: AccountReply) {
    a.ok ==> NoNul(a.name) && |a.name| < UserNameLen
  }

  /** What LookupSid2's calls return: the key-path allocation, RegOpenKeyEx,
      RegQueryValueEx with the value type and the characters it wrote. */
  datatype RegistryReply = RegistryReply(allocOk: bool, openRc: int, queryRc: int, valueType: nat, data: seq<char>)

  /** RegQueryValueEx writes at most the byte count it is given. */
  predicate RegistryReplyValid(g: RegistryReply, byteLen: nat) {
    g.queryRc == 0 ==> 2 * |g.data| <= byteLen
  }

  /** The first |s| characters of buf overwritten by s. */
  function Put(buf: seq<char>, s: seq<char>): (r: seq<char>)
    requires |s| <= |buf|
    ensures |r| == |buf| && r[..|s|] == s && r[|s|..] == buf[|s|..]
  {
    s + buf[|s|..]
  }

  /** LookupSid2's effect: the key it opened, if it got as far as opening
      one, and the user-name buffer afterwards. */
  datatype ProfileLookup = ProfileLookup(keyPath: Option<string>, buffer: seq<char>)

  /** DriverAssist::LookupSid2. `userNameLen` is passed to RegQueryValueEx
      as the byte count of the buffer. */
  function LookupSid2(sidString: string, buf: seq<char>, userNameLen: nat, g: RegistryReply): (p: ProfileLookup)
    requires |buf| > 0
    requires RegistryReplyValid(g, userNameLen) && userNameLen <= 2 * |buf|
    ensures |p.buffer| == |buf|
    ensures p.keyPath == (if g.allocOk then Some(sidString + ExplorerSuffix) else None)
    ensures !g.allocOk || g.openRc != 0 ==> p.buffer == buf
    ensures g.allocOk && g.openRc == 0 && g.queryRc == 0 && g.valueType == RegSz ==>
              p.buffer[..|g.data|] == g.data && p.buffer[|g.data|..] == buf[|g.data|..]
    ensures g.allocOk && g.openRc == 0 && (g.queryRc != 0 || g.valueType != RegSz) ==>
              p.buffer[0] == Nul && p.buffer[1..] == (if g.queryRc == 0 then Put(buf, g.data) else buf)[1..]
  {
    if !g.allocOk then ProfileLookup(None, buf)
    else
      var keyPath := sidString + ExplorerSuffix;
      if g.openRc != 0 then ProfileLookup(Some(keyPath), buf)
      else
        var written := if g.queryRc == 0 then Put(buf, g.data) else buf;
        if g.queryRc != 0 || g.valueType != RegSz then ProfileLookup(Some(keyPath), written[0 := Nul])
        else ProfileLookup(Some(keyPath), written)
  }

  /** What one LookupSid message caused: whether the registry fallback ran
      and the key it opened, the name passed to SbieApi_SetUserName (none if
      the SID string did not convert), and the messages logged. */
  datatype SidOutcome = SidOutcome(fallbackRan: bool, keyPath: Option<string>, reported: Option<string>, logs: seq<LogEntry>)

  /** The user-name buffer just before it is reported. `stale` is what the
      uninitialised stack array held. */
  function NameBuffer(sidString: string, account: AccountReply, g: RegistryReply, stale: seq<char>): (buf: seq<char>)
    requires |stale| == UserNameChars
    requires AccountReplyValid(account) && RegistryReplyValid(g, UserNameLen)
    ensures |buf| == UserNameChars && buf[UserNameLen] == Nul && buf[0] != Nul
    ensures account.ok && account.name != [] ==>
              buf[..|account.name|] == account.name && buf[|account.name|] == Nul
    ensures !(!account.ok && account.lastError == NoneMapped) && (!account.ok || account.name == []) ==>
              buf[..|Placeholder|] == Placeholder && buf[|Placeholder|] == Nul
  {
    var buf0 := stale[0 := Nul];
    var buf1 := if account.ok then Put(buf0, account.name + [Nul]) else buf0;
    var fallback := !account.ok && account.lastError == NoneMapped;
    var buf2 := if fallback then LookupSid2(sidString, buf1[0 := Nul], UserNameLen, g).buffer else buf1;
    var found := if fallback then buf2[0] != Nul else account.ok;
    var buf3 := if !found || buf2[0] == Nul then Put(buf2, Placeholder + [Nul]) else buf2;
    buf3[UserNameLen := Nul]
  }

  /** DriverAssist::LookupSid. `setRc` is SbieApi_SetUserName's status. */
  function LookupSid(msg: SidMsg, convert: ConvertReply, account: AccountReply, g: RegistryReply,
                     stale: seq<char>, setRc: Status): (o: SidOutcome)
    requires |stale| == UserNameChars
    requires AccountReplyValid(account) && RegistryReplyValid(g, UserNameLen)
    ensures !convert.ok ==> o == SidOutcome(false, None, None, [LogEntry(msg.sessionId, Msg2209, ConvertSidFailed(convert.lastError))])
    ensures o.fallbackRan <==> convert.ok && !account.ok && account.lastError == NoneMapped
    ensures o.keyPath.Some? ==> o.fallbackRan && o.keyPath.value == msg.sidString + ExplorerSuffix
    ensures convert.ok ==> o.reported.Some? && 0 < |o.reported.value| <= UserNameLen && NoNul(o.reported.value)
    ensures convert.ok ==> o.logs == (if setRc != 0 then [LogEntry(msg.sessionId, Msg2209, SetUserNameFailed(setRc))] else [])
    ensures convert.ok && account.ok && account.name != [] ==> o.reported == Some(account.name)
    ensures convert.ok && (account.ok || !o.fallbackRan) && account.name == [] ==> o.reported == Some(Placeholder)
    ensures convert.ok && !account.ok && !o.fallbackRan ==> o.reported == Some(Placeholder)
  {
    if !convert.ok then SidOutcome(false, None, None, [LogEntry(msg.sessionId, Msg2209, ConvertSidFailed(convert.lastError))])
    else
      var fallback := !account.ok && account.lastError == NoneMapped;
      var buf := NameBuffer(msg.sidString, account, g, stale);
      var name := CStr(buf);
      assert |name| <= UserNameLen by { CStrBoundedByNul(buf, UserNameLen); }
      assert account.ok && account.name != [] ==> name == account.name by {
        if account.ok && account.name != [] { CStrOfPrefix(buf, account.name); }
      }
      assert !fallback && (!account.ok || account.name == []) ==> name == Placeholder by {
        if !fallback && (!account.ok || account.name == []) { CStrOfPrefix(buf, Placeholder); }
      }
      var keyPath := if fallback && g.allocOk then Some(msg.sidString + ExplorerSuffix) else None;
      SidOutcome(fallback, keyPath, Some(name),
                 if setRc != 0 then [LogEntry(msg.sessionId, Msg2209, SetUserNameFailed(setRc))] else [])
  }

  /** The registry fallback succeeds: Explorer's "Logon User Name" is a
      terminated REG_SZ value v, and v is the name reported. */
  lemma RegistryNameReported(msg: SidMsg, account: AccountReply, g: RegistryReply,
                             stale: seq<char>, setRc: Status, v: string, pad: seq<char>)
    requires |stale| == UserNameChars && AccountReplyValid(account) && RegistryReplyValid(g, UserNameLen)
    requires !account.ok && account.lastError == NoneMapped
    requires g.allocOk && g.openRc == 0 && g.queryRc == 0 && g.valueType == RegSz
    requires g.data == v + [Nul] + pad && v != [] && NoNul(v)
    ensures var o := LookupSid(msg, ConvertReply(true, 0), account, g, stale, setRc);
      o.fallbackRan && o.keyPath == Some(msg.sidString + ExplorerSuffix) && o.reported == Some(v)
  {
    var buf0 := stale[0 := Nul];
    var p := LookupSid2(msg.sidString, buf0[0 := Nul], UserNameLen, g);
    assert p.buffer[..|g.data|] == g.data;
    assert p.buffer[0] == v[0] != Nul;
    var buf := NameBuffer(msg.sidString, account, g, stale);
    assert buf == p.buffer[UserNameLen := Nul];
    assert buf[..|v|] == v && buf[|v|] == Nul by {
      assert |v| < |g.data| <= 126;
      assert forall i :: 0 <= i <= |v| ==> buf[i] == p.buffer[i] == g.data[i];
    }
    CStrOfPrefix(buf, v);
  }

  /** The fallback ran but produced no name (no allocation, no key, no
      value, not a string, or an empty one): the placeholder is reported. */
  lemma RegistryMissReportsPlaceholder(msg: SidMsg, account: AccountReply, g: RegistryReply,
                                       stale: seq<char>, setRc: Status)
    requires |stale| == UserNameChars && AccountReplyValid(account) && RegistryReplyValid(g, UserNameLen)
    requires !account.ok && account.lastError == NoneMapped
    requires !(g.allocOk && g.openRc == 0 && g.queryRc == 0 && g.valueType == RegSz && g.data != [] && g.data[0] != Nul)
    ensures LookupSid(msg, ConvertReply(true, 0), account, g, stale, setRc).reported == Some(Placeholder)
  {
    var buf0 := stale[0 := Nul];
    var p := LookupSid2(msg.sidString, buf0[0 := Nul], UserNameLen, g);
    assert p.buffer[0] == Nul;
    var buf := NameBuffer(msg.sidString, account, g, stale);
    assert buf[..|Placeholder|] == Placeholder && buf[|Placeholder|] == Nul;
    CStrOfPrefix(buf, Placeholder);
  }

  /** A REG_SZ value stored without its NUL is read on into whatever the
      uninitialised array held, up to the forced NUL at index 252. */
  lemma UnterminatedValueRunsIntoStaleBuffer()
    ensures var g := RegistryReply(true, 0, 0, RegSz, "ab");
      var o := LookupSid(SidMsg(1, "S-1-5-21"), ConvertReply(true, 0), AccountReply(false, NoneMapped, []),
                         g, seq(UserNameChars, _ => 'x'), 0);
      o.reported.Some? && |o.reported.value| == UserNameLen && o.reported.value[..2] == "ab"
  {
  }
}
