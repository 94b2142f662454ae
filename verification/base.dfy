/** Small shared vocabulary: optional values, NT status codes, wide C strings
    and the diagnostic log entries the service sends to the driver. */
module Base {

  /** A value that may be absent; also stands for a nullable pointer. */
  datatype Option<+T> = None | Some(value: T)

  /** The outcome of a step that either yields a value or an error code. */
  datatype Result<+R, +E> = Ok(value: R) | Err(error: E)
}

/** NTSTATUS values as the signed 32-bit integers the code compares them as. */
module NtStatus {

  type Status = s: int | -0x8000_0000 <= s < 0x8000_0000

  /** Reads a 32-bit pattern, as written in ntstatus.h, as a signed status. */
  function FromBits(u: nat): (s: Status)
    requires u < 0x1_0000_0000
    ensures s % 0x1_0000_0000 == u
  {
    if u < 0x8000_0000 then u else u - 0x1_0000_0000
  }

  const Success: Status := 0
  const NoSuchDevice: Status := FromBits(0xC000_000E)
  const BufferTooSmall: Status := FromBits(0xC000_0023)
  const ObjectNameNotFound: Status := FromBits(0xC000_0034)
  const ObjectPathNotFound: Status := FromBits(0xC000_003A)
  const ServerDisabled: Status := FromBits(0xC000_0080)
  const InsufficientResources: Status := FromBits(0xC000_009A)

  /** NT_SUCCESS: success and informational statuses have the sign bit clear. */
  predicate NtSuccess(s: Status) {
    s >= 0
  }
}

/** WCHAR strings. A string value is the content of a C string (no NUL inside);
    a buffer is a fixed-size WCHAR array whose C-string view ends at its first NUL. */
module WideStrings {
  import opened Base

  const Nul: char := '\0'

  predicate NoNul(s: string) {
    forall i :: 0 <= i < |s| ==> s[i] != Nul
  }

  /** The C-string view of a buffer: everything before the first NUL. */
  function CStr(buf: seq<char>): (r: string)
    ensures NoNul(r)
    ensures |r| <= |buf| && r == buf[..|r|]
    ensures |r| < |buf| ==> buf[|r|] == Nul
  {
    if |buf| == 0 || buf[0] == Nul then []
    else [buf[0]] + CStr(buf[1..])
  }

  /** At most the first n characters of s, as wcsncpy/wmemcpy with a count copy them. */
  function Truncate(s: string, n: nat): (r: string)
    ensures |r| <= n && |r| <= |s|
    ensures r == s[..|r|]
    ensures |s| <= n ==> r == s
  {
    if |s| <= n then s else s[..n]
  }

  function Zeros(n: nat): (r: seq<char>)
    ensures |r| == n
    ensures forall i :: 0 <= i < n ==> r[i] == Nul
  {
    seq(n, _ => Nul)
  }

  /** A string followed by a NUL reads back as itself, whatever follows. */
  lemma CStrOfTerminated(s: string, rest: seq<char>)
    requires NoNul(s)
    ensures CStr(s + [Nul] + rest) == s
  {
    var buf := s + [Nul] + rest;
    var r := CStr(buf);
    assert buf[|s|] == Nul;
    assert |r| <= |s| by {
      assert forall i :: 0 <= i < |r| ==> r[i] == buf[i] && r[i] != Nul;
    }
    assert buf[..|s|] == s;
  }

  /** A buffer that holds s and then a NUL reads back as s. */
  lemma CStrOfPrefix(buf: seq<char>, s: string)
    requires NoNul(s) && |s| < |buf|
    requires buf[..|s|] == s && buf[|s|] == Nul
    ensures CStr(buf) == s
  {
    assert buf == s + [Nul] + buf[|s| + 1..];
    CStrOfTerminated(s, buf[|s| + 1..]);
  }

  /** The C-string view stops at the first NUL at the latest. */
  lemma CStrBoundedByNul(buf: seq<char>, k: nat)
    requires k < |buf| && buf[k] == Nul
    ensures |CStr(buf)| <= k
  {
  }

  /** A zeroed buffer of `size` WCHARs into which at most `cap` characters of
      `name` are copied (nothing when the name pointer is NULL). */
  function FixedBuffer(name: Option<string>, cap: nat, size: nat): (r: seq<char>)
    requires cap < size
    requires name.Some? ==> NoNul(name.value)
    ensures |r| == size
    ensures forall i :: cap <= i < size ==> r[i] == Nul
    ensures forall i :: |CStr(r)| <= i < size ==> r[i] == Nul
    ensures CStr(r) == (if name.Some? then Truncate(name.value, cap) else [])
  {
    var t := if name.Some? then Truncate(name.value, cap) else [];
    var r := t + Zeros(size - |t|);
    assert r == t + [Nul] + Zeros(size - |t| - 1);
    CStrOfTerminated(t, Zeros(size - |t| - 1));
    r
  }
}

/** Diagnostic messages the service asks the driver to log (SbieApi_LogEx).
    The printf formatting is not modelled: each entry keeps the arguments of
    its format instead of the formatted text. */
module Diagnostics {

  datatype Detail =
    | ConvertSidFailed(lastError: nat)          // "[11 / %d]"
    | SetUserNameFailed(rc: int)                // "[33 / %08X]"
    | ProcessCancelled(name: string, pid: nat, reason: int)  // "%S [%d / %d]"
    | ProcessCancelledBare(name: string)        // the process name alone, passed as
                                                //   the format itself: a '%' in the
                                                //   name is not logged as written
    | HiveUnloadFailed(rc: int)                 // "[%08X]"

  datatype LogEntry = LogEntry(sessionId: int, msgId: nat, detail: Detail)
}
