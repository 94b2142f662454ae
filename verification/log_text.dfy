/** SbieApi_Log2199: the length check and text layout of message 2199,
    "<box name> <path>", sent with session id -1. */
module LogText {
  import opened Base
  import opened NtStatus

  const Msg2199: nat := 2199

  /** The UNICODE_STRING64 descriptor and arguments of an API_LOG_MESSAGE call. */
  datatype LogRequest = LogRequest(sessionId: int, msgId: nat, text: string, length: nat, maximumLength: nat)

  /** `len = (wcslen(Dll_BoxName) + wcslen(path) + 4) * sizeof(WCHAR)`, stored in a ULONG. */
  function AllocBytes(boxName: string, path: string): nat {
    ((|boxName| + |path| + 4) * 2) % 0x1_0000_0000
  }

  /** `(USHORT)wcslen(tmp) * sizeof(WCHAR)` stored in the USHORT Length. */
  function UshortByteLength(chars: nat): nat {
    ((chars % 0x1_0000) * 2) % 0x1_0000
  }

  /** The request SbieApi_Log2199 sends, or the status it returns without
      calling the driver. `maxLen` is API_LOG_MESSAGE_MAX_LEN. */
  function Log2199(boxName: string, path: string, maxLen: nat): (r: Result<LogRequest, Status>)
    ensures r.Err? <==> AllocBytes(boxName, path) >= maxLen
    ensures r.Err? ==> r.error == InsufficientResources
    ensures r.Ok? ==> r.value.sessionId == -1 && r.value.msgId == Msg2199
    ensures r.Ok? ==> |r.value.text| == |boxName| + 1 + |path|
    ensures r.Ok? ==> r.value.text[..|boxName|] == boxName && r.value.text[|boxName|] == ' '
                      && r.value.text[|boxName| + 1..] == path
  {
    if AllocBytes(boxName, path) < maxLen then
      var text := boxName + [' '] + path;
      var length := UshortByteLength(|text|);
      Ok(LogRequest(-1, Msg2199, text, length, (length + 2) % 0x1_0000))
    else
      Err(InsufficientResources)
  }

  /** When the sizes stay far from the ULONG and USHORT limits (always, for an
      NT path), the descriptor describes the whole text, and the text with its
      terminator fits in the allocation the check admitted. */
  lemma Log2199Fits(boxName: string, path: string, maxLen: nat)
    requires maxLen <= 0x1_0000
    requires Log2199(boxName, path, maxLen).Ok?
    requires |boxName| + |path| + 4 < 0x8000_0000
    ensures var q := Log2199(boxName, path, maxLen).value;
      && q.length == 2 * |q.text|
      && q.maximumLength == q.length + 2
      && q.maximumLength < AllocBytes(boxName, path) < maxLen
  {
  }

  /** Reads a 2199 text back: the box name runs to the first space. */
  function SplitAtSpace(text: string): (parts: (string, string))
    ensures ' ' !in parts.0
    ensures ' ' in text ==> text == parts.0 + [' '] + parts.1
    ensures ' ' !in text ==> parts == (text, [])
  {
    if |text| == 0 then ([], [])
    else if text[0] == ' ' then ([], text[1..])
    else
      var rest := SplitAtSpace(text[1..]);
      assert ' ' in text ==> ' ' in text[1..] by {
        if ' ' in text {
          var j :| 0 <= j < |text| && text[j] == ' ';
          assert text[1..][j - 1] == ' ';
        }
      }
      assert ' ' in text[1..] ==> ' ' in text by {
        if ' ' in text[1..] {
          var j :| 0 <= j < |text[1..]| && text[1..][j] == ' ';
          assert text[j + 1] == ' ';
        }
      }
      assert text == [text[0]] + text[1..];
      ([text[0]] + rest.0, rest.1)
  }

  /** Box names contain no spaces, so the text of message 2199 splits back
      into the box name and the path. */
  lemma {:induction false} Log2199TextRoundTrip(boxName: string, path: string, maxLen: nat)
    requires ' ' !in boxName
    requires Log2199(boxName, path, maxLen).Ok?
    ensures SplitAtSpace(Log2199(boxName, path, maxLen).value.text) == (boxName, path)
  {
    SplitPrefix(boxName, path);
  }

  lemma {:induction false} SplitPrefix(head: string, tail: string)
    requires ' ' !in head
    ensures SplitAtSpace(head + [' '] + tail) == (head, tail)
    decreases |head|
  {
    if |head| > 0 {
      var text := head + [' '] + tail;
      assert text[0] == head[0] != ' ';
      assert text[1..] == head[1..] + [' '] + tail;
      SplitPrefix(head[1..], tail);
      assert head == [head[0]] + head[1..];
    } else {
      assert head + [' '] + tail == [' '] + tail;
    }
  }
}
