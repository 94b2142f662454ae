/** The parameter block every driver call carries: API_NUM_ARGS 64-bit slots,
    slot 0 holding the function code. */
module CallFrames {

  const NumArgs: nat := 8

  type Word64 = x: int | 0 <= x < 0x1_0000_0000_0000_0000

  type Frame = f: seq<Word64> | |f| == NumArgs witness [0, 0, 0, 0, 0, 0, 0, 0]

  /** The frame after memzero(parms, sizeof(parms)). */
  const ZeroFrame: Frame := [0, 0, 0, 0, 0, 0, 0, 0]

  /** Function codes of core/drv/api_defs.h, which is not part of this model:
      the values below are distinct stand-ins, and nothing here depends on
      them beyond their distinctness. */
  const ApiEnumProcesses: Word64 := 1
  const ApiHookTramp: Word64 := 2
  const ApiQueryConf: Word64 := 3
  const ApiReloadConf: Word64 := 4
  const ApiUnloadDriver: Word64 := 5
  const ApiMonitorPut: Word64 := 6
  const ApiMonitorPut2: Word64 := 7

  /** One assignment `parms[slot] = value`. */
  datatype Store = Store(slot: nat, value: Word64)

  predicate InFrame(ws: seq<Store>) {
    forall k :: 0 <= k < |ws| ==> ws[k].slot < NumArgs
  }

  /** No assignment of `ws` targets slot i. */
  predicate Untouched(ws: seq<Store>, i: nat) {
    forall k :: 0 <= k < |ws| ==> ws[k].slot != i
  }

  /** No later assignment of `ws` overwrites the k-th one. */
  predicate LastStoreTo(ws: seq<Store>, k: nat)
    requires k < |ws|
  {
    forall k' :: k < k' < |ws| ==> ws[k'].slot != ws[k].slot
  }

  /** The frame left by executing the assignments `ws` in order on `base`. */
  function Fill(base: Frame, ws: seq<Store>): (r: Frame)
    requires InFrame(ws)
    ensures forall i :: 0 <= i < NumArgs && Untouched(ws, i) ==> r[i] == base[i]
    ensures forall k :: 0 <= k < |ws| && LastStoreTo(ws, k) ==> r[ws[k].slot] == ws[k].value
    decreases |ws|
  {
    if |ws| == 0 then base
    else
      var init := ws[..|ws| - 1];
      var last := ws[|ws| - 1];
      assert forall k :: 0 <= k < |init| && LastStoreTo(ws, k) ==> LastStoreTo(init, k);
      assert forall i :: 0 <= i < NumArgs && Untouched(ws, i) ==> Untouched(init, i);
      Fill(base, init)[last.slot := last.value]
  }

  /** parms[0] = api_code; parms[1..] = the arguments, in order. */
  function CodeAndArgs(code: Word64, args: seq<Word64>): (ws: seq<Store>)
    requires |args| < NumArgs
    ensures |ws| == |args| + 1 && InFrame(ws)
  {
    [Store(0, code)] + seq(|args|, i requires 0 <= i < |args| => Store(i + 1, args[i]))
  }

  /** The frame SbieApi_CallZero .. SbieApi_CallThree build: zeroed, then
      code and arguments stored. */
  function CallFrame(code: Word64, args: seq<Word64>): (r: Frame)
    requires |args| < NumArgs
    ensures r[0] == code
    ensures forall i :: 1 <= i <= |args| ==> r[i] == args[i - 1]
    ensures forall i :: |args| < i < NumArgs ==> r[i] == 0
  {
    var ws := CodeAndArgs(code, args);
    assert LastStoreTo(ws, 0);
    assert forall i :: 1 <= i <= |args| ==> ws[i].slot == i && ws[i].value == args[i - 1] && LastStoreTo(ws, i);
    assert forall i :: |args| < i < NumArgs ==> Untouched(ws, i);
    var r := Fill(ZeroFrame, ws);
    assert forall i :: 1 <= i <= |args| ==> r[ws[i].slot] == ws[i].value;
    assert forall i :: 1 <= i <= |args| ==> r[i] == args[i - 1] by {
      forall i | 1 <= i <= |args| ensures r[i] == args[i - 1] {
        assert ws[i].slot == i;
      }
    }
    r
  }
}
