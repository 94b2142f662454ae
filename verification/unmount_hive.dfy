/** DriverAssist::UnmountHive: when the last process of a box goes away, the
    service waits for it to end, checks that the box is empty, and unloads
    the box's registry hive, retrying while the hive is still in use. The
    OS and driver replies of every poll are parameters. */
module HiveUnmount {
  import opened Base
  import opened NtStatus
  import opened WideStrings
  import opened Diagnostics
  import opened Encoders

  const Msg2208: nat := 2208

  /** Bounds of the three retry loops. */
  const QueryRetries: nat := 20
  const EnumRetries: nat := 20
  const UnloadRetries: nat := 25

  /** Each retry sleeps this long; the first wait is at most WaitMs. */
  const SleepMs: nat := 100
  const WaitMs: nat := 2000

  /** The SVC_UNMOUNT_MSG fields the handler reads. */
  datatype UnmountMsg = UnmountMsg(sessionId: int, processId: nat, boxName: string)

  /** SbieApi_EnumProcessEx's status and the count it left in boxed_pids[0]. */
  datatype EnumReply = EnumReply(rc: Status, count: int)

  /** The replies to everything UnmountHive asks:
      OpenProcess and WaitForSingleObject on the last process;
      SbieApi_QueryProcess for each poll;
      the HeapAlloc of the pid buffer and SbieApi_EnumProcessEx for each poll;
      SbieApi_GetUnmountHive's status and the path it wrote;
      NtUnloadKey and the NtOpenKey re-check for each retry. */
  datatype HiveReplies = HiveReplies(
    processOpened: bool, waitResult: int,
    queryRcs: seq<Status>,
    pidsAllocated: bool, enumReplies: seq<EnumReply>,
    hiveRc: Status, hiveWritten: string,
    unloadRcs: seq<Status>, reopenRcs: seq<Status>)

  predicate ValidReplies(r: HiveReplies) {
    && |r.queryRcs| >= QueryRetries && |r.enumReplies| >= EnumRetries
    && |r.unloadRcs| >= UnloadRetries && |r.reopenRcs| >= UnloadRetries
    && NoNul(r.hiveWritten) && |r.hiveWritten| < 256
  }

  /** How many polls a loop of at most `limit` tries makes when it stops at
      the first hit, counting from poll k. */
  function Polls(hits: seq<bool>, limit: nat, k: nat): (n: nat)
    requires k <= limit <= |hits|
    ensures k <= n <= limit
    ensures k < limit ==> n > k
    ensures forall j :: k <= j < n - 1 ==> !hits[j]
    ensures n < limit ==> hits[n - 1]
    ensures (exists j :: k <= j < limit && hits[j]) <==> n > k && hits[n - 1]
    decreases limit - k
  {
    if k == limit then k
    else if hits[k] then k + 1
    else Polls(hits, limit, k + 1)
  }

  /** The loop ended on a hit rather than by running out of tries. */
  predicate StoppedOnHit(hits: seq<bool>, n: nat)
    requires n <= |hits|
  {
    n > 0 && hits[n - 1]
  }

  /** Polls that were not hits, each followed by a Sleep(100). */
  function PollSleeps(hits: seq<bool>, n: nat): nat
    requires n <= |hits|
  {
    if StoppedOnHit(hits, n) then n - 1 else n
  }

  /** SbieApi_QueryProcess failing means the process is gone. */
  function ProcessGone(rcs: seq<Status>): (hits: seq<bool>)
    ensures |hits| == |rcs| && forall j :: 0 <= j < |rcs| ==> (hits[j] <==> rcs[j] != 0)
  {
    seq(|rcs|, j requires 0 <= j < |rcs| => rcs[j] != 0)
  }

  /** The enumeration succeeded and reported no process in the box. */
  predicate BoxEmpty(e: EnumReply) {
    e.rc == 0 && AfterCall(EnumProcessEx, e.rc, [Word(e.count)], CallContext(0, 0))[0].n == 0
  }

  function BoxEmptyHits(replies: seq<EnumReply>): (hits: seq<bool>)
    ensures |hits| == |replies| && forall j :: 0 <= j < |replies| ==> (hits[j] <==> BoxEmpty(replies[j]))
  {
    seq(|replies|, j requires 0 <= j < |replies| => BoxEmpty(replies[j]))
  }

  /** The re-check found the hive key gone. */
  predicate KeyGone(rc: Status) {
    rc == ObjectNameNotFound || rc == ObjectPathNotFound
  }

  /** The unload retries: attempts made, the final value of `rc`, and how
      many Sleep(100) calls they made. */
  datatype UnloadResult = UnloadResult(attempts: nat, rc: Status, sleeps: nat)

  /** The unload loop as the source writes it: the NtOpenKey re-check stores
      its status in the same `rc` the unload status was kept in. */
  function UnloadAsWritten(unloads: seq<Status>, reopens: seq<Status>, k: nat): (u: UnloadResult)
    requires k < UnloadRetries <= |unloads| && UnloadRetries <= |reopens|
    ensures k < u.attempts <= UnloadRetries && u.sleeps == u.attempts - (if u.rc == 0 && unloads[u.attempts - 1] == 0 then 1 else 0)
    ensures forall j :: k <= j < u.attempts - 1 ==> unloads[j] != 0 && !KeyGone(reopens[j])
    ensures u.rc == 0 ==> unloads[u.attempts - 1] == 0 || reopens[u.attempts - 1] == 0
    ensures u.rc != 0 ==> unloads[u.attempts - 1] != 0 && u.rc == reopens[u.attempts - 1]
    decreases UnloadRetries - k
  {
    if unloads[k] == 0 then UnloadResult(k + 1, 0, k)
    else if KeyGone(reopens[k]) || k == UnloadRetries - 1 then UnloadResult(k + 1, reopens[k], k + 1)
    else UnloadAsWritten(unloads, reopens, k + 1)
  }

  /** The unload loop with the re-check's status kept apart, so that `rc`
      still holds the last unload status when the loop ends. */
  function UnloadCorrected(unloads: seq<Status>, reopens: seq<Status>, k: nat): (u: UnloadResult)
    requires k < UnloadRetries <= |unloads| && UnloadRetries <= |reopens|
    ensures k < u.attempts <= UnloadRetries
    ensures forall j :: k <= j < u.attempts - 1 ==> unloads[j] != 0 && !KeyGone(reopens[j])
    ensures u.rc == unloads[u.attempts - 1]
    ensures u.rc != 0 && u.attempts < UnloadRetries ==> KeyGone(reopens[u.attempts - 1])
    ensures u.sleeps == (if u.rc == 0 then u.attempts - 1 else u.attempts)
    ensures u.rc != 0 <==> forall j :: k <= j < u.attempts ==> unloads[j] != 0
    decreases UnloadRetries - k
  {
    if unloads[k] == 0 then UnloadResult(k + 1, 0, k)
    else if KeyGone(reopens[k]) || k == UnloadRetries - 1 then UnloadResult(k + 1, unloads[k], k + 1)
    else UnloadCorrected(unloads, reopens, k + 1)
  }

  /** A poll loop of the source's shape: `for (retries = 0; retries < limit;
      ++retries) { if (hit) break; Sleep(100); }`, counting the polls. */
  method PollLoop(hits: seq<bool>, limit: nat) returns (n: nat)
    requires limit <= |hits|
    ensures n == Polls(hits, limit, 0)
  {
    n := 0;
    while n < limit
      invariant n <= limit
      invariant Polls(hits, limit, n) == Polls(hits, limit, 0)
    {
      if hits[n] {
        return n + 1;
      }
      n := n + 1;
    }
  }

  /** The unload loop in the source's own shape, one `rc` for both calls. */
  method UnloadLoopAsWritten(unloads: seq<Status>, reopens: seq<Status>) returns (attempts: nat, rc: Status)
    requires UnloadRetries <= |unloads| && UnloadRetries <= |reopens|
    ensures attempts == UnloadAsWritten(unloads, reopens, 0).attempts
    ensures rc == UnloadAsWritten(unloads, reopens, 0).rc
  {
    var retries := 0;
    rc := 0;
    while retries < UnloadRetries
      invariant retries <= UnloadRetries
      invariant retries < UnloadRetries ==> UnloadAsWritten(unloads, reopens, retries) == UnloadAsWritten(unloads, reopens, 0)
      invariant retries == UnloadRetries ==>
                  rc == UnloadAsWritten(unloads, reopens, 0).rc && UnloadAsWritten(unloads, reopens, 0).attempts == UnloadRetries
    {
      rc := unloads[retries];
      if rc == 0 {
        return retries + 1, rc;
      }
      rc := reopens[retries];
      if KeyGone(rc) {
        return retries + 1, rc;
      }
      if retries < UnloadRetries - 1 {
        assert UnloadAsWritten(unloads, reopens, retries) == UnloadAsWritten(unloads, reopens, retries + 1);
      }
      retries := retries + 1;
    }
    attempts := retries;
  }

  /** The unload loop with the re-check's status in a variable of its own. */
  method UnloadLoopCorrected(unloads: seq<Status>, reopens: seq<Status>) returns (attempts: nat, rc: Status)
    requires UnloadRetries <= |unloads| && UnloadRetries <= |reopens|
    ensures attempts == UnloadCorrected(unloads, reopens, 0).attempts
    ensures rc == UnloadCorrected(unloads, reopens, 0).rc
  {
    var retries := 0;
    rc := 0;
    while retries < UnloadRetries
      invariant retries <= UnloadRetries
      invariant retries < UnloadRetries ==> UnloadCorrected(unloads, reopens, retries) == UnloadCorrected(unloads, reopens, 0)
      invariant retries == UnloadRetries ==>
                  rc == UnloadCorrected(unloads, reopens, 0).rc && UnloadCorrected(unloads, reopens, 0).attempts == UnloadRetries
    {
      rc := unloads[retries];
      if rc == 0 {
        return retries + 1, rc;
      }
      var openRc := reopens[retries];
      if KeyGone(openRc) {
        return retries + 1, rc;
      }
      if retries < UnloadRetries - 1 {
        assert UnloadCorrected(unloads, reopens, retries) == UnloadCorrected(unloads, reopens, retries + 1);
      }
      retries := retries + 1;
    }
    attempts := retries;
  }

  /** As written, when every unload fails but the hive key can still be
      opened, `rc` ends as the re-check's 0 and the failure goes unlogged. */
  lemma {:induction false} AsWrittenHidesFailure(unloads: seq<Status>, reopens: seq<Status>, k: nat)
    requires k < UnloadRetries <= |unloads| && UnloadRetries <= |reopens|
    requires forall j :: k <= j < UnloadRetries ==> unloads[j] != 0 && reopens[j] == 0
    ensures UnloadAsWritten(unloads, reopens, k).attempts == UnloadRetries
    ensures UnloadAsWritten(unloads, reopens, k).rc == 0
    decreases UnloadRetries - k
  {
    assert unloads[k] != 0 && !KeyGone(reopens[k]);
    if k < UnloadRetries - 1 {
      AsWrittenHidesFailure(unloads, reopens, k + 1);
    }
  }

  /** The concrete case: an unload refused 25 times (STATUS_ACCESS_DENIED)
      on a hive that stays openable. */
  lemma HiveStaysMountedSilently()
    ensures var unloads := seq(UnloadRetries, _ => FromBits(0xC000_0022));
      var reopens := seq(UnloadRetries, _ => Success);
      var asWritten := UnloadAsWritten(unloads, reopens, 0);
      var corrected := UnloadCorrected(unloads, reopens, 0);
      && asWritten.rc == 0 && corrected.rc != 0
      && (forall j :: 0 <= j < UnloadRetries ==> unloads[j] != 0)
  {
    var unloads := seq(UnloadRetries, _ => FromBits(0xC000_0022));
    var reopens := seq(UnloadRetries, _ => Success);
    AsWrittenHidesFailure(unloads, reopens, 0);
  }

  /** What one unmount request did. */
  datatype UnmountOutcome = UnmountOutcome(
    ended: bool,            // the wait saw the process end
    queryPolls: nat,        // SbieApi_QueryProcess calls
    enumPolls: nat,         // SbieApi_EnumProcessEx calls
    shouldUnmount: bool,    // the box was seen empty
    hive: Option<string>,   // the hive path the unload loop worked on
    unloadAttempts: nat,    // NtUnloadKey calls
    sleeps: nat,            // Sleep(100) calls
    logs: seq<LogEntry>)

  /** The path SbieApi_GetUnmountHive leaves in root_path. */
  function HivePath(r: HiveReplies): (p: string)
    ensures NtSuccess(r.hiveRc) ==> p == r.hiveWritten
    ensures !NtSuccess(r.hiveRc) ==> p == []
  {
    AfterCall(GetUnmountHive, r.hiveRc, [Text(r.hiveWritten)], CallContext(0, 0))[0].s
  }

  /** The first phase: the wait on the last process, and when it did not
      see the process end, the SbieApi_QueryProcess polls. */
  datatype Waited = Waited(ended: bool, polls: nat, sleeps: nat)

  function WaitForExit(r: HiveReplies): (w: Waited)
    requires ValidReplies(r)
    ensures w.ended <==> r.processOpened && r.waitResult == 0
    ensures w.ended ==> w.polls == 0 && w.sleeps == 0
    ensures !w.ended ==> 1 <= w.polls <= QueryRetries
    ensures !w.ended ==> forall j :: 0 <= j < w.polls - 1 ==> r.queryRcs[j] == 0
    ensures !w.ended && w.polls < QueryRetries ==> r.queryRcs[w.polls - 1] != 0
    ensures w.sleeps <= w.polls
  {
    var gone := ProcessGone(r.queryRcs);
    if r.processOpened && r.waitResult == 0 then Waited(true, 0, 0)
    else
      var n := Polls(gone, QueryRetries, 0);
      Waited(false, n, PollSleeps(gone, n))
  }

  /** The second phase: SbieApi_EnumProcessEx polls until the box is seen
      empty, when the pid buffer could be allocated. */
  datatype Checked = Checked(polls: nat, empty: bool, sleeps: nat)

  function CheckBoxEmpty(r: HiveReplies): (c: Checked)
    requires ValidReplies(r)
    ensures !r.pidsAllocated ==> c.polls == 0 && !c.empty
    ensures r.pidsAllocated ==> 1 <= c.polls <= EnumRetries
    ensures r.pidsAllocated ==> forall j :: 0 <= j < c.polls - 1 ==> !BoxEmpty(r.enumReplies[j])
    ensures c.empty <==> r.pidsAllocated && exists j :: 0 <= j < EnumRetries && BoxEmpty(r.enumReplies[j])
    ensures c.empty ==> BoxEmpty(r.enumReplies[c.polls - 1])
    ensures c.sleeps <= c.polls
  {
    var empty := BoxEmptyHits(r.enumReplies);
    if !r.pidsAllocated then Checked(0, false, 0)
    else
      var n := Polls(empty, EnumRetries, 0);
      Checked(n, StoppedOnHit(empty, n), PollSleeps(empty, n))
  }

  /** The third phase, when the box was seen empty: fetch the hive path and,
      if there is one, run the unload retries and log 2208 on failure. */
  function UnloadHive(msg: UnmountMsg, r: HiveReplies): (o: (Option<string>, UnloadResult, seq<LogEntry>))
    requires ValidReplies(r)
    ensures o.0.Some? <==> HivePath(r) != []
    ensures o.0.Some? ==> o.0.value == r.hiveWritten && NtSuccess(r.hiveRc)
    ensures o.0.None? ==> o.1 == UnloadResult(0, 0, 0) && o.2 == []
    ensures o.0.Some? ==> 1 <= o.1.attempts <= UnloadRetries && o.1.sleeps <= UnloadRetries
    ensures o.0.Some? ==> forall j :: 0 <= j < o.1.attempts - 1 ==> r.unloadRcs[j] != 0
    ensures o.0.Some? ==> ((forall j :: 0 <= j < o.1.attempts ==> r.unloadRcs[j] != 0) <==> o.2 != [])
    ensures o.2 != [] ==> o.2 == [LogEntry(msg.sessionId, Msg2208, HiveUnloadFailed(o.1.rc))] && o.1.rc != 0
  {
    var path := HivePath(r);
    if path == [] then (None, UnloadResult(0, 0, 0), [])
    else
      var u := UnloadCorrected(r.unloadRcs, r.reopenRcs, 0);
      (Some(path), u, if u.rc != 0 then [LogEntry(msg.sessionId, Msg2208, HiveUnloadFailed(u.rc))] else [])
  }

  /** DriverAssist::UnmountHive, with the unload loop as corrected. */
  function UnmountHive(msg: UnmountMsg, r: HiveReplies): (o: UnmountOutcome)
    requires ValidReplies(r)
    ensures o.ended <==> r.processOpened && r.waitResult == 0
    ensures o.ended ==> o.queryPolls == 0
    ensures !o.ended ==> (1 <= o.queryPolls <= QueryRetries
              && (forall j :: 0 <= j < o.queryPolls - 1 ==> r.queryRcs[j] == 0)
              && (o.queryPolls < QueryRetries ==> r.queryRcs[o.queryPolls - 1] != 0))
    ensures !r.pidsAllocated ==> o.enumPolls == 0 && !o.shouldUnmount
    ensures r.pidsAllocated ==> (1 <= o.enumPolls <= EnumRetries
              && (forall j :: 0 <= j < o.enumPolls - 1 ==> !BoxEmpty(r.enumReplies[j])))
    ensures o.shouldUnmount <==> r.pidsAllocated && exists j :: 0 <= j < EnumRetries && BoxEmpty(r.enumReplies[j])
    ensures o.shouldUnmount ==> o.enumPolls >= 1 && BoxEmpty(r.enumReplies[o.enumPolls - 1])
    ensures o.hive.Some? <==> o.shouldUnmount && HivePath(r) != []
    ensures o.hive.Some? ==> o.hive.value == r.hiveWritten && NtSuccess(r.hiveRc)
    ensures o.hive.None? ==> o.unloadAttempts == 0 && o.logs == []
    ensures o.hive.Some? ==> (1 <= o.unloadAttempts <= UnloadRetries
              && (forall j :: 0 <= j < o.unloadAttempts - 1 ==> r.unloadRcs[j] != 0))
    ensures o.hive.Some? ==>
              ((forall j :: 0 <= j < o.unloadAttempts ==> r.unloadRcs[j] != 0) <==> |o.logs| == 1)
    ensures |o.logs| <= 1
    ensures forall e :: e in o.logs ==>
              e.sessionId == msg.sessionId && e.msgId == Msg2208 && e.detail.HiveUnloadFailed? && e.detail.rc != 0
    ensures o.sleeps <= QueryRetries + EnumRetries + UnloadRetries
  {
    var w := WaitForExit(r);
    var c := CheckBoxEmpty(r);
    if c.empty then
      var u := UnloadHive(msg, r);
      UnmountOutcome(w.ended, w.polls, c.polls, true, u.0, u.1.attempts, w.sleeps + c.sleeps + u.1.sleeps, u.2)
    else
      UnmountOutcome(w.ended, w.polls, c.polls, false, None, 0, w.sleeps + c.sleeps, [])
  }

  /** The handler never waits longer than the first wait plus one sleep
      per retry of the three loops: 2 s + 6.5 s. */
  lemma UnmountTimeBounded(msg: UnmountMsg, r: HiveReplies)
    requires ValidReplies(r)
    ensures WaitMs + SleepMs * UnmountHive(msg, r).sleeps <= 8500
  {
  }

  /** The last process could not be waited on and is seen gone at the sixth
      poll: five sleeps precede it and the box check starts right after. */
  lemma GoneAtSixthPoll(msg: UnmountMsg, r: HiveReplies)
    requires ValidReplies(r) && !r.pidsAllocated && !r.processOpened
    requires forall j :: 0 <= j < 5 ==> r.queryRcs[j] == 0
    requires r.queryRcs[5] != 0
    ensures UnmountHive(msg, r).queryPolls == 6
    ensures UnmountHive(msg, r).sleeps == 5
  {
  }

  /** The box is first seen empty at the sixth enumeration: six polls, five
      sleeps, and the unmount goes ahead. */
  lemma EmptyAtSixthEnumeration(msg: UnmountMsg, r: HiveReplies)
    requires ValidReplies(r) && r.pidsAllocated
    requires forall j :: 0 <= j < 5 ==> !BoxEmpty(r.enumReplies[j])
    requires BoxEmpty(r.enumReplies[5])
    ensures CheckBoxEmpty(r) == Checked(6, true, 5)
    ensures UnmountHive(msg, r).shouldUnmount && UnmountHive(msg, r).enumPolls == 6
  {
  }

  /** A box that is never seen empty is never unmounted, and nothing is logged. */
  lemma BusyBoxKeepsHive(msg: UnmountMsg, r: HiveReplies)
    requires ValidReplies(r)
    requires forall j :: 0 <= j < EnumRetries ==> !BoxEmpty(r.enumReplies[j])
    ensures var o := UnmountHive(msg, r);
      !o.shouldUnmount && o.hive.None? && o.unloadAttempts == 0 && o.logs == []
  {
  }
}
