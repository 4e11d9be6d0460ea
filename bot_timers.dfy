/** Setting the lock timers of code/app/bot_group.go.  `SetLockTimer`
    ranges over `botGroup.LockTimers` by value, so its writes land on the
    loop copy and the BotGroup keeps its timers; the evidently intended
    behaviour writes the first timer with that name. */
module BotGroupTimers {
  import opened Wrappers
  import opened Data
  import opened BotGroupLookup

  function TimerName(t: BotLockTimer): string
  {
    t.name
  }

  /** `SetLockTimer` as written: the loop copy is updated and dropped. */
  method SetLockTimerAsWritten(timers: seq<BotLockTimer>, lockTimerName: string, duration: Duration, now: Time)
    returns (result: seq<BotLockTimer>)
    ensures result == timers
  {
    result := timers;
    for i := 0 to |timers|
      invariant result == timers
    {
      var lockTimer := timers[i];
      if lockTimer.name == lockTimerName {
        lockTimer := lockTimer.(isActive := true, timeout := now + duration);
        return;
      }
    }
  }

  /** The timers once the first one named `lockTimerName` is active until
      `now + duration`. */
  function LockTimersAfterSet(timers: seq<BotLockTimer>, lockTimerName: string, duration: Duration, now: Time): (r: seq<BotLockTimer>)
    ensures |r| == |timers|
    ensures forall j :: 0 <= j < |r| ==> r[j].name == timers[j].name
    ensures FirstIndex(timers, TimerName, lockTimerName).None? ==> r == timers
    ensures FirstIndex(timers, TimerName, lockTimerName).Some? ==>
      var k := FirstIndex(timers, TimerName, lockTimerName).value;
      r[k].isActive && r[k].timeout == now + duration && forall j :: 0 <= j < |r| && j != k ==> r[j] == timers[j]
  {
    match FirstIndex(timers, TimerName, lockTimerName)
    case None => timers
    case Some(k) => timers[k := timers[k].(isActive := true, timeout := now + duration)]
  }

  /** `SetLockTimer`, writing the timer in place. */
  method SetLockTimer(timers: seq<BotLockTimer>, lockTimerName: string, duration: Duration, now: Time)
    returns (result: seq<BotLockTimer>)
    ensures result == LockTimersAfterSet(timers, lockTimerName, duration, now)
  {
    result := timers;
    for i := 0 to |timers|
      invariant forall j :: 0 <= j < i ==> timers[j].name != lockTimerName
      invariant result == timers
    {
      if timers[i].name == lockTimerName {
        assert TimerName(timers[i]) == lockTimerName;
        assert FirstIndex(timers, TimerName, lockTimerName) == Some(i);
        result := timers[i := timers[i].(isActive := true, timeout := now + duration)];
        return;
      }
    }
  }

  lemma UnixSecondsMonotonic(a: Time, b: Time)
    requires a <= b
    ensures UnixSeconds(a) <= UnixSeconds(b)
  {
  }

  /** Once set for a non-negative duration, the timer reads as active now. */
  lemma SetLockTimerLocks(timers: seq<BotLockTimer>, lockTimerName: string, duration: Duration, now: Time)
    requires duration >= 0
    requires GetLockTimer(timers, lockTimerName, now).Ok?
    ensures GetLockTimer(LockTimersAfterSet(timers, lockTimerName, duration, now), lockTimerName, now).Ok?
    ensures GetLockTimer(LockTimersAfterSet(timers, lockTimerName, duration, now), lockTimerName, now).value.isActive
  {
    var r := LockTimersAfterSet(timers, lockTimerName, duration, now);
    var k := FirstIndex(timers, TimerName, lockTimerName);
    assert k.Some? by {
      var i :| 0 <= i < |timers| && timers[i].name == lockTimerName;
      assert TimerName(timers[i]) == lockTimerName;
    }
    UnixSecondsMonotonic(now, now + duration);
    var t := GetLockTimer(r, lockTimerName, now);
    var i :| 0 <= i < |r| && r[i].name == lockTimerName
      && (forall j :: 0 <= j < i ==> r[j].name != lockTimerName)
      && (t.value.isActive <==> r[i].isActive && UnixSeconds(now) <= UnixSeconds(r[i].timeout));
    assert i == k.value;
  }

  /** Setting one timer leaves what every other name reads unchanged. */
  lemma SetLockTimerOthersUnchanged(timers: seq<BotLockTimer>, lockTimerName: string, other: string,
                                    duration: Duration, now: Time, at: Time)
    requires other != lockTimerName
    ensures GetLockTimer(LockTimersAfterSet(timers, lockTimerName, duration, now), other, at) == GetLockTimer(timers, other, at)
  {
    var r := LockTimersAfterSet(timers, lockTimerName, duration, now);
    var f := FirstIndex(timers, TimerName, other);
    if f.Some? {
      var b := f.value;
      var k := FirstIndex(timers, TimerName, lockTimerName);
      assert k.Some? ==> k.value != b;
      assert r[b] == timers[b];
      assert forall j :: 0 <= j < b ==> timers[j].name != other by {
        assert forall j :: 0 <= j < b ==> TimerName(timers[j]) != other;
      }
      GetLockTimerIsFirst(r, other, at, b);
      GetLockTimerIsFirst(timers, other, at, b);
    } else {
      assert forall j :: 0 <= j < |timers| ==> timers[j].name != other by {
        assert forall j :: 0 <= j < |timers| ==> TimerName(timers[j]) != other;
      }
    }
  }

  /** What `GetLockTimer` reads off the first timer with the name. */
  lemma GetLockTimerIsFirst(timers: seq<BotLockTimer>, lockTimerName: string, now: Time, k: nat)
    requires k < |timers| && timers[k].name == lockTimerName
    requires forall j :: 0 <= j < k ==> timers[j].name != lockTimerName
    ensures GetLockTimer(timers, lockTimerName, now) ==
      var t := timers[k];
      Ok(if t.isActive && UnixSeconds(t.timeout) < UnixSeconds(now) then t.(isActive := false) else t)
  {
    var r := GetLockTimer(timers, lockTimerName, now);
    var i :| 0 <= i < |timers| && timers[i].name == lockTimerName
      && (forall j :: 0 <= j < i ==> timers[j].name != lockTimerName)
      && r.value.name == lockTimerName && r.value.timeout == timers[i].timeout
      && (r.value.isActive <==> timers[i].isActive && UnixSeconds(now) <= UnixSeconds(timers[i].timeout));
    assert i == k;
    var f := FirstIndex(timers, (t: BotLockTimer) => t.name, lockTimerName);
    assert f == Some(k) by {
      assert (k as int) < |timers|;
    }
  }

  /** The timers after setting each named one in turn. */
  function LockTimersAfterSetAll(timers: seq<BotLockTimer>, names: seq<string>, duration: Duration, now: Time): seq<BotLockTimer>
    decreases |names|
  {
    if |names| == 0 then timers
    else LockTimersAfterSetAll(LockTimersAfterSet(timers, names[0], duration, now), names[1..], duration, now)
  }

  /** `SetAllConditionLockTimers`. */
  method SetAllConditionLockTimers(condition: Condition, timers: seq<BotLockTimer>, duration: Duration, now: Time)
    returns (result: seq<BotLockTimer>)
    ensures result == LockTimersAfterSetAll(timers, condition.requiredLockTimers, duration, now)
  {
    var names := condition.requiredLockTimers;
    result := timers;
    for i := 0 to |names|
      invariant LockTimersAfterSetAll(timers, names, duration, now) == LockTimersAfterSetAll(result, names[i..], duration, now)
    {
      assert names[i..][1..] == names[i + 1..];
      result := SetLockTimer(result, names[i], duration, now);
    }
  }

  /** `SetAllConditionLockTimers` as written: every `SetLockTimer` call
      updates only its loop copy, so the BotGroup keeps its timers. */
  method SetAllConditionLockTimersAsWritten(condition: Condition, timers: seq<BotLockTimer>, duration: Duration, now: Time)
    returns (result: seq<BotLockTimer>)
    ensures result == timers
  {
    result := timers;
    for i := 0 to |condition.requiredLockTimers|
      invariant result == timers
    {
      result := SetLockTimerAsWritten(result, condition.requiredLockTimers[i], duration, now);
    }
  }

  /** After the Condition's timers are set for a non-negative duration,
      every one of them that exists reads as active now, so the Condition
      does not pass `AreAllConditionLockTimersAvailable` until they time
      out. */
  lemma {:induction false} SetAllLocksEach(timers: seq<BotLockTimer>, names: seq<string>, duration: Duration, now: Time, n: string)
    requires duration >= 0
    requires n in names
    requires GetLockTimer(timers, n, now).Ok?
    ensures GetLockTimer(LockTimersAfterSetAll(timers, names, duration, now), n, now).Ok?
    ensures GetLockTimer(LockTimersAfterSetAll(timers, names, duration, now), n, now).value.isActive
    decreases |names|
  {
    var next := LockTimersAfterSet(timers, names[0], duration, now);
    if names[0] == n {
      SetLockTimerLocks(timers, n, duration, now);
      KeepsActive(next, names[1..], duration, now, n);
    } else {
      SetLockTimerOthersUnchanged(timers, names[0], n, duration, now, now);
      SetAllLocksEach(next, names[1..], duration, now, n);
    }
  }

  /** A timer that reads as active stays so while further timers are set. */
  lemma {:induction false} KeepsActive(timers: seq<BotLockTimer>, names: seq<string>, duration: Duration, now: Time, n: string)
    requires duration >= 0
    requires GetLockTimer(timers, n, now).Ok? && GetLockTimer(timers, n, now).value.isActive
    ensures GetLockTimer(LockTimersAfterSetAll(timers, names, duration, now), n, now).Ok?
    ensures GetLockTimer(LockTimersAfterSetAll(timers, names, duration, now), n, now).value.isActive
    decreases |names|
  {
    if |names| > 0 {
      var next := LockTimersAfterSet(timers, names[0], duration, now);
      if names[0] == n {
        SetLockTimerLocks(timers, n, duration, now);
      } else {
        SetLockTimerOthersUnchanged(timers, names[0], n, duration, now, now);
      }
      KeepsActive(next, names[1..], duration, now, n);
    }
  }

  lemma SetAllBlocksCondition(condition: Condition, timers: seq<BotLockTimer>, duration: Duration, now: Time)
    requires duration >= 0
    requires |condition.requiredLockTimers| > 0
    requires GetLockTimer(timers, condition.requiredLockTimers[0], now).Ok?
    ensures !AreAllConditionLockTimersAvailable(condition, LockTimersAfterSetAll(timers, condition.requiredLockTimers, duration, now), now)
  {
    SetAllLocksEach(timers, condition.requiredLockTimers, duration, now, condition.requiredLockTimers[0]);
  }

  /** As written, setting a free timer leaves the Condition available. */
  lemma SetLockTimerAsWrittenCounterexample()
    ensures var timers := [BotLockTimer("deploy", false, 0)];
      var c := Condition("restart", 1.0, 0.0, 0, 0, ["deploy"], [], [], ConditionCommand("", 0, "", 0, [], []));
      AreAllConditionLockTimersAvailable(c, timers, 0)
      && !AreAllConditionLockTimersAvailable(c, LockTimersAfterSetAll(timers, c.requiredLockTimers, 60 * NanosPerSecond, 0), 0)
  {
    var timers := [BotLockTimer("deploy", false, 0)];
    var c := Condition("restart", 1.0, 0.0, 0, 0, ["deploy"], [], [], ConditionCommand("", 0, "", 0, [], []));
    GetLockTimerIsFirst(timers, "deploy", 0, 0);
    SetAllBlocksCondition(c, timers, 60 * NanosPerSecond, 0);
  }
}
