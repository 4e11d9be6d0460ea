/** Sessions and whole-session views of code/app/bot_group.go.  The Site
    keeps one InteractiveSession per session id; id 0 is the production
    session.  `util.GetTimeNow()` is the parameter `now`; the mutex around
    the session map is not modelled. */
module BotGroupSession {
  import opened Wrappers
  import opened Data
  import opened Sorting
  import opened BotGroupLookup

  /** `GetProductionInteractiveControl`: session 0, a one-minute window
      starting now, not interactive. */
  function GetProductionInteractiveControl(now: Time): (c: InteractiveControl)
    ensures c.sessionUUID == 0 && !c.useInteractiveSession && !c.useInteractiveOverride
    ensures c.queryDuration == 60 * NanosPerSecond
    ensures c.queryStartTime == c.queryScrubTime == ToUnixMilli(now)
  {
    InteractiveControl(0, false, false, ToUnixMilli(now), 60 * 1_000_000_000, ToUnixMilli(now))
  }

  /** The session `GetInteractiveSession` returns and stores: the cached one
      for the control's id, or a new one over the loaded BotGroups, with its
      request time, query window and cache rules refreshed. */
  function SessionFor(sessions: map<nat, InteractiveSession>, loadedBotGroups: seq<BotGroup>,
                      control: InteractiveControl, now: Time): (s: InteractiveSession)
    ensures control.sessionUUID in sessions ==> (s.uuid == sessions[control.sessionUUID].uuid
      && s.botGroups == sessions[control.sessionUUID].botGroups)
    ensures control.sessionUUID !in sessions ==> s.uuid == control.sessionUUID && s.botGroups == loadedBotGroups
    ensures s.timeRequested == now && s.queryDuration == control.queryDuration
    ensures s.queryStartTime == UnixMilli(control.queryStartTime) && s.queryScrubTime == UnixMilli(control.queryScrubTime)
    ensures s.ignoreCacheOverInterval <==> control.sessionUUID == 0
    ensures s.ignoreCacheQueryMismatch <==> control.sessionUUID != 0
  {
    var base := if control.sessionUUID in sessions then sessions[control.sessionUUID]
                else InteractiveSession(control.sessionUUID, loadedBotGroups, ZeroTime, ZeroTime, 0, ZeroTime, false, false);
    var production := control.sessionUUID == 0;
    base.(timeRequested := now,
          queryStartTime := UnixMilli(control.queryStartTime),
          queryDuration := control.queryDuration,
          queryScrubTime := UnixMilli(control.queryScrubTime),
          ignoreCacheQueryMismatch := !production,
          ignoreCacheOverInterval := production)
  }

  /** Asking again for the same session keeps its BotGroups: a session's
      live Bots survive every later request. */
  lemma SessionKeepsBotGroups(sessions: map<nat, InteractiveSession>, loadedBotGroups: seq<BotGroup>,
                              control: InteractiveControl, now: Time, later: InteractiveControl, laterNow: Time,
                              laterLoaded: seq<BotGroup>)
    requires later.sessionUUID == control.sessionUUID
    ensures var first := SessionFor(sessions, loadedBotGroups, control, now);
      SessionFor(sessions[control.sessionUUID := first], laterLoaded, later, laterNow).botGroups == first.botGroups
  {
  }

  /** The production session's window starts within the millisecond of
      `now` and stale cache entries are refused for it. */
  lemma ProductionSessionWindow(sessions: map<nat, InteractiveSession>, loadedBotGroups: seq<BotGroup>, now: Time)
    ensures var s := SessionFor(sessions, loadedBotGroups, GetProductionInteractiveControl(now), now);
      s.queryStartTime <= now < s.queryStartTime + NanosPerMilli
      && s.ignoreCacheOverInterval && !s.ignoreCacheQueryMismatch && s.queryDuration == 60 * NanosPerSecond
  {
  }

  function GroupName(g: BotGroup): string
  {
    g.name
  }

  /** The BotGroup lookup of `GetBotGroup`. */
  function FindBotGroup(groups: seq<BotGroup>, botGroupName: string): (r: Result<BotGroup, BotGroupError>)
    ensures r.Err? <==> forall i :: 0 <= i < |groups| ==> groups[i].name != botGroupName
    ensures r.Err? ==> r.error == MissingBotGroup(botGroupName)
    ensures r.Ok? ==> exists i :: (0 <= i < |groups| && groups[i] == r.value && r.value.name == botGroupName
      && forall j :: 0 <= j < i ==> groups[j].name != botGroupName)
  {
    match FirstIndex(groups, GroupName, botGroupName)
    case None => Err(MissingBotGroup(botGroupName))
    case Some(i) => Ok(groups[i])
  }

  /** Every command result of the BotGroups, group by group and bot by
      bot, in history order. */
  function GroupsHistory(groups: seq<BotGroup>): seq<ConditionCommandResult>
    decreases |groups|
  {
    if |groups| == 0 then [] else GroupsHistory(groups[..|groups| - 1]) + BotsHistory(groups[|groups| - 1].bots)
  }

  function BotsHistory(bots: seq<Bot>): seq<ConditionCommandResult>
    decreases |bots|
  {
    if |bots| == 0 then [] else BotsHistory(bots[..|bots| - 1]) + bots[|bots| - 1].commandHistory
  }

  /** `sort.Slice` with `SliceReverse(Started.Before)`: newest first. */
  predicate StartedNoEarlier(a: ConditionCommandResult, b: ConditionCommandResult)
  {
    a.started >= b.started
  }

  lemma StartedNoEarlierTotalPreorder()
    ensures TotalPreorder(StartedNoEarlier)
  {
  }

  /** The loops of `GetCommandHistoryAll`: every command result of every
      Bot of every group, in order. */
  method CollectHistory(groups: seq<BotGroup>) returns (history: seq<ConditionCommandResult>)
    ensures history == GroupsHistory(groups)
  {
    history := [];
    for g := 0 to |groups|
      invariant history == GroupsHistory(groups[..g])
    {
      var bots := groups[g].bots;
      for b := 0 to |bots|
        invariant history == GroupsHistory(groups[..g]) + BotsHistory(bots[..b])
      {
        var commands := bots[b].commandHistory;
        for k := 0 to |commands|
          invariant history == GroupsHistory(groups[..g]) + BotsHistory(bots[..b]) + commands[..k]
        {
          assert commands[..k + 1] == commands[..k] + [commands[k]];
          history := history + [commands[k]];
        }
        assert commands[..|commands|] == commands;
        assert bots[..b + 1][..b] == bots[..b];
      }
      assert bots[..|bots|] == bots;
      assert groups[..g + 1][..g] == groups[..g];
    }
    assert groups[..|groups|] == groups;
  }

  /** `GetCommandHistoryAll`. */
  method GetCommandHistoryAll(session: InteractiveSession, count: int) returns (history: seq<ConditionCommandResult>)
    ensures SortedBy(history, StartedNoEarlier)
    ensures multiset(history) <= multiset(GroupsHistory(session.botGroups))
    ensures !(count > 0 && |GroupsHistory(session.botGroups)| > count) ==>
      multiset(history) == multiset(GroupsHistory(session.botGroups))
    ensures count > 0 && |GroupsHistory(session.botGroups)| > count ==> |history| == count
    ensures forall x, i :: x in multiset(GroupsHistory(session.botGroups)) - multiset(history) && 0 <= i < |history| ==>
      x.started <= history[i].started
  {
    var all := CollectHistory(session.botGroups);
    StartedNoEarlierTotalPreorder();
    var sorted := Sort(all, StartedNoEarlier);
    history := Truncate(sorted, count);
    NewestKept(sorted, history);
  }

  /** A prefix of a newest-first list keeps the newest entries. */
  lemma NewestKept(sorted: seq<ConditionCommandResult>, prefix: seq<ConditionCommandResult>)
    requires SortedBy(sorted, StartedNoEarlier)
    requires prefix <= sorted
    ensures multiset(prefix) <= multiset(sorted)
    ensures forall x, i :: x in multiset(sorted) - multiset(prefix) && 0 <= i < |prefix| ==> x.started <= prefix[i].started
  {
    var rest := sorted[|prefix|..];
    assert sorted == prefix + rest;
    assert multiset(sorted) == multiset(prefix) + multiset(rest);
    forall x, i | x in multiset(sorted) - multiset(prefix) && 0 <= i < |prefix|
      ensures x.started <= prefix[i].started
    {
      assert x in rest;
      var j :| 0 <= j < |rest| && rest[j] == x;
      assert sorted[|prefix| + j] == x;
    }
  }

  /** Every Bot of the groups with an empty command history, nothing else
      changed. */
  ghost predicate HistoriesCleared(before: seq<BotGroup>, after: seq<BotGroup>)
  {
    && |after| == |before|
    && forall i :: 0 <= i < |before| ==>
         && after[i].(bots := []) == before[i].(bots := [])
         && |after[i].bots| == |before[i].bots|
         && forall j :: 0 <= j < |before[i].bots| ==> after[i].bots[j] == before[i].bots[j].(commandHistory := [])
  }

  /** The clearing loops of `AdminClearCommandHistory`. */
  method ClearCommandHistories(groups: seq<BotGroup>) returns (cleared: seq<BotGroup>)
    ensures HistoriesCleared(groups, cleared)
    ensures GroupsHistory(cleared) == []
  {
    cleared := groups;
    for g := 0 to |groups|
      invariant |cleared| == |groups|
      invariant forall i :: 0 <= i < g ==> (cleared[i].(bots := []) == groups[i].(bots := [])
        && |cleared[i].bots| == |groups[i].bots|
        && forall j :: 0 <= j < |groups[i].bots| ==> cleared[i].bots[j] == groups[i].bots[j].(commandHistory := []))
      invariant cleared[g..] == groups[g..]
    {
      var bots := cleared[g].bots;
      for b := 0 to |bots|
        invariant |bots| == |groups[g].bots|
        invariant forall j :: 0 <= j < b ==> bots[j] == groups[g].bots[j].(commandHistory := [])
        invariant bots[b..] == groups[g].bots[b..]
      {
        assert bots[b] == bots[b..][0];
        bots := bots[b := bots[b].(commandHistory := [])];
      }
      assert cleared[g] == cleared[g..][0];
      cleared := cleared[g := cleared[g].(bots := bots)];
    }
    ClearedHasNoHistory(groups, cleared);
  }

  lemma {:induction false} ClearedHasNoHistory(groups: seq<BotGroup>, cleared: seq<BotGroup>)
    requires HistoriesCleared(groups, cleared)
    ensures GroupsHistory(cleared) == []
    decreases |groups|
  {
    if |groups| > 0 {
      var n := |groups| - 1;
      assert HistoriesCleared(groups[..n], cleared[..n]);
      ClearedHasNoHistory(groups[..n], cleared[..n]);
      BotsClearedHasNoHistory(groups[n].bots, cleared[n].bots);
    }
  }

  lemma {:induction false} BotsClearedHasNoHistory(bots: seq<Bot>, cleared: seq<Bot>)
    requires |cleared| == |bots|
    requires forall j :: 0 <= j < |bots| ==> cleared[j] == bots[j].(commandHistory := [])
    ensures BotsHistory(cleared) == []
    decreases |bots|
  {
    if |bots| > 0 {
      BotsClearedHasNoHistory(bots[..|bots| - 1], cleared[..|cleared| - 1]);
    }
  }

  /** The `InteractiveSessionCache` of a Site. */
  class InteractiveSessionCache {
    var sessions: map<nat, InteractiveSession>

    constructor ()
      ensures sessions == map[]
    {
      sessions := map[];
    }
  }

  /** The part of `data.Site` the session code uses. */
  class Site {
    const name: string
    const queryServers: seq<QueryServer>
    const loadedBotGroups: seq<BotGroup>
    const productionControl: InteractiveControl
    const sessionCache: InteractiveSessionCache

    /** The in-memory set-up `LoadSiteConfig` does once the configuration is
        decoded: the production control and an empty session map. */
    constructor (name: string, queryServers: seq<QueryServer>, loadedBotGroups: seq<BotGroup>, now: Time)
      ensures this.name == name && this.queryServers == queryServers && this.loadedBotGroups == loadedBotGroups
      ensures productionControl == GetProductionInteractiveControl(now)
      ensures fresh(sessionCache) && sessionCache.sessions == map[]
    {
      this.name := name;
      this.queryServers := queryServers;
      this.loadedBotGroups := loadedBotGroups;
      productionControl := GetProductionInteractiveControl(now);
      sessionCache := new InteractiveSessionCache();
    }

    /** `GetInteractiveSession`: the refreshed session, stored back under
        its id. */
    method GetInteractiveSession(control: InteractiveControl, now: Time) returns (session: InteractiveSession)
      modifies sessionCache
      ensures session == SessionFor(old(sessionCache.sessions), loadedBotGroups, control, now)
      ensures sessionCache.sessions == old(sessionCache.sessions)[control.sessionUUID := session]
    {
      var cached := control.sessionUUID in sessionCache.sessions;
      if !cached {
        session := InteractiveSession(control.sessionUUID, loadedBotGroups, ZeroTime, ZeroTime, 0, ZeroTime, false, false);
        sessionCache.sessions := sessionCache.sessions[control.sessionUUID := session];
      } else {
        session := sessionCache.sessions[control.sessionUUID];
      }
      session := session.(timeRequested := now,
                          queryStartTime := UnixMilli(control.queryStartTime),
                          queryDuration := control.queryDuration,
                          queryScrubTime := UnixMilli(control.queryScrubTime));
      if control.sessionUUID == 0 {
        session := session.(ignoreCacheQueryMismatch := false, ignoreCacheOverInterval := true);
      } else {
        session := session.(ignoreCacheOverInterval := false, ignoreCacheQueryMismatch := true);
      }
      sessionCache.sessions := sessionCache.sessions[control.sessionUUID := session];
    }

    /** `GetBotGroup`: refreshes the session, then finds the group in it. */
    method GetBotGroup(control: InteractiveControl, botGroupName: string, now: Time) returns (r: Result<BotGroup, BotGroupError>)
      modifies sessionCache
      ensures sessionCache.sessions == old(sessionCache.sessions)[control.sessionUUID :=
        SessionFor(old(sessionCache.sessions), loadedBotGroups, control, now)]
      ensures r == FindBotGroup(SessionFor(old(sessionCache.sessions), loadedBotGroups, control, now).botGroups, botGroupName)
    {
      var session := GetInteractiveSession(control, now);
      r := FindBotGroup(session.botGroups, botGroupName);
    }

    /** `AdminClearCommandHistory` as written: the demo check only logs, so
        the production session's histories are cleared in every case. */
    method AdminClearCommandHistoryAsWritten(enableDemo: bool, now: Time)
      modifies sessionCache
      ensures productionControl.sessionUUID in sessionCache.sessions
      ensures sessionCache.sessions == old(sessionCache.sessions)[productionControl.sessionUUID :=
        sessionCache.sessions[productionControl.sessionUUID]]
      ensures var s := SessionFor(old(sessionCache.sessions), loadedBotGroups, productionControl, now);
        productionControl.sessionUUID in sessionCache.sessions
        && sessionCache.sessions[productionControl.sessionUUID].(botGroups := []) == s.(botGroups := [])
        && HistoriesCleared(s.botGroups, sessionCache.sessions[productionControl.sessionUUID].botGroups)
        && GroupsHistory(sessionCache.sessions[productionControl.sessionUUID].botGroups) == []
    {
      var session := GetInteractiveSession(productionControl, now);
      var cleared := ClearCommandHistories(session.botGroups);
      sessionCache.sessions := sessionCache.sessions[productionControl.sessionUUID := session.(botGroups := cleared)];
    }

    /** `AdminClearCommandHistory` with the demo check returning early:
        nothing changes unless the demo is enabled. */
    method AdminClearCommandHistory(enableDemo: bool, now: Time)
      modifies sessionCache
      ensures !enableDemo ==> sessionCache.sessions == old(sessionCache.sessions)
      ensures enableDemo ==> productionControl.sessionUUID in sessionCache.sessions
      ensures enableDemo ==> sessionCache.sessions == old(sessionCache.sessions)[productionControl.sessionUUID :=
        sessionCache.sessions[productionControl.sessionUUID]]
      ensures enableDemo ==> var s := SessionFor(old(sessionCache.sessions), loadedBotGroups, productionControl, now);
        productionControl.sessionUUID in sessionCache.sessions
        && sessionCache.sessions[productionControl.sessionUUID].(botGroups := []) == s.(botGroups := [])
        && HistoriesCleared(s.botGroups, sessionCache.sessions[productionControl.sessionUUID].botGroups)
        && GroupsHistory(sessionCache.sessions[productionControl.sessionUUID].botGroups) == []
    {
      if !enableDemo {
        return;
      }
      var session := GetInteractiveSession(productionControl, now);
      var cleared := ClearCommandHistories(session.botGroups);
      sessionCache.sessions := sessionCache.sessions[productionControl.sessionUUID := session.(botGroups := cleared)];
    }
  }

  /** With the demo disabled, a production Bot with a command history loses
      it under the code as written. */
  lemma AdminClearAsWrittenCounterexample(bot: Bot, group: BotGroup, cleared: seq<BotGroup>)
    requires |bot.commandHistory| > 0 && group.bots == [bot]
    requires HistoriesCleared([group], cleared)
    ensures GroupsHistory([group]) != [] && GroupsHistory(cleared) == []
  {
    assert [group][..0] == [];
    assert BotsHistory([bot]) == bot.commandHistory by {
      assert [bot][..0] == [];
    }
    assert GroupsHistory([group]) == bot.commandHistory;
    ClearedHasNoHistory([group], cleared);
  }
}
