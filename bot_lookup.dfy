/** The lookups of code/app/bot_group.go: first-by-name searches over a
    Site's or a BotGroup's configuration, the search of a Bot's command
    history, required-state checks and lock timers.  Each Go `error` is a
    `BotGroupError` naming what was missing; `util.GetTimeNow()` is the
    parameter `now`. */
module BotGroupLookup {
  import opened Wrappers
  import opened Data

  datatype BotGroupError =
    | MissingQueryServer(serverName: string)
    | MissingQuery(groupName: string, queryName: string)
    | MissingCondition(groupName: string, conditionName: string)
    | MissingVariable(groupName: string, variableName: string)
    | MissingConsideration(considerationName: string)
    | MissingForwardSequenceState(stateName: string)
    | MissingStateBase(stateBase: string)
    | MissingState(state: string)
    | MissingLabel(stateLabel: string)
    | MissingValue(value: string)
    | EarlierLabel(target: string, targetIndex: int, current: string, currentIndex: int)
    | MissingLockTimer(lockTimerName: string)
    | MissingBot(groupName: string, botName: string)
    | MissingBotGroup(groupName: string)
    | NeverRun(conditionName: string)
    | NotRunSinceTimeout(conditionName: string)
    | NotInHistory(conditionName: string)

  /** Position of the first element whose key is `k`: the shape of every
      `for _, x := range xs { if x.Name == name { return x, nil } }`. */
  function FirstIndex<T>(s: seq<T>, key: T -> string, k: string): (r: Option<nat>)
    ensures r.None? <==> forall i :: 0 <= i < |s| ==> key(s[i]) != k
    ensures r.Some? ==> r.value < |s| && key(s[r.value]) == k
    ensures r.Some? ==> forall j :: 0 <= j < r.value ==> key(s[j]) != k
  {
    if |s| == 0 then None
    else if key(s[0]) == k then Some(0)
    else match FirstIndex(s[1..], key, k)
      case None => None
      case Some(i) => Some(i + 1)
  }

  /** `GetQueryServer` (scope: the Site). */
  function GetQueryServer(servers: seq<QueryServer>, name: string): (r: Result<QueryServer, BotGroupError>)
    ensures r.Err? <==> forall i :: 0 <= i < |servers| ==> servers[i].name != name
    ensures r.Err? ==> r.error == MissingQueryServer(name)
    ensures r.Ok? ==> exists i :: (0 <= i < |servers| && servers[i] == r.value && r.value.name == name
      && forall j :: 0 <= j < i ==> servers[j].name != name)
  {
    match FirstIndex(servers, (q: QueryServer) => q.name, name)
    case None => Err(MissingQueryServer(name))
    case Some(i) => Ok(servers[i])
  }

  /** `GetQuery` (scope: the BotGroup). */
  function GetQuery(group: BotGroup, queryName: string): (r: Result<BotQuery, BotGroupError>)
    ensures r.Err? <==> forall i :: 0 <= i < |group.queries| ==> group.queries[i].name != queryName
    ensures r.Err? ==> r.error == MissingQuery(group.name, queryName)
    ensures r.Ok? ==> exists i :: (0 <= i < |group.queries| && group.queries[i] == r.value && r.value.name == queryName
      && forall j :: 0 <= j < i ==> group.queries[j].name != queryName)
  {
    match FirstIndex(group.queries, (q: BotQuery) => q.name, queryName)
    case None => Err(MissingQuery(group.name, queryName))
    case Some(i) => Ok(group.queries[i])
  }

  /** `GetCondition`. */
  function GetCondition(group: BotGroup, conditionName: string): (r: Result<Condition, BotGroupError>)
    ensures r.Err? <==> forall i :: 0 <= i < |group.conditions| ==> group.conditions[i].name != conditionName
    ensures r.Err? ==> r.error == MissingCondition(group.name, conditionName)
    ensures r.Ok? ==> exists i :: (0 <= i < |group.conditions| && group.conditions[i] == r.value && r.value.name == conditionName
      && forall j :: 0 <= j < i ==> group.conditions[j].name != conditionName)
  {
    match FirstIndex(group.conditions, (c: Condition) => c.name, conditionName)
    case None => Err(MissingCondition(group.name, conditionName))
    case Some(i) => Ok(group.conditions[i])
  }

  /** `GetVariable`, and `GetBotVariableData`, which performs the same
      search and differs only in the wording of its error. */
  function GetVariable(group: BotGroup, varName: string): (r: Result<BotVariable, BotGroupError>)
    ensures r.Err? <==> forall i :: 0 <= i < |group.variables| ==> group.variables[i].name != varName
    ensures r.Err? ==> r.error == MissingVariable(group.name, varName)
    ensures r.Ok? ==> exists i :: (0 <= i < |group.variables| && group.variables[i] == r.value && r.value.name == varName
      && forall j :: 0 <= j < i ==> group.variables[j].name != varName)
  {
    match FirstIndex(group.variables, (v: BotVariable) => v.name, varName)
    case None => Err(MissingVariable(group.name, varName))
    case Some(i) => Ok(group.variables[i])
  }

  /** `GetConditionConsideration`. */
  function GetConditionConsideration(condition: Condition, considerName: string): (r: Result<ConditionConsideration, BotGroupError>)
    ensures r.Err? <==> forall i :: 0 <= i < |condition.considerations| ==> condition.considerations[i].name != considerName
    ensures r.Err? ==> r.error == MissingConsideration(considerName)
    ensures r.Ok? ==> exists i :: (0 <= i < |condition.considerations| && condition.considerations[i] == r.value
      && r.value.name == considerName
      && forall j :: 0 <= j < i ==> condition.considerations[j].name != considerName)
  {
    match FirstIndex(condition.considerations, (c: ConditionConsideration) => c.name, considerName)
    case None => Err(MissingConsideration(considerName))
    case Some(i) => Ok(condition.considerations[i])
  }

  /** `GetBot`. */
  function GetBot(group: BotGroup, botName: string): (r: Result<Bot, BotGroupError>)
    ensures r.Err? <==> forall i :: 0 <= i < |group.bots| ==> group.bots[i].name != botName
    ensures r.Err? ==> r.error == MissingBot(group.name, botName)
    ensures r.Ok? ==> exists i :: (0 <= i < |group.bots| && group.bots[i] == r.value && r.value.name == botName
      && forall j :: 0 <= j < i ==> group.bots[j].name != botName)
  {
    match FirstIndex(group.bots, (b: Bot) => b.name, botName)
    case None => Err(MissingBot(group.name, botName))
    case Some(i) => Ok(group.bots[i])
  }

  /** `GetBotForwardSequenceState`. */
  function GetBotForwardSequenceState(group: BotGroup, name: string): (r: Result<BotForwardSequenceState, BotGroupError>)
    ensures r.Err? <==> forall i :: 0 <= i < |group.states| ==> group.states[i].name != name
    ensures r.Err? ==> r.error == MissingForwardSequenceState(name)
    ensures r.Ok? ==> exists i :: (0 <= i < |group.states| && group.states[i] == r.value && r.value.name == name
      && forall j :: 0 <= j < i ==> group.states[j].name != name)
  {
    match FirstIndex(group.states, (s: BotForwardSequenceState) => s.name, name)
    case None => Err(MissingForwardSequenceState(name))
    case Some(i) => Ok(group.states[i])
  }

  /** Entry `i` is the latest run of the Condition, and every later entry
      started no longer than `stopLookingAfter` before `now`. */
  ghost predicate FoundAt(history: seq<ConditionCommandResult>, conditionName: string,
                          stopLookingAfter: Duration, now: Time, i: int)
  {
    && 0 <= i < |history|
    && history[i].conditionName == conditionName
    && forall j :: i < j < |history| ==>
         history[j].conditionName != conditionName && now - history[j].started <= stopLookingAfter
  }

  /** The backwards scan of `GetConditionLastExecuteTime`. */
  function ScanCommandHistory(history: seq<ConditionCommandResult>, conditionName: string,
                              stopLookingAfter: Duration, now: Time): (r: Result<Time, BotGroupError>)
    ensures r.Err? ==> r.error in {NotRunSinceTimeout(conditionName), NotInHistory(conditionName)}
    ensures r.Ok? ==> exists i :: (0 <= i < |history| && history[i].conditionName == conditionName
                                   && history[i].started == r.value)
    decreases |history|
  {
    if |history| == 0 then Err(NotInHistory(conditionName))
    else
      var last := history[|history| - 1];
      if last.conditionName == conditionName then Ok(last.started)
      else if now - last.started > stopLookingAfter then Err(NotRunSinceTimeout(conditionName))
      else ScanCommandHistory(history[..|history| - 1], conditionName, stopLookingAfter, now)
  }

  lemma {:induction false} ScanCommandHistoryFinds(history: seq<ConditionCommandResult>, conditionName: string,
                                                   stopLookingAfter: Duration, now: Time)
    ensures ScanCommandHistory(history, conditionName, stopLookingAfter, now).Ok? <==>
      exists i :: FoundAt(history, conditionName, stopLookingAfter, now, i)
    ensures ScanCommandHistory(history, conditionName, stopLookingAfter, now).Ok? ==>
      exists i :: FoundAt(history, conditionName, stopLookingAfter, now, i)
        && history[i].started == ScanCommandHistory(history, conditionName, stopLookingAfter, now).value
    ensures ScanCommandHistory(history, conditionName, stopLookingAfter, now).Err? ==>
      ScanCommandHistory(history, conditionName, stopLookingAfter, now).error
        in {NotRunSinceTimeout(conditionName), NotInHistory(conditionName)}
    decreases |history|
  {
    if |history| > 0 {
      var n := |history| - 1;
      var last := history[n];
      if last.conditionName == conditionName {
        assert FoundAt(history, conditionName, stopLookingAfter, now, n);
      } else if now - last.started > stopLookingAfter {
        forall i | 0 <= i < |history|
          ensures !FoundAt(history, conditionName, stopLookingAfter, now, i)
        {
          if i < n {
            assert history[n].conditionName != conditionName && now - history[n].started > stopLookingAfter;
          }
        }
      } else {
        var front := history[..n];
        ScanCommandHistoryFinds(front, conditionName, stopLookingAfter, now);
        forall i | 0 <= i < |history|
          ensures FoundAt(history, conditionName, stopLookingAfter, now, i) <==>
                  FoundAt(front, conditionName, stopLookingAfter, now, i)
        {
          if i < n {
            assert forall j :: i < j < n ==> front[j] == history[j];
          }
        }
      }
    }
  }

  /** `GetConditionLastExecuteTime`: the start time of the latest run of the
      Condition, provided every later entry of the history started no
      longer than `stopLookingAfter` before `now`. */
  function GetConditionLastExecuteTime(history: seq<ConditionCommandResult>, conditionName: string,
                                       stopLookingAfter: Duration, now: Time): (r: Result<Time, BotGroupError>)
    ensures r == Err(NeverRun(conditionName)) <==> |history| == 0
    ensures r.Ok? <==> exists i :: FoundAt(history, conditionName, stopLookingAfter, now, i)
    ensures r.Ok? ==> exists i :: FoundAt(history, conditionName, stopLookingAfter, now, i) && history[i].started == r.value
  {
    if |history| == 0 then Err(NeverRun(conditionName))
    else
      ScanCommandHistoryFinds(history, conditionName, stopLookingAfter, now);
      ScanCommandHistory(history, conditionName, stopLookingAfter, now)
  }

  /** A command result just appended is what the next lookup finds, whatever
      the timeout. */
  lemma LastExecuteTimeAfterAppend(history: seq<ConditionCommandResult>, result: ConditionCommandResult,
                                   stopLookingAfter: Duration, now: Time)
    ensures GetConditionLastExecuteTime(history + [result], result.conditionName, stopLookingAfter, now) == Ok(result.started)
  {
  }

  /** `AreAllConditionStatesActive`: every required state is among the
      Bot's states. */
  function AreAllConditionStatesActive(condition: Condition, stateValues: seq<string>): (r: bool)
    ensures r <==> forall i :: 0 <= i < |condition.requiredStates| ==> condition.requiredStates[i] in stateValues
  {
    AllIn(condition.requiredStates, stateValues)
  }

  function AllIn(required: seq<string>, present: seq<string>): (r: bool)
    ensures r <==> forall i :: 0 <= i < |required| ==> required[i] in present
  {
    |required| == 0 || (required[0] in present && AllIn(required[1..], present))
  }

  /** `GetLockTimer`: a copy of the first timer with that name, marked
      inactive when it was active and its timeout second is already past.
      The BotGroup itself is not changed. */
  function GetLockTimer(timers: seq<BotLockTimer>, lockTimerName: string, now: Time): (r: Result<BotLockTimer, BotGroupError>)
    ensures r.Err? <==> forall i :: 0 <= i < |timers| ==> timers[i].name != lockTimerName
    ensures r.Err? ==> r.error == MissingLockTimer(lockTimerName)
    ensures r.Ok? ==> exists i :: (0 <= i < |timers| && timers[i].name == lockTimerName
      && (forall j :: 0 <= j < i ==> timers[j].name != lockTimerName)
      && r.value.name == lockTimerName && r.value.timeout == timers[i].timeout
      && (r.value.isActive <==> timers[i].isActive && UnixSeconds(now) <= UnixSeconds(timers[i].timeout)))
  {
    match FirstIndex(timers, (t: BotLockTimer) => t.name, lockTimerName)
    case None => Err(MissingLockTimer(lockTimerName))
    case Some(i) =>
      var t := timers[i];
      if t.isActive && UnixSeconds(t.timeout) < UnixSeconds(now) then Ok(t.(isActive := false)) else Ok(t)
  }

  /** `AreAllConditionLockTimersAvailable`: every required timer exists and
      is not active (after its timeout is taken into account). */
  function AreAllConditionLockTimersAvailable(condition: Condition, timers: seq<BotLockTimer>, now: Time): (r: bool)
    ensures r <==> forall i :: 0 <= i < |condition.requiredLockTimers| ==>
      GetLockTimer(timers, condition.requiredLockTimers[i], now).Ok?
      && !GetLockTimer(timers, condition.requiredLockTimers[i], now).value.isActive
  {
    AllTimersFree(condition.requiredLockTimers, timers, now)
  }

  function AllTimersFree(names: seq<string>, timers: seq<BotLockTimer>, now: Time): (r: bool)
    ensures r <==> forall i :: 0 <= i < |names| ==>
      GetLockTimer(timers, names[i], now).Ok? && !GetLockTimer(timers, names[i], now).value.isActive
  {
    if |names| == 0 then true
    else
      var t := GetLockTimer(timers, names[0], now);
      if t.Err? then false
      else if t.value.isActive then false
      else
        assert forall i :: 1 <= i < |names| ==> names[i] == names[1..][i - 1];
        AllTimersFree(names[1..], timers, now)
  }
}
