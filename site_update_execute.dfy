/** Condition execution in code/extdata/site_update.go: each Bot's top
    scoring Condition runs when it is available, above the BotGroup's
    threshold and has been available long enough; a run is refused within
    the Condition's repeat delay, sets the Condition's lock timers, moves the
    Bot's states and appends one command result.  The HTTP request a
    command makes, the Handlebars command log and the clock are
    parameters. */
module SiteUpdateExecute {
  import opened Wrappers
  import opened Data
  import opened Sorting
  import opened BotGroupLookup
  import opened BotGroupStates
  import opened BotGroupTimers
  import opened SiteUpdateBots
  import MetricExport

  /** The repeat-delay gate: the Condition last started less than
      `ExecuteRepeatDelay` ago. */
  predicate RepeatGateClosed(history: seq<ConditionCommandResult>, condition: Condition, now: Time)
  {
    var last := GetConditionLastExecuteTime(history, condition.name, condition.executeRepeatDelay, now);
    last.Ok? && now - last.value < condition.executeRepeatDelay
  }

  /** The reset loop: each base in turn goes back to its first label;
      the first failure stops the loop with the states reached so far. */
  function ResetBotStates(group: BotGroup, stateValues: seq<string>, resets: seq<string>): (r: (seq<string>, Option<BotGroupError>))
    requires StatesHaveLabels(group)
    decreases |resets|
  {
    if |resets| == 0 then (stateValues, None)
    else
      FoundStateHasLabels(group, resets[0]);
      match ResetBotState(group, stateValues, resets[0])
      case Err(e) => (stateValues, Some(e))
      case Ok(next) => ResetBotStates(group, next, resets[1..])
  }

  lemma FoundStateHasLabels(group: BotGroup, name: string)
    requires StatesHaveLabels(group)
    ensures GetBotForwardSequenceState(group, name).Ok? ==> |GetBotForwardSequenceState(group, name).value.labels| > 0
  {
    var r := GetBotForwardSequenceState(group, name);
    if r.Ok? {
      var i :| 0 <= i < |group.states| && group.states[i] == r.value && r.value.name == name;
      assert |group.states[i].labels| > 0;
    }
  }

  /** The state changes of a command: its `SetBotStates` list, then, when
      that succeeds, its `ResetBotStates` list; with the first error. */
  function CommandStates(group: BotGroup, stateValues: seq<string>, command: ConditionCommand): (seq<string>, Option<BotGroupError>)
    requires StatesHaveLabels(group)
  {
    var (set_, err) := SetBotStatesResult(group, stateValues, command.setBotStates);
    if err.Some? then (set_, err) else ResetBotStates(group, set_, command.resetBotStates)
  }

  /** `ResultContent` of a command result: the HTTP body, or `"Error: "` and
      the error, for command types 1 and 2; empty for the others. */
  function ResultContent(command: ConditionCommand, httpResult: Result<string, string>): string
  {
    if command.commandType == 1 || command.commandType == 2 then
      match httpResult
      case Ok(body) => body
      case Err(msg) => "Error: " + msg
    else ""
  }

  datatype ExecuteOutcome = RepeatDelayed | Aborted(error: BotGroupError) | Executed

  /** The reset loop of `ExecuteBotCondition`: stops at the first base
      that cannot be reset. */
  method ApplyResets(group: BotGroup, states: seq<string>, resets: seq<string>)
    returns (current: seq<string>, err: Option<BotGroupError>)
    requires StatesHaveLabels(group)
    ensures (current, err) == ResetBotStates(group, states, resets)
  {
    current := states;
    for i := 0 to |resets|
      invariant ResetBotStates(group, states, resets) == ResetBotStates(group, current, resets[i..])
    {
      assert resets[i..][1..] == resets[i + 1..];
      FoundStateHasLabels(group, resets[i]);
      var reset := ResetBotState(group, current, resets[i]);
      if reset.Err? {
        return current, Some(reset.error);
      }
      current := reset.value;
    }
    err := None;
  }

  /** The counter `ExecuteBotCondition` adds one to after a run, and its
      help text. */
  const ExecuteConditionCounter: string := "sireus_execute_condition"
  const ExecuteConditionInfo: string := "A Condition met all the requirements and had the highest score, so was executed"

  /** What a call of `ExecuteBotCondition` leaves behind: the BotGroup with
      its lock timers, the Bot with its states and history, the outcome, and
      the metric exporter's counters.  `now` is the start time, `finished`
      the clock at the end, `commandLog` the formatted log, `httpResult` the
      outcome of the command's HTTP request and `csv` is
      `util.PrintStringArrayCSV`, which the Condition's labels use. */
  function ConditionRun(group: BotGroup, bot: Bot, condition: Condition, conditionData: BotConditionData,
                        now: Time, finished: Time, commandLog: string, httpResult: Result<string, string>,
                        counters: seq<MetricExport.Metric>, csv: seq<string> -> string)
    : (BotGroup, Bot, ExecuteOutcome, seq<MetricExport.Metric>)
    requires StatesHaveLabels(group)
  {
    if RepeatGateClosed(bot.commandHistory, condition, now) then (group, bot, RepeatDelayed, counters)
    else
      var locked := group.(lockTimers := LockTimersAfterSetAll(group.lockTimers, condition.requiredLockTimers,
                                                               condition.command.lockTimerDuration, now));
      var (states, err) := CommandStates(group, bot.stateValues, condition.command);
      if err.Some? then (locked, bot.(stateValues := states), Aborted(err.value), counters)
      else
        var record := ConditionCommandResult(group.name, bot.name, condition.name, commandLog,
                                             ResultContent(condition.command, httpResult), now, finished,
                                             conditionData.finalScore, bot.stateValues, states);
        (locked, bot.(stateValues := states, commandHistory := bot.commandHistory + [record]), Executed,
         MetricExport.AddToCounter(counters, ExecuteConditionCounter, 1.0, ExecuteConditionInfo,
                                   MetricExport.ConditionLabels(group, bot, condition, csv)))
  }

  /** Within the repeat delay of the last run nothing changes.  Otherwise
      the lock timers are set and the states changed; a failed state change
      aborts with the states as far as they got, no history entry and no
      count; a run appends one result with the start and finish times, the
      score and the states before and after. */
  lemma ConditionRunRules(group: BotGroup, bot: Bot, condition: Condition, conditionData: BotConditionData,
                          now: Time, finished: Time, commandLog: string, httpResult: Result<string, string>,
                          counters: seq<MetricExport.Metric>, csv: seq<string> -> string)
    requires StatesHaveLabels(group)
    ensures var (newGroup, newBot, outcome, newCounters) :=
              ConditionRun(group, bot, condition, conditionData, now, finished, commandLog, httpResult, counters, csv);
      var (states, err) := CommandStates(group, bot.stateValues, condition.command);
      && (RepeatGateClosed(bot.commandHistory, condition, now) <==> outcome == RepeatDelayed)
      && (outcome == RepeatDelayed ==> newGroup == group && newBot == bot)
      && (outcome != RepeatDelayed ==>
            newGroup == group.(lockTimers := LockTimersAfterSetAll(group.lockTimers, condition.requiredLockTimers,
                                                                   condition.command.lockTimerDuration, now))
            && newBot.stateValues == states
            && (outcome.Executed? <==> err.None?))
      && (outcome.Aborted? ==> Some(outcome.error) == err)
      && newBot == bot.(stateValues := newBot.stateValues, commandHistory := newBot.commandHistory)
      && (!outcome.Executed? ==> newBot.commandHistory == bot.commandHistory && newCounters == counters)
      && (outcome.Executed? ==>
            && |newBot.commandHistory| == |bot.commandHistory| + 1
            && newBot.commandHistory[..|bot.commandHistory|] == bot.commandHistory
            && var r := newBot.commandHistory[|bot.commandHistory|];
            && r.botGroupName == group.name && r.botName == bot.name && r.conditionName == condition.name
            && r.started == now && r.finished == finished && r.score == conditionData.finalScore
            && r.commandLog == commandLog && r.resultContent == ResultContent(condition.command, httpResult)
            && r.statesBefore == bot.stateValues && r.statesAfter == newBot.stateValues)
  {
    var run := ConditionRun(group, bot, condition, conditionData, now, finished, commandLog, httpResult, counters, csv);
    var (states, err) := CommandStates(group, bot.stateValues, condition.command);
    if !RepeatGateClosed(bot.commandHistory, condition, now) {
      if err.Some? {
        assert run.2 == Aborted(err.value);
      } else {
        assert run.2 == Executed;
      }
    }
  }

  /** A run adds one to the Condition's `sireus_execute_condition` counter,
      the one its labels name, and leaves every other counter as it was;
      any other outcome leaves them all. */
  lemma ConditionRunCounts(group: BotGroup, bot: Bot, condition: Condition, conditionData: BotConditionData,
                           now: Time, finished: Time, commandLog: string, httpResult: Result<string, string>,
                           counters: seq<MetricExport.Metric>, csv: seq<string> -> string,
                           key2: string, labels2: map<string, string>)
    requires StatesHaveLabels(group)
    ensures var (_, _, outcome, newCounters) :=
              ConditionRun(group, bot, condition, conditionData, now, finished, commandLog, httpResult, counters, csv);
      var labels := MetricExport.ConditionLabels(group, bot, condition, csv);
      && (!outcome.Executed? ==> newCounters == counters)
      && (outcome.Executed? ==>
            MetricExport.ValueOf(newCounters, ExecuteConditionCounter, labels)
              == MetricExport.ValueOf(counters, ExecuteConditionCounter, labels) + 1.0)
      && (outcome.Executed? && (key2 != ExecuteConditionCounter || labels2 != labels) ==>
            MetricExport.ValueOf(newCounters, key2, labels2) == MetricExport.ValueOf(counters, key2, labels2))
  {
    var run := ConditionRun(group, bot, condition, conditionData, now, finished, commandLog, httpResult, counters, csv);
    var (states, err) := CommandStates(group, bot.stateValues, condition.command);
    var labels := MetricExport.ConditionLabels(group, bot, condition, csv);
    if RepeatGateClosed(bot.commandHistory, condition, now) || err.Some? {
      assert !run.2.Executed? && run.3 == counters;
    } else {
      assert run.3 == MetricExport.AddToCounter(counters, ExecuteConditionCounter, 1.0, ExecuteConditionInfo, labels);
    }
    MetricExport.AddToCounterAdds(counters, ExecuteConditionCounter, 1.0, ExecuteConditionInfo, labels);
    if key2 != ExecuteConditionCounter || labels2 != labels {
      MetricExport.AddToCounterKeepsOthers(counters, ExecuteConditionCounter, 1.0, ExecuteConditionInfo, labels, key2, labels2);
    }
  }

  /** `ExecuteBotCondition`.  The exporter's counter list is passed in and
      the new one returned. */
  method ExecuteBotCondition(group: BotGroup, bot: Bot, condition: Condition, conditionData: BotConditionData,
                             now: Time, finished: Time, commandLog: string, httpResult: Result<string, string>,
                             counters: seq<MetricExport.Metric>, csv: seq<string> -> string)
    returns (newGroup: BotGroup, newBot: Bot, outcome: ExecuteOutcome, newCounters: seq<MetricExport.Metric>)
    requires StatesHaveLabels(group)
    ensures (newGroup, newBot, outcome, newCounters)
      == ConditionRun(group, bot, condition, conditionData, now, finished, commandLog, httpResult, counters, csv)
  {
    var last := GetConditionLastExecuteTime(bot.commandHistory, condition.name, condition.executeRepeatDelay, now);
    if last.Ok? && now - last.value < condition.executeRepeatDelay {
      return group, bot, RepeatDelayed, counters;
    }

    var timers := SetAllConditionLockTimers(condition, group.lockTimers, condition.command.lockTimerDuration, now);
    newGroup := group.(lockTimers := timers);

    // The state functions read only the BotGroup's name and states, which
    // the lock-timer update leaves as they are.
    var states, err := SetBotStates(group, bot.stateValues, condition.command.setBotStates);
    if err.Some? {
      return newGroup, bot.(stateValues := states), Aborted(err.value), counters;
    }

    var current, resetErr := ApplyResets(group, states, condition.command.resetBotStates);
    if resetErr.Some? {
      return newGroup, bot.(stateValues := current), Aborted(resetErr.value), counters;
    }

    var content := "";
    if condition.command.commandType == 1 || condition.command.commandType == 2 {
      if httpResult.Err? {
        content := "Error: " + httpResult.error;
      } else {
        content := httpResult.value;
      }
    }
    var result := ConditionCommandResult(group.name, bot.name, condition.name, commandLog, content,
                                         now, finished, conditionData.finalScore, bot.stateValues, current);
    newBot := bot.(stateValues := current, commandHistory := bot.commandHistory + [result]);
    outcome := Executed;
    newCounters := MetricExport.AddToCounter(counters, ExecuteConditionCounter, 1.0, ExecuteConditionInfo,
                                             MetricExport.ConditionLabels(group, bot, condition, csv));
  }

  /** After a run the gate stays closed for any later call that comes
      within the repeat delay of the run's start. */
  lemma RepeatGateAfterExecution(history: seq<ConditionCommandResult>, result: ConditionCommandResult,
                                 condition: Condition, later: Time)
    requires result.conditionName == condition.name
    requires later - result.started < condition.executeRepeatDelay
    ensures RepeatGateClosed(history + [result], condition, later)
  {
    LastExecuteTimeAfterAppend(history, result, condition.executeRepeatDelay, later);
  }

  /** Resetting dot-free bases keeps every entry a known state. */
  lemma {:induction false} ResetBotStatesKeepsKnown(group: BotGroup, stateValues: seq<string>, resets: seq<string>)
    requires StatesHaveLabels(group)
    requires KnownStates(group, stateValues)
    requires forall i :: 0 <= i < |resets| ==> '.' !in resets[i]
    ensures KnownStates(group, ResetBotStates(group, stateValues, resets).0)
    decreases |resets|
  {
    if |resets| > 0 {
      FoundStateHasLabels(group, resets[0]);
      var r := ResetBotState(group, stateValues, resets[0]);
      if r.Ok? {
        ResetKeepsKnown(group, stateValues, resets[0]);
        DotFreeTail(resets);
        ResetBotStatesKeepsKnown(group, r.value, resets[1..]);
      }
    }
  }

  lemma DotFreeTail(resets: seq<string>)
    requires |resets| > 0 && forall i :: 0 <= i < |resets| ==> '.' !in resets[i]
    ensures forall i :: 0 <= i < |resets[1..]| ==> '.' !in resets[1..][i]
  {
    forall i | 0 <= i < |resets[1..]|
      ensures '.' !in resets[1..][i]
    {
      assert resets[1..][i] == resets[i + 1];
    }
  }

  /** A command, whether it succeeds or aborts, leaves only known states
      behind when it starts from known states and resets dot-free bases. */
  lemma CommandKeepsKnown(group: BotGroup, stateValues: seq<string>, command: ConditionCommand)
    requires StatesHaveLabels(group)
    requires KnownStates(group, stateValues)
    requires forall i :: 0 <= i < |command.resetBotStates| ==> '.' !in command.resetBotStates[i]
    ensures KnownStates(group, CommandStates(group, stateValues, command).0)
  {
    SetBotStatesKeepsKnown(group, stateValues, command.setBotStates);
    var (set_, err) := SetBotStatesResult(group, stateValues, command.setBotStates);
    if err.None? {
      ResetBotStatesKeepsKnown(group, set_, command.resetBotStates);
    }
  }

  /** The test `ExecuteBotGroupConditions` applies to a Bot: its first
      sorted Condition exists in the BotGroup, is available, scores strictly
      above the BotGroup's threshold and has been available for longer than
      the Condition's `RequiredAvailable`. */
  predicate TopConditionReady(group: BotGroup, bot: Bot, now: Time)
  {
    && |bot.sortedConditionData| > 0
    && var top := bot.sortedConditionData[0];
    && GetCondition(group, top.key).Ok?
    && top.value.isAvailable
    && top.value.finalScore > group.conditionThreshold
    && now - top.value.availableStartTime > GetCondition(group, top.key).value.requiredAvailable
  }

  /** What one pass of `ExecuteBotGroupConditions` may do to a Bot: nothing
      unless its top Condition is ready; otherwise change only its states
      and append at most one result, for that Condition. */
  ghost predicate ExecutionStep(group: BotGroup, before: Bot, after: Bot, now: Time)
  {
    && (!TopConditionReady(group, before, now) ==> after == before)
    && after == before.(stateValues := after.stateValues, commandHistory := after.commandHistory)
    && before.commandHistory <= after.commandHistory
    && |after.commandHistory| <= |before.commandHistory| + 1
    && (|after.commandHistory| > |before.commandHistory| ==>
          |before.sortedConditionData| > 0
          && after.commandHistory[|before.commandHistory|].conditionName == before.sortedConditionData[0].key)
  }

  lemma GetConditionReadsConditions(g1: BotGroup, g2: BotGroup, name: string)
    requires g1.name == g2.name && g1.conditions == g2.conditions
    ensures GetCondition(g1, name) == GetCondition(g2, name)
  {
  }

  /** What one turn of the `ExecuteBotGroupConditions` loop leaves: the
      run of the Bot's top Condition when it is ready, everything as it was
      otherwise.  The command log and HTTP outcome of a run are given per
      Bot and Condition. */
  function TopConditionRun(group: BotGroup, bot: Bot, now: Time, finished: Time,
                           commandLog: (Bot, Condition) -> string,
                           http: (Bot, Condition) -> Result<string, string>,
                           counters: seq<MetricExport.Metric>, csv: seq<string> -> string)
    : (r: (BotGroup, Bot, seq<MetricExport.Metric>))
    requires StatesHaveLabels(group)
    ensures r.0 == group.(lockTimers := r.0.lockTimers)
  {
    if TopConditionReady(group, bot, now) then
      var top := bot.sortedConditionData[0];
      var condition := GetCondition(group, top.key).value;
      var (g, b, _, c) := ConditionRun(group, bot, condition, top.value, now, finished,
                                       commandLog(bot, condition), http(bot, condition), counters, csv);
      (g, b, c)
    else (group, bot, counters)
  }

  /** A turn changes nothing unless the top Condition is ready, and then
      changes only the lock timers, the Bot's states and its history, which
      gains at most one result, for that Condition. */
  lemma TopConditionRunStep(group: BotGroup, bot: Bot, now: Time, finished: Time,
                            commandLog: (Bot, Condition) -> string,
                            http: (Bot, Condition) -> Result<string, string>,
                            counters: seq<MetricExport.Metric>, csv: seq<string> -> string)
    requires StatesHaveLabels(group)
    ensures var (g, b, c) := TopConditionRun(group, bot, now, finished, commandLog, http, counters, csv);
      && ExecutionStep(group, bot, b, now)
      && (!TopConditionReady(group, bot, now) ==> g == group && c == counters)
  {
    if TopConditionReady(group, bot, now) {
      var top := bot.sortedConditionData[0];
      var condition := GetCondition(group, top.key).value;
      assert condition.name == top.key;
      ConditionRunRules(group, bot, condition, top.value, now, finished, commandLog(bot, condition),
                        http(bot, condition), counters, csv);
    }
  }

  /** The body of the `ExecuteBotGroupConditions` loop for one Bot. */
  method ExecuteTopCondition(group: BotGroup, bot: Bot, now: Time, finished: Time,
                             commandLog: (Bot, Condition) -> string,
                             http: (Bot, Condition) -> Result<string, string>,
                             counters: seq<MetricExport.Metric>, csv: seq<string> -> string)
    returns (newGroup: BotGroup, newBot: Bot, newCounters: seq<MetricExport.Metric>, ran: bool)
    requires StatesHaveLabels(group)
    ensures ran <==> TopConditionReady(group, bot, now)
    ensures (newGroup, newBot, newCounters) == TopConditionRun(group, bot, now, finished, commandLog, http, counters, csv)
  {
    newGroup, newBot, newCounters, ran := group, bot, counters, false;
    if |bot.sortedConditionData| > 0 {
      var top := bot.sortedConditionData[0];
      var condition := GetCondition(group, top.key);
      if condition.Ok? && top.value.isAvailable && top.value.finalScore > group.conditionThreshold
         && now - top.value.availableStartTime > condition.value.requiredAvailable {
        var outcome;
        newGroup, newBot, outcome, newCounters :=
          ExecuteBotCondition(group, bot, condition.value, top.value, now, finished,
                              commandLog(bot, condition.value), http(bot, condition.value), counters, csv);
        ran := true;
      }
    }
  }

  /** The loop's tests read only the BotGroup's name, threshold and
      Conditions. */
  lemma ExecutionStepReadsConditions(g1: BotGroup, g2: BotGroup, before: Bot, after: Bot, now: Time)
    requires g1 == g2.(lockTimers := g1.lockTimers, bots := g1.bots)
    ensures TopConditionReady(g1, before, now) == TopConditionReady(g2, before, now)
    ensures ExecutionStep(g1, before, after, now) == ExecutionStep(g2, before, after, now)
  {
    if |before.sortedConditionData| > 0 {
      GetConditionReadsConditions(g1, g2, before.sortedConditionData[0].key);
    }
  }

  /** A Bot's turn in the `ExecuteBotGroupConditions` loop: from the
      BotGroup as the earlier turns left it, the Bot and the counters, the
      BotGroup, Bot and counters it leaves. */
  type Turn = (BotGroup, Bot, seq<MetricExport.Metric>) -> (BotGroup, Bot, seq<MetricExport.Metric>)

  /** The `i`-th Bot takes `turn`: the BotGroup takes the lock timers the
      turn leaves and the Bot it returns, in the Bot's place. */
  function TurnAt(current: BotGroup, i: nat, turn: Turn, counters: seq<MetricExport.Metric>)
    : (BotGroup, seq<MetricExport.Metric>)
    requires i < |current.bots|
  {
    var (g, b, c) := turn(current, current.bots[i], counters);
    (current.(lockTimers := g.lockTimers, bots := current.bots[i := b]), c)
  }

  /** The BotGroup and the counters after the first `i` Bots, in order, have
      taken `turn`. */
  function Turns(group: BotGroup, i: nat, turn: Turn, counters: seq<MetricExport.Metric>)
    : (r: (BotGroup, seq<MetricExport.Metric>))
    requires i <= |group.bots|
    ensures r.0 == group.(lockTimers := r.0.lockTimers, bots := r.0.bots)
    ensures |r.0.bots| == |group.bots|
    ensures forall j :: i <= j < |group.bots| ==> r.0.bots[j] == group.bots[j]
    decreases i
  {
    if i == 0 then (group, counters)
    else
      var prev := Turns(group, i - 1, turn, counters);
      TurnAt(prev.0, i - 1, turn, prev.1)
  }

  /** Each of the first `i` Bots is what its own turn returned, given the
      BotGroup and counters the earlier turns left: no later turn touches
      it. */
  lemma {:induction false} TurnsKeep(group: BotGroup, i: nat, j: nat, turn: Turn, counters: seq<MetricExport.Metric>)
    requires j < i <= |group.bots|
    ensures Turns(group, i, turn, counters).0.bots[j]
            == turn(Turns(group, j, turn, counters).0, group.bots[j], Turns(group, j, turn, counters).1).1
    decreases i
  {
    var prev := Turns(group, i - 1, turn, counters);
    var last := turn(prev.0, prev.0.bots[i - 1], prev.1);
    assert Turns(group, i, turn, counters).0.bots == prev.0.bots[i - 1 := last.1];
    if i > j + 1 {
      TurnsKeep(group, i - 1, j, turn, counters);
      assert Turns(group, i, turn, counters).0.bots[j] == prev.0.bots[j];
    } else {
      assert prev == Turns(group, j, turn, counters);
      assert prev.0.bots[j] == group.bots[j];
      assert Turns(group, i, turn, counters).0.bots[j] == last.1;
    }
  }

  /** The turn of `ExecuteBotGroupConditions`: the Bot's top Condition runs
      if it is ready.  Every BotGroup the loop passes has the states of the
      one it started with, so the test on the states always holds there. */
  function BotTurn(now: Time, finished: Time,
                   commandLog: (Bot, Condition) -> string,
                   http: (Bot, Condition) -> Result<string, string>,
                   csv: seq<string> -> string): Turn
  {
    (g: BotGroup, b: Bot, c: seq<MetricExport.Metric>) =>
      if StatesHaveLabels(g) then TopConditionRun(g, b, now, finished, commandLog, http, c, csv) else (g, b, c)
  }

  /** After the loop each Bot is what the run of its top Condition made of
      it, against the BotGroup and counters the earlier Bots left, and has
      taken one execution step judged against the BotGroup's Conditions. */
  lemma GroupRunSteps(group: BotGroup, now: Time, finished: Time,
                      commandLog: (Bot, Condition) -> string,
                      http: (Bot, Condition) -> Result<string, string>,
                      counters: seq<MetricExport.Metric>, csv: seq<string> -> string)
    requires |group.bots| > 0 ==> StatesHaveLabels(group)
    ensures forall j :: 0 <= j < |group.bots| ==>
      && Turns(group, |group.bots|, BotTurn(now, finished, commandLog, http, csv), counters).0.bots[j]
           == TopConditionRun(Turns(group, j, BotTurn(now, finished, commandLog, http, csv), counters).0, group.bots[j],
                              now, finished, commandLog, http,
                              Turns(group, j, BotTurn(now, finished, commandLog, http, csv), counters).1, csv).1
      && ExecutionStep(group, group.bots[j],
                       Turns(group, |group.bots|, BotTurn(now, finished, commandLog, http, csv), counters).0.bots[j], now)
  {
    var turn := BotTurn(now, finished, commandLog, http, csv);
    var final := Turns(group, |group.bots|, turn, counters).0;
    forall j | 0 <= j < |group.bots|
      ensures final.bots[j]
                == TopConditionRun(Turns(group, j, turn, counters).0, group.bots[j], now, finished, commandLog, http,
                                   Turns(group, j, turn, counters).1, csv).1
      ensures ExecutionStep(group, group.bots[j], final.bots[j], now)
    {
      TurnsKeep(group, |group.bots|, j, turn, counters);
      var before := Turns(group, j, turn, counters);
      assert StatesHaveLabels(before.0) by {
        assert before.0.states == group.states;
      }
      TopConditionRunStep(before.0, group.bots[j], now, finished, commandLog, http, before.1, csv);
      ExecutionStepReadsConditions(before.0, group, group.bots[j], final.bots[j], now);
    }
  }

  /** `ExecuteBotGroupConditions`: every Bot's top Condition is tested and
      run if ready; the result says whether any was. */
  method ExecuteBotGroupConditions(group: BotGroup, now: Time, finished: Time,
                                   commandLog: (Bot, Condition) -> string,
                                   http: (Bot, Condition) -> Result<string, string>,
                                   counters: seq<MetricExport.Metric>, csv: seq<string> -> string)
    returns (newGroup: BotGroup, newCounters: seq<MetricExport.Metric>, executed: bool)
    requires |group.bots| > 0 ==> StatesHaveLabels(group)
    ensures (newGroup, newCounters) == Turns(group, |group.bots|, BotTurn(now, finished, commandLog, http, csv), counters)
    ensures executed <==> exists i :: 0 <= i < |group.bots| && TopConditionReady(group, group.bots[i], now)
    ensures newGroup == group.(lockTimers := newGroup.lockTimers, bots := newGroup.bots)
    ensures |newGroup.bots| == |group.bots|
    ensures forall j :: 0 <= j < |group.bots| ==> ExecutionStep(group, group.bots[j], newGroup.bots[j], now)
  {
    newGroup, newCounters, executed := RunGroupTurns(group, now, finished, commandLog, http, counters, csv);
    SomeBotReady(group, now);
    GroupRunSteps(group, now, finished, commandLog, http, counters, csv);
  }

  /** The loop of `ExecuteBotGroupConditions`. */
  method RunGroupTurns(group: BotGroup, now: Time, finished: Time,
                       commandLog: (Bot, Condition) -> string,
                       http: (Bot, Condition) -> Result<string, string>,
                       counters: seq<MetricExport.Metric>, csv: seq<string> -> string)
    returns (newGroup: BotGroup, newCounters: seq<MetricExport.Metric>, executed: bool)
    requires |group.bots| > 0 ==> StatesHaveLabels(group)
    ensures (newGroup, newCounters) == Turns(group, |group.bots|, BotTurn(now, finished, commandLog, http, csv), counters)
    ensures executed == AnyBelow(ReadyAt(group, now), |group.bots|)
  {
    newGroup, newCounters, executed := group, counters, false;
    for i := 0 to |group.bots|
      invariant (newGroup, newCounters) == Turns(group, i, BotTurn(now, finished, commandLog, http, csv), counters)
      invariant executed == AnyBelow(ReadyAt(group, now), i)
    {
      var ran;
      newGroup, newCounters, ran := ExecuteBotAt(group, newGroup, i, now, finished, commandLog, http, newCounters, csv, counters);
      executed := executed || ran;
    }
  }

  /** One turn of the `ExecuteBotGroupConditions` loop: the `i`-th Bot runs
      its top Condition against the BotGroup and counters the earlier turns
      left, which start from `group` and `counters0`. */
  method ExecuteBotAt(group: BotGroup, current: BotGroup, i: nat, now: Time, finished: Time,
                      commandLog: (Bot, Condition) -> string,
                      http: (Bot, Condition) -> Result<string, string>,
                      counters: seq<MetricExport.Metric>, csv: seq<string> -> string,
                      counters0: seq<MetricExport.Metric>)
    returns (next: BotGroup, newCounters: seq<MetricExport.Metric>, ran: bool)
    requires StatesHaveLabels(group) && i < |group.bots|
    requires (current, counters) == Turns(group, i, BotTurn(now, finished, commandLog, http, csv), counters0)
    ensures (next, newCounters) == Turns(group, i + 1, BotTurn(now, finished, commandLog, http, csv), counters0)
    ensures ran == TopConditionReady(group, group.bots[i], now)
  {
    var bot := current.bots[i];
    assert StatesHaveLabels(current) by {
      assert current.states == group.states;
    }
    var g, b;
    g, b, newCounters, ran := ExecuteTopCondition(current, bot, now, finished, commandLog, http, counters, csv);
    ExecutionStepReadsConditions(current, group, bot, b, now);
    next := g.(bots := current.bots[i := b]);
  }

  /** Whether `p` holds of some index below `i`. */
  predicate AnyBelow(p: nat -> bool, i: nat)
  {
    i > 0 && (AnyBelow(p, i - 1) || p(i - 1))
  }

  lemma {:induction false} AnyBelowExists(p: nat -> bool, i: nat)
    ensures AnyBelow(p, i) <==> exists j :: 0 <= j < i && p(j)
  {
    if i > 0 {
      AnyBelowExists(p, i - 1);
      if p(i - 1) {
        assert 0 <= i - 1 < i && p(i - 1);
      }
    }
  }

  /** The ready test on the `j`-th Bot. */
  function ReadyAt(group: BotGroup, now: Time): nat -> bool
  {
    (j: nat) => j < |group.bots| && TopConditionReady(group, group.bots[j], now)
  }

  lemma SomeBotReady(group: BotGroup, now: Time)
    ensures AnyBelow(ReadyAt(group, now), |group.bots|)
            <==> exists i :: 0 <= i < |group.bots| && TopConditionReady(group, group.bots[i], now)
  {
    var p := ReadyAt(group, now);
    AnyBelowExists(p, |group.bots|);
    assert forall i :: 0 <= i < |group.bots| ==> (p(i) <==> TopConditionReady(group, group.bots[i], now));
  }
}
