/** The older update flow of code/extdata/site_common.go, on the
    Action-based records: every pass rebuilds each BotGroup's Bots from the
    extractor query, clears and refills their variables, scores their
    Actions and sorts the results, on a copy of the Site that replaces the
    stored one at the end. */
module SiteCommon {
  import opened Wrappers
  import opened Data
  import opened Sorting
  import opened GoText
  import opened FixGoSort
  import opened ActionData
  import opened AppSort
  import opened BotGroupLookup
  import opened PromExtract
  import opened QueryMatching
  import opened SiteUpdateBots

  /** Every state of the BotGroup has a first label (`Labels[0]` is read
      without a check). */
  predicate StatesHaveLabels(group: LegacyBotGroup)
  {
    forall i :: 0 <= i < |group.states| ==> |group.states[i].labels| > 0
  }

  /** `ClearAllBotVariables`: every Bot gets an empty variable map and
      nothing else changes. */
  method ClearAllBotVariables(group: LegacyBotGroup) returns (newGroup: LegacyBotGroup)
    ensures newGroup == group.(bots := newGroup.bots)
    ensures |newGroup.bots| == |group.bots|
    ensures forall i :: 0 <= i < |group.bots| ==> newGroup.bots[i] == group.bots[i].(variableValues := map[])
  {
    newGroup := group;
    for botIndex := 0 to |group.bots|
      invariant newGroup == group.(bots := newGroup.bots)
      invariant |newGroup.bots| == |group.bots|
      invariant forall j :: 0 <= j < botIndex ==> newGroup.bots[j] == group.bots[j].(variableValues := map[])
      invariant forall j :: botIndex <= j < |group.bots| ==> newGroup.bots[j] == group.bots[j]
    {
      newGroup := newGroup.(bots := newGroup.bots[botIndex := newGroup.bots[botIndex].(variableValues := map[])]);
    }
  }

  /** The state loop of `InitializeStates` for one Bot. */
  method AppendInitialStates(stateValues: seq<string>, states: seq<BotForwardSequenceState>) returns (r: seq<string>)
    requires forall i :: 0 <= i < |states| ==> |states[i].labels| > 0
    ensures r == stateValues + InitialStateValues(states)
  {
    r := stateValues;
    for j := 0 to |states|
      invariant r == stateValues + InitialStateValues(states[..j])
    {
      assert states[..j + 1][..j] == states[..j];
      var key := states[j].name + "." + states[j].labels[0];
      r := r + [key];
    }
    assert states[..|states|] == states;
  }

  /** `InitializeStates`: every Bot gets one `"Name.FirstLabel"` entry per
      state appended to the states it already has; nothing is cleared
      first. */
  method InitializeStates(group: LegacyBotGroup) returns (newGroup: LegacyBotGroup)
    requires |group.bots| > 0 ==> StatesHaveLabels(group)
    ensures newGroup == group.(bots := newGroup.bots)
    ensures |newGroup.bots| == |group.bots|
    ensures forall i :: 0 <= i < |group.bots| ==>
      newGroup.bots[i] == group.bots[i].(stateValues := group.bots[i].stateValues + InitialStateValues(group.states))
  {
    newGroup := group;
    for botIndex := 0 to |group.bots|
      invariant newGroup == group.(bots := newGroup.bots)
      invariant |newGroup.bots| == |group.bots|
      invariant forall j :: 0 <= j < botIndex ==>
        newGroup.bots[j] == group.bots[j].(stateValues := group.bots[j].stateValues + InitialStateValues(group.states))
      invariant forall j :: botIndex <= j < |group.bots| ==> newGroup.bots[j] == group.bots[j]
    {
      var stateValues := AppendInitialStates(newGroup.bots[botIndex].stateValues, group.states);
      newGroup := newGroup.(bots := newGroup.bots[botIndex := newGroup.bots[botIndex].(stateValues := stateValues)]);
    }
  }

  /** Initializing twice does not settle: the list grows by two entries
      per state, and each state's first entry appears at two positions. */
  lemma InitializeTwiceDuplicates(stateValues: seq<string>, states: seq<BotForwardSequenceState>, k: nat)
    requires forall i :: 0 <= i < |states| ==> |states[i].labels| > 0
    requires k < |states|
    ensures var twice := stateValues + InitialStateValues(states) + InitialStateValues(states);
      && |twice| == |stateValues| + 2 * |states|
      && twice[|stateValues| + k] == FirstStateValue(states[k])
      && twice[|stateValues| + |states| + k] == FirstStateValue(states[k])
  {
  }

  /** The series label `UpdateBotGroupFromPrometheus` of this flow names
      Bots by: the literal `"name"`, not the BotGroup's extractor key. */
  const ExtractorBotKey: string := "name"

  /** `UpdateBotGroupFromPrometheus`: the Bots are replaced by those the
      extractor series name under `"name"`, one per distinct name, each
      with only the initial state entries.  The Prometheus request is I/O:
      its series arrive as `promData`. */
  method UpdateBotGroupFromPrometheus(group: LegacyBotGroup, promData: seq<PromResult>) returns (newGroup: LegacyBotGroup)
    requires |promData| > 0 ==> StatesHaveLabels(group)
    ensures newGroup == group.(bots := newGroup.bots)
    ensures Distinct(Names(newGroup.bots))
    ensures forall i :: 0 <= i < |newGroup.bots| ==> newGroup.bots[i].name in NamesIn(promData, ExtractorBotKey)
    ensures forall r :: r in promData ==> BotNameOf(r, ExtractorBotKey) in Names(newGroup.bots)
    ensures |promData| == 0 <==> |newGroup.bots| == 0
    ensures forall i :: 0 <= i < |newGroup.bots| ==>
      newGroup.bots[i] == NewLegacyBot(newGroup.bots[i].name).(stateValues := InitialStateValues(group.states))
  {
    var bots := ExtractBotsFromPromData(promData, ExtractorBotKey);
    if |promData| == 0 {
      assert NamesIn(promData, ExtractorBotKey) == {};
    } else {
      assert BotNameOf(promData[0], ExtractorBotKey) in Names(bots);
    }
    newGroup := InitializeStates(group.(bots := bots));
    assert Names(newGroup.bots) == Names(bots);
  }

  function LegacyVariableMaps(bots: seq<LegacyBot>): (r: seq<map<string, real>>)
    ensures |r| == |bots| && forall i :: 0 <= i < |bots| ==> r[i] == bots[i].variableValues
  {
    seq(|bots|, i requires 0 <= i < |bots| => bots[i].variableValues)
  }

  /** The query loop of this flow.  Its cache lookup (`GetCachedQueryResult`
      with the Site and no expiry) is a different revision from the one
      modelled elsewhere and is the parameter `cached`; a query it has no
      result for is skipped. */
  function QueriesFold(values: seq<map<string, real>>, names: seq<string>, queries: seq<BotQuery>,
                       variables: seq<BotVariable>, cached: BotQuery -> Option<QueryResult>,
                       parseFloat: string -> real, format: (string, map<string, string>) -> string): (r: seq<map<string, real>>)
    requires |values| == |names|
    ensures |r| == |values|
    ensures forall i :: 0 <= i < |values| ==> values[i].Keys <= r[i].Keys
    decreases |queries|
  {
    if |queries| == 0 then values
    else
      var next := match cached(queries[0])
        case None => values
        case Some(queryResult) => SeriesFold(values, names, queries[0].name, queryResult.results, variables, parseFloat, format);
      QueriesFold(next, names, queries[1..], variables, cached, parseFloat, format)
  }

  /** `UpdateBotsFromQueries` of this flow: the same matching rules, and
      only the Bots' variable maps change. */
  method UpdateBotsFromQueries(group: LegacyBotGroup, cached: BotQuery -> Option<QueryResult>,
                               parseFloat: string -> real, format: (string, map<string, string>) -> string)
    returns (newGroup: LegacyBotGroup)
    ensures newGroup == group.(bots := newGroup.bots)
    ensures |newGroup.bots| == |group.bots|
    ensures var r := QueriesFold(LegacyVariableMaps(group.bots), Names(group.bots), group.queries, group.variables,
                                 cached, parseFloat, format);
      forall i :: 0 <= i < |group.bots| ==> newGroup.bots[i] == group.bots[i].(variableValues := r[i])
  {
    var names := Names(group.bots);
    var values := LegacyVariableMaps(group.bots);
    ghost var start := values;
    for q := 0 to |group.queries|
      invariant |values| == |names|
      invariant QueriesFold(start, names, group.queries, group.variables, cached, parseFloat, format)
             == QueriesFold(values, names, group.queries[q..], group.variables, cached, parseFloat, format)
    {
      assert group.queries[q..][1..] == group.queries[q + 1..];
      var query := group.queries[q];
      var queryResult := cached(query);
      if queryResult.None? {
        continue;
      }
      values := ApplyQueryResult(values, names, query.name, queryResult.value.results, group.variables, parseFloat, format);
    }
    newGroup := group.(bots := seq(|group.bots|, i requires 0 <= i < |group.bots| =>
                                     group.bots[i].(variableValues := values[i])));
  }

  /** `GetBotEvalMapOnlyQueries` of this flow. */
  function GetBotEvalMapOnlyQueries(bot: LegacyBot, queryVariableNames: seq<string>): (r: map<string, real>)
    ensures forall k :: k in r <==> k in bot.variableValues && k in queryVariableNames
    ensures forall k :: k in r ==> r[k] == bot.variableValues[k]
  {
    map k | k in bot.variableValues && k in queryVariableNames :: bot.variableValues[k]
  }

  /** `GetBotEvalMapAllVariables` of this flow. */
  function GetBotEvalMapAllVariables(bot: LegacyBot): (r: map<string, real>)
    ensures r.Keys == bot.variableValues.Keys
    ensures forall k :: k in r ==> r[k] == bot.variableValues[k]
  {
    map k | k in bot.variableValues :: bot.variableValues[k]
  }

  /** One synthetic variable for every Bot: the expression is evaluated
      against the Bot's query variables only, and a result that is not a
      number leaves the Bot as it is.  `evaluate` is govaluate and
      `ConvertInterfaceToFloat`, `None` on failure. */
  function SyntheticStep(bots: seq<LegacyBot>, v: BotVariable, queryVariableNames: seq<string>,
                         evaluate: (BotVariable, map<string, real>) -> Option<real>): (r: seq<LegacyBot>)
    ensures |r| == |bots|
    ensures forall i :: 0 <= i < |bots| ==> r[i] == bots[i].(variableValues := r[i].variableValues)
    ensures forall i :: 0 <= i < |bots| ==>
      match evaluate(v, GetBotEvalMapOnlyQueries(bots[i], queryVariableNames))
      case None => r[i].variableValues == bots[i].variableValues
      case Some(result) => r[i].variableValues == bots[i].variableValues[v.name := result]
  {
    seq(|bots|, i requires 0 <= i < |bots| =>
      match evaluate(v, GetBotEvalMapOnlyQueries(bots[i], queryVariableNames))
      case None => bots[i]
      case Some(result) => bots[i].(variableValues := bots[i].variableValues[v.name := result]))
  }

  /** The variable loop of `UpdateBotsWithSyntheticVariables`; variables
      without an expression are skipped. */
  function SyntheticFold(bots: seq<LegacyBot>, variables: seq<BotVariable>, queryVariableNames: seq<string>,
                         evaluate: (BotVariable, map<string, real>) -> Option<real>): (r: seq<LegacyBot>)
    ensures |r| == |bots|
    ensures forall i :: 0 <= i < |bots| ==> r[i] == bots[i].(variableValues := r[i].variableValues)
    decreases |variables|
  {
    if |variables| == 0 then bots
    else
      var next := if variables[0].evaluate == "" then bots else SyntheticStep(bots, variables[0], queryVariableNames, evaluate);
      SyntheticFold(next, variables[1..], queryVariableNames, evaluate)
  }

  /** Synthetic variables cannot work on each other: when no synthetic
      variable shares a name with a query variable, every expression sees
      the query variables exactly as the query pass left them. */
  lemma {:induction false} SyntheticsSeeOnlyQueryValues(bots: seq<LegacyBot>, variables: seq<BotVariable>,
                                                        queryVariableNames: seq<string>,
                                                        evaluate: (BotVariable, map<string, real>) -> Option<real>)
    requires forall i :: 0 <= i < |variables| && variables[i].evaluate != "" ==> variables[i].name !in queryVariableNames
    ensures var r := SyntheticFold(bots, variables, queryVariableNames, evaluate);
      forall i :: 0 <= i < |bots| ==>
        GetBotEvalMapOnlyQueries(r[i], queryVariableNames) == GetBotEvalMapOnlyQueries(bots[i], queryVariableNames)
    decreases |variables|
  {
    if |variables| > 0 {
      var v := variables[0];
      var next := if v.evaluate == "" then bots else SyntheticStep(bots, v, queryVariableNames, evaluate);
      forall i | 0 <= i < |bots|
        ensures GetBotEvalMapOnlyQueries(next[i], queryVariableNames) == GetBotEvalMapOnlyQueries(bots[i], queryVariableNames)
      {
        if v.evaluate != "" {
          assert v.name !in queryVariableNames;
        }
      }
      assert forall i :: 0 <= i < |variables[1..]| ==> variables[1..][i] == variables[i + 1];
      SyntheticsSeeOnlyQueryValues(next, variables[1..], queryVariableNames, evaluate);
    }
  }

  /** The first loop of `UpdateBotsWithSyntheticVariables`: the names of
      the variables without an expression, in order. */
  method CollectQueryVariableNames(variables: seq<BotVariable>) returns (names: seq<string>)
    ensures names == QueryVariableNames(variables)
  {
    names := [];
    for i := 0 to |variables|
      invariant names == QueryVariableNames(variables[..i])
    {
      assert variables[..i + 1][..i] == variables[..i];
      if |variables[i].evaluate| > 0 {
        continue;
      }
      names := names + [variables[i].name];
    }
    assert variables[..|variables|] == variables;
  }

  /** `UpdateBotsWithSyntheticVariables`.  Each Bot is read as it stands,
      so an earlier synthetic write is visible to a later expression only
      through a name it shares with a query variable. */
  method UpdateBotsWithSyntheticVariables(group: LegacyBotGroup, evaluate: (BotVariable, map<string, real>) -> Option<real>)
    returns (newGroup: LegacyBotGroup)
    ensures newGroup == group.(bots := SyntheticFold(group.bots, group.variables, QueryVariableNames(group.variables), evaluate))
  {
    var queryVariableNames := CollectQueryVariableNames(group.variables);
    var bots := group.bots;
    for i := 0 to |group.variables|
      invariant SyntheticFold(group.bots, group.variables, queryVariableNames, evaluate)
             == SyntheticFold(bots, group.variables[i..], queryVariableNames, evaluate)
    {
      assert group.variables[i..][1..] == group.variables[i + 1..];
      var variable := group.variables[i];
      if |variable.evaluate| == 0 {
        continue;
      }
      bots := EvaluateForBots(bots, variable, queryVariableNames, evaluate);
    }
    newGroup := group.(bots := bots);
  }

  /** The Bot loop of one synthetic variable. */
  method EvaluateForBots(bots: seq<LegacyBot>, variable: BotVariable, queryVariableNames: seq<string>,
                         evaluate: (BotVariable, map<string, real>) -> Option<real>)
    returns (r: seq<LegacyBot>)
    ensures r == SyntheticStep(bots, variable, queryVariableNames, evaluate)
  {
    r := bots;
    for botIndex := 0 to |bots|
      invariant |r| == |bots|
      invariant forall j :: 0 <= j < botIndex ==> r[j] == SyntheticStep(bots, variable, queryVariableNames, evaluate)[j]
      invariant forall j :: botIndex <= j < |bots| ==> r[j] == bots[j]
    {
      var evalMap := GetBotEvalMapOnlyQueries(r[botIndex], queryVariableNames);
      var result := evaluate(variable, evalMap);
      if result.None? {
        continue;
      }
      r := r[botIndex := r[botIndex].(variableValues := r[botIndex].variableValues[variable.name := result.value])];
    }
  }

  /** `AreAllActionStatesActive`, whose source is not part of this model:
      taken to work like `AreAllConditionStatesActive`. */
  function AreAllActionStatesActive(action: Action, stateValues: seq<string>): (r: bool)
    ensures r <==> forall i :: 0 <= i < |action.requiredStates| ==> action.requiredStates[i] in stateValues
  {
    AllIn(action.requiredStates, stateValues)
  }

  /** The availability rule of this flow: only the score threshold and the
      required states count, the score is kept as computed, and the start
      time is set only on becoming available and reset to the epoch on
      losing it.  The explanation is `ActionDetails`, which `ActionPass`
      stores over the old one. */
  function UpdateActionAvailability(data: BotActionData, finalScore: real, weightThreshold: real,
                                    statesActive: bool, now: Time): (r: BotActionData)
    ensures r.isAvailable <==> finalScore >= weightThreshold && statesActive
    ensures r.isAvailable && data.isAvailable ==> r.availableStartTime == data.availableStartTime
    ensures r.isAvailable && !data.isAvailable ==> r.availableStartTime == now
    ensures !r.isAvailable ==> r.availableStartTime == UnixMilli(0)
    ensures r.finalScore == finalScore
    ensures r == data.(finalScore := r.finalScore, isAvailable := r.isAvailable, availableStartTime := r.availableStartTime)
  {
    var d := data.(finalScore := finalScore);
    if finalScore >= weightThreshold && statesActive then
      if !d.isAvailable then d.(isAvailable := true, availableStartTime := now) else d
    else
      d.(isAvailable := false, availableStartTime := UnixMilli(0))
  }

  /** The two score-map writes under one Consideration name. */
  function SetActionScores(data: BotActionData, name: string, final: real, evaluated: real): BotActionData
  {
    data.(considerationFinalScores := data.considerationFinalScores[name := final],
          considerationEvaluatedScores := data.considerationEvaluatedScores[name := evaluated])
  }

  /** One Action Consideration: a failed evaluation or conversion writes the
      placeholder into both maps and moves on; a result `v` writes `v`
      weighted and `v`. */
  function ScoreActionConsideration(data: BotActionData, consider: ActionConsideration, outcome: Option<real>): BotActionData
  {
    match outcome
    case None => SetActionScores(data, consider.name, SmallestNonzeroFloat64, SmallestNonzeroFloat64)
    case Some(v) => SetActionScores(data, consider.name, Weighted(v, consider.weight), v)
  }

  lemma ScoreActionConsiderationSetsOnly(data: BotActionData, consider: ActionConsideration, outcome: Option<real>)
    ensures var r := ScoreActionConsideration(data, consider, outcome);
      outcome.None? ==>
        && SetOnly(data.considerationFinalScores, r.considerationFinalScores, consider.name, SmallestNonzeroFloat64)
        && SetOnly(data.considerationEvaluatedScores, r.considerationEvaluatedScores, consider.name, SmallestNonzeroFloat64)
    ensures var r := ScoreActionConsideration(data, consider, outcome);
      outcome.Some? ==>
        && SetOnly(data.considerationFinalScores, r.considerationFinalScores, consider.name, Weighted(outcome.value, consider.weight))
        && SetOnly(data.considerationEvaluatedScores, r.considerationEvaluatedScores, consider.name, outcome.value)
    ensures var r := ScoreActionConsideration(data, consider, outcome);
      r == data.(considerationFinalScores := r.considerationFinalScores,
                 considerationEvaluatedScores := r.considerationEvaluatedScores)
  {
  }

  function ScoreActionConsiderations(data: BotActionData, considers: seq<ActionConsideration>, evalMap: map<string, real>,
                                     evaluate: (ActionConsideration, map<string, real>) -> Option<real>): BotActionData
    decreases |considers|
  {
    if |considers| == 0 then data
    else ScoreActionConsiderations(ScoreActionConsideration(data, considers[0], evaluate(considers[0], evalMap)),
                                   considers[1..], evalMap, evaluate)
  }

  /** After the Consideration loop every Consideration has an entry in both
      score maps, evaluated or not. */
  lemma {:induction false} ScoredHasEveryActionConsideration(data: BotActionData, considers: seq<ActionConsideration>,
                                                             evalMap: map<string, real>,
                                                             evaluate: (ActionConsideration, map<string, real>) -> Option<real>)
    ensures var r := ScoreActionConsiderations(data, considers, evalMap, evaluate);
      (forall i :: 0 <= i < |considers| ==>
         considers[i].name in r.considerationFinalScores && considers[i].name in r.considerationEvaluatedScores)
      && r.isAvailable == data.isAvailable && r.availableStartTime == data.availableStartTime
    decreases |considers|
  {
    if |considers| > 0 {
      var next := ScoreActionConsideration(data, considers[0], evaluate(considers[0], evalMap));
      ScoredHasEveryActionConsideration(next, considers[1..], evalMap, evaluate);
      KeepsActionScore(next, considers[1..], evalMap, evaluate, considers[0].name);
      var r := ScoreActionConsiderations(data, considers, evalMap, evaluate);
      forall i | 0 < i < |considers|
        ensures considers[i].name in r.considerationFinalScores && considers[i].name in r.considerationEvaluatedScores
      {
        assert considers[1..][i - 1] == considers[i];
      }
    }
  }

  lemma {:induction false} KeepsActionScore(data: BotActionData, considers: seq<ActionConsideration>, evalMap: map<string, real>,
                                            evaluate: (ActionConsideration, map<string, real>) -> Option<real>, k: string)
    requires k in data.considerationFinalScores && k in data.considerationEvaluatedScores
    ensures var r := ScoreActionConsiderations(data, considers, evalMap, evaluate);
      k in r.considerationFinalScores && k in r.considerationEvaluatedScores
    decreases |considers|
  {
    if |considers| > 0 {
      KeepsActionScore(ScoreActionConsideration(data, considers[0], evaluate(considers[0], evalMap)),
                       considers[1..], evalMap, evaluate, k);
    }
  }

  /** `app.CalculateScore` on Actions, which combines the Consideration
      scores into one score and explains it line by line, and the
      formatting of the lines this flow adds. */
  datatype ActionScorer = ActionScorer(calculateScore: (Action, BotActionData) -> (real, seq<string>), format: DetailFormat)

  /** The fixed text of the explanation lines, as the source writes it. */
  const StatesNotActiveText: string := "Not all states required are active, required: "
  const FinalScoreOpenText: string := "Final Score ("
  const MissedThresholdText: string := ") did not meet Action Weight Threshold ("
  const CloseText: string := ")"

  function StatesNotActiveLine(f: DetailFormat, requiredStates: seq<string>): string
  {
    StatesNotActiveText + f.csv(requiredStates)
  }

  function MissedThresholdLine(f: DetailFormat, finalScore: real, weightThreshold: real): string
  {
    FinalScoreOpenText + f.fixed2(finalScore) + MissedThresholdText + f.fixed2(weightThreshold) + CloseText
  }

  /** The lines a pass adds for each reason the Action is not available, in
      the order the pass checks them. */
  function UnavailableActionLines(f: DetailFormat, action: Action, finalScore: real, statesActive: bool): seq<string>
  {
    LineIf(!statesActive, StatesNotActiveLine(f, action.requiredStates))
      + LineIf(finalScore < action.weightThreshold, MissedThresholdLine(f, finalScore, action.weightThreshold))
  }

  /** The `Details` a pass stores for the Action. */
  function ActionDetails(calculated: (real, seq<string>), action: Action, statesActive: bool, f: DetailFormat): seq<string>
  {
    var finalScore := Weighted(calculated.0, action.weight);
    if finalScore >= action.weightThreshold && statesActive then calculated.1
    else calculated.1 + UnavailableActionLines(f, action, finalScore, statesActive)
  }

  /** The stored explanation is the lines of `CalculateScore`, then one line
      for each reason the Action is not available (missing states, a score
      under the threshold), and no other line. */
  lemma ActionDetailsExplain(calculated: (real, seq<string>), action: Action, statesActive: bool, f: DetailFormat)
    ensures var r := ActionDetails(calculated, action, statesActive, f);
      var n := |calculated.1|;
      var finalScore := Weighted(calculated.0, action.weight);
      && |r| == n + (if statesActive then 0 else 1) + (if finalScore < action.weightThreshold then 1 else 0)
      && r[..n] == calculated.1
      && (!statesActive ==> StatesNotActiveLine(f, action.requiredStates) in r[n..])
      && (finalScore < action.weightThreshold ==> MissedThresholdLine(f, finalScore, action.weightThreshold) in r[n..])
      && (forall i :: n <= i < |r| ==>
            || (r[i] == StatesNotActiveLine(f, action.requiredStates) && !statesActive)
            || (r[i] == MissedThresholdLine(f, finalScore, action.weightThreshold) && finalScore < action.weightThreshold))
  {
    var r := ActionDetails(calculated, action, statesActive, f);
    var n := |calculated.1|;
    var finalScore := Weighted(calculated.0, action.weight);
    var tail := if finalScore >= action.weightThreshold && statesActive then []
                else UnavailableActionLines(f, action, finalScore, statesActive);
    assert r == calculated.1 + tail;
    assert r[n..] == tail;
  }

  /** The Action's entry after one pass of the Action loop. */
  function ActionPass(bot: LegacyBot, actionData: map<string, BotActionData>, action: Action, now: Time,
                      evaluate: (ActionConsideration, map<string, real>) -> Option<real>,
                      calculate: ActionScorer): BotActionData
  {
    var start := if action.name in actionData then actionData[action.name] else EmptyActionData;
    var scored := ScoreActionConsiderations(start, action.considerations, GetBotEvalMapAllVariables(bot), evaluate);
    var calculated := calculate.calculateScore(action, scored);
    var statesActive := AreAllActionStatesActive(action, bot.stateValues);
    UpdateActionAvailability(scored, Weighted(calculated.0, action.weight), action.weightThreshold, statesActive, now)
      .(details := ActionDetails(calculated, action, statesActive, calculate.format))
  }

  function ActionPasses(bot: LegacyBot, actionData: map<string, BotActionData>, actions: seq<Action>, now: Time,
                        evaluate: (ActionConsideration, map<string, real>) -> Option<real>,
                        calculate: ActionScorer): map<string, BotActionData>
    decreases |actions|
  {
    if |actions| == 0 then actionData
    else
      var a := actions[0];
      ActionPasses(bot, actionData[a.name := ActionPass(bot, actionData, a, now, evaluate, calculate)],
                   actions[1..], now, evaluate, calculate)
  }

  /** Passes over other Actions leave an entry alone. */
  lemma {:induction false} ActionUntouched(bot: LegacyBot, actionData: map<string, BotActionData>, actions: seq<Action>,
                                           now: Time, evaluate: (ActionConsideration, map<string, real>) -> Option<real>,
                                           calculate: ActionScorer, k: string)
    requires k in actionData
    requires forall i :: 0 <= i < |actions| ==> actions[i].name != k
    ensures var r := ActionPasses(bot, actionData, actions, now, evaluate, calculate);
      k in r && r[k] == actionData[k]
    decreases |actions|
  {
    if |actions| > 0 {
      var a := actions[0];
      ActionUntouched(bot, actionData[a.name := ActionPass(bot, actionData, a, now, evaluate, calculate)],
                      actions[1..], now, evaluate, calculate, k);
    }
  }

  /** With distinct Action names, each Action's stored entry is what its
      own pass made of it, so the availability rule holds for every Action
      of the BotGroup. */
  lemma {:induction false} ActionPassesEntry(bot: LegacyBot, actionData: map<string, BotActionData>, actions: seq<Action>,
                                             now: Time, evaluate: (ActionConsideration, map<string, real>) -> Option<real>,
                                             calculate: ActionScorer, j: nat)
    requires j < |actions|
    requires forall a, b :: 0 <= a < b < |actions| ==> actions[a].name != actions[b].name
    ensures var r := ActionPasses(bot, actionData, actions, now, evaluate, calculate);
      actions[j].name in r && r[actions[j].name] == ActionPass(bot, actionData, actions[j], now, evaluate, calculate)
    decreases |actions|
  {
    var a := actions[0];
    var next := actionData[a.name := ActionPass(bot, actionData, a, now, evaluate, calculate)];
    if j == 0 {
      ActionUntouched(bot, next, actions[1..], now, evaluate, calculate, a.name);
    } else {
      assert actions[1..][j - 1] == actions[j];
      ActionPassesEntry(bot, next, actions[1..], now, evaluate, calculate, j - 1);
      ActionPassReadsOwnEntry(bot, next, actionData, actions[j], now, evaluate, calculate);
    }
  }

  /** A pass reads only the entry of its own Action. */
  lemma ActionPassReadsOwnEntry(bot: LegacyBot, d1: map<string, BotActionData>, d2: map<string, BotActionData>,
                                action: Action, now: Time, evaluate: (ActionConsideration, map<string, real>) -> Option<real>,
                                calculate: ActionScorer)
    requires (action.name in d1 <==> action.name in d2) && (action.name in d1 ==> d1[action.name] == d2[action.name])
    ensures ActionPass(bot, d1, action, now, evaluate, calculate) == ActionPass(bot, d2, action, now, evaluate, calculate)
  {
  }

  /** The Consideration loop of one Action. */
  method ScoreActionConsiderationsLoop(data: BotActionData, considers: seq<ActionConsideration>, evalMap: map<string, real>,
                                       evaluate: (ActionConsideration, map<string, real>) -> Option<real>)
    returns (scored: BotActionData)
    ensures scored == ScoreActionConsiderations(data, considers, evalMap, evaluate)
  {
    scored := data;
    for i := 0 to |considers|
      invariant ScoreActionConsiderations(data, considers, evalMap, evaluate)
             == ScoreActionConsiderations(scored, considers[i..], evalMap, evaluate)
    {
      assert considers[i..][1..] == considers[i + 1..];
      var consider := considers[i];
      var result := evaluate(consider, evalMap);
      if result.None? {
        scored := SetActionScores(scored, consider.name, SmallestNonzeroFloat64, SmallestNonzeroFloat64);
        continue;
      }
      scored := SetActionScores(scored, consider.name, Weighted(result.value, consider.weight), result.value);
    }
  }

  /** One trip through the Action loop. */
  method UpdateAction(bot: LegacyBot, actionData: map<string, BotActionData>, action: Action, now: Time,
                      evaluate: (ActionConsideration, map<string, real>) -> Option<real>,
                      calculate: ActionScorer)
    returns (data: BotActionData)
    ensures data == ActionPass(bot, actionData, action, now, evaluate, calculate)
  {
    var start := if action.name in actionData then actionData[action.name] else EmptyActionData;
    var scored := ScoreActionConsiderationsLoop(start, action.considerations, GetBotEvalMapAllVariables(bot), evaluate);
    var calculated := calculate.calculateScore(action, scored);
    var finalScore := Weighted(calculated.0, action.weight);
    var statesActive := AreAllActionStatesActive(action, bot.stateValues);
    data := scored.(finalScore := finalScore);
    if finalScore >= action.weightThreshold && statesActive {
      if !data.isAvailable {
        data := data.(isAvailable := true, availableStartTime := now);
      }
    } else {
      data := data.(isAvailable := false, availableStartTime := UnixMilli(0));
    }
    assert data == UpdateActionAvailability(scored, finalScore, action.weightThreshold, statesActive, now);
    var details := ExplainAction(calculated, action, statesActive, calculate.format);
    data := data.(details := details);
  }

  /** The `details` appends of one trip through the Action loop. */
  method ExplainAction(calculated: (real, seq<string>), action: Action, statesActive: bool, f: DetailFormat)
    returns (details: seq<string>)
    ensures details == ActionDetails(calculated, action, statesActive, f)
  {
    var finalScore := Weighted(calculated.0, action.weight);
    details := calculated.1;
    if !(finalScore >= action.weightThreshold && statesActive) {
      if !statesActive {
        details := details + [StatesNotActiveLine(f, action.requiredStates)];
      }
      if finalScore < action.weightThreshold {
        details := details + [MissedThresholdLine(f, finalScore, action.weightThreshold)];
      }
    }
  }

  /** `UpdateBotActionConsiderations`: every Bot's Action map after a pass
      over the BotGroup's Actions; nothing else changes.  Evaluation and the
      combining of Consideration scores are the parameters `evaluate` and
      `calculate`; `now` is the clock. */
  method UpdateBotActionConsiderations(group: LegacyBotGroup, now: Time,
                                       evaluate: (ActionConsideration, map<string, real>) -> Option<real>,
                                       calculate: ActionScorer)
    returns (newGroup: LegacyBotGroup)
    ensures newGroup == group.(bots := newGroup.bots)
    ensures |newGroup.bots| == |group.bots|
    ensures forall i :: 0 <= i < |group.bots| ==>
      newGroup.bots[i] == group.bots[i].(actionData := ActionPasses(group.bots[i], group.bots[i].actionData,
                                                                    group.actions, now, evaluate, calculate))
  {
    newGroup := group;
    for botIndex := 0 to |group.bots|
      invariant newGroup == group.(bots := newGroup.bots)
      invariant |newGroup.bots| == |group.bots|
      invariant forall j :: botIndex <= j < |group.bots| ==> newGroup.bots[j] == group.bots[j]
      invariant forall j :: 0 <= j < botIndex ==>
        newGroup.bots[j] == group.bots[j].(actionData := ActionPasses(group.bots[j], group.bots[j].actionData,
                                                                      group.actions, now, evaluate, calculate))
    {
      var bot := group.bots[botIndex];
      var actionData := bot.actionData;
      for a := 0 to |group.actions|
        invariant ActionPasses(bot, bot.actionData, group.actions, now, evaluate, calculate)
               == ActionPasses(bot, actionData, group.actions[a..], now, evaluate, calculate)
      {
        assert group.actions[a..][1..] == group.actions[a + 1..];
        var data := UpdateAction(bot, actionData, group.actions[a], now, evaluate, calculate);
        actionData := actionData[group.actions[a].name := data];
      }
      newGroup := newGroup.(bots := newGroup.bots[botIndex := bot.(actionData := actionData)]);
    }
  }

  /** What `SortAllVariablesAndActions` leaves in a Bot. */
  ghost predicate SortedLegacyBot(before: LegacyBot, after: LegacyBot)
  {
    && after == before.(sortedVariableValues := after.sortedVariableValues, sortedActionData := after.sortedActionData)
    && PairsOf(after.sortedVariableValues, before.variableValues)
    && (forall i, j :: 0 <= i < j < |after.sortedVariableValues| ==>
          LexLess(after.sortedVariableValues[i].key, after.sortedVariableValues[j].key))
    && EntriesOf(after.sortedActionData, before.actionData, ActionPairKey, ActionPairValue)
    && SortedBy(after.sortedActionData, ActionPairGe)
  }

  /** `SortAllVariablesAndActions`: variables by name, Actions highest
      final score first. */
  method SortAllVariablesAndActions(group: LegacyBotGroup) returns (newGroup: LegacyBotGroup)
    ensures newGroup == group.(bots := newGroup.bots)
    ensures |newGroup.bots| == |group.bots|
    ensures forall i :: 0 <= i < |group.bots| ==> SortedLegacyBot(group.bots[i], newGroup.bots[i])
  {
    newGroup := group;
    for botIndex := 0 to |group.bots|
      invariant newGroup == group.(bots := newGroup.bots)
      invariant |newGroup.bots| == |group.bots|
      invariant forall j :: botIndex <= j < |group.bots| ==> newGroup.bots[j] == group.bots[j]
      invariant forall j :: 0 <= j < botIndex ==> SortedLegacyBot(group.bots[j], newGroup.bots[j])
    {
      var bot := group.bots[botIndex];
      var sortedVars := SortMapStringFloat64ByKey(bot.variableValues);
      var sortedActions := SortMapStringActionDataByFinalScore(bot.actionData, false);
      newGroup := newGroup.(bots := newGroup.bots[botIndex := bot.(sortedVariableValues := sortedVars,
                                                                  sortedActionData := sortedActions)]);
    }
  }

  /** What one pass of `UpdateSiteBotGroups` leaves in a BotGroup: only the
      Bots changed; they are exactly the distinct Bots the extractor series
      name, each with the initial state entries, its variables sorted by
      name and its Actions highest score first. */
  ghost predicate UpdatedGroup(before: LegacyBotGroup, after: LegacyBotGroup, promData: seq<PromResult>)
  {
    && after == before.(bots := after.bots)
    && (|promData| > 0 ==> StatesHaveLabels(before))
    && Distinct(Names(after.bots))
    && (forall i :: 0 <= i < |after.bots| ==> after.bots[i].name in NamesIn(promData, ExtractorBotKey))
    && (forall r :: r in promData ==> BotNameOf(r, ExtractorBotKey) in Names(after.bots))
    && (|promData| == 0 <==> |after.bots| == 0)
    && (forall i :: 0 <= i < |after.bots| ==>
          && after.bots[i].stateValues == InitialStateValues(before.states)
          && PairsOf(after.bots[i].sortedVariableValues, after.bots[i].variableValues)
          && EntriesOf(after.bots[i].sortedActionData, after.bots[i].actionData, ActionPairKey, ActionPairValue)
          && SortedBy(after.bots[i].sortedActionData, ActionPairGe))
  }

  /** The passes after extraction keep the BotGroup's configuration and
      each Bot's name and states. */
  predicate Keeps(before: LegacyBotGroup, after: LegacyBotGroup)
  {
    && after == before.(bots := after.bots)
    && |after.bots| == |before.bots|
    && forall i :: 0 <= i < |before.bots| ==>
         after.bots[i].name == before.bots[i].name && after.bots[i].stateValues == before.bots[i].stateValues
  }

  /** The body of the BotGroup loop of `UpdateSiteBotGroups`, without
      `CreateFormattedVariables`. */
  method UpdateBotGroup(group: LegacyBotGroup, promData: seq<PromResult>, cached: BotQuery -> Option<QueryResult>,
                        parseFloat: string -> real, format: (string, map<string, string>) -> string,
                        evaluateVariable: (BotVariable, map<string, real>) -> Option<real>,
                        evaluate: (ActionConsideration, map<string, real>) -> Option<real>,
                        calculate: ActionScorer, now: Time)
    returns (newGroup: LegacyBotGroup)
    requires |promData| > 0 ==> StatesHaveLabels(group)
    ensures UpdatedGroup(group, newGroup, promData)
  {
    var g1 := UpdateBotGroupFromPrometheus(group, promData);
    assert Extracted(group, g1, promData);
    var g2 := ClearAllBotVariables(g1);
    assert Keeps(g1, g2);
    var g3 := UpdateBotsFromQueries(g2, cached, parseFloat, format);
    KeepsChain(g1, g2, g3);
    var g4 := UpdateBotsWithSyntheticVariables(g3, evaluateVariable);
    KeepsChain(g1, g3, g4);
    var g5 := UpdateBotActionConsiderations(g4, now, evaluate, calculate);
    KeepsChain(g1, g4, g5);
    newGroup := SortAllVariablesAndActions(g5);
    SortKeeps(g5, newGroup);
    KeepsChain(g1, g5, newGroup);
    UpdatedFromExtracted(group, g1, newGroup, promData);
  }

  /** What `UpdateBotGroupFromPrometheus` leaves, as one predicate. */
  ghost predicate Extracted(group: LegacyBotGroup, g1: LegacyBotGroup, promData: seq<PromResult>)
  {
    && g1 == group.(bots := g1.bots)
    && (|promData| > 0 ==> StatesHaveLabels(group))
    && Distinct(Names(g1.bots))
    && (forall i :: 0 <= i < |g1.bots| ==> g1.bots[i].name in NamesIn(promData, ExtractorBotKey))
    && (forall r :: r in promData ==> BotNameOf(r, ExtractorBotKey) in Names(g1.bots))
    && (|promData| == 0 <==> |g1.bots| == 0)
    && (forall i :: 0 <= i < |g1.bots| ==> g1.bots[i].stateValues == InitialStateValues(group.states))
  }

  lemma KeepsChain(a: LegacyBotGroup, b: LegacyBotGroup, c: LegacyBotGroup)
    requires Keeps(a, b) && Keeps(b, c)
    ensures Keeps(a, c)
  {
  }

  /** A BotGroup that kept the extracted Bots' names and states, with
      every Bot's variables and Actions in order, completes the update. */
  lemma UpdatedFromExtracted(group: LegacyBotGroup, g1: LegacyBotGroup, newGroup: LegacyBotGroup,
                             promData: seq<PromResult>)
    requires Extracted(group, g1, promData)
    requires Keeps(g1, newGroup)
    requires forall i :: 0 <= i < |newGroup.bots| ==> SortedParts(newGroup.bots[i])
    ensures UpdatedGroup(group, newGroup, promData)
  {
    SameNames(g1, newGroup);
  }

  /** A Bot's sorted lists hold its variables and Actions in order. */
  ghost predicate SortedParts(bot: LegacyBot)
  {
    && PairsOf(bot.sortedVariableValues, bot.variableValues)
    && EntriesOf(bot.sortedActionData, bot.actionData, ActionPairKey, ActionPairValue)
    && SortedBy(bot.sortedActionData, ActionPairGe)
  }

  lemma SortKeeps(g5: LegacyBotGroup, newGroup: LegacyBotGroup)
    requires newGroup == g5.(bots := newGroup.bots) && |newGroup.bots| == |g5.bots|
    requires forall i :: 0 <= i < |g5.bots| ==> SortedLegacyBot(g5.bots[i], newGroup.bots[i])
    ensures Keeps(g5, newGroup)
    ensures forall i :: 0 <= i < |newGroup.bots| ==> SortedParts(newGroup.bots[i])
  {
    forall i | 0 <= i < |g5.bots|
      ensures newGroup.bots[i].name == g5.bots[i].name && newGroup.bots[i].stateValues == g5.bots[i].stateValues
      ensures SortedParts(newGroup.bots[i])
    {
      assert SortedLegacyBot(g5.bots[i], newGroup.bots[i]);
    }
  }

  lemma SameNames(a: LegacyBotGroup, b: LegacyBotGroup)
    requires Keeps(a, b)
    ensures Names(b.bots) == Names(a.bots)
  {
  }

  /** `UpdateSiteBotGroups`: every BotGroup of the Site is rebuilt in turn
      and nothing else in the Site changes.  Each BotGroup's extractor
      series come from `fetch`, the Prometheus request. */
  method UpdateSiteBotGroups(site: LegacySite, fetch: LegacyBotGroup -> seq<PromResult>,
                             cached: BotQuery -> Option<QueryResult>,
                             parseFloat: string -> real, format: (string, map<string, string>) -> string,
                             evaluateVariable: (BotVariable, map<string, real>) -> Option<real>,
                             evaluate: (ActionConsideration, map<string, real>) -> Option<real>,
                             calculate: ActionScorer, now: Time)
    returns (newSite: LegacySite)
    requires forall g :: 0 <= g < |site.botGroups| ==>
      |fetch(site.botGroups[g])| > 0 ==> StatesHaveLabels(site.botGroups[g])
    ensures newSite == site.(botGroups := newSite.botGroups)
    ensures |newSite.botGroups| == |site.botGroups|
    ensures forall g :: 0 <= g < |site.botGroups| ==>
      UpdatedGroup(site.botGroups[g], newSite.botGroups[g], fetch(site.botGroups[g]))
  {
    newSite := site;
    for index := 0 to |site.botGroups|
      invariant newSite == site.(botGroups := newSite.botGroups)
      invariant |newSite.botGroups| == |site.botGroups|
      invariant forall g :: index <= g < |site.botGroups| ==> newSite.botGroups[g] == site.botGroups[g]
      invariant forall g :: 0 <= g < index ==> UpdatedGroup(site.botGroups[g], newSite.botGroups[g], fetch(site.botGroups[g]))
    {
      var group := newSite.botGroups[index];
      var updated := UpdateBotGroup(group, fetch(group), cached, parseFloat, format, evaluateVariable, evaluate, calculate, now);
      ghost var before := newSite.botGroups;
      newSite := newSite.(botGroups := newSite.botGroups[index := updated]);
      UpdatedPrefix(site.botGroups, before, newSite.botGroups, fetch, index);
    }
  }

  /** Writing the rebuilt BotGroup at `index` extends the rebuilt prefix by
      one. */
  lemma UpdatedPrefix(groups: seq<LegacyBotGroup>, before: seq<LegacyBotGroup>, after: seq<LegacyBotGroup>,
                      fetch: LegacyBotGroup -> seq<PromResult>, index: nat)
    requires |before| == |groups| && index < |groups|
    requires forall g :: 0 <= g < index ==> UpdatedGroup(groups[g], before[g], fetch(groups[g]))
    requires |after| == |before| && UpdatedGroup(groups[index], after[index], fetch(groups[index]))
    requires forall g :: 0 <= g < |groups| && g != index ==> after[g] == before[g]
    ensures forall g :: 0 <= g < index + 1 ==> UpdatedGroup(groups[g], after[g], fetch(groups[g]))
  {
  }
}
