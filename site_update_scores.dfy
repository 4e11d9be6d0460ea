/** Scoring bookkeeping in code/extdata/site_update.go: the evaluation
    maps, the per-Consideration score slots, the availability rule of a
    Condition and its explanation, and the per-Bot sorts.  Expression
    evaluation, range mapping, curves and the combining of Consideration
    scores are floating-point numerics outside this model: they arrive as
    the parameters `score` and `calculate`, the latter with the number
    formatting of the explanation lines. */
module SiteUpdateScores {
  import opened Wrappers
  import opened Data
  import opened GoText
  import opened Sorting
  import opened FixGoData
  import opened FixGoSort
  import opened BotGroupLookup
  import opened SiteUpdateExecute
  import opened QueryMatching

  /** `GetBotEvalMapOnlyQueries(bot, queryVariableNames)`: the Bot's values
      of the listed variables. */
  function GetBotEvalMapOnlyQueries(bot: Bot, queryVariableNames: seq<string>): (r: map<string, real>)
    ensures forall k :: k in r <==> k in bot.variableValues && k in queryVariableNames
    ensures forall k :: k in r ==> r[k] == bot.variableValues[k]
  {
    map k | k in bot.variableValues && k in queryVariableNames :: bot.variableValues[k]
  }

  /** `GetBotEvalMapAllVariables(bot)`: a copy of all the Bot's values. */
  function GetBotEvalMapAllVariables(bot: Bot): (r: map<string, real>)
    ensures r.Keys == bot.variableValues.Keys
    ensures forall k :: k in r ==> r[k] == bot.variableValues[k]
  {
    map k | k in bot.variableValues :: bot.variableValues[k]
  }

  /** The query-only map is the full map cut down to the query variables:
      a synthetic variable's own value, or any name no query variable has,
      never reaches a synthetic expression. */
  lemma OnlyQueriesIsRestriction(bot: Bot, variables: seq<BotVariable>, k: string)
    ensures var only := GetBotEvalMapOnlyQueries(bot, QueryVariableNames(variables));
      && (k in only ==> k in GetBotEvalMapAllVariables(bot) && only[k] == GetBotEvalMapAllVariables(bot)[k])
      && ((forall i :: 0 <= i < |variables| && variables[i].name == k ==> variables[i].evaluate != "") ==> k !in only)
  {
  }

  /** The availability rule of `UpdateBotConditionConsiderations`: the
      Condition is available when its final score reaches its weight
      threshold, its required states are all active and its lock timers are
      all free.  The start time is set only on becoming available and is
      reset to the epoch on losing it; missing states also zero the
      score.  The explanation is `ConditionDetails`, which `ConditionPass`
      stores over the old one. */
  function UpdateAvailability(data: BotConditionData, finalScore: real, weightThreshold: real,
                              statesActive: bool, locksFree: bool, now: Time): (r: BotConditionData)
    ensures r.isAvailable <==> (finalScore >= weightThreshold && statesActive && locksFree)
    ensures r.isAvailable && data.isAvailable ==> r.availableStartTime == data.availableStartTime
    ensures r.isAvailable && !data.isAvailable ==> r.availableStartTime == now
    ensures !r.isAvailable ==> r.availableStartTime == UnixMilli(0)
    ensures r.finalScore == (if !statesActive then 0.0 else finalScore)
    ensures r == data.(finalScore := r.finalScore, isAvailable := r.isAvailable, availableStartTime := r.availableStartTime)
  {
    var d := data.(finalScore := finalScore);
    if finalScore >= weightThreshold && statesActive && locksFree then
      if !d.isAvailable then d.(isAvailable := true, availableStartTime := now) else d
    else
      var d' := if !statesActive then d.(finalScore := 0.0) else d;
      d'.(isAvailable := false, availableStartTime := UnixMilli(0))
  }

  /** One availability update per pass, each with its own clock reading.
      A Condition that passes at `t1` and again at `t2` has been available
      since `t1` if it was not before; a failing pass in between starts the
      count again. */
  lemma AvailableSinceFirstPass(data: BotConditionData, s1: real, s2: real, threshold: real, t1: Time, t2: Time)
    requires !data.isAvailable
    requires s1 >= threshold && s2 >= threshold
    ensures var d1 := UpdateAvailability(data, s1, threshold, true, true, t1);
      var d2 := UpdateAvailability(d1, s2, threshold, true, true, t2);
      d2.isAvailable && d2.availableStartTime == t1
  {
  }

  lemma FailingPassRestarts(data: BotConditionData, s1: real, s2: real, s3: real, threshold: real,
                            t1: Time, t2: Time, t3: Time)
    requires s1 >= threshold && s2 < threshold && s3 >= threshold
    ensures var d1 := UpdateAvailability(data, s1, threshold, true, true, t1);
      var d2 := UpdateAvailability(d1, s2, threshold, true, true, t2);
      var d3 := UpdateAvailability(d2, s3, threshold, true, true, t3);
      d3.isAvailable && d3.availableStartTime == t3
  {
  }

  /** `app.CalculateScore`, which combines the Consideration scores into one
      score and explains it line by line, and the formatting of the lines
      this flow adds. */
  datatype ConditionScorer = ConditionScorer(calculateScore: (Condition, BotConditionData) -> (real, seq<string>),
                                             format: DetailFormat)

  /** The fixed text of the explanation lines, as the source writes it. */
  const AllConsiderScoresText: string := "All Consider Scores: "
  const ConditionWeightText: string := " * Condition Weight: "
  const FinalScoreText: string := " = Final Score: "
  const MissingStatesText: string := "Setting Final Score to 0.  Missing required states: "
  const MissingLockTimersText: string := "Not available.  Missing required Lock Timers: "
  const FinalScoreOpenText: string := "Final Score ("
  const BelowThresholdText: string := ") less tha Condition Weight Threshold ("
  const CloseText: string := ")"

  function AllConsiderScoresLine(f: DetailFormat, calculatedScore: real, weight: real, finalScore: real): string
  {
    AllConsiderScoresText + f.fixed2(calculatedScore) + ConditionWeightText + f.fixed2(weight)
      + FinalScoreText + f.fixed2(finalScore)
  }

  function MissingStatesLine(f: DetailFormat, requiredStates: seq<string>): string
  {
    MissingStatesText + f.csv(requiredStates)
  }

  function MissingLockTimersLine(f: DetailFormat, requiredLockTimers: seq<string>): string
  {
    MissingLockTimersText + f.csv(requiredLockTimers)
  }

  function BelowThresholdLine(f: DetailFormat, finalScore: real, weightThreshold: real): string
  {
    FinalScoreOpenText + f.fixed2(finalScore) + BelowThresholdText + f.fixed2(weightThreshold) + CloseText
  }

  /** The lines a pass adds for each reason the Condition is not
      available, in the order the pass checks them. */
  function UnavailableLines(f: DetailFormat, condition: Condition, finalScore: real, statesActive: bool, locksFree: bool): seq<string>
  {
    LineIf(!statesActive, MissingStatesLine(f, condition.requiredStates))
      + LineIf(!locksFree, MissingLockTimersLine(f, condition.requiredLockTimers))
      + LineIf(finalScore < condition.weightThreshold, BelowThresholdLine(f, finalScore, condition.weightThreshold))
  }

  /** The `Details` a pass stores for the Condition. */
  function ConditionDetails(calculated: (real, seq<string>), condition: Condition, statesActive: bool, locksFree: bool,
                            f: DetailFormat): seq<string>
  {
    var finalScore := Weighted(calculated.0, condition.weight);
    var head := calculated.1 + [AllConsiderScoresLine(f, calculated.0, condition.weight, finalScore)];
    if finalScore >= condition.weightThreshold && statesActive && locksFree then head
    else head + UnavailableLines(f, condition, finalScore, statesActive, locksFree)
  }

  /** The stored explanation is the lines of `CalculateScore`, then the
      final-score line, then one line for each reason the Condition is not
      available (missing states, busy lock timers, a score under the
      threshold), and no other line. */
  lemma ConditionDetailsExplain(calculated: (real, seq<string>), condition: Condition, statesActive: bool, locksFree: bool,
                                f: DetailFormat)
    ensures var r := ConditionDetails(calculated, condition, statesActive, locksFree, f);
      var n := |calculated.1|;
      var finalScore := Weighted(calculated.0, condition.weight);
      && |r| == n + 1 + (if statesActive then 0 else 1) + (if locksFree then 0 else 1)
                + (if finalScore < condition.weightThreshold then 1 else 0)
      && r[..n] == calculated.1
      && r[n] == AllConsiderScoresLine(f, calculated.0, condition.weight, finalScore)
      && (!statesActive ==> MissingStatesLine(f, condition.requiredStates) in r[n + 1..])
      && (!locksFree ==> MissingLockTimersLine(f, condition.requiredLockTimers) in r[n + 1..])
      && (finalScore < condition.weightThreshold ==> BelowThresholdLine(f, finalScore, condition.weightThreshold) in r[n + 1..])
      && (forall i :: n < i < |r| ==>
            || (r[i] == MissingStatesLine(f, condition.requiredStates) && !statesActive)
            || (r[i] == MissingLockTimersLine(f, condition.requiredLockTimers) && !locksFree)
            || (r[i] == BelowThresholdLine(f, finalScore, condition.weightThreshold) && finalScore < condition.weightThreshold))
  {
    var r := ConditionDetails(calculated, condition, statesActive, locksFree, f);
    var n := |calculated.1|;
    var finalScore := Weighted(calculated.0, condition.weight);
    var head := calculated.1 + [AllConsiderScoresLine(f, calculated.0, condition.weight, finalScore)];
    var tail := if finalScore >= condition.weightThreshold && statesActive && locksFree then []
                else UnavailableLines(f, condition, finalScore, statesActive, locksFree);
    assert r == head + tail;
    assert r[n + 1..] == tail;
    UnavailableLinesAre(f, condition, finalScore, statesActive, locksFree);
  }

  /** One line per reason, and only lines for reasons that hold. */
  lemma UnavailableLinesAre(f: DetailFormat, condition: Condition, finalScore: real, statesActive: bool, locksFree: bool)
    ensures var t := UnavailableLines(f, condition, finalScore, statesActive, locksFree);
      && |t| == (if statesActive then 0 else 1) + (if locksFree then 0 else 1)
                + (if finalScore < condition.weightThreshold then 1 else 0)
      && (!statesActive ==> MissingStatesLine(f, condition.requiredStates) in t)
      && (!locksFree ==> MissingLockTimersLine(f, condition.requiredLockTimers) in t)
      && (finalScore < condition.weightThreshold ==> BelowThresholdLine(f, finalScore, condition.weightThreshold) in t)
      && (forall i :: 0 <= i < |t| ==>
            || (t[i] == MissingStatesLine(f, condition.requiredStates) && !statesActive)
            || (t[i] == MissingLockTimersLine(f, condition.requiredLockTimers) && !locksFree)
            || (t[i] == BelowThresholdLine(f, finalScore, condition.weightThreshold) && finalScore < condition.weightThreshold))
  {
  }

  /** Raw, range-mapped and curved scores of one Consideration. */
  datatype ConsiderationScores = ConsiderationScores(raw: real, ranged: real, curved: real)

  /** The four score-map writes under one Consideration name. */
  function SetScores(data: BotConditionData, name: string, final: real, curved: real, ranged: real, raw: real): BotConditionData
  {
    data.(considerationFinalScores := data.considerationFinalScores[name := final],
          considerationCurvedScores := data.considerationCurvedScores[name := curved],
          considerationRangedScores := data.considerationRangedScores[name := ranged],
          considerationRawScores := data.considerationRawScores[name := raw])
  }

  /** One Consideration of the scoring loop: the four score slots first get
      the `SmallestNonzeroFloat64` placeholder, and only a successful
      evaluation (`outcome` is `Some`) overwrites them, the final score being
      the curved score times the Consideration's weight. */
  function ScoreConsideration(data: BotConditionData, consider: ConditionConsideration,
                              outcome: Option<ConsiderationScores>): BotConditionData
  {
    var n := consider.name;
    var placeholder := SetScores(data, n, SmallestNonzeroFloat64, SmallestNonzeroFloat64,
                                 SmallestNonzeroFloat64, SmallestNonzeroFloat64);
    match outcome
    case None => placeholder
    case Some(s) => SetScores(placeholder, n, Weighted(s.curved, consider.weight), s.curved, s.ranged, s.raw)
  }

  /** The score maps of one Consideration: the placeholder, or the
      evaluation's scores with the final score weighted, under this
      Consideration's name only. */
  lemma ScoreConsiderationSetsOnly(data: BotConditionData, consider: ConditionConsideration,
                                   outcome: Option<ConsiderationScores>)
    ensures var r := ScoreConsideration(data, consider, outcome); outcome.None? ==>
      && SetOnly(data.considerationFinalScores, r.considerationFinalScores, consider.name, SmallestNonzeroFloat64)
      && SetOnly(data.considerationCurvedScores, r.considerationCurvedScores, consider.name, SmallestNonzeroFloat64)
      && SetOnly(data.considerationRangedScores, r.considerationRangedScores, consider.name, SmallestNonzeroFloat64)
      && SetOnly(data.considerationRawScores, r.considerationRawScores, consider.name, SmallestNonzeroFloat64)
    ensures var r := ScoreConsideration(data, consider, outcome); outcome.Some? ==>
      && SetOnly(data.considerationFinalScores, r.considerationFinalScores, consider.name, Weighted(outcome.value.curved, consider.weight))
      && SetOnly(data.considerationCurvedScores, r.considerationCurvedScores, consider.name, outcome.value.curved)
      && SetOnly(data.considerationRangedScores, r.considerationRangedScores, consider.name, outcome.value.ranged)
      && SetOnly(data.considerationRawScores, r.considerationRawScores, consider.name, outcome.value.raw)
    ensures var r := ScoreConsideration(data, consider, outcome); r == data.(considerationFinalScores := r.considerationFinalScores,
                       considerationCurvedScores := r.considerationCurvedScores,
                       considerationRangedScores := r.considerationRangedScores,
                       considerationRawScores := r.considerationRawScores)
  {
  }

  /** The Consideration loop, front to back. */
  function ScoreConsiderations(data: BotConditionData, considers: seq<ConditionConsideration>, evalMap: map<string, real>,
                               score: (ConditionConsideration, map<string, real>) -> Option<ConsiderationScores>): BotConditionData
    decreases |considers|
  {
    if |considers| == 0 then data
    else ScoreConsiderations(ScoreConsideration(data, considers[0], score(considers[0], evalMap)), considers[1..], evalMap, score)
  }

  /** After the loop every Consideration has an entry in all four score
      maps, evaluated or not, and the Condition-level fields are unchanged. */
  lemma {:induction false} ScoredHasEveryConsideration(data: BotConditionData, considers: seq<ConditionConsideration>,
                                                       evalMap: map<string, real>,
                                                       score: (ConditionConsideration, map<string, real>) -> Option<ConsiderationScores>)
    ensures var r := ScoreConsiderations(data, considers, evalMap, score);
      && (forall i :: 0 <= i < |considers| ==>
            && considers[i].name in r.considerationFinalScores && considers[i].name in r.considerationCurvedScores
            && considers[i].name in r.considerationRangedScores && considers[i].name in r.considerationRawScores)
      && r.finalScore == data.finalScore && r.isAvailable == data.isAvailable
      && r.availableStartTime == data.availableStartTime
    decreases |considers|
  {
    if |considers| > 0 {
      var next := ScoreConsideration(data, considers[0], score(considers[0], evalMap));
      ScoredHasEveryConsideration(next, considers[1..], evalMap, score);
      KeepsPresent(next, considers[1..], evalMap, score, considers[0].name);
      var r := ScoreConsiderations(data, considers, evalMap, score);
      forall i | 0 < i < |considers|
        ensures considers[i].name in r.considerationFinalScores && considers[i].name in r.considerationCurvedScores
        ensures considers[i].name in r.considerationRangedScores && considers[i].name in r.considerationRawScores
      {
        assert considers[1..][i - 1] == considers[i];
      }
    }
  }

  /** A key present in all four maps stays present. */
  lemma {:induction false} KeepsPresent(data: BotConditionData, considers: seq<ConditionConsideration>, evalMap: map<string, real>,
                                        score: (ConditionConsideration, map<string, real>) -> Option<ConsiderationScores>, k: string)
    requires k in data.considerationFinalScores && k in data.considerationCurvedScores
    requires k in data.considerationRangedScores && k in data.considerationRawScores
    ensures var r := ScoreConsiderations(data, considers, evalMap, score);
      k in r.considerationFinalScores && k in r.considerationCurvedScores
      && k in r.considerationRangedScores && k in r.considerationRawScores
    decreases |considers|
  {
    if |considers| > 0 {
      KeepsPresent(ScoreConsideration(data, considers[0], score(considers[0], evalMap)), considers[1..], evalMap, score, k);
    }
  }

  /** The Condition's entry the Bot starts the pass with: the stored one, or
      a new one with empty score maps. */
  function StartingConditionData(conditionData: map<string, BotConditionData>, name: string): BotConditionData
  {
    if name in conditionData then conditionData[name] else EmptyConditionData
  }

  /** The Condition's entry after one pass of the Condition loop. */
  function ConditionPass(group: BotGroup, bot: Bot, conditionData: map<string, BotConditionData>, condition: Condition,
                         now: Time, score: (ConditionConsideration, map<string, real>) -> Option<ConsiderationScores>,
                         calculate: ConditionScorer): BotConditionData
  {
    var scored := ScoreConsiderations(StartingConditionData(conditionData, condition.name), condition.considerations,
                                      GetBotEvalMapAllVariables(bot), score);
    var calculated := calculate.calculateScore(condition, scored);
    var statesActive := AreAllConditionStatesActive(condition, bot.stateValues);
    var locksFree := AreAllConditionLockTimersAvailable(condition, group.lockTimers, now);
    UpdateAvailability(scored, Weighted(calculated.0, condition.weight), condition.weightThreshold, statesActive, locksFree, now)
      .(details := ConditionDetails(calculated, condition, statesActive, locksFree, calculate.format))
  }

  /** The Condition loop, front to back, over the Bot's Condition map. */
  function ConditionPasses(group: BotGroup, bot: Bot, conditionData: map<string, BotConditionData>, conditions: seq<Condition>,
                           now: Time, score: (ConditionConsideration, map<string, real>) -> Option<ConsiderationScores>,
                           calculate: ConditionScorer): map<string, BotConditionData>
    decreases |conditions|
  {
    if |conditions| == 0 then conditionData
    else
      var c := conditions[0];
      ConditionPasses(group, bot, conditionData[c.name := ConditionPass(group, bot, conditionData, c, now, score, calculate)],
                      conditions[1..], now, score, calculate)
  }

  /** Some Condition of the list is called `k`. */
  predicate NamesCondition(conditions: seq<Condition>, k: string)
  {
    exists i :: 0 <= i < |conditions| && conditions[i].name == k
  }

  /** After the pass the Bot has an entry for exactly its old Conditions and
      the BotGroup's. */
  lemma {:induction false} ConditionPassesKeys(group: BotGroup, bot: Bot, conditionData: map<string, BotConditionData>,
                                               conditions: seq<Condition>, now: Time,
                                               score: (ConditionConsideration, map<string, real>) -> Option<ConsiderationScores>,
                                               calculate: ConditionScorer)
    ensures forall k :: k in ConditionPasses(group, bot, conditionData, conditions, now, score, calculate) <==>
      (k in conditionData || NamesCondition(conditions, k))
    decreases |conditions|
  {
    if |conditions| > 0 {
      var c := conditions[0];
      ConditionPassesKeys(group, bot, conditionData[c.name := ConditionPass(group, bot, conditionData, c, now, score, calculate)],
                          conditions[1..], now, score, calculate);
      forall k | NamesCondition(conditions, k) && k != c.name
        ensures NamesCondition(conditions[1..], k)
      {
        var i :| 0 <= i < |conditions| && conditions[i].name == k;
        assert conditions[1..][i - 1] == conditions[i];
      }
      forall k | NamesCondition(conditions[1..], k)
        ensures NamesCondition(conditions, k)
      {
        var i :| 0 <= i < |conditions[1..]| && conditions[1..][i].name == k;
        assert conditions[i + 1].name == k;
      }
    }
  }

  /** With distinct Condition names, the stored entry of each Condition is
      what its own pass made of it, so the availability rule holds for every
      Condition of the BotGroup. */
  lemma {:induction false} ConditionPassesEntry(group: BotGroup, bot: Bot, conditionData: map<string, BotConditionData>,
                                                conditions: seq<Condition>, now: Time,
                                                score: (ConditionConsideration, map<string, real>) -> Option<ConsiderationScores>,
                                                calculate: ConditionScorer, j: nat)
    requires j < |conditions|
    requires forall a, b :: 0 <= a < b < |conditions| ==> conditions[a].name != conditions[b].name
    ensures var r := ConditionPasses(group, bot, conditionData, conditions, now, score, calculate);
      conditions[j].name in r && r[conditions[j].name] == ConditionPass(group, bot, conditionData, conditions[j], now, score, calculate)
    decreases |conditions|
  {
    var c := conditions[0];
    var next := conditionData[c.name := ConditionPass(group, bot, conditionData, c, now, score, calculate)];
    if j == 0 {
      Untouched(group, bot, next, conditions[1..], now, score, calculate, c.name);
    } else {
      assert conditions[1..][j - 1] == conditions[j];
      ConditionPassesEntry(group, bot, next, conditions[1..], now, score, calculate, j - 1);
      assert StartingConditionData(next, conditions[j].name) == StartingConditionData(conditionData, conditions[j].name);
    }
  }

  /** Passes over other Conditions leave an entry alone. */
  lemma {:induction false} Untouched(group: BotGroup, bot: Bot, conditionData: map<string, BotConditionData>,
                                     conditions: seq<Condition>, now: Time,
                                     score: (ConditionConsideration, map<string, real>) -> Option<ConsiderationScores>,
                                     calculate: ConditionScorer, k: string)
    requires k in conditionData
    requires forall i :: 0 <= i < |conditions| ==> conditions[i].name != k
    ensures var r := ConditionPasses(group, bot, conditionData, conditions, now, score, calculate);
      k in r && r[k] == conditionData[k]
    decreases |conditions|
  {
    if |conditions| > 0 {
      var c := conditions[0];
      Untouched(group, bot, conditionData[c.name := ConditionPass(group, bot, conditionData, c, now, score, calculate)],
                conditions[1..], now, score, calculate, k);
    }
  }

  /** The Consideration loop of one Condition. */
  method ScoreConditionConsiderations(data: BotConditionData, considers: seq<ConditionConsideration>,
                                      evalMap: map<string, real>,
                                      score: (ConditionConsideration, map<string, real>) -> Option<ConsiderationScores>)
    returns (scored: BotConditionData)
    ensures scored == ScoreConsiderations(data, considers, evalMap, score)
  {
    scored := data;
    for i := 0 to |considers|
      invariant ScoreConsiderations(data, considers, evalMap, score) == ScoreConsiderations(scored, considers[i..], evalMap, score)
    {
      assert considers[i..][1..] == considers[i + 1..];
      var consider := considers[i];
      var n := consider.name;
      ghost var before := scored;
      var outcome := score(consider, evalMap);
      scored := SetScores(scored, n, SmallestNonzeroFloat64, SmallestNonzeroFloat64,
                          SmallestNonzeroFloat64, SmallestNonzeroFloat64);
      if outcome.None? {
        assert scored == ScoreConsideration(before, consider, outcome);
        continue;
      }
      var s := outcome.value;
      scored := SetScores(scored, n, Weighted(s.curved, consider.weight), s.curved, s.ranged, s.raw);
      assert scored == ScoreConsideration(before, consider, outcome);
    }
  }

  /** One trip through the Condition loop of `UpdateBotConditionConsiderations`. */
  method UpdateCondition(group: BotGroup, bot: Bot, conditionData: map<string, BotConditionData>, condition: Condition,
                         now: Time, score: (ConditionConsideration, map<string, real>) -> Option<ConsiderationScores>,
                         calculate: ConditionScorer)
    returns (data: BotConditionData)
    ensures data == ConditionPass(group, bot, conditionData, condition, now, score, calculate)
  {
    var start := if condition.name in conditionData then conditionData[condition.name] else EmptyConditionData;
    assert start == StartingConditionData(conditionData, condition.name);
    var scored := ScoreConditionConsiderations(start, condition.considerations, GetBotEvalMapAllVariables(bot), score);
    var calculated := calculate.calculateScore(condition, scored);
    var finalScore := Weighted(calculated.0, condition.weight);
    var statesActive := AreAllConditionStatesActive(condition, bot.stateValues);
    var locksFree := AreAllConditionLockTimersAvailable(condition, group.lockTimers, now);
    data := scored.(finalScore := finalScore);
    if finalScore >= condition.weightThreshold && statesActive && locksFree {
      if !data.isAvailable {
        data := data.(isAvailable := true, availableStartTime := now);
      }
    } else {
      if !statesActive {
        data := data.(finalScore := 0.0);
      }
      data := data.(isAvailable := false, availableStartTime := UnixMilli(0));
    }
    assert data == UpdateAvailability(scored, finalScore, condition.weightThreshold, statesActive, locksFree, now);
    var details := ExplainCondition(calculated, condition, statesActive, locksFree, calculate.format);
    data := data.(details := details);
  }

  /** The `details` appends of one trip through the Condition loop. */
  method ExplainCondition(calculated: (real, seq<string>), condition: Condition, statesActive: bool, locksFree: bool,
                          f: DetailFormat)
    returns (details: seq<string>)
    ensures details == ConditionDetails(calculated, condition, statesActive, locksFree, f)
  {
    var calculatedScore := calculated.0;
    var finalScore := Weighted(calculatedScore, condition.weight);
    details := calculated.1 + [AllConsiderScoresLine(f, calculatedScore, condition.weight, finalScore)];
    if !(finalScore >= condition.weightThreshold && statesActive && locksFree) {
      if !statesActive {
        details := details + [MissingStatesLine(f, condition.requiredStates)];
      }
      if !locksFree {
        details := details + [MissingLockTimersLine(f, condition.requiredLockTimers)];
      }
      if finalScore < condition.weightThreshold {
        details := details + [BelowThresholdLine(f, finalScore, condition.weightThreshold)];
      }
    }
  }

  /** The Condition loop of one Bot. */
  method UpdateBotConditions(group: BotGroup, bot: Bot, now: Time,
                             score: (ConditionConsideration, map<string, real>) -> Option<ConsiderationScores>,
                             calculate: ConditionScorer)
    returns (conditionData: map<string, BotConditionData>)
    ensures conditionData == ConditionPasses(group, bot, bot.conditionData, group.conditions, now, score, calculate)
  {
    conditionData := bot.conditionData;
    var conditions := group.conditions;
    for c := 0 to |conditions|
      invariant ConditionPasses(group, bot, bot.conditionData, conditions, now, score, calculate)
             == ConditionPasses(group, bot, conditionData, conditions[c..], now, score, calculate)
    {
      assert conditions[c..][1..] == conditions[c + 1..];
      var data := UpdateCondition(group, bot, conditionData, conditions[c], now, score, calculate);
      conditionData := conditionData[conditions[c].name := data];
    }
  }

  /** `UpdateBotConditionConsiderations`: for every Bot and every Condition
      of the BotGroup, the Condition's entry is created if missing, scored,
      and given its availability.  Only the Bots' Condition maps change. */
  method UpdateBotConditionConsiderations(group: BotGroup, now: Time,
                                          score: (ConditionConsideration, map<string, real>) -> Option<ConsiderationScores>,
                                          calculate: ConditionScorer)
    returns (newGroup: BotGroup)
    ensures newGroup == group.(bots := newGroup.bots)
    ensures |newGroup.bots| == |group.bots|
    ensures forall i :: 0 <= i < |group.bots| ==>
      newGroup.bots[i] == group.bots[i].(conditionData := ConditionPasses(group, group.bots[i], group.bots[i].conditionData,
                                                                          group.conditions, now, score, calculate))
  {
    newGroup := group;
    for i := 0 to |group.bots|
      invariant newGroup == group.(bots := newGroup.bots)
      invariant |newGroup.bots| == |group.bots|
      invariant forall j :: i <= j < |group.bots| ==> newGroup.bots[j] == group.bots[j]
      invariant forall j :: 0 <= j < i ==>
        newGroup.bots[j] == group.bots[j].(conditionData := ConditionPasses(group, group.bots[j], group.bots[j].conditionData,
                                                                            group.conditions, now, score, calculate))
    {
      var bot := group.bots[i];
      var conditionData := UpdateBotConditions(group, bot, now, score, calculate);
      newGroup := newGroup.(bots := newGroup.bots[i := bot.(conditionData := conditionData)]);
    }
  }

  function ConditionPairKey(p: PairBotConditionData): string { p.key }
  function ConditionPairValue(p: PairBotConditionData): BotConditionData { p.value }

  /** `for key, value := range input`, one pair per entry, in the map's
      iteration order, which Go leaves unspecified. */
  method CollectConditionPairs(input: map<string, BotConditionData>) returns (pairList: seq<PairBotConditionData>)
    ensures EntriesOf(pairList, input, ConditionPairKey, ConditionPairValue)
  {
    pairList := [];
    ghost var keys: seq<string> := [];
    var remaining := input.Keys;
    while remaining != {}
      invariant remaining <= input.Keys
      invariant |pairList| + |remaining| == |input|
      invariant |keys| == |pairList| && forall i :: 0 <= i < |keys| ==> keys[i] == pairList[i].key
      invariant forall i :: 0 <= i < |pairList| ==>
        pairList[i].key in input && pairList[i].key !in remaining && pairList[i].value == input[pairList[i].key]
      invariant forall i, j :: 0 <= i < j < |pairList| ==> pairList[i].key != pairList[j].key
      invariant forall k :: k in input && k !in remaining ==> k in keys
      decreases |remaining|
    {
      var key :| key in remaining;
      pairList := pairList + [PairBotConditionData(key, input[key])];
      keys := keys + [key];
      remaining := remaining - {key};
    }
    forall k | k in input
      ensures exists i :: 0 <= i < |pairList| && ConditionPairKey(pairList[i]) == k
    {
      var i :| 0 <= i < |keys| && keys[i] == k;
      assert ConditionPairKey(pairList[i]) == k;
    }
  }

  /** `app.SortMapStringConditionDataByFinalScore`, whose source is not part
      of this model: taken to work like `SortMapStringActionDataByFinalScore`
      on Condition data, every entry once, ascending by
      `PairBotConditionDataList.Less` when `sortForward` and reversed
      otherwise. */
  method SortMapStringConditionDataByFinalScore(input: map<string, BotConditionData>, sortForward: bool)
    returns (output: seq<PairBotConditionData>)
    ensures EntriesOf(output, input, ConditionPairKey, ConditionPairValue)
    ensures sortForward ==> SortedBy(output, ConditionPairLe)
    ensures !sortForward ==> SortedBy(output, ConditionPairGe)
  {
    var pairList := CollectConditionPairs(input);

    ConditionPairLeTotalPreorder();
    ConditionPairGeTotalPreorder();
    if sortForward {
      output := Sort(pairList, ConditionPairLe);
    } else {
      output := Sort(pairList, ConditionPairGe);
    }
    EntriesOfPermutation(pairList, output, input, ConditionPairKey, ConditionPairValue);
  }

  /** What `SortAllVariablesAndConditions` leaves in a Bot: its variables
      as pairs in ascending key order, its Condition data highest final
      score first, and nothing else changed. */
  ghost predicate SortedBot(before: Bot, after: Bot)
  {
    && after == before.(sortedVariableValues := after.sortedVariableValues, sortedConditionData := after.sortedConditionData)
    && PairsOf(after.sortedVariableValues, before.variableValues)
    && (forall i, j :: 0 <= i < j < |after.sortedVariableValues| ==>
          LexLess(after.sortedVariableValues[i].key, after.sortedVariableValues[j].key))
    && EntriesOf(after.sortedConditionData, before.conditionData, ConditionPairKey, ConditionPairValue)
    && SortedBy(after.sortedConditionData, ConditionPairGe)
  }

  /** `SortAllVariablesAndConditions`. */
  method SortAllVariablesAndConditions(group: BotGroup) returns (newGroup: BotGroup)
    ensures newGroup == group.(bots := newGroup.bots)
    ensures |newGroup.bots| == |group.bots|
    ensures forall i :: 0 <= i < |group.bots| ==> SortedBot(group.bots[i], newGroup.bots[i])
  {
    newGroup := group;
    for i := 0 to |group.bots|
      invariant newGroup == group.(bots := newGroup.bots)
      invariant |newGroup.bots| == |group.bots|
      invariant forall j :: i <= j < |group.bots| ==> newGroup.bots[j] == group.bots[j]
      invariant forall j :: 0 <= j < i ==> SortedBot(group.bots[j], newGroup.bots[j])
    {
      var bot := group.bots[i];
      var sortedVars := SortMapStringFloat64ByKey(bot.variableValues);
      var sortedConditions := SortMapStringConditionDataByFinalScore(bot.conditionData, false);
      newGroup := newGroup.(bots := newGroup.bots[i := bot.(sortedVariableValues := sortedVars,
                                                            sortedConditionData := sortedConditions)]);
    }
  }

  /** Top-condition selection: after the sort, the one Condition
      `ExecuteBotGroupConditions` looks at has the highest final score of all
      the Bot's Conditions. */
  lemma TopConditionHasBestScore(before: Bot, after: Bot, name: string)
    requires SortedBot(before, after)
    requires name in before.conditionData
    ensures |after.sortedConditionData| > 0
    ensures before.conditionData[name].finalScore <= after.sortedConditionData[0].value.finalScore
  {
    var i :| 0 <= i < |after.sortedConditionData| && ConditionPairKey(after.sortedConditionData[i]) == name;
    if i > 0 {
      assert ConditionPairGe(after.sortedConditionData[0], after.sortedConditionData[i]);
    }
  }
}
