/** The earlier, Action-based records of package `data`
    (code/data/action_data.go, code/data/bot_data.go) that
    code/extdata/site_common.go and the `app`/`appdata` sorts work on,
    reduced to the fields those read or write. */
module ActionData {
  import opened Data
  import opened GoText
  import opened Sorting
  import opened FixGoData

  datatype ActionConsideration = ActionConsideration(name: string, weight: real, evaluate: string)

  datatype Action = Action(
    name: string,
    weight: real,
    weightThreshold: real,
    requiredLockTimers: seq<string>,
    requiredStates: seq<string>,
    considerations: seq<ActionConsideration>)

  datatype BotActionData = BotActionData(
    finalScore: real,
    isAvailable: bool,
    availableStartTime: Time,
    details: seq<string>,
    considerationFinalScores: map<string, real>,
    considerationEvaluatedScores: map<string, real>)

  /** What a Bot's first look at an Action creates: zero values and the two
      empty score maps. */
  const EmptyActionData: BotActionData := BotActionData(0.0, false, ZeroTime, [], map[], map[])

  datatype PairBotActionData = PairBotActionData(key: string, value: BotActionData)

  function ActionPairKey(p: PairBotActionData): string { p.key }
  function ActionPairValue(p: PairBotActionData): BotActionData { p.value }

  /** `for key, value := range input`, one pair per entry, in the map's
      iteration order, which Go leaves unspecified. */
  method CollectActionPairs(input: map<string, BotActionData>) returns (pairList: seq<PairBotActionData>)
    ensures EntriesOf(pairList, input, ActionPairKey, ActionPairValue)
  {
    pairList := [];
    ghost var keys: seq<string> := [];
    var remaining := input.Keys;
    while remaining != {}
      invariant remaining <= input.Keys
      invariant |pairList| + |remaining| == |input|
      invariant |keys| == |pairList| && forall i :: 0 <= i < |keys| ==> keys[i] == pairList[i].key
      invariant forall i :: 0 <= i < |pairList| ==>
        pairList[i].key in input && pairList[i].key !in remaining && pairList[i].value == input[pairList[i].key]
      invariant forall i, j :: 0 <= i < j < |pairList| ==> pairList[i].key != pairList[j].key
      invariant forall k :: k in input && k !in remaining ==> k in keys
      decreases |remaining|
    {
      var key :| key in remaining;
      pairList := pairList + [PairBotActionData(key, input[key])];
      keys := keys + [key];
      remaining := remaining - {key};
    }
    forall k | k in input
      ensures exists i :: 0 <= i < |pairList| && ActionPairKey(pairList[i]) == k
    {
      var i :| 0 <= i < |keys| && keys[i] == k;
      assert ActionPairKey(pairList[i]) == k;
    }
  }

  /** `PairBotActionDataList.Less`, whose source is not part of this model:
      taken to order like `PairBotConditionDataList.Less` (lower final score
      first; among equal scores the greater key first). */
  predicate ActionPairLess(a: PairBotActionData, b: PairBotActionData)
  {
    if a.value.finalScore != b.value.finalScore then a.value.finalScore < b.value.finalScore
    else Compare(a.key, b.key) > 0
  }

  /** Order of `sort.Sort(pairList)`. */
  predicate ActionPairLe(a: PairBotActionData, b: PairBotActionData)
  {
    !ActionPairLess(b, a)
  }

  /** Order of `sort.Sort(sort.Reverse(pairList))`. */
  predicate ActionPairGe(a: PairBotActionData, b: PairBotActionData)
  {
    !ActionPairLess(a, b)
  }

  lemma ActionPairLeTotalPreorder()
    ensures TotalPreorder(ActionPairLe)
    ensures TotalPreorder(ActionPairGe)
  {
    forall a: PairBotActionData, b: PairBotActionData
      ensures ActionPairLe(a, b) || ActionPairLe(b, a)
    {
      CompareAntisymmetric(a.key, b.key);
    }
    forall a: PairBotActionData, b: PairBotActionData, c: PairBotActionData
      | ActionPairLe(a, b) && ActionPairLe(b, c)
      ensures ActionPairLe(a, c)
    {
      KeyOrderTransitive(c.key, b.key, a.key);
    }
    assert forall a, b :: ActionPairGe(a, b) == ActionPairLe(b, a);
  }

  datatype LegacyBot = LegacyBot(
    name: string,
    variableValues: map<string, real>,
    sortedVariableValues: seq<PairFloat64>,
    stateValues: seq<string>,
    actionData: map<string, BotActionData>,
    sortedActionData: seq<PairBotActionData>)

  /** `appdata.Bot{Name: name, ActionData: {}}`, as the Prometheus
      extractor makes it. */
  function NewLegacyBot(name: string): (b: LegacyBot)
    ensures b.name == name && b.stateValues == [] && b.actionData == map[] && b.variableValues == map[]
  {
    LegacyBot(name, map[], [], [], map[], [])
  }

  datatype LegacyBotGroup = LegacyBotGroup(
    name: string,
    botExtractor: BotExtractorQueryKey,
    states: seq<BotForwardSequenceState>,
    queries: seq<BotQuery>,
    variables: seq<BotVariable>,
    actions: seq<Action>,
    bots: seq<LegacyBot>)

  datatype LegacySite = LegacySite(name: string, queryServers: seq<QueryServer>, botGroups: seq<LegacyBotGroup>)
}
