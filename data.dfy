/** The records of package `data`: bot groups, bots, conditions, sessions
    and cached query results, reduced to the fields the modelled
    operations read or write.  Times are nanoseconds since the Unix epoch
    and durations are nanoseconds; floating-point values are reals. */
module Data {

  type Time = int
  type Duration = int

  const NanosPerSecond: int := 1_000_000_000
  const NanosPerMilli: int := 1_000_000

  /** Go's zero `time.Time{}`: January 1 of year 1, UTC. */
  const ZeroTime: Time := -62135596800 * 1_000_000_000

  /** `time.UnixMilli(ms)`. */
  function UnixMilli(ms: int): Time
  {
    ms * NanosPerMilli
  }

  /** `t.Unix()`: whole seconds, rounded towards the past. */
  function UnixSeconds(t: Time): int
  {
    t / NanosPerSecond
  }

  /** `t.UnixMilli()`. */
  function ToUnixMilli(t: Time): int
  {
    t / NanosPerMilli
  }

  /** `math.SmallestNonzeroFloat64`, written into scores and variables as a
      placeholder for a value that could not be computed: the decimal value
      that rounds to the `float64` 2^-1074. */
  const SmallestNonzeroFloat64: real := 4.9406564584124654417656879286822137236505980e-324

  /** Go's `m[k]` on a `map[string]string`: the empty string for a
      missing key. */
  function MapGet(m: map<string, string>, k: string): string
  {
    if k in m then m[k] else ""
  }

  datatype PairFloat64 = PairFloat64(key: string, value: real, formatted: string)

  datatype BotForwardSequenceState = BotForwardSequenceState(name: string, labels: seq<string>)

  datatype BotLockTimer = BotLockTimer(name: string, isActive: bool, timeout: Time)

  datatype ConditionConsideration = ConditionConsideration(name: string, weight: real, evaluate: string)

  datatype ConditionCommand = ConditionCommand(
    logFormat: string,
    commandType: int,
    content: string,
    lockTimerDuration: Duration,
    setBotStates: seq<string>,
    resetBotStates: seq<string>)

  datatype Condition = Condition(
    name: string,
    weight: real,
    weightThreshold: real,
    executeRepeatDelay: Duration,
    requiredAvailable: Duration,
    requiredLockTimers: seq<string>,
    requiredStates: seq<string>,
    considerations: seq<ConditionConsideration>,
    command: ConditionCommand)

  datatype ConditionCommandResult = ConditionCommandResult(
    botGroupName: string,
    botName: string,
    conditionName: string,
    commandLog: string,
    resultContent: string,
    started: Time,
    finished: Time,
    score: real,
    statesBefore: seq<string>,
    statesAfter: seq<string>)

  datatype BotConditionData = BotConditionData(
    finalScore: real,
    isAvailable: bool,
    availableStartTime: Time,
    details: seq<string>,
    considerationFinalScores: map<string, real>,
    considerationCurvedScores: map<string, real>,
    considerationRangedScores: map<string, real>,
    considerationRawScores: map<string, real>)

  /** Zero value with the four score maps made, as a Bot's first look at a
      Condition creates it. */
  const EmptyConditionData: BotConditionData :=
    BotConditionData(0.0, false, ZeroTime, [], map[], map[], map[], map[])

  datatype PairBotConditionData = PairBotConditionData(key: string, value: BotConditionData)

  datatype Bot = Bot(
    name: string,
    variableValues: map<string, real>,
    sortedVariableValues: seq<PairFloat64>,
    stateValues: seq<string>,
    commandHistory: seq<ConditionCommandResult>,
    conditionData: map<string, BotConditionData>,
    sortedConditionData: seq<PairBotConditionData>,
    isInvalid: bool,
    infoInvalid: string)

  /** A Bot that has only its name, as the Prometheus extractor makes it. */
  function NewBot(name: string): (b: Bot)
    ensures b.name == name && b.stateValues == [] && b.commandHistory == []
    ensures b.variableValues == map[] && b.conditionData == map[]
  {
    Bot(name, map[], [], [], [], map[], [], false, "")
  }

  datatype BotVariable = BotVariable(
    name: string,
    botKey: string,
    queryName: string,
    queryKey: string,
    queryKeyValue: string,
    evaluate: string,
    exported: bool)

  datatype BotQuery = BotQuery(queryServer: string, name: string, query: string, interval: Duration)

  datatype BotExtractorQueryKey = BotExtractorQueryKey(queryName: string, key: string)

  datatype BotGroup = BotGroup(
    name: string,
    botExtractor: BotExtractorQueryKey,
    states: seq<BotForwardSequenceState>,
    lockTimers: seq<BotLockTimer>,
    conditionThreshold: real,
    queries: seq<BotQuery>,
    variables: seq<BotVariable>,
    conditions: seq<Condition>,
    bots: seq<Bot>)

  datatype QueryServer = QueryServer(name: string, host: string, port: int)

  /** What the web client sends to pick a session and a query window.
      Start and scrub times are milliseconds since the epoch. */
  datatype InteractiveControl = InteractiveControl(
    sessionUUID: nat,
    useInteractiveSession: bool,
    useInteractiveOverride: bool,
    queryStartTime: int,
    queryDuration: Duration,
    queryScrubTime: int)

  datatype InteractiveSession = InteractiveSession(
    uuid: nat,
    botGroups: seq<BotGroup>,
    timeRequested: Time,
    queryStartTime: Time,
    queryDuration: Duration,
    queryScrubTime: Time,
    ignoreCacheQueryMismatch: bool,
    ignoreCacheOverInterval: bool)

  /** One series of a Prometheus range query: its labels and its
      `[timestamp, "value"]` samples, held as text. */
  datatype PromResult = PromResult(metric: map<string, string>, values: seq<seq<string>>)

  datatype QueryResult = QueryResult(queryServer: string, queryName: string, results: seq<PromResult>)

  datatype QueryResultPoolItem = QueryResultPoolItem(
    queryServer: string,
    query: string,
    interactiveUUID: nat,
    timeRequested: Time,
    timeReceived: Time,
    result: QueryResult,
    isValid: bool,
    queryStartTime: Time,
    queryDuration: Duration)

  /** A score times its weight. */
  function Weighted(score: real, weight: real): real
  {
    score * weight
  }

  /** The text formatting of the score explanations: `fmt`'s `%.2f` of a
      float, and `util.PrintStringArrayCSV` of a list of names. */
  datatype DetailFormat = DetailFormat(fixed2: real -> string, csv: seq<string> -> string)

  /** A line of an explanation that is written only when `present` holds. */
  function LineIf(present: bool, line: string): seq<string>
  {
    if present then [line] else []
  }

  /** Every score map keeps its other entries and sets `name` to `v`. */
  ghost predicate SetOnly(before: map<string, real>, after: map<string, real>, name: string, v: real)
  {
    && name in after && after[name] == v
    && forall k :: k != name ==> (k in after <==> k in before) && (k in after ==> after[k] == before[k])
  }

}
