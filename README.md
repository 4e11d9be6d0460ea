# Sireus, modelled in Dafny

Sireus is a decision system for operations. A **Site** has **BotGroups**.
Each BotGroup runs Prometheus **queries**, turns the result series into
per-**Bot** variables, and scores every **Condition** (in the older flow,
every **Action**) of every Bot. It also tracks each Bot's forward-sequence
**states** (`"Base.Label"` strings that only move forward or reset to the
first label). When the top Condition is available, scored above the
threshold and has been available long enough, it runs a command and appends
a result to the Bot's command history. A web application renders this state
through Handlebars helpers and a small RPC interpreter in the browser. A
demo simulator (an edge with two circuits, an app and a database) gives it
something to watch.

This project models the core of that system and proves properties of the
model:

- the browser's RPC reply interpreter (`WebRpc`);
- the BotGroup lookups and the forward-sequence state machine
  (`BotGroupLookup`, `BotGroupStates`);
- lock timers and interactive sessions (`BotGroupTimers`, `BotGroupSession`);
- the update pass of the Condition flow (`SiteUpdateBots`,
  `SiteUpdateQueries`, `QueryMatching`, `SiteUpdateScores`,
  `SiteUpdateExecute`);
- the older Action flow (`SiteCommon`, `ActionData`);
- the query result cache and lock table (`QueryCache`);
- the ordering helpers and pair-list builders (`FixGoData`, `FixGoSort`,
  `UtilSort`, `AppSort`, `AppDataSort` over the shared `Sorting`);
- the metric registry (`MetricExport`);
- the demo simulation and its action dispatch (`Demo`);
- the template helpers, render maps and start-time text (`TemplateHelpers`,
  `RenderParams`, `HtmlTime`);
- the de-duplication of Bots from Prometheus data (`PromExtract`).

Modelling choices:

- Time (`time.Time`) is an integer count of nanoseconds since the Unix
  epoch, and so is a `Duration`. Go's zero time is the constant `ZeroTime`.
- Floating-point scores and values are `real`.
- Go strings are `seq<char>`, one character per byte.
- Go map iteration (unspecified order) is a nondeterministic choice inside
  methods. Proved results do not depend on that order, or state the order
  as a parameter.
- In-place sorts (`sort.Sort`, `sort.Strings`) are `Sorting.Sort`, proved
  sorted and a permutation of its input.
- Errors are `Result`/`Option` values, and a Go `panic` becomes an error
  result, except where "## Left out" names the member: there a `requires`
  excludes the input that panics, or the model goes on where Go stops.
- The clock (`util.GetTimeNow`, `time.Now`) is the parameter `now`.
- Calendar fields come from Go's `time` package and are the parameter
  `clock`.
- `uuid.New` is `freshId`, and JSON decoding is `decodeControl`.
- Expression evaluation (govaluate), score calculation, Handlebars text
  formatting, `strconv.ParseFloat`, float formatting and HTTP requests are
  function parameters.
- Where a Go function reads or writes package globals or a struct the
  caller owns, the model uses a class with those fields (`Page`,
  `InteractiveSessionCache`, `Site`, `QueryResultPool`, `MetricExportData`,
  `DemoSimulation`), or a method that returns the new values.
- `UpdateApp` (code/demo/demo_app.go:45-47) is `Demo.DemoSimulation.UpdateApp`.
  It has an empty `modifies` frame, so it changes nothing.

`ProcessRPCData` applies `_js_data` and `_js_data_items` where they occur
in key order, not after the loop.

## Model

| member | source | states |
|---|---|---|
| `WebRpc.Members` | web_static/js/web_rpc.js:68-73 | `for (subkey in v)` visits the members of an object in order, the positions of an array or string as index keys, and nothing for any other value |
| `WebRpc.StoreOf` | web_static/js/web_rpc.js:64-66 | the store's keys are exactly the member keys of the object given; any other value gives the empty store |
| `WebRpc.MergeRules` | web_static/js/web_rpc.js:68-73 | an `_js_data_items` merge writes exactly the keys it carries, each with the value of its last occurrence, and leaves every other store key as it was |
| `WebRpc.WalkAppend` | web_static/js/web_rpc.js:48-111 | walking a reply split in two is walking the first part, then (unless it failed) the second from where the first ended |
| `WebRpc.FailedWalkStays` | web_static/js/web_rpc.js:96-98 | once a failure is reached, no later key changes the elements, the store or what is held |
| `WebRpc.FailureIffKey` | web_static/js/web_rpc.js:96-98 | starting without failure, the walk ends failed exactly when the reply has a `_failure` key |
| `WebRpc.FailureStops` | web_static/js/web_rpc.js:96-98 | at `_failure` the walk keeps everything before it, applies nothing after it, records one alert and runs no held script or navigation |
| `WebRpc.SuccessIffNoFailure` | web_static/js/web_rpc.js:96-127 | `ProcessRPCData` answers true exactly when the reply has no `_failure` key |
| `WebRpc.SuccessIsNoOp` | web_static/js/web_rpc.js:84-94 | removing a `_success` key from a reply gives the same walk: it changes no element, store entry or navigation |
| `WebRpc.StoreIgnoresRest` | web_static/js/web_rpc.js:64-73 | the final store depends only on the starting store and the reply, not on the elements or the held script and navigation |
| `WebRpc.JsDataResets` | web_static/js/web_rpc.js:64-73 | after a `_js_data` key the final store does not depend on anything the reply did before it, so a later `_js_data` discards every earlier merge |
| `WebRpc.ElementRules` | web_static/js/web_rpc.js:48-57 | with distinct keys and no failure, the page keeps its set of elements; an existing element named by a non-reserved key ends holding that key's value; an element no key names is unchanged |
| `WebRpc.FinishRules` | web_static/js/web_rpc.js:113-125 | after a successful walk the answer is true and the effects are exactly: a held `_js` first, run on the final elements and store; then a reload when one is held, otherwise the held page load; null values count as absent, so with nothing held nothing happens |
| `WebRpc.Page.constructor` | web_static/js/web_rpc.js:2 | a page starts with its elements, an empty `__js_data` and no effects |
| `WebRpc.Page.MergeItems` | web_static/js/web_rpc.js:68-73 | the loop over `_js_data_items` leaves the store equal to the merge of its members into the old store |
| `WebRpc.Page.ProcessRPCData` | web_static/js/web_rpc.js:38-128 | the new elements and store are those of the walk of the reply; the effects gained are the walk's alert or its held script and navigation; the answer is true exactly when no failure was reached |
| `WebRpc.Page.RPCSuccess` | web_static/js/web_rpc.js:11-27 | the reply is processed, and `on_complete` is recorded with the reply exactly when processing answered true and a callback was given |
| `BotGroupLookup.FirstIndex` | code/app/bot_group.go:111-159 | the index found holds the key and no earlier element does; no index means no element holds it |
| `BotGroupLookup.GetQueryServer` | code/app/bot_group.go:111-119 | the first query server with the name, or a not-found error exactly when none has it |
| `BotGroupLookup.GetQuery` | code/app/bot_group.go:122-129 | the first query with the name, or an error exactly when none has it |
| `BotGroupLookup.GetCondition` | code/app/bot_group.go:132-139 | the first Condition with the name, or an error exactly when none has it |
| `BotGroupLookup.GetVariable` | code/app/bot_group.go:142-149 | the first variable with the name, or an error exactly when none has it; `GetBotVariableData` performs the same search |
| `BotGroupLookup.GetConditionConsideration` | code/app/bot_group.go:152-159 | the first Consideration of the Condition with the name, or an error exactly when none has it |
| `BotGroupLookup.GetBot` | code/app/bot_group.go:392-399 | the first Bot with the name, or an error exactly when none has it |
| `BotGroupLookup.GetBotForwardSequenceState` | code/app/bot_group.go:322-330 | the first forward-sequence state with the name, or an error exactly when none has it |
| `BotGroupLookup.ScanCommandHistoryFinds` | code/app/bot_group.go:161-183 | the newest-first scan finds a start time exactly when some entry runs the Condition and no newer entry is older than the look-back window; it returns that entry's start, and otherwise one of the two not-found errors |
| `BotGroupLookup.GetConditionLastExecuteTime` | code/app/bot_group.go:161-183 | the start time of the latest run of the Condition within the window, an error otherwise; the never-run error exactly for an empty history |
| `BotGroupLookup.ScanCommandHistory` | code/app/bot_group.go:161-183 | the backwards scan fails only with the not-run-since-timeout or the never-run error, and what it finds is the start time of an entry for the Condition |
| `BotGroupLookup.LastExecuteTimeAfterAppend` | code/app/bot_group.go:161-183 | a command result just appended for a Condition is what the next lookup finds |
| `BotGroupLookup.AreAllConditionStatesActive` | code/app/bot_group.go:186-193 | true exactly when every required state of the Condition is among the Bot's states |
| `BotGroupLookup.GetLockTimer` | code/app/bot_group.go:366-379 | a copy of the first timer with the name, inactive when its timeout second is already past, else the timer as stored; an error when none has the name |
| `BotGroupLookup.AreAllConditionLockTimersAvailable` | code/app/bot_group.go:196-210 | true exactly when every required timer exists and reads as inactive now |
| `BotGroupStates.GetStateIndex` | code/app/bot_group.go:346-363 | for a dotted state: the first position of the label in the labels of the state named by the base; an error exactly when the base or the label is unknown |
| `BotGroupStates.GetBotCurrentStateAndIndex` | code/app/bot_group.go:333-343 | the first state entry starting with `base + "."` and its index; `("", -1)` with an error when there is none |
| `BotGroupStates.SetTargetState` | code/app/bot_group.go:265-289 | a dotted target below the current index is refused with the earlier-label error; it succeeds exactly when the base has an entry and the target is known and not below it, and then the current entry is replaced by the target |
| `BotGroupStates.AdvanceState` | code/app/bot_group.go:291-313 | an undotted item fails exactly when the base has no entry or no state; at the last label the list is unchanged; otherwise the current entry is replaced by the next label, qualified by the base or bare |
| `BotGroupStates.SetStateStepAsWritten` | code/app/bot_group.go:250-262 | as written, an undotted item looks up the base `""`: when no entry starts with `.` it fails with the missing-base error for `""`; a successful item keeps the list's length |
| `BotGroupStates.SetStateStep` | code/app/bot_group.go:250-313 | with the corrected undotted step, an undotted item succeeds exactly when the base it names has an entry and a state; a successful item keeps the list's length |
| `BotGroupStates.SetBotStatesResult` | code/app/bot_group.go:246-320 | with the corrected undotted step (`SetStateStep`): on success the list is the walk of all items, sorted; on an error the changes of earlier items stay and nothing is sorted |
| `BotGroupStates.SetBotStates` | code/app/bot_group.go:246-320 | with the corrected undotted step, the loop returns exactly the result and error `SetBotStatesResult` describes |
| `BotGroupStates.ApplyStepsAppend` | code/app/bot_group.go:250-314 | applying `a + b` is applying `a`, then, unless it failed, `b` from where `a` ended |
| `BotGroupStates.ResetBotState` | code/app/bot_group.go:219-243 | succeeds exactly when the state and the Bot's entry for it exist; the entry is then replaced by `Base.Labels[0]` and the list sorted; a missing state gives its error |
| `BotGroupStates.ResetUndottedHasLabels` | code/app/bot_group.go:219-243 | for a dot-free base, whenever the state and the Bot's entry are both found the state has a label, so `Labels[0]` exists |
| `BotGroupStates.KnownJoin` | code/app/bot_group.go:346-363 | a dot-free base followed by one of its labels is a state `GetStateIndex` knows |
| `BotGroupStates.SetStateStepKeepsKnown` | code/app/bot_group.go:265-313 | with the corrected undotted step, each successful item keeps every entry a known state |
| `BotGroupStates.SetBotStatesKeepsKnown` | code/app/bot_group.go:246-320 | with the corrected undotted step, a whole `SetBotStates` call, successful or not, keeps every entry a known state |
| `BotGroupStates.ResetDottedReadsEmptyLabels` | code/app/bot_group.go:221-236 | a group whose dotted base `A.B` has no labels while `A.B.x` is label `B.x` of state `A` passes both checks and reaches `Labels[0]` of an empty list |
| `BotGroupStates.ResetKeepsKnown` | code/app/bot_group.go:219-243 | `ResetBotState` keeps every entry a known state |
| `BotGroupStates.UndottedAdvanceAsWritten` | code/app/bot_group.go:258-262 | as written, the undotted item `Faults` looks for a base `""` and fails with a missing-base error |
| `BotGroupStates.UndottedAdvanceIntended` | code/app/bot_group.go:291-313 | with the base taken from the item, `Faults` moves `Faults.Normal` to `Faults.Degraded` |
| `BotGroupStates.GetBotsInState` | code/app/bot_group.go:415-427 | the Bots of the group that have `name.label`, in the group's order: the k-th one returned is the Bot at the k-th position that has it, each as often as in the group, and no other |
| `BotGroupStates.BotsWithState` | code/app/bot_group.go:415-427 | each Bot is returned as often as it occurs in the list when it has the state, and never otherwise |
| `BotGroupStates.MatchingPositions` | code/app/bot_group.go:418-424 | the positions of the Bots that have the state, strictly increasing, and every such position |
| `BotGroupStates.BotsWithStateAtPositions` | code/app/bot_group.go:418-424 | the filter keeps the list's order: its k-th Bot is the Bot at the k-th matching position |
| `BotGroupTimers.SetLockTimerAsWritten` | code/app/bot_group.go:381-389 | as written the loop copy is updated and dropped: the BotGroup's timers are unchanged |
| `BotGroupTimers.LockTimersAfterSet` | code/app/bot_group.go:381-389 | the first timer with the name is active until `now + duration`; every other timer is unchanged |
| `BotGroupTimers.SetLockTimer` | code/app/bot_group.go:381-389 | the timers become exactly `LockTimersAfterSet` of the old ones |
| `BotGroupTimers.SetLockTimerLocks` | code/app/bot_group.go:366-389 | after setting a timer for a non-negative duration, `GetLockTimer` reads it as active now |
| `BotGroupTimers.SetLockTimerOthersUnchanged` | code/app/bot_group.go:366-389 | setting one timer leaves what every other name reads unchanged |
| `BotGroupTimers.GetLockTimerIsFirst` | code/app/bot_group.go:366-379 | what `GetLockTimer` reads is the first timer with the name, with its timeout applied |
| `BotGroupTimers.SetAllConditionLockTimers` | code/app/bot_group.go:213-217 | with the corrected `SetLockTimer`, the timers become those after setting each of the Condition's timers in order |
| `BotGroupTimers.SetAllConditionLockTimersAsWritten` | code/app/bot_group.go:213-217 | as written, with each `SetLockTimer` updating only its loop copy, the BotGroup's timers are unchanged |
| `BotGroupTimers.SetAllLocksEach` | code/app/bot_group.go:196-217 | after the Condition's timers are set, each one that exists reads as active now |
| `BotGroupTimers.KeepsActive` | code/app/bot_group.go:366-389 | a timer that reads as active stays so while further timers are set |
| `BotGroupTimers.SetAllBlocksCondition` | code/app/bot_group.go:196-217 | once a Condition whose first required timer exists has set its timers, it is not available at that moment |
| `BotGroupTimers.SetLockTimerAsWrittenCounterexample` | code/app/bot_group.go:381-389 | as written, setting a free timer leaves the Condition available |
| `BotGroupSession.GetProductionInteractiveControl` | code/app/bot_group.go:97-108 | session 0, not interactive, a one-minute window that starts now |
| `BotGroupSession.SessionFor` | code/app/bot_group.go:58-93 | the cached session for the id or a new one over the loaded BotGroups; its request time and window are refreshed; for id 0 stale cache entries are refused and a window mismatch is allowed, for any other id the opposite |
| `BotGroupSession.SessionKeepsBotGroups` | code/app/bot_group.go:58-93 | asking again for the same session keeps its BotGroups |
| `BotGroupSession.ProductionSessionWindow` | code/app/bot_group.go:58-108 | the production session's window starts within a millisecond of now, and stale cache entries are refused for it |
| `BotGroupSession.FindBotGroup` | code/app/bot_group.go:402-412 | the first BotGroup with the name, or an error exactly when none has it |
| `BotGroupSession.StartedNoEarlierTotalPreorder` | code/app/bot_group.go:440-444 | the command-history order (latest start first) is a total preorder, so sorting by it is well defined |
| `BotGroupSession.GetCommandHistoryAll` | code/app/bot_group.go:430-450 | every Bot's history entries once, newest start first; with `count > 0` only the first `count` of them |
| `BotGroupSession.NewestKept` | code/app/bot_group.go:446-449 | a truncated newest-first list keeps the newest entries: nothing left out started later than anything kept |
| `BotGroupSession.ClearCommandHistories` | code/app/bot_group.go:459-464 | every Bot of every group has an empty history; everything else is unchanged |
| `BotGroupSession.ClearedHasNoHistory` | code/app/bot_group.go:459-464 | after clearing, no Bot of any group has a history entry |
| `BotGroupSession.BotsClearedHasNoHistory` | code/app/bot_group.go:460-463 | after clearing one group's Bots, none of them has a history entry |
| `BotGroupSession.InteractiveSessionCache.constructor` | code/app/bot_group.go:58-93 | an empty session map |
| `BotGroupSession.Site.constructor` | code/app/bot_group.go:30-55 | the production control and an empty session map over the loaded BotGroups |
| `BotGroupSession.Site.GetInteractiveSession` | code/app/bot_group.go:58-93 | returns `SessionFor` of the control and stores it under its id; no other session changes |
| `BotGroupSession.Site.GetBotGroup` | code/app/bot_group.go:402-412 | refreshes and stores the session, then returns the first group with the name from it, or an error |
| `BotGroupSession.Site.AdminClearCommandHistoryAsWritten` | code/app/bot_group.go:453-465 | as written, the production session's histories are cleared whether or not the demo is enabled |
| `BotGroupSession.Site.AdminClearCommandHistory` | code/app/bot_group.go:453-465 | with the demo check returning early, nothing changes unless the demo is enabled, and then every history of the production session is cleared |
| `BotGroupSession.AdminClearAsWrittenCounterexample` | code/app/bot_group.go:453-465 | with the demo disabled, a production Bot with a history loses it under the code as written |
| `SiteUpdateBots.InitialStateValues` | code/extdata/site_update.go:481-484 | one `Name.Labels[0]` entry per BotGroup state, in state order |
| `SiteUpdateBots.InitializeBotStates` | code/extdata/site_update.go:478-488 | the old states are dropped; the new list is the sorted initial entries, one per state; nothing else of the Bot changes |
| `SiteUpdateBots.InitialEntries` | code/extdata/site_update.go:478-488 | the sorted initial list holds each state's first entry and nothing else |
| `SiteUpdateBots.InitializedStatesKnown` | code/extdata/site_update.go:478-488 | with well-formed states, every entry of a fresh Bot is a state and label `GetStateIndex` knows |
| `SiteUpdateBots.FirstStateIsFound` | code/extdata/site_update.go:478-488 | with distinct state names, the lookup by a state's name finds that state |
| `SiteUpdateBots.BotNames` | code/extdata/site_update.go:459-474 | the names of a Bot list, in order |
| `SiteUpdateBots.MergeKeepsNamesDistinct` | code/extdata/site_update.go:459-474 | appending only absent names keeps the names distinct |
| `SiteUpdateBots.HasBotNamed` | code/extdata/site_update.go:462-467 | the inner loop's flag is set exactly when some Bot has the name |
| `SiteUpdateBots.MergeStepSkip` | code/extdata/site_update.go:469-473 | an extracted Bot whose name is present adds nothing |
| `SiteUpdateBots.MergeStepAppend` | code/extdata/site_update.go:469-473 | an extracted Bot with a new name is appended with its initial states; the earlier Bots are unchanged |
| `SiteUpdateBots.MergeExtractedBots` | code/extdata/site_update.go:459-474 | with a label in every state: the result is the in-order fold `MergeFold`, so existing Bots are kept unchanged and in place and each extracted Bot whose name is not yet present is appended, initialized, in extracted order; distinct names stay distinct. When no extracted name is new, which needs no label, the Bots are unchanged |
| `SiteUpdateBots.MergeFoldIsMerge` | code/extdata/site_update.go:459-474 | the in-order fold keeps the old Bots as a prefix, names every extracted Bot, and appends only initialized extracted Bots whose names are not earlier in the list |
| `SiteUpdateBots.ExtractorSeries` | code/extdata/site_update.go:445-458 | the series of the cached extractor result, none when the lookup fails |
| `SiteUpdateBots.UpdateBotGroupFromPrometheus` | code/extdata/site_update.go:445-475 | only the Bots change; with a label in every state they become the in-order merge of the extracted Bots into them; when no extracted name is new, which needs no label, the BotGroup is unchanged |
| `SiteUpdateQueries.VariableMaps` | code/extdata/site_update.go:491-556 | the variable maps of a Bot list, in order |
| `SiteUpdateQueries.QueriesFold` | code/extdata/site_update.go:495-555 | a query the cache cannot answer is skipped; the others' series are applied in order |
| `SiteUpdateQueries.MissingQuerySkipped` | code/extdata/site_update.go:497-500 | a query missing from the cache leaves the Bots as if it were not in the BotGroup |
| `SiteUpdateQueries.UpdateBotsFromQueries` | code/extdata/site_update.go:491-556 | only the Bots' variable maps change, and they become what the matching rules make of them |
| `QueryMatching.QueryVariableNames` | code/extdata/site_update.go:365-374 | the names of the variables without an expression, in order |
| `QueryMatching.SampleValueAsWritten` | code/extdata/site_update.go:531-535 | the guard checks the first sample is non-empty and then reads its second element: it fails on a one-element sample |
| `QueryMatching.GuardAdmitsShortSample` | code/extdata/site_update.go:532-533 | a series whose only sample holds just a timestamp passes the guard and fails on the index |
| `QueryMatching.SampleValueAgrees` | code/extdata/site_update.go:531-535 | the corrected read agrees with the code wherever the code does not fail, and the code fails exactly on one-element samples |
| `QueryMatching.SampleValue` | code/extdata/site_update.go:531-535 | with the one-element sample corrected: wherever the code as written reads a value this read gives the same value, and a one-element sample gets the `SmallestNonzeroFloat64` placeholder |
| `QueryMatching.Write` | code/extdata/site_update.go:519-551 | without a `BotKey` the value goes into every Bot's map; with one, only into the first Bot the series names; every other map is unchanged |
| `QueryMatching.VariablesFold` | code/extdata/site_update.go:505-553 | the variables are applied in order, and a map only ever gains keys |
| `QueryMatching.SeriesFold` | code/extdata/site_update.go:503-554 | the series are applied in order, and a map only ever gains keys |
| `QueryMatching.VariablesFoldSkipsOthers` | code/extdata/site_update.go:507-509 | a variable that does not read the query, or has an expression, is never written from it |
| `QueryMatching.SeriesFoldSkipsOthers` | code/extdata/site_update.go:503-509 | with only such variables, a whole result changes nothing |
| `QueryMatching.UnknownBotIgnored` | code/extdata/site_update.go:525 | a series for a Bot the group does not have changes nothing for a per-Bot variable |
| `QueryMatching.WriteToBots` | code/extdata/site_update.go:519-551 | the Bot loop, with its break after the first named Bot, leaves the maps `Write` describes |
| `QueryMatching.ApplySeries` | code/extdata/site_update.go:505-553 | the variable loop leaves the maps `VariablesFold` describes |
| `QueryMatching.ApplyQueryResult` | code/extdata/site_update.go:503-554 | the series loop leaves the maps `SeriesFold` describes |
| `SiteUpdateScores.GetBotEvalMapOnlyQueries` | code/extdata/site_update.go:417-429 | exactly the listed variables the Bot has, with its values |
| `SiteUpdateScores.GetBotEvalMapAllVariables` | code/extdata/site_update.go:433-442 | a copy of all the Bot's values |
| `SiteUpdateScores.OnlyQueriesIsRestriction` | code/extdata/site_update.go:417-442 | the query-only map is the full map cut down to the query variables |
| `SiteUpdateScores.UpdateAvailability` | code/extdata/site_update.go:328-349 | available exactly when the score reaches the threshold, the required states are active and the timers are free; the start time is set only on becoming available and reset to the epoch on losing it; missing states zero the score; the explanation is not part of this rule: `ConditionPass` stores `ConditionDetails` over the old one |
| `SiteUpdateScores.ConditionDetailsExplain` | code/extdata/site_update.go:314-352 | the stored explanation is the lines of `CalculateScore`, then the final-score line, then one line for each reason the Condition is not available (missing states, busy lock timers, a score under the threshold), and no other line |
| `SiteUpdateScores.UnavailableLinesAre` | code/extdata/site_update.go:334-345 | one line per reason the Condition fails, each present exactly when its reason holds |
| `SiteUpdateScores.ExplainCondition` | code/extdata/site_update.go:314-352 | the appends of one trip through the loop build exactly the explanation `ConditionDetails` describes |
| `SiteUpdateScores.AvailableSinceFirstPass` | code/extdata/site_update.go:328-349 | a Condition that passes at `t1` and again at `t2`, not available before, has been available since `t1` |
| `SiteUpdateScores.FailingPassRestarts` | code/extdata/site_update.go:328-349 | a pass, a failing pass, then a pass again: the Condition is available with the third pass's time as its start |
| `SiteUpdateScores.ScoreConsiderationSetsOnly` | code/extdata/site_update.go:267-311 | one Consideration writes the placeholder or its evaluated scores, with the final score weighted, under its own name only; no other field changes |
| `SiteUpdateScores.ScoredHasEveryConsideration` | code/extdata/site_update.go:267-311 | after the loop every Consideration has an entry in all four score maps, and the Condition-level fields are unchanged |
| `SiteUpdateScores.ConditionPassesKeys` | code/extdata/site_update.go:256-354 | after the pass the Bot has entries for exactly its old Conditions and the BotGroup's |
| `SiteUpdateScores.ConditionPassesEntry` | code/extdata/site_update.go:256-354 | with distinct names, each Condition's stored entry is exactly what its own pass made of its starting entry, explanation included |
| `SiteUpdateScores.Untouched` | code/extdata/site_update.go:256-354 | passes over other Conditions leave an entry alone |
| `SiteUpdateScores.ScoreConditionConsiderations` | code/extdata/site_update.go:267-311 | the Consideration loop leaves the entry the fold of its Considerations describes |
| `SiteUpdateScores.UpdateCondition` | code/extdata/site_update.go:257-353 | one trip through the Condition loop: the entry is created if missing, scored and given its availability, and its old explanation is replaced by the new one |
| `SiteUpdateScores.UpdateBotConditions` | code/extdata/site_update.go:254-354 | the Condition loop of one Bot leaves the map the pass over all Conditions describes, explanations included |
| `SiteUpdateScores.UpdateBotConditionConsiderations` | code/extdata/site_update.go:246-359 | every Bot's Condition map is what the pass makes of it; nothing else changes, explanations included |
| `SiteUpdateScores.SortMapStringConditionDataByFinalScore` | code/data/fix_go_data.go:46-54 | every entry once, ascending by `PairBotConditionDataList.Less` when `sortForward`, highest score first otherwise |
| `SiteUpdateScores.SortAllVariablesAndConditions` | code/extdata/site_update.go:222-243 | every Bot's variables sorted by name and its Conditions highest final score first, each a permutation of the maps' entries |
| `SiteUpdateScores.TopConditionHasBestScore` | code/extdata/site_update.go:222-243 | after the sort, the first Condition has the highest final score of all the Bot's Conditions |
| `SiteUpdateExecute.ExecuteBotCondition` | code/extdata/site_update.go:96-175 | returns exactly the BotGroup, Bot, outcome and counters `ConditionRun` describes, which `ConditionRunRules` and `ConditionRunCounts` characterise |
| `SiteUpdateExecute.ConditionRunRules` | code/extdata/site_update.go:101-171 | within the repeat delay of the last run nothing changes; otherwise the lock timers are set (by the corrected `SetLockTimer`) and the states changed, a failed state change aborts with the states as far as they got and no history entry, and a run appends one result with the start and finish times, the score and the states before and after |
| `SiteUpdateExecute.ConditionRunCounts` | code/extdata/site_update.go:173-174 | a run adds one to the `sireus_execute_condition` counter under the Condition's labels and leaves every other counter as it was; a delayed or aborted call counts nothing |
| `SiteUpdateExecute.RepeatGateAfterExecution` | code/extdata/site_update.go:102-108 | after a run the gate stays closed for any call within the repeat delay of its start |
| `SiteUpdateExecute.ResetBotStatesKeepsKnown` | code/extdata/site_update.go:135-148 | resetting dot-free bases keeps every entry a known state |
| `SiteUpdateExecute.CommandKeepsKnown` | code/extdata/site_update.go:135-148 | with the corrected undotted step, a command, whether it runs or aborts, leaves only known states |
| `SiteUpdateExecute.ExecuteTopCondition` | code/extdata/site_update.go:66-86 | runs exactly when the top Condition exists, is available, scores strictly above the BotGroup's threshold and has been available longer than required; then the BotGroup, Bot and counters are those `ConditionRun` of that Condition leaves, otherwise all three are unchanged |
| `SiteUpdateExecute.TopConditionRunStep` | code/extdata/site_update.go:66-86 | a Bot's turn changes nothing unless its top Condition is ready, and then only its states and its history, which gains at most one result, for that Condition |
| `SiteUpdateExecute.ExecutionStepReadsConditions` | code/extdata/site_update.go:55-94 | the loop's tests read only the BotGroup's name, threshold and Conditions |
| `SiteUpdateExecute.ExecuteBotGroupConditions` | code/extdata/site_update.go:55-94 | the BotGroup and counters are those left by every Bot taking its turn in order; only the lock timers and the Bots change; every Bot takes one execution step judged against the BotGroup's Conditions; the result is true exactly when some Bot's top Condition was ready |
| `SiteUpdateExecute.RunGroupTurns` | code/extdata/site_update.go:58-93 | the loop leaves exactly the turns of all Bots in order, and its flag records whether any Bot was ready |
| `SiteUpdateExecute.ExecuteBotAt` | code/extdata/site_update.go:61-90 | one trip of the loop takes the turns one Bot further and reports whether that Bot was ready |
| `SiteUpdateExecute.TurnsKeep` | code/extdata/site_update.go:60-91 | each Bot stays what its own turn returned, given the BotGroup and counters the earlier turns left: no later turn touches it |
| `SiteUpdateExecute.GroupRunSteps` | code/extdata/site_update.go:55-94 | after the loop each Bot is what the run of its top Condition made of it against what the earlier Bots left, and has taken one execution step |
| `SiteUpdateExecute.SomeBotReady` | code/extdata/site_update.go:58-93 | the loop's flag is true exactly when some Bot's top Condition was ready |
| `SiteCommon.ClearAllBotVariables` | code/extdata/site_common.go:172-176 | every Bot gets an empty variable map; nothing else changes |
| `SiteCommon.AppendInitialStates` | code/extdata/site_common.go:276-279 | one Bot's states gain one `Name.Labels[0]` entry per state, appended after the old ones |
| `SiteCommon.InitializeStates` | code/extdata/site_common.go:272-281 | with a label in every state whenever there is a Bot: every Bot's states gain the initial entries without clearing first |
| `SiteCommon.InitializeTwiceDuplicates` | code/extdata/site_common.go:272-281 | two calls grow the list by two entries per state, and each state's first entry appears in both copies |
| `SiteCommon.UpdateBotGroupFromPrometheus` | code/extdata/site_common.go:255-269 | the whole Bot list is replaced by the extracted Bots, one per distinct name, each with only its initial states; there is no Bot exactly when there is no series, the one case in which a state may lack a label |
| `SiteCommon.LegacyVariableMaps` | code/extdata/site_common.go:296-336 | one variable map per Bot, in the Bots' order |
| `SiteCommon.QueriesFold` | code/extdata/site_common.go:288-340 | one variable map per Bot, and the query loop never removes a variable a Bot had |
| `SiteCommon.UpdateBotsFromQueries` | code/extdata/site_common.go:284-343 | only the Bots' variable maps change, each becoming its entry of the query fold over the old maps |
| `SiteCommon.GetBotEvalMapOnlyQueries` | code/extdata/site_common.go:228-240 | exactly the listed variables the Bot has, with its values |
| `SiteCommon.GetBotEvalMapAllVariables` | code/extdata/site_common.go:243-252 | a copy of all the Bot's values |
| `SiteCommon.SyntheticStep` | code/extdata/site_common.go:205-223 | only the variable maps change; a Bot gets the expression's value against its query variables, and a result that is not a number leaves the Bot as it was |
| `SiteCommon.SyntheticFold` | code/extdata/site_common.go:195-224 | one Bot per Bot and only the variable maps change |
| `SiteCommon.SyntheticsSeeOnlyQueryValues` | code/extdata/site_common.go:179-225 | when no synthetic shares a name with a query variable, every expression sees the query values as the query pass left them |
| `SiteCommon.UpdateBotsWithSyntheticVariables` | code/extdata/site_common.go:179-225 | the Bots become the synthetic fold of them |
| `SiteCommon.CollectQueryVariableNames` | code/extdata/site_common.go:184-193 | the names of the variables without an expression, in order |
| `SiteCommon.EvaluateForBots` | code/extdata/site_common.go:205-223 | the Bot loop of one synthetic variable leaves `SyntheticStep` of the Bots |
| `SiteCommon.AreAllActionStatesActive` | code/extdata/site_common.go:143-146 | true exactly when every required state of the Action is among the Bot's states |
| `SiteCommon.UpdateActionAvailability` | code/extdata/site_common.go:146-162 | only the threshold and the states count; the score is kept; the start time is set on becoming available and reset on losing it; the explanation is not part of this rule: `ActionPass` stores `ActionDetails` over the old one |
| `SiteCommon.ActionDetailsExplain` | code/extdata/site_common.go:136-165 | the stored explanation is the lines of `CalculateScore`, then one line for each reason the Action is not available (missing states, a score under the threshold), and no other line |
| `SiteCommon.ExplainAction` | code/extdata/site_common.go:136-165 | the appends of one trip through the loop build exactly the explanation `ActionDetails` describes |
| `SiteCommon.ScoreActionConsiderationSetsOnly` | code/extdata/site_common.go:108-132 | one Consideration writes its weighted and evaluated scores, or the placeholder on a failed evaluation, under its own name only; no other field changes |
| `SiteCommon.ScoredHasEveryActionConsideration` | code/extdata/site_common.go:103-133 | after the loop every Consideration has an entry in both score maps |
| `SiteCommon.KeepsActionScore` | code/extdata/site_common.go:103-133 | a key present in both maps stays present |
| `SiteCommon.ActionUntouched` | code/extdata/site_common.go:94-167 | passes over other Actions leave an entry alone |
| `SiteCommon.ActionPassesEntry` | code/extdata/site_common.go:94-167 | with distinct names, each Action's stored entry is exactly what its own pass made of its starting entry, explanation included |
| `SiteCommon.ActionPassReadsOwnEntry` | code/extdata/site_common.go:96-166 | a pass reads only its own Action's entry of the map |
| `SiteCommon.ScoreActionConsiderationsLoop` | code/extdata/site_common.go:103-133 | the Consideration loop leaves the entry the fold describes |
| `SiteCommon.UpdateAction` | code/extdata/site_common.go:96-166 | one trip through the Action loop: created if missing, scored, given its availability, and its old explanation is replaced by the new one |
| `SiteCommon.UpdateBotActionConsiderations` | code/extdata/site_common.go:88-169 | every Bot's Action map is what the pass makes of it; nothing else changes, explanations included |
| `SiteCommon.SortAllVariablesAndActions` | code/extdata/site_common.go:72-85 | variables sorted by name and Actions highest final score first, each a permutation of the entries |
| `SiteCommon.UpdateBotGroup` | code/extdata/site_common.go:21-38 | only the Bots change: they are the distinct Bots the extractor series name, none exactly when there is no series, each with only the initial state entries, its variables sorted by name and its Actions highest score first; a state may lack a label only when there is no series; each Action entry holds the explanation of its pass |
| `SiteCommon.UpdateSiteBotGroups` | code/extdata/site_common.go:17-46 | every BotGroup of the Site is rebuilt as `UpdateBotGroup` describes from its own series; nothing else of the Site changes |
| `ActionData.ActionPairLeTotalPreorder` | code/data/fix_go_data.go:46-54 | the Action pair order and its reverse are total preorders |
| `ActionData.NewLegacyBot` | code/extdata/prometheus.go:81-84 | a Bot with only its name and an empty Action map |
| `ActionData.CollectActionPairs` | code/app/fix_go_sort.go:12-19 | one pair per entry of the map with its key and value, no key twice, and every key of the map present |
| `PromExtract.CollectBots` | code/extdata/prometheus.go:76-87 | a map from each name the series carry under the key (`""` when missing) to a fresh Bot of that name |
| `PromExtract.ListBots` | code/extdata/prometheus.go:89-95 | the map's Bots, each once, in some iteration order |
| `PromExtract.ExtractBotsFromPromData` | code/extdata/prometheus.go:73-98 | exactly one Bot per distinct name, each name taken from some series, each Bot with only its name |
| `PromExtract.Names` | code/extdata/prometheus.go:73-98 | the names of a Bot list, in order |
| `QueryCache.GetQueryKey` | code/extdata/site_query.go:91-95 | `"<UUID>.<QueryServer>.<Query>"`; the text before the first dot is the session id's digits, which hold no dot |
| `QueryCache.QueryKeyInjective` | code/extdata/site_query.go:91-95 | two keys are equal only for the same session, server and query, server names being free of dots |
| `QueryCache.GetQueryResultByQueryKey` | code/app/query.go:5-12 | the pool item under the key and true, or false when there is none |
| `QueryCache.GetCachedQueryResult` | code/extdata/site_query.go:33-59 | an error when the key is absent, when a mismatch matters and the window differs, or when staleness matters and the result is older than the interval; otherwise the cached result |
| `QueryCache.NewCacheItem` | code/extdata/site_query.go:13-29 | the item records the session's window, the query time and the result |
| `QueryCache.StoredResultIsRead` | code/extdata/site_query.go:13-59 | a result just stored for a session reads back for it until it is older than the interval for a session that refuses stale results |
| `QueryCache.MismatchedWindowRefused` | code/extdata/site_query.go:41-43 | a session with another window that insists on a match refuses the stored result |
| `QueryCache.IsQueryLocked` | code/extdata/site_query.go:98-116 | false with no lock entry, otherwise true exactly when the lock is younger than the timeout |
| `QueryCache.QueryResultPool.constructor` | code/extdata/site_query.go:61-69 | an empty pool and an empty lock table |
| `QueryCache.QueryResultPool.QueryCacheSet` | code/extdata/site_query.go:61-69 | the item is stored under its key; every other key and the locks are unchanged |
| `QueryCache.QueryResultPool.StoreQueryResult` | code/extdata/site_query.go:13-29 | the new item is stored under the session's key |
| `QueryCache.QueryResultPool.QueryLockClear` | code/extdata/site_query.go:72-78 | only that key's lock is removed |
| `QueryCache.QueryResultPool.QueryLockSet` | code/extdata/site_query.go:82-88 | that key is locked from now; nothing else changes |
| `QueryCache.LockSetThenClear` | code/extdata/site_query.go:72-116 | a lock just set reads as locked for a positive timeout, and as unlocked once cleared |
| `FixGoData.StringCompare` | code/data/fix_go_data.go:90-101 | the loop returns the difference of the first differing bytes, or of the lengths when one is a prefix of the other |
| `FixGoData.CompareZeroIffEqual` | code/data/fix_go_data.go:90-101 | the comparison is zero exactly when the strings are equal |
| `FixGoData.CompareAntisymmetric` | code/data/fix_go_data.go:90-101 | swapping the arguments negates the result |
| `FixGoData.CompareNegativeIffLess` | code/data/fix_go_data.go:90-101 | the comparison is negative exactly when the first string is lexicographically smaller |
| `FixGoData.KeyOrderTransitive` | code/data/fix_go_data.go:90-101 | `Compare(x, y) <= 0` is transitive |
| `FixGoData.Len` | code/data/fix_go_data.go:23 | the number of pairs |
| `FixGoData.Less` | code/data/fix_go_data.go:24-32 | smaller value first; among equal values the greater key counts as less |
| `FixGoData.Swap` | code/data/fix_go_data.go:33 | exactly the two positions are exchanged |
| `FixGoData.PairLeTotalPreorder` | code/data/fix_go_data.go:24-32 | the order `Less` sorts into is a total preorder |
| `FixGoData.PairGeTotalPreorder` | code/data/fix_go_data.go:24-32 | so is its reverse |
| `FixGoData.PairLeAntisymmetric` | code/data/fix_go_data.go:24-32 | two pairs neither of which sorts first share key and value |
| `FixGoData.ConditionLen` | code/data/fix_go_data.go:45 | the number of pairs |
| `FixGoData.ConditionLess` | code/data/fix_go_data.go:46-54 | lower final score first; among equal scores the greater key counts as less |
| `FixGoData.ConditionSwap` | code/data/fix_go_data.go:55 | exactly the two positions are exchanged |
| `FixGoData.ConditionPairLeTotalPreorder` | code/data/fix_go_data.go:46-54 | the Condition pair order is a total preorder |
| `FixGoData.ConditionPairGeTotalPreorder` | code/data/fix_go_data.go:46-54 | so is its reverse |
| `FixGoData.TruncateToInt` | code/data/fix_go_data.go:77 | the float-to-integer conversion truncates towards zero |
| `FixGoData.UnmarshalDuration` | code/data/fix_go_data.go:68-87 | a decoding error is passed on; a number is nanoseconds, truncated; a string is parsed; any other type is `"invalid duration"` |
| `FixGoData.UnmarshalWholeNanos` | code/data/fix_go_data.go:73-78 | a whole number of nanoseconds reads back exactly |
| `FixGoSort.CollectPairs` | code/fixgo/fix_go_sort.go:33-38 | one pair per map entry, with its value |
| `FixGoSort.SortMapStringFloat64ByKey` | code/fixgo/fix_go_sort.go:9-28 | one pair per key with its value, keys strictly ascending |
| `FixGoSort.SortedKeyPairs` | code/fixgo/fix_go_sort.go:18-25 | the pairs built from the sorted keys list the map in strictly ascending key order |
| `FixGoSort.SortMapStringFloat64ByValue` | code/fixgo/fix_go_sort.go:32-53 | one pair per entry; sorted by `Less` when `sortForward`; otherwise exactly the pairs as collected |
| `FixGoSort.ByValueReverseUnsorted` | code/fixgo/fix_go_sort.go:47-48 | with `sortForward` false, an ascending list of two distinct values comes back ascending |
| `FixGoSort.SortMapStringFloat64ByValueFixed` | code/fixgo/fix_go_sort.go:32-53 | one pair per entry, ascending by `Less` or, with `sortForward` false, by its reverse |
| `FixGoSort.ByValueOrderIndependent` | code/fixgo/fix_go_sort.go:36-46 | sorting by value gives the same list whatever order the pairs were collected in |
| `UtilSort.Len` | code/util/fix_go_sort.go:15 | the number of pairs |
| `UtilSort.Less` | code/util/fix_go_sort.go:16 | compares values only, with no key tie-break |
| `UtilSort.Swap` | code/util/fix_go_sort.go:17 | exactly the two positions are exchanged |
| `UtilSort.ValueLeTotalPreorder` | code/util/fix_go_sort.go:16 | the value order is a total preorder |
| `UtilSort.SortMapStringFloat64ByKey` | code/util/fix_go_sort.go:19-38 | one pair per key with its value, keys strictly ascending |
| `UtilSort.SortedKeyPairs` | code/util/fix_go_sort.go:28-35 | the pairs built from the sorted keys list the map in strictly ascending key order |
| `UtilSort.SortMapStringFloat64ByValue` | code/util/fix_go_sort.go:41-58 | one pair per entry, values non-decreasing |
| `AppSort.SortMapStringActionDataByFinalScore` | code/app/fix_go_sort.go:9-30 | one pair per entry with its value; ascending by `Less` when `sortForward`, descending otherwise |
| `AppSort.ReverseSortedHeadIsBest` | code/app/fix_go_sort.go:23-25 | the head of a non-empty reverse-sorted list has the highest final score |
| `AppDataSort.SortMapStringActionDataByFinalScore` | code/appdata/fix_go_sort.go:8-29 | one pair per entry with its value; ascending when `sortForward`, descending otherwise |
| `AppDataSort.ReverseSortedHeadIsBest` | code/appdata/fix_go_sort.go:22-24 | the head of a non-empty reverse-sorted list has the highest final score |
| `MetricExport.ToLower` | code/app/metric_export.go:15 | same length; every ASCII capital becomes its small letter and every other character is kept |
| `MetricExport.ReplaceUnsafeChars` | code/app/metric_export.go:16 | same length; every unsafe character becomes the replacement and every other character is kept |
| `MetricExport.SqueezeReplaceAll` | code/app/metric_export.go:17-19 | one pass of replacing `__` by `_` does not change what the key squeezes to |
| `MetricExport.SqueezeFixed` | code/app/metric_export.go:17-19 | a key without `__` is its own squeeze |
| `MetricExport.ReplaceAllChars` | code/app/metric_export.go:17-19 | replacing never brings in a character that is in neither the text nor the replacement |
| `MetricExport.CleanMetricKeyString` | code/app/metric_export.go:14-21 | the key is lower-case, has no unsafe character and no `__` |
| `MetricExport.SameSizeSubmap` | code/app/metric_export.go:23-37 | maps of the same size where every entry of one is in the other are equal |
| `MetricExport.IsEqualMapStringString` | code/app/metric_export.go:23-37 | true exactly when the two maps are equal |
| `MetricExport.FirstMatch` | code/app/metric_export.go:40-59 | the first metric with that key and those labels, or none |
| `MetricExport.FindMetric` | code/app/metric_export.go:40-59 | the loop returns the index `FirstMatch` gives |
| `MetricExport.OtherLookupsKept` | code/app/metric_export.go:62-99 | when only values change and at most one metric is appended, matching the given key and labels, every lookup of another key or labels finds what it found before |
| `MetricExport.SetGaugeSets` | code/app/metric_export.go:62-79 | afterwards the gauge holds the new value; the list grows by one exactly when none matched; every other lookup finds what it found before |
| `MetricExport.AddToCounterAdds` | code/app/metric_export.go:82-99 | afterwards the counter has grown by `value`, a new one holding `value`; the list grows by one exactly when none matched |
| `MetricExport.AddToCounterKeepsOthers` | code/app/metric_export.go:82-99 | adding to one counter leaves every other lookup unchanged |
| `MetricExport.SetGauge` | code/app/metric_export.go:62-79 | the list grows by at most one; every old gauge keeps its key, labels and help; a gauge with the key and labels holds the new value |
| `MetricExport.AddToCounter` | code/app/metric_export.go:82-99 | the list grows by at most one; every old counter keeps its key, labels and help; a counter with the key and labels holds the old reading plus `value` |
| `MetricExport.SetKeepsUnique` | code/app/metric_export.go:62-99 | get-or-create never makes two metrics with the same key and labels |
| `MetricExport.MetricExportData.constructor` | code/app/metric_export.go:62-99 | no gauges and no counters |
| `MetricExport.MetricExportData.GetMetricGauge` | code/app/metric_export.go:40-48 | the index of the first matching gauge, or an error when none matches |
| `MetricExport.MetricExportData.GetMetricCounter` | code/app/metric_export.go:51-59 | the index of the first matching counter, or an error when none matches |
| `MetricExport.MetricExportData.SetMetricGauge` | code/app/metric_export.go:62-79 | the matching gauge is set, or a new one is appended; the counters are unchanged |
| `MetricExport.MetricExportData.AddToMetricCounter` | code/app/metric_export.go:82-99 | the matching counter is increased, or a new one holding `value` is appended; the gauges are unchanged |
| `MetricExport.BotLabels` | code/app/metric_export.go:102-109 | exactly the keys service, bot_group and bot, with their values |
| `MetricExport.ConditionLabels` | code/app/metric_export.go:112-121 | the Bot labels plus condition and states |
| `MetricExport.VariableLabels` | code/app/metric_export.go:124-132 | the Bot labels plus variable |
| `MetricExport.LabelsSeparateMetrics` | code/app/metric_export.go:102-132 | the three kinds never share labels; equal Bot labels mean the same group and Bot, and equal variable labels the same group, Bot and variable |
| `Demo.StateIsItsCircuits` | code/demo/demo_edge.go:16-21 | an edge state is determined by which circuits are down |
| `Demo.FixCircuit1State` | code/demo/demo_edge.go:185-191 | circuit 1 comes up and circuit 2 stays as it was |
| `Demo.FixCircuit2State` | code/demo/demo_edge.go:194-200 | circuit 2 comes up and circuit 1 stays as it was |
| `Demo.BreakCircuit1State` | code/demo/demo_edge.go:210-218 | circuit 1 goes down and circuit 2 stays as it was, except that an edge with both down is unchanged |
| `Demo.BreakCircuit2State` | code/demo/demo_edge.go:229-237 | the mirror for circuit 2 |
| `Demo.BreakThenFix` | code/demo/demo_edge.go:185-238 | breaking and then fixing a circuit is the same as only fixing it; a normal edge returns to normal |
| `Demo.TruncToInt` | code/demo/demo_edge.go:119 | the float-to-integer conversion truncates towards zero |
| `Demo.PerSecond` | code/demo/demo_database.go:58-62 | an amount scaled by the elapsed seconds and truncated: never negative for non-negative inputs, and the amount itself for one second |
| `Demo.Half` | code/demo/demo_edge.go:128-131 | Go's `requestAdded/2`: half, truncated towards zero, so twice the result is the number or one less |
| `Demo.EdgeIngress` | code/demo/demo_edge.go:125-161 | a normal edge splits the requests between the circuits, one circuit carries them all, none are forwarded with both down, and the link states follow the circuits |
| `Demo.EdgeEgress` | code/demo/demo_edge.go:164-182 | nothing leaves a down circuit |
| `Demo.EgressCarriesRequests` | code/demo/demo_edge.go:164-182 | with one circuit down the other carries every success; a normal edge accounts for all of them but one when the count is odd |
| `Demo.DatabaseStep` | code/demo/demo_database.go:65-118 | a short queue is processed whole, otherwise the speed's worth; timeouts happen only above the wait limit and never exceed the queue; processed plus timed out plus left is the old queue |
| `Demo.DemoSimulation.constructor` | code/demo/demo_edge.go:95-114 | the package variables' initial values |
| `Demo.DemoSimulation.AddDatabaseRequests` | code/demo/demo_database.go:121-123 | the queue grows by exactly `requests` |
| `Demo.DemoSimulation.ReceiveRequestsFromEdge` | code/demo/demo_app.go:63-69 | the app queue and the database queue both grow by `requests` |
| `Demo.DemoSimulation.ReceiveSuccessFromApp` | code/demo/demo_edge.go:164-182 | the edge's egress counters grow as `EdgeEgress` says |
| `Demo.DemoSimulation.ReceiveSuccessFromDatabase` | code/demo/demo_app.go:55-60 | the app counts the successes and hands the same number to the edge |
| `Demo.DemoSimulation.ReceiveTimeoutsFromDatabase` | code/demo/demo_app.go:50-52 | the app's timeout counter grows by `requests` |
| `Demo.DemoSimulation.UpdateEdge` | code/demo/demo_edge.go:117-162 | the requests of the elapsed time arrive, are accounted on the circuits that are up, and are forwarded to the app unless both circuits are down |
| `Demo.DemoSimulation.UpdateDatabase` | code/demo/demo_database.go:65-118 | one `DatabaseStep` on the queue, with the degraded speed when degraded; the successes go back through the app to the edge and the timeouts to the app |
| `Demo.DemoSimulation.FixCircuit1` | code/demo/demo_edge.go:185-191 | the edge state becomes `FixCircuit1State` of the old one |
| `Demo.DemoSimulation.FixCircuit2` | code/demo/demo_edge.go:194-200 | the edge state becomes `FixCircuit2State` of the old one |
| `Demo.DemoSimulation.BreakCircuit1` | code/demo/demo_edge.go:203-219 | too soon after the last change nothing happens and the reply says to wait; otherwise the state becomes `BreakCircuit1State`, and an edge with both down replies that the state is wrong |
| `Demo.DemoSimulation.BreakCircuit2` | code/demo/demo_edge.go:222-238 | the mirror for circuit 2 |
| `Demo.DemoSimulation.DemoBreakBot` | code/demo/control_api_server.go:82-105 | Edge/SFO-WAS-11 breaks circuit 2 and Edge/SFO-LAS-27 circuit 1, each only once the wait guard has passed; the reply is always `_success`, with an empty message for an unknown Bot; nothing else changes |
| `Demo.DemoSimulation.DemoFixBot` | code/demo/control_api_server.go:108-131 | the same Bots fix their circuit; the reply is always `_success`, with an empty message for an unknown Bot; nothing else changes |
| `Demo.BreakEdge` | code/demo/control_api_server.go:86-97 | a break changes the edge state only for Edge/SFO-WAS-11 or Edge/SFO-LAS-27, and only once the guard has passed |
| `Demo.FixEdge` | code/demo/control_api_server.go:112-123 | a fix changes the edge state only for Edge/SFO-WAS-11 or Edge/SFO-LAS-27 |
| `Demo.DemoSimulation.ProcessWebDemoAction` | code/demo/control_api_server.go:45-79 | the reply, request rate and edge state are `WebDemoReply`, `WebDemoRate` and `WebDemoEdge` of the request |
| `Demo.DemoSimulation.WebBreak` | code/demo/control_api_server.go:57-58 | the `break` action's reply and state |
| `Demo.DemoSimulation.WebFix` | code/demo/control_api_server.go:59-60 | the `fix` action's reply and state |
| `Demo.DemoSimulation.SetEdgeTraffic` | code/demo/control_api_server.go:64-75 | a missing or unparsable value is a `_failure` with the rate unchanged; otherwise the rate is set and the reply is `_success` |
| `Demo.DemoSimulation.FixCircuitRoute` | code/demo/control_api_server.go:17-30 | SFO-WAS-11 fixes circuit 2 and answers 201; SFO-LAS-27 answers 501 and changes nothing; any other name answers 404 |
| `Demo.ActionOf` | code/demo/control_api_server.go:56-77 | the four known action names give their actions; any other name is an unknown action carrying that name |
| `Demo.ClearCommandHistory` | code/demo/control_api_server.go:61-63 | with the corrected demo check: with the demo enabled the production session exists and has no history left; with it disabled no session changes |
| `Demo.WebDemoReply` | code/demo/control_api_server.go:45-79 | a missing or unknown action, or a missing or unparsable value, is a `_failure`; everything else succeeds |
| `Demo.WebDemoRate` | code/demo/control_api_server.go:64-75 | only a `set_edge_traffic` with a parsable value changes the rate |
| `Demo.WebDemoEdge` | code/demo/control_api_server.go:56-60 | only `break` and `fix` on the two Edge Bots touch a circuit, and a break honours the wait guard |
| `Demo.DemoRepliesSucceed` | code/demo/control_api_server.go:82-131 | an unknown BotGroup, or an unknown Edge Bot, gets an empty message from both a break and a fix, and a break reply is a success and not a failure |
| `TemplateHelpers.IfEqualString` | code/webapp/register_helpers.go:90-98 | the block exactly when the strings are equal, `""` otherwise |
| `TemplateHelpers.IfEqualStringSymmetric` | code/webapp/register_helpers.go:90-98 | the test is symmetric in its two strings, and a string always equals itself |
| `TemplateHelpers.IfStringInSlice` | code/webapp/register_helpers.go:101-107 | the block exactly when the string is in the slice, the inverse otherwise |
| `TemplateHelpers.IfStringInSliceSetOnly` | code/webapp/register_helpers.go:101-107 | only which strings the slice holds matters: slices with the same members give the same result |
| `TemplateHelpers.IfStringInSlicePermutation` | code/webapp/register_helpers.go:101-107 | reordering the slice does not change the result |
| `TemplateHelpers.IfSliceHasDotStrings2` | code/webapp/register_helpers.go:110-118 | the block exactly when `b1.b2` is in the slice, the inverse otherwise |
| `TemplateHelpers.DotStringsIsStateLabel` | code/webapp/register_helpers.go:110-118 | for a dot-free state, the block renders exactly when some entry splits at its first dot into that state and label |
| `TemplateHelpers.IfTimeNever` | code/webapp/register_helpers.go:121-127 | the block exactly for Go's zero time |
| `TemplateHelpers.IfNotTimeNever` | code/webapp/register_helpers.go:130-136 | the block exactly for any other time |
| `TemplateHelpers.TimeTestsComplement` | code/webapp/register_helpers.go:121-136 | exactly one of the two time tests renders its block |
| `TemplateHelpers.IfLength` | code/webapp/register_helpers.go:279-368 | the block exactly when there are at least `count` items |
| `TemplateHelpers.IfMapLength` | code/webapp/register_helpers.go:287-293 | the block exactly when the map has at least `count` entries |
| `TemplateHelpers.IfMapLengthIsIfLength` | code/webapp/register_helpers.go:279-293 | the map test is the array test on any list as long as the map; it renders for every smaller count and always for 0 |
| `TemplateHelpers.IfLengthMonotone` | code/webapp/register_helpers.go:279-368 | a test that renders for `count` renders for every smaller count, and always for 0 |
| `TemplateHelpers.GetStringSliceIndexAsWritten` | code/webapp/register_helpers.go:142-153 | a negative index counts from the end; only positions strictly above 0 return an element, every other gives `MISSING:<index>` |
| `TemplateHelpers.GetStringSliceIndexMissesFirst` | code/webapp/register_helpers.go:149-151 | index 0 and minus the length both give `MISSING`, even for `["first"]` |
| `TemplateHelpers.GetStringSliceIndexReachesAll` | code/webapp/register_helpers.go:142-153 | with the corrected guard every element is reached from the front and from the back, every other index gives `MISSING`, and the code agrees wherever it returns an element |
| `TemplateHelpers.GetStringSliceIndex` | code/webapp/register_helpers.go:142-153 | with the corrected guard: an element of the list or the missing text, and for a position from 0 below the length that element |
| `TemplateHelpers.GetArrayBotNames` | code/webapp/register_helpers.go:204-211 | the block is rendered with the Bots' names, sorted |
| `TemplateHelpers.BotNamesSorted` | code/webapp/register_helpers.go:204-211 | those names are in Go's string order and are a permutation of the Bots' names |
| `TemplateHelpers.GroupOrMissing` | code/webapp/register_helpers.go:41-48 | a group with the name when one exists, otherwise the placeholder named `Missing` |
| `TemplateHelpers.WithBotGroupByName` | code/webapp/register_helpers.go:41-48 | the loop renders with the first group of that name, or with the placeholder |
| `TemplateHelpers.FirstGroupIsFound` | code/webapp/register_helpers.go:41-48 | the group the loop stops at is the one the lookup finds |
| `TemplateHelpers.FormatHtmlId` | code/webapp/register_helpers.go:258-261 | same length, no unsafe character, every safe character kept |
| `RenderParams.EscapeStart` | code/webapp/params.go:114 | the escaped text never starts with a bare quote |
| `RenderParams.EscapeQuotes` | code/webapp/params.go:164-166 | escaping never shortens the text, and a text without a quote is unchanged |
| `RenderParams.UnescapeEscape` | code/webapp/params.go:164-166 | escaping loses nothing: unescaping gives back the JSON text |
| `RenderParams.EscapedQuotesAreEscaped` | code/webapp/params.go:164-166 | every quote of the escaped text has a backslash before it |
| `RenderParams.InputData` | code/webapp/params.go:36-38 | exactly the two ids, under `bot_group_id` and `bot_id` |
| `RenderParams.BuildRenderMapFiber` | code/webapp/params.go:108-140 | `"{}"` for empty input data, otherwise text that unescapes to the input's JSON; the interactive control is always `"{}"`; the start time and the configured duration are set and there is no query time |
| `RenderParams.BuildRenderMap` | code/webapp/params.go:158-198 | `"{}"` for empty JSON, otherwise text that unescapes to it, for both the input data and the control; no starter values; `query_time` is present exactly for a non-zero session id and shows the scrub time |
| `RenderParams.RpcControlRules` | code/webapp/params.go:55-69 | a call that asks for an interactive session keeps its control, with a fresh id in place of a zero one; any other call, and every call without a control, is the production session 0 |
| `RenderParams.RpcControl` | code/webapp/params.go:55-69 | a call that does not ask for an interactive session gets the production control; one that does has a non-zero id whenever the fresh id is not zero |
| `RenderParams.RenderTargetsRules` | code/webapp/params.go:85-96 | the lookup fails exactly when a named group, or a named Bot of the group found, is missing; a Bot is looked up only with a name and a group |
| `RenderParams.RenderTargets` | code/webapp/params.go:85-96 | a named group that is found is in the list under that name, and a named Bot found in it is one of its Bots under that name; without a group id the targets are the zero BotGroup and Bot, and without a Bot id the Bot is the zero Bot |
| `RenderParams.RpcQueryTime` | code/webapp/params.go:191-196 | a production RPC render never shows a query time; an interactive one always does |
| `RenderParams.RpcRenderMap` | code/webapp/params.go:47-106 | a call without a group id always renders; a render carries the Site's name and no start-time picker |
| `RenderParams.SessionRefreshTwice` | code/webapp/params.go:72-88 | refreshing a session twice with the same control and clock is refreshing it once |
| `RenderParams.GetRenderMapFromRPC` | code/webapp/params.go:47-106 | the map is the RPC render of the normalised control and its session; that session is stored back refreshed |
| `RenderParams.ParamsRenderMapRules` | code/webapp/params.go:18-43 | a page load carries its two ids as input data, an empty interactive control and no query time |
| `RenderParams.ParamsRenderMap` | code/webapp/params.go:18-43 | a page load without a group id always renders; a render carries the Site's name, an empty interactive control and no query time |
| `RenderParams.GetRenderMapFromParams` | code/webapp/params.go:18-43 | the page-load map for the group and Bot named in the production session, which is stored back refreshed |
| `HtmlTime.MinutesBefore` | code/util/util_html.go:13 | the time is exactly `minutes` minutes before `now` |
| `HtmlTime.Pad2` | code/util/util_html.go:22 | `%02d`: two digits for 0 to 99, the plain number from 10 up |
| `HtmlTime.Pad2Parses` | code/util/util_html.go:22 | a two-digit field reads back as its number |
| `HtmlTime.TwelveHourAsWritten` | code/util/util_html.go:15-20 | hours above 12 become `hour - 12` with PM; every other hour, 0 and 12 included, stays with AM |
| `HtmlTime.TwelveHourReadsBack` | code/util/util_html.go:15-20 | the corrected 12-hour form shows 1 to 12, AM before noon, and reads back as the hour |
| `HtmlTime.TwelveHour` | code/util/util_html.go:15-20 | with the corrected clock every hour of the day shows 1 to 12, with AM before noon and PM from noon |
| `HtmlTime.TwelveHourAsWrittenMisreads` | code/util/util_html.go:15-20 | as written noon shows `12 AM`, which reads as hour 0, and midnight shows hour 0 |
| `HtmlTime.FormatInteractiveStartTimeAsWritten` | code/util/util_html.go:10-24 | the text of the local fields `durationMinutes` before now, with the hour as written |
| `HtmlTime.FormatInteractiveStartTime` | code/util/util_html.go:10-24 | with the corrected 12-hour clock, the text of a valid local time reads back as that time |
| `HtmlTime.ClockTextParses` | code/util/util_html.go:22 | `H:MM AM` reads back as its hour of the day and minute |
| `HtmlTime.AfterDateParses` | code/util/util_html.go:22 | `YYYY, ` followed by a clock text reads back as the year and that clock |
| `HtmlTime.FormatClockParses` | code/util/util_html.go:22 | the text `DD/MM/YYYY, H:MM AM` of a valid clock reads back as that clock |
| `HtmlTime.StartTimeReadsBack` | code/webapp/params.go:142-156 | the corrected start-time text reads back as the local fields `durationMinutes` before now |
| `HtmlTime.StartTimeAsWrittenAtNoon` | code/util/util_html.go:15-22 | as written, a start at 12:30 reads back as 00:30 |
| `Data.NewBot` | code/extdata/prometheus.go:81-84 | a Bot with only its name |

## Left out

- JSON decoding of the RPC reply, `$.ajax` and `RPCUrl` (web_static/js/web_rpc.js:30-44) are transport. The model starts from the decoded reply.
- The effects of code run by `eval`, and the alert and navigation themselves, are recorded as effects, not performed.
- jQuery selectors are taken as plain element ids. Writing a key with no such element changes nothing.
- `for...in` order is the order of the reply's members.
- WebRpc.StoreOf: a `_js_data` value that is not an object (an array, a string, `null`) makes the store empty. The browser would store that value itself, and a later `_js_data_items` on a `null` store throws a `TypeError` (web_static/js/web_rpc.js:64-72), where the model merges the items into the empty store.
- Object members of a decoded reply are given as a list of pairs. JSON object keys are not made unique by the model; the rules read the last occurrence where that matters.
- The HTTP request of `ExecuteBotCondition`, the formatted command log and the clock reading at its end are parameters. So is `util.PrintStringArrayCSV`, which its metric labels use. The metric exporter's counter list is passed in and returned.
- `ExecuteBotGroupConditions` reads `time.Now()` for the availability test. The model uses the `now` of the whole pass.
- `QueryPrometheus` (code/extdata/prometheus.go:43-71) is network I/O. Its series arrive as parameters.
- The locks, mutexes and goroutines (`LockAcquire`/`LockRelease`, the pool lock, `util_lock.go`) are not modelled. So the `continue` at code/extdata/site_update.go:74, which skips that Bot's `LockRelease`, has no effect in the model.
- Go's `int64` overflow and float rounding are not modelled. Scores and values are exact reals.
- `site_update.go`'s `UpdateSiteBotGroups`, `UpdateBotsWithSyntheticVariables`, `CreateFormattedVariables` and `ExportMetricsOnVariables` are not modelled. The older `UpdateSiteBotGroups` and `UpdateBotsWithSyntheticVariables` of `site_common.go` are, and so are the pieces they share.
- `site_common.go`'s `CreateFormattedVariables` is not modelled: it is Handlebars text formatting.
- `GetBotGroupAllBotVariablesByName` (code/app/bot_group.go:468-486) is not modelled: it only gathers values for plotting.
- `LoadSiteConfig` reads files. Only its in-memory set-up (`BotGroupSession.Site.constructor`) is modelled.
- `Duration.MarshalJSON` (code/data/fix_go_data.go:63-65) is JSON printing and is not modelled.
- `util.StringInSlice`, `StringSliceRemoveString`, `StringReplaceUnsafeChars` and `PrintStringArrayCSV` are not part of this model. They are taken as membership, removal of the first occurrence (an error when absent), per-character replacement and a comma join.
- `util.Check` in code/util/util_common.go:5-9 panics and returns nothing, but site_update.go and site_common.go test its result (`if util.Check(err)`), so they were written against a `Check` that reports the error. That version is not part of this model. Where its result is tested it is taken as "the error is not nil". Where the call is a statement, Go stops with that panic. The model follows this only after the lookups of params.go, where the panic becomes the `Err` result; the statement calls of site_common.go are listed below by member.
- BotGroupStates.GetStateIndex: requires a dot in the state. Go reads the second half of the split and panics without one; every caller passes a dotted state.
- BotGroupStates.ResetBotState: requires that, when the state and the Bot's entry for it are both found, the state has a label. Go reads `Labels[0]` there and panics on an empty list. For a dot-free base the requirement always holds (`ResetUndottedHasLabels`); only a dotted base can reach `Labels[0]` with no labels, and `ResetDottedReadsEmptyLabels` shows one that does.
- BotGroupStates.SetBotStatesResult: describes the walk with the corrected undotted step (`SetStateStep`). As written (code/app/bot_group.go:258-262) an undotted item looks up the base `""` and fails with the missing-base error unless some entry starts with `.`; `SetStateStepAsWritten` states that.
- BotGroupStates.SetBotStates: uses the corrected undotted step, as `SetBotStatesResult` does.
- BotGroupStates.SetStateStepKeepsKnown: is proved for the corrected undotted step.
- BotGroupStates.SetBotStatesKeepsKnown: is proved for the corrected undotted step.
- SiteUpdateExecute.CommandKeepsKnown: is proved for commands whose states are set with the corrected undotted step. It requires a label in every state of the BotGroup: a reset reads `Labels[0]` (code/app/bot_group.go:236), and no Bot holds entries of a BotGroup with a label-less state, because `InitializeBotStates` panics on that state first (code/extdata/site_update.go:482-483).
- SiteUpdateBots.InitialStateValues: requires a label in every state. Go reads `Labels[0]` (code/extdata/site_update.go:482) and panics on a state without labels.
- SiteUpdateBots.InitializeBotStates: requires a label in every state, for the same panic at code/extdata/site_update.go:482.
- SiteUpdateBots.MergeExtractedBots: requires a label in every state only when some extracted name is new, which is exactly when Go initializes a Bot and panics on a state without labels (code/extdata/site_update.go:482). The merge clauses are stated for groups whose states all have labels; with a label-less state and no new name the Bots are unchanged, as in Go.
- SiteUpdateBots.UpdateBotGroupFromPrometheus: the same requirement and the same guarded clauses as `MergeExtractedBots`.
- SiteCommon.InitializeStates: requires a label in every state when the BotGroup has a Bot. Go panics then at code/extdata/site_common.go:277 on a state without labels.
- SiteCommon.UpdateBotGroupFromPrometheus: requires a label in every state when there is a series, since a Bot is then extracted and Go panics at code/extdata/site_common.go:277 on a state without labels. The query and server lookups at code/extdata/site_common.go:256-260 are not modelled: the series arrive as `promData`, so the panic of `util.Check` on a missing query or server has no counterpart.
- SiteCommon.UpdateBotGroup: the same requirement as `SiteCommon.UpdateBotGroupFromPrometheus`.
- SiteCommon.UpdateSiteBotGroups: the same requirement for each BotGroup, with the series `fetch` gives it. `fetch` is total, so the failed lookups at code/extdata/site_common.go:256-260 do not occur.
- SiteCommon.SyntheticStep: an expression that does not compile or does not evaluate leaves the Bot unchanged, as a result that is not a number does, where `util.Check` at code/extdata/site_common.go:203 and at line 211 panics.
- SiteCommon.EvaluateForBots: inherits the compile and evaluate failures of `SiteCommon.SyntheticStep`.
- SiteCommon.SyntheticFold: inherits the compile and evaluate failures of `SiteCommon.SyntheticStep`.
- SiteCommon.UpdateBotsWithSyntheticVariables: inherits the compile and evaluate failures of `SiteCommon.SyntheticStep`.
- SiteCommon.ScoreActionConsiderationsLoop: a Consideration whose expression does not compile gets the `SmallestNonzeroFloat64` placeholder scores, as one that fails to evaluate does, where `util.Check` at code/extdata/site_common.go:106 panics.
- BotGroupSession.SessionFor: a new session holds a copy of the loaded BotGroups. In Go (code/app/bot_group.go:66-69) its `BotGroups` slice shares the backing array of `LoadedBotGroups`, so a write through a session's BotGroup reaches `LoadedBotGroups` and every session made from it; the model keeps them apart.
- BotGroupSession.Site.GetInteractiveSession: stores the session as a separate value. In Go the stored session shares its BotGroups with `LoadedBotGroups` and with every other session made from it, so later writes through one reach all of them.
- BotGroupSession.Site.AdminClearCommandHistoryAsWritten: clears the histories of the production session only. In Go the writes at code/app/bot_group.go:458-463 go through the shared backing array, so they also clear the histories in `LoadedBotGroups` and in every session made from it.
- BotGroupSession.Site.AdminClearCommandHistory: the same: the clearing reaches only the production session, where Go's writes reach `LoadedBotGroups` and every session made from it.
- The Bots appended to a session's BotGroup at code/extdata/site_update.go:469-472 are written into the shared backing array in Go too. The model's updates change only the session they are given.
- QueryCache.GetQueryKey: the session id is a natural number. Go keeps it as an `int64`, which could be negative and would then print with a minus sign; that case is not covered.
- BotGroupTimers.SetAllConditionLockTimers: uses the corrected `SetLockTimer`, so the Condition's timers become active. As written (code/app/bot_group.go:382-386) they stay as they were; `SetAllConditionLockTimersAsWritten` states that.
- SiteUpdateExecute.ExecuteBotCondition: sets the lock timers with the corrected `SetLockTimer`, where the code leaves them free (code/app/bot_group.go:382-386). It also advances an undotted `SetBotStates` item on its named base, where the code fails with the missing `""` base (code/app/bot_group.go:258-262). It requires a label in every state of the BotGroup: a reset reads `Labels[0]` (code/app/bot_group.go:236), and no Bot holds entries of a BotGroup with a label-less state, because `InitializeBotStates` panics on that state first (code/extdata/site_update.go:482-483).
- SiteUpdateExecute.ConditionRun: the same two corrections as `ExecuteBotCondition`. It requires a label in every state of the BotGroup: a reset reads `Labels[0]` (code/app/bot_group.go:236), and no Bot holds entries of a BotGroup with a label-less state, because `InitializeBotStates` panics on that state first (code/extdata/site_update.go:482-483).
- SiteUpdateExecute.ConditionRunRules: the same two corrections as `ExecuteBotCondition`. It requires a label in every state of the BotGroup: a reset reads `Labels[0]` (code/app/bot_group.go:236), and no Bot holds entries of a BotGroup with a label-less state, because `InitializeBotStates` panics on that state first (code/extdata/site_update.go:482-483).
- SiteUpdateExecute.ExecuteTopCondition: runs `ExecuteBotCondition`, with its two corrections. It requires a label in every state of the BotGroup: a reset reads `Labels[0]` (code/app/bot_group.go:236), and no Bot holds entries of a BotGroup with a label-less state, because `InitializeBotStates` panics on that state first (code/extdata/site_update.go:482-483).
- SiteUpdateExecute.TopConditionRun: runs `ConditionRun`, with its two corrections. It requires a label in every state of the BotGroup: a reset reads `Labels[0]` (code/app/bot_group.go:236), and no Bot holds entries of a BotGroup with a label-less state, because `InitializeBotStates` panics on that state first (code/extdata/site_update.go:482-483).
- SiteUpdateExecute.ExecuteBotGroupConditions: runs `ExecuteBotCondition` for each ready Bot, with its two corrections. It requires a label in every state only when the BotGroup has a Bot; a BotGroup without Bots passes through the loop untouched whatever its states, as Go's zero-trip loop does.
- SiteUpdateExecute.GroupRunSteps: describes the turns of `ExecuteBotGroupConditions`, with the same two corrections. It requires a label in every state only when the BotGroup has a Bot; a BotGroup without Bots passes through the loop untouched whatever its states, as Go's zero-trip loop does.
- SiteUpdateExecute.RunGroupTurns: runs `ExecuteBotCondition` for each Bot, with its two corrections. It requires a label in every state only when the BotGroup has a Bot; a BotGroup without Bots passes through the loop untouched whatever its states, as Go's zero-trip loop does.
- SiteUpdateExecute.ConditionRunCounts: counts the runs of `ConditionRun`, with its two corrections. It requires a label in every state of the BotGroup: a reset reads `Labels[0]` (code/app/bot_group.go:236), and no Bot holds entries of a BotGroup with a label-less state, because `InitializeBotStates` panics on that state first (code/extdata/site_update.go:482-483).
- SiteUpdateExecute.ResetBotStatesKeepsKnown: is stated for the BotGroups the execution path can meet. It requires a label in every state of the BotGroup: a reset reads `Labels[0]` (code/app/bot_group.go:236), and no Bot holds entries of a BotGroup with a label-less state, because `InitializeBotStates` panics on that state first (code/extdata/site_update.go:482-483).
- SiteUpdateExecute.TopConditionRunStep: describes a turn of `TopConditionRun`, with its two corrections. It requires a label in every state of the BotGroup: a reset reads `Labels[0]` (code/app/bot_group.go:236), and no Bot holds entries of a BotGroup with a label-less state, because `InitializeBotStates` panics on that state first (code/extdata/site_update.go:482-483).
- SiteUpdateExecute.ExecuteBotAt: runs `ExecuteTopCondition` for one Bot, with its two corrections. It requires a label in every state of the BotGroup: a reset reads `Labels[0]` (code/app/bot_group.go:236), and no Bot holds entries of a BotGroup with a label-less state, because `InitializeBotStates` panics on that state first (code/extdata/site_update.go:482-483).
- SiteUpdateQueries.QueriesFold: a series whose first sample has only a timestamp gets the `SmallestNonzeroFloat64` placeholder, as `SampleValue` gives, where the code panics on the index (code/extdata/site_update.go:532-533).
- SiteUpdateQueries.UpdateBotsFromQueries: the same placeholder for a one-element sample, where the code panics (code/extdata/site_update.go:532-533).
- QueryMatching.VariablesFold: the same placeholder for a one-element sample, where the code panics (code/extdata/site_update.go:532-533).
- QueryMatching.SeriesFold: the same placeholder for a one-element sample, where the code panics (code/extdata/site_update.go:532-533).
- QueryMatching.ApplySeries: the same placeholder for a one-element sample, where the code panics (code/extdata/site_update.go:532-533).
- QueryMatching.ApplyQueryResult: the same placeholder for a one-element sample, where the code panics (code/extdata/site_update.go:532-533).
- SiteCommon.QueriesFold: the same placeholder for a one-element sample, where the code panics (code/extdata/site_common.go:322-323). A value `ParseFloat` cannot read is taken as what the total `parseFloat` gives, where `util.Check` at code/extdata/site_common.go:324 panics.
- SiteCommon.UpdateBotsFromQueries: the same placeholder for a one-element sample, where the code panics (code/extdata/site_common.go:322-323), and the same total `parseFloat` as `SiteCommon.QueriesFold`.
- Demo.ClearCommandHistory: uses the corrected demo check, so with the demo disabled nothing changes. As written (code/app/bot_group.go:454-456) the histories are cleared anyway.
- Demo.DemoSimulation.ProcessWebDemoAction: its `clear_command_history` action uses the same corrected demo check as `Demo.ClearCommandHistory`.
- RenderParams.BuildRenderMapFiber: the start time uses the corrected 12-hour clock, so a 12:30 start shows `12:30 PM`. As written (code/webapp/params.go:147-152) it shows `12:30 AM`.
- RenderParams.GetRenderMapFromParams: builds its map with `BuildRenderMapFiber`, so it has the same corrected 12-hour clock.
- MetricExport.ToLower: only ASCII letters are changed. Go's `strings.ToLower` also maps other Unicode capitals.
- MetricExport.MetricExportData.AddToMetricCounter: the Prometheus client panics on a negative increment. That is not modelled.
- The metric record in code/data/metric_export_data.go has no `Labels` field, but metric_export.go reads and writes one. The model follows metric_export.go.
- The gauge and counter objects of the Prometheus client and the demo's exported metrics are kept only as the numbers they hold.
- SiteUpdateScores.SortMapStringConditionDataByFinalScore: its source is not part of this model. It is taken to work like `SortMapStringActionDataByFinalScore` on Condition data.
- SiteCommon.AreAllActionStatesActive: its source is not part of this model. It is taken to work like `AreAllConditionStatesActive`.
- `PairBotActionDataList.Less` is not part of this model. It is taken to order like `PairBotConditionDataList.Less`.
- The `GetCachedQueryResult` that `site_common.go` calls is a different revision from the one modelled. It is the parameter `cached`.
- The extractor that `site_update.go`'s `UpdateBotGroupFromPrometheus` calls is a different revision from `ExtractBotsFromPromData`. It is the parameter `extract`.
- In `UpdateSiteBotGroups` (site_common.go) the BotGroup copy shares its slices with the Site. The model treats the copy as a value written back at the end.
- Scoring, curves, `RangeMapper`, govaluate, `ConvertInterfaceToFloat`, `HandlebarFormatText` and `ParseFloat` are parameters, not computed. `app.CalculateScore` (code/app/score.go) is a parameter that returns its score and its explanation lines; the `%.2f` formatting of a float and `util.PrintStringArrayCSV` in the explanation lines the update flows add are parameters too. The fixed text of those lines is modelled as the source writes it.
- RenderParams.GetRenderMapFromRPC: the query run and group update between the two session refreshes (`RunAllSiteQueries`, `UpdateSiteBotGroups`) are not modelled inside it.
- The render map leaves out the app configuration and Site objects it passes through unchanged. JSON printing and `FormatTimeLong` are parameters.
- The Handlebars helpers that only format text (`format_*` other than `format_html_id`, `get_bot_action_data_*`, `get_len_array_bot`, `format_array_string_csv`) or only hand data to a block (`with_bots_in_state`, `with_command_history_all_latest`, `with_bot_action`, `with_action_from_bot`, `with_query_server`) are not modelled. `with_bots_in_state` is `GetBotsInState`, and `with_command_history_all_latest` is `GetCommandHistoryAll`.
- Calendar fields of a time (`Year`, `Month`, `Day`, `Hour`, `Minute` in the local zone) come from Go's `time` package and are the parameter `clock`.
- `BreakStorageDegraded` and `FixStorageDegraded` are not part of this model. The database-degraded branches of the demo dispatch and `/fix/database_storage_degraded` are left out with them.
- The demo's random octet counts are abstracted. Only request counts and circuit states are kept.
- The demo break guard compares with `time.Duration(15)`, which is 15 nanoseconds. The model keeps that constant. No file shown here assigns `EdgeChangeLastTime`, so it is a field that only the constructor sets.
- `ParseContextBody` (url.ParseQuery) is given as the decoded form map. `%0.1f` and `%0.0f` formatting are the parameters `formatWait` and `formatRate`.
- `RunDemoAPIServer`'s server set-up and `Listen` are I/O. Only its `/fix/circuit` dispatch is modelled.

## Findings

| source | as written | input that shows it | evidently intended | confidence | as-written member | corrected member |
|---|---|---|---|---|---|---|
| code/fixgo/fix_go_sort.go:47-48 | `sort.Reverse(pairList)` only wraps the list, and the wrapper is dropped, so nothing is sorted | `sortForward = false` on a map whose pairs are collected in ascending value order | `sort.Sort(sort.Reverse(pairList))`, highest value first | not executed | `FixGoSort.SortMapStringFloat64ByValue`, `FixGoSort.ByValueReverseUnsorted` | `FixGoSort.SortMapStringFloat64ByValueFixed` |
| code/app/bot_group.go:382-386 | `SetLockTimer` updates the loop copy `lockTimer`, so the stored timer never becomes active | a Condition whose one required timer is free: after `SetAllConditionLockTimers` it is still available | write `botGroup.LockTimers[i]` so the timer locks the Condition | not executed | `BotGroupTimers.SetLockTimerAsWritten`, `BotGroupTimers.SetAllConditionLockTimersAsWritten`, `BotGroupTimers.SetLockTimerAsWrittenCounterexample` | `BotGroupTimers.SetLockTimer`, `BotGroupTimers.SetLockTimerLocks` |
| code/app/bot_group.go:258-262 | an undotted item sets `stateBase` to the empty label, so the lookup uses the prefix `"."`; an advance would append the bare label | item `"Faults"` with states `["Faults.Normal"]` fails with a missing-base error | advance the named base: `Faults.Normal` becomes `Faults.Degraded` | not executed | `BotGroupStates.UndottedAdvanceAsWritten` | `BotGroupStates.UndottedAdvanceIntended`, `BotGroupStates.SetBotStates` |
| code/app/bot_group.go:454-456 | the demo check only logs, so the clearing goes ahead | demo disabled and a production Bot with one history entry: the entry is removed | return after the log line | not executed | `BotGroupSession.Site.AdminClearCommandHistoryAsWritten`, `BotGroupSession.AdminClearAsWrittenCounterexample` | `BotGroupSession.Site.AdminClearCommandHistory` |
| code/extdata/site_update.go:532-533 | the guard checks that the first sample is non-empty, then reads its second element | a series whose only sample is `[timestamp]` passes the guard and the index fails | check `len(promResult.Values[0]) > 1` | not executed | `QueryMatching.SampleValueAsWritten`, `QueryMatching.GuardAdmitsShortSample` | `QueryMatching.SampleValueAgrees` |
| code/webapp/register_helpers.go:149-151 | `index > 0` rejects position 0 | `get_string_slice_index ["first"] 0` gives `MISSING:0` | `index >= 0`, so every element can be reached | not executed | `TemplateHelpers.GetStringSliceIndexAsWritten`, `TemplateHelpers.GetStringSliceIndexMissesFirst` | `TemplateHelpers.GetStringSliceIndex`, `TemplateHelpers.GetStringSliceIndexReachesAll` |
| code/util/util_html.go:15-20 | hours up to 12 keep `AM`, so noon shows `12:MM AM` and midnight `0:MM AM` (the same code is at code/webapp/params.go:147-152) | a start time at 12:30 gives `12:30 AM`, which reads as 00:30 | midnight as `12 AM`, noon as `12 PM` | not executed | `HtmlTime.TwelveHourAsWritten`, `HtmlTime.StartTimeAsWrittenAtNoon` | `HtmlTime.FormatInteractiveStartTime`, `HtmlTime.StartTimeReadsBack` |
