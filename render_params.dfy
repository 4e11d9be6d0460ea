/** The render maps of code/webapp/params.go: the values a Handlebars page
    render is given, from the GET parameters of a page load or from the
    body of an RPC call.  JSON printing (`util.PrintJsonData`), the long
    time format (`util.FormatTimeLong`) and the calendar fields of a time
    are the functions of a `Formatters` value; `util.GetTimeNow()` is
    `now`.  `util.Check` panics on an error, which is the `Err` result. */
module RenderParams {
  import opened Wrappers
  import opened Data
  import opened GoText
  import opened BotGroupLookup
  import opened BotGroupSession
  import opened HtmlTime

  datatype Formatters = Formatters(
    printInput: map<string, string> -> string,
    printControl: InteractiveControl -> string,
    formatTimeLong: Time -> string,
    clock: Time -> Clock)

  /** The string values of a render map; `app_config` and `site` are the
      configuration objects and are not part of it.  The two starter
      values are only in the page-load map, `query_time` only when a
      session is set. */
  datatype RenderMap = RenderMap(
    title: string,
    siteId: string,
    botGroup: BotGroup,
    botGroupId: string,
    bot: Bot,
    botId: string,
    renderTime: string,
    inputData: string,
    interactiveStarterTime: Option<string>,
    interactiveStarterDuration: Option<int>,
    interactiveControl: string,
    queryTime: Option<string>)

  /** `data.BotGroup{}`. */
  const ZeroBotGroup: BotGroup := BotGroup("", BotExtractorQueryKey("", ""), [], [], 0.0, [], [], [], [])

  /** `data.Bot{}`. */
  const ZeroBot: Bot := NewBot("")

  /** `data.InteractiveControl{}`. */
  const ZeroControl: InteractiveControl := InteractiveControl(0, false, false, 0, 0, 0)

  /** `strings.Replace(text, "\"", "\\\"", -1)`: every double quote gets a
      backslash before it, so the JSON can sit inside a quoted string. */
  function EscapeQuotes(s: string): (r: string)
    ensures |r| >= |s|
    ensures '"' !in s ==> r == s
  {
    ReplaceAllGrows(s, "\"", "\\\"");
    if '"' in s then ReplaceAll(s, "\"", "\\\"")
    else
      ReplaceAllAbsentChar(s, '"', "\\\"");
      ReplaceAll(s, "\"", "\\\"")
  }

  /** Reads an escaped text back: each backslash-quote pair becomes a
      quote. */
  function UnescapeQuotes(s: string): string
    decreases |s|
  {
    if |s| == 0 then s
    else if |s| >= 2 && s[0] == '\\' && s[1] == '"' then "\"" + UnescapeQuotes(s[2..])
    else [s[0]] + UnescapeQuotes(s[1..])
  }

  /** The escaped text never starts with a bare quote. */
  lemma EscapeStart(s: string)
    ensures |EscapeQuotes(s)| > 0 ==> EscapeQuotes(s)[0] != '"'
    ensures |EscapeQuotes(s)| == 0 <==> |s| == 0
  {
    if |s| > 0 {
      if s[..1] == "\"" {
        assert EscapeQuotes(s) == "\\\"" + EscapeQuotes(s[1..]);
      } else {
        assert EscapeQuotes(s) == [s[0]] + EscapeQuotes(s[1..]);
      }
    }
  }

  /** Escaping loses nothing: the text reads back as the JSON it came
      from. */
  lemma {:induction false} UnescapeEscape(s: string)
    ensures UnescapeQuotes(EscapeQuotes(s)) == s
    decreases |s|
  {
    if |s| > 0 {
      var rest := EscapeQuotes(s[1..]);
      UnescapeEscape(s[1..]);
      EscapeStart(s[1..]);
      if s[..1] == "\"" {
        var e := "\\\"" + rest;
        assert EscapeQuotes(s) == e;
        assert e[2..] == rest;
        assert s == "\"" + s[1..];
      } else {
        var e := [s[0]] + rest;
        assert EscapeQuotes(s) == e;
        assert e[1..] == rest;
        assert !(|e| >= 2 && e[0] == '\\' && e[1] == '"');
        assert s == [s[0]] + s[1..];
      }
    }
  }

  /** Every quote of the escaped text has a backslash before it. */
  lemma {:induction false} EscapedQuotesAreEscaped(s: string)
    ensures forall i :: 0 <= i < |EscapeQuotes(s)| && EscapeQuotes(s)[i] == '"' ==>
      0 < i && EscapeQuotes(s)[i - 1] == '\\'
    decreases |s|
  {
    if |s| > 0 {
      var rest := EscapeQuotes(s[1..]);
      EscapedQuotesAreEscaped(s[1..]);
      EscapeStart(s[1..]);
      var e := EscapeQuotes(s);
      if s[..1] == "\"" {
        assert e == "\\\"" + rest;
        forall i | 0 <= i < |e| && e[i] == '"' ensures 0 < i && e[i - 1] == '\\' {
          if i >= 2 {
            assert e[i] == rest[i - 2];
            if i >= 3 {
              assert e[i - 1] == rest[i - 3];
            }
          }
        }
      } else {
        assert e == [s[0]] + rest;
        forall i | 0 <= i < |e| && e[i] == '"' ensures 0 < i && e[i - 1] == '\\' {
          if i >= 1 {
            assert e[i] == rest[i - 1];
            if i >= 2 {
              assert e[i - 1] == rest[i - 2];
            }
          }
        }
      }
    }
  }

  /** The `inputData` map both handlers build. */
  function InputData(botGroupId: string, botId: string): (m: map<string, string>)
    ensures m.Keys == {"bot_group_id", "bot_id"}
  {
    map["bot_group_id" := botGroupId, "bot_id" := botId]
  }

  /** `BuildRenderMapFiber`: the page-load map. */
  function BuildRenderMapFiber(siteName: string, botGroup: BotGroup, bot: Bot, inputData: map<string, string>,
                               now: Time, durationMinutes: int, fmt: Formatters): (r: RenderMap)
    ensures r.title == "Sireus" && r.siteId == siteName
    ensures r.botGroup == botGroup && r.botGroupId == botGroup.name && r.bot == bot && r.botId == bot.name
    ensures r.renderTime == fmt.formatTimeLong(now)
    ensures |inputData| == 0 ==> r.inputData == "{}"
    ensures |inputData| != 0 ==> UnescapeQuotes(r.inputData) == fmt.printInput(inputData)
    ensures r.interactiveStarterTime == Some(FormatInteractiveStartTime(now, durationMinutes, fmt.clock))
    ensures r.interactiveStarterDuration == Some(durationMinutes)
    ensures r.interactiveControl == "{}" && r.queryTime.None?
  {
    var renderTimeStr := fmt.formatTimeLong(now);
    var inputDataStr := if |inputData| == 0 then "{}" else EscapeQuotes(fmt.printInput(inputData));
    UnescapeEscape(fmt.printInput(inputData));
    RenderMap("Sireus", siteName, botGroup, botGroup.name, bot, bot.name, renderTimeStr, inputDataStr,
              Some(FormatInteractiveStartTime(now, durationMinutes, fmt.clock)), Some(durationMinutes), "{}", None)
  }

  /** `BuildRenderMap`: the RPC map.  `query_time` is the scrub time, and
      is there exactly for a non-production session. */
  function BuildRenderMap(siteName: string, botGroup: BotGroup, bot: Bot, inputData: map<string, string>,
                          control: InteractiveControl, now: Time, fmt: Formatters): (r: RenderMap)
    ensures r.title == "Sireus" && r.siteId == siteName
    ensures r.botGroup == botGroup && r.botGroupId == botGroup.name && r.bot == bot && r.botId == bot.name
    ensures r.renderTime == fmt.formatTimeLong(now)
    ensures fmt.printInput(inputData) == "" ==> r.inputData == "{}"
    ensures fmt.printInput(inputData) != "" ==> UnescapeQuotes(r.inputData) == fmt.printInput(inputData)
    ensures fmt.printControl(control) == "" ==> r.interactiveControl == "{}"
    ensures fmt.printControl(control) != "" ==> UnescapeQuotes(r.interactiveControl) == fmt.printControl(control)
    ensures r.interactiveStarterTime.None? && r.interactiveStarterDuration.None?
    ensures r.queryTime.Some? <==> control.sessionUUID != 0
    ensures r.queryTime.Some? ==> r.queryTime.value == fmt.formatTimeLong(UnixMilli(control.queryScrubTime))
  {
    var renderTimeStr := fmt.formatTimeLong(now);
    var inputDataStr := EscapeQuotes(fmt.printInput(inputData));
    var interactiveControlStr := EscapeQuotes(fmt.printControl(control));
    EscapeStart(fmt.printInput(inputData));
    EscapeStart(fmt.printControl(control));
    UnescapeEscape(fmt.printInput(inputData));
    UnescapeEscape(fmt.printControl(control));
    var queryTime := if control.sessionUUID != 0 then Some(fmt.formatTimeLong(UnixMilli(control.queryScrubTime))) else None;
    RenderMap("Sireus", siteName, botGroup, botGroup.name, bot, bot.name, renderTimeStr,
              if |inputDataStr| == 0 then "{}" else inputDataStr, None, None,
              if |interactiveControlStr| == 0 then "{}" else interactiveControlStr, queryTime)
  }

  /** The control an RPC call works with: the decoded `interactive_control`
      (or the zero control), given a fresh id when it has none, and
      replaced by the production control unless it asks for an interactive
      session. */
  function RpcControl(input: map<string, string>, decodeControl: string -> InteractiveControl,
                      freshId: nat, now: Time): (c: InteractiveControl)
    ensures !c.useInteractiveSession ==> c == GetProductionInteractiveControl(now)
    ensures c.useInteractiveSession ==> c.sessionUUID != 0 || freshId == 0
  {
    var decoded := if "interactive_control" in input then decodeControl(input["interactive_control"]) else ZeroControl;
    var withId := if decoded.sessionUUID == 0 then decoded.(sessionUUID := freshId) else decoded;
    if !withId.useInteractiveSession then GetProductionInteractiveControl(now) else withId
  }

  /** An RPC call either keeps its own session, with a fresh id in place of
      a zero one and everything else as sent, or is the production session
      0; a call without a control is always the production session. */
  lemma RpcControlRules(input: map<string, string>, decodeControl: string -> InteractiveControl, freshId: nat, now: Time)
    ensures var sent := if "interactive_control" in input then decodeControl(input["interactive_control"]) else ZeroControl;
      var c := RpcControl(input, decodeControl, freshId, now);
      && (!sent.useInteractiveSession ==> c == GetProductionInteractiveControl(now) && c.sessionUUID == 0)
      && (sent.useInteractiveSession ==>
            c == sent.(sessionUUID := if sent.sessionUUID == 0 then freshId else sent.sessionUUID))
      && ("interactive_control" !in input ==> c.sessionUUID == 0)
  {
  }

  /** The BotGroup and Bot a render is for: the group only when an id is
      given, the Bot only when an id is given and the group was found. */
  function RenderTargets(groups: seq<BotGroup>, botGroupId: string, botId: string): (r: Result<(BotGroup, Bot), BotGroupError>)
    ensures r.Ok? && |botGroupId| != 0 ==> r.value.0 in groups && r.value.0.name == botGroupId
    ensures r.Ok? && |botGroupId| == 0 ==> r.value == (ZeroBotGroup, ZeroBot)
    ensures r.Ok? && |botId| != 0 && |botGroupId| != 0 ==> r.value.1 in r.value.0.bots && r.value.1.name == botId
    ensures r.Ok? && |botId| == 0 ==> r.value.1 == ZeroBot
  {
    var group := if |botGroupId| != 0 then FindBotGroup(groups, botGroupId) else Ok(ZeroBotGroup);
    match group
    case Err(e) => Err(e)
    case Ok(g) =>
      if |botId| != 0 && |g.name| != 0 then
        match GetBot(g, botId)
        case Err(e) => Err(e)
        case Ok(b) => Ok((g, b))
      else Ok((g, ZeroBot))
  }

  /** A named group is missing, or a named Bot is missing from the group
      found. */
  predicate LookupFails(groups: seq<BotGroup>, botGroupId: string, botId: string)
  {
    && |botGroupId| != 0
    && ((forall i :: 0 <= i < |groups| ==> groups[i].name != botGroupId)
        || (|botId| != 0 && FindBotGroup(groups, botGroupId).Ok?
            && forall i :: 0 <= i < |FindBotGroup(groups, botGroupId).value.bots| ==>
                 FindBotGroup(groups, botGroupId).value.bots[i].name != botId))
  }

  /** The lookup fails exactly when a named group is missing or a named Bot
      is missing from the group found; otherwise the group and the Bot are
      the ones named, or the zero values when no name is given. */
  lemma RenderTargetsRules(groups: seq<BotGroup>, botGroupId: string, botId: string)
    ensures var r := RenderTargets(groups, botGroupId, botId);
      && (r.Err? <==> LookupFails(groups, botGroupId, botId))
      && (r.Ok? && |botGroupId| == 0 ==> r.value == (ZeroBotGroup, ZeroBot))
      && (r.Ok? && |botGroupId| != 0 ==> r.value.0.name == botGroupId && r.value.0 in groups)
      && (r.Ok? && |botGroupId| != 0 && |botId| != 0 ==> r.value.1.name == botId && r.value.1 in r.value.0.bots)
      && (r.Ok? && |botId| == 0 ==> r.value.1 == ZeroBot)
  {
    if |botGroupId| != 0 {
      var g := FindBotGroup(groups, botGroupId);
      if g.Ok? {
        var b := GetBot(g.value, botId);
        if |botId| != 0 && b.Ok? {
          var i :| 0 <= i < |g.value.bots| && g.value.bots[i] == b.value && b.value.name == botId
            && forall j :: 0 <= j < i ==> g.value.bots[j].name != botId;
          assert b.value in g.value.bots;
        }
        var k :| 0 <= k < |groups| && groups[k] == g.value && g.value.name == botGroupId
          && forall j :: 0 <= j < k ==> groups[j].name != botGroupId;
        assert g.value in groups;
      }
    }
  }

  /** What an RPC call renders from the session map it finds. */
  function RpcRenderMap(sessions: map<nat, InteractiveSession>, loadedBotGroups: seq<BotGroup>, siteName: string,
                        input: map<string, string>, decodeControl: string -> InteractiveControl, freshId: nat,
                        now: Time, fmt: Formatters): (r: Result<RenderMap, BotGroupError>)
    ensures MapGet(input, "bot_group_id") == "" ==> r.Ok?
    ensures r.Ok? ==> r.value.siteId == siteName && r.value.interactiveStarterTime.None?
  {
    var control := RpcControl(input, decodeControl, freshId, now);
    var session := SessionFor(sessions, loadedBotGroups, control, now);
    var botGroupId, botId := MapGet(input, "bot_group_id"), MapGet(input, "bot_id");
    match RenderTargets(session.botGroups, botGroupId, botId)
    case Err(e) => Err(e)
    case Ok((g, b)) => Ok(BuildRenderMap(siteName, g, b, InputData(botGroupId, botId), control, now, fmt))
  }

  /** A production RPC render never shows a query time; an interactive one
      always does once its id is not zero. */
  lemma RpcQueryTime(sessions: map<nat, InteractiveSession>, loadedBotGroups: seq<BotGroup>, siteName: string,
                     input: map<string, string>, decodeControl: string -> InteractiveControl, freshId: nat,
                     now: Time, fmt: Formatters)
    requires RpcRenderMap(sessions, loadedBotGroups, siteName, input, decodeControl, freshId, now, fmt).Ok?
    ensures var sent := if "interactive_control" in input then decodeControl(input["interactive_control"]) else ZeroControl;
      var r := RpcRenderMap(sessions, loadedBotGroups, siteName, input, decodeControl, freshId, now, fmt).value;
      r.queryTime.Some? <==> sent.useInteractiveSession && (sent.sessionUUID != 0 || freshId != 0)
  {
    RpcControlRules(input, decodeControl, freshId, now);
  }

  /** Refreshing a session twice with the same control and clock is the
      same as refreshing it once. */
  lemma SessionRefreshTwice(sessions: map<nat, InteractiveSession>, loadedBotGroups: seq<BotGroup>,
                            control: InteractiveControl, now: Time)
    ensures var s := SessionFor(sessions, loadedBotGroups, control, now);
      SessionFor(sessions[control.sessionUUID := s], loadedBotGroups, control, now) == s
  {
  }

  /** `GetRenderMapFromRPC`: normalises the control, refreshes its session
      (a second time inside `GetBotGroup`), looks the BotGroup and Bot up
      and builds the RPC map.  The query run and BotGroup update between
      the session refresh and the lookup are not part of this method. */
  method GetRenderMapFromRPC(site: Site, input: map<string, string>, decodeControl: string -> InteractiveControl,
                             freshId: nat, now: Time, fmt: Formatters) returns (r: Result<RenderMap, BotGroupError>)
    modifies site.sessionCache
    ensures r == RpcRenderMap(old(site.sessionCache.sessions), site.loadedBotGroups, site.name, input,
                              decodeControl, freshId, now, fmt)
    ensures var control := RpcControl(input, decodeControl, freshId, now);
      site.sessionCache.sessions == old(site.sessionCache.sessions)[control.sessionUUID :=
        SessionFor(old(site.sessionCache.sessions), site.loadedBotGroups, control, now)]
  {
    var botGroupId := MapGet(input, "bot_group_id");
    var botId := MapGet(input, "bot_id");
    var interactiveControl := ZeroControl;
    if "interactive_control" in input {
      interactiveControl := decodeControl(input["interactive_control"]);
    }
    if interactiveControl.sessionUUID == 0 {
      interactiveControl := interactiveControl.(sessionUUID := freshId);
    }
    if !interactiveControl.useInteractiveSession {
      interactiveControl := GetProductionInteractiveControl(now);
    }
    assert interactiveControl == RpcControl(input, decodeControl, freshId, now);
    ghost var before := site.sessionCache.sessions;
    var session := site.GetInteractiveSession(interactiveControl, now);
    SessionRefreshTwice(before, site.loadedBotGroups, interactiveControl, now);
    var botGroup := ZeroBotGroup;
    if |botGroupId| != 0 {
      var found := site.GetBotGroup(interactiveControl, botGroupId, now);
      if found.Err? {
        return Err(found.error);
      }
      botGroup := found.value;
    }
    var bot := ZeroBot;
    if |botId| != 0 && |botGroup.name| != 0 {
      var found := GetBot(botGroup, botId);
      if found.Err? {
        return Err(found.error);
      }
      bot := found.value;
    }
    var inputData := InputData(botGroupId, botId);
    r := Ok(BuildRenderMap(site.name, botGroup, bot, inputData, interactiveControl, now, fmt));
  }

  /** What a page load renders from the session map it finds: always the
      production session of the Site. */
  function ParamsRenderMap(sessions: map<nat, InteractiveSession>, loadedBotGroups: seq<BotGroup>, siteName: string,
                           productionControl: InteractiveControl, query: map<string, string>, now: Time,
                           durationMinutes: int, fmt: Formatters): (r: Result<RenderMap, BotGroupError>)
    ensures MapGet(query, "bot_group_id") == "" ==> r.Ok?
    ensures r.Ok? ==> r.value.siteId == siteName && r.value.interactiveControl == "{}" && r.value.queryTime.None?
  {
    var botGroupId, botId := MapGet(query, "bot_group_id"), MapGet(query, "bot_id");
    var session := SessionFor(sessions, loadedBotGroups, productionControl, now);
    match RenderTargets(session.botGroups, botGroupId, botId)
    case Err(e) => Err(e)
    case Ok((g, b)) => Ok(BuildRenderMapFiber(siteName, g, b, InputData(botGroupId, botId), now, durationMinutes, fmt))
  }

  /** A page load always carries its two ids as input data and starts with
      an empty interactive control and no query time. */
  lemma ParamsRenderMapRules(sessions: map<nat, InteractiveSession>, loadedBotGroups: seq<BotGroup>, siteName: string,
                             productionControl: InteractiveControl, query: map<string, string>, now: Time,
                             durationMinutes: int, fmt: Formatters)
    requires ParamsRenderMap(sessions, loadedBotGroups, siteName, productionControl, query, now, durationMinutes, fmt).Ok?
    ensures var r := ParamsRenderMap(sessions, loadedBotGroups, siteName, productionControl, query, now, durationMinutes, fmt).value;
      && UnescapeQuotes(r.inputData) == fmt.printInput(InputData(MapGet(query, "bot_group_id"), MapGet(query, "bot_id")))
      && r.interactiveControl == "{}" && r.queryTime.None?
  {
    var m := InputData(MapGet(query, "bot_group_id"), MapGet(query, "bot_id"));
    assert "bot_id" in m.Keys;
    assert |m| != 0;
  }

  /** `GetRenderMapFromParams`: a page load looks the BotGroup up in the
      production session (refreshing it) and builds the page-load map. */
  method GetRenderMapFromParams(site: Site, query: map<string, string>, now: Time, durationMinutes: int,
                                fmt: Formatters) returns (r: Result<RenderMap, BotGroupError>)
    modifies site.sessionCache
    ensures r == ParamsRenderMap(old(site.sessionCache.sessions), site.loadedBotGroups, site.name,
                                 site.productionControl, query, now, durationMinutes, fmt)
    ensures |MapGet(query, "bot_group_id")| == 0 ==> site.sessionCache.sessions == old(site.sessionCache.sessions)
    ensures |MapGet(query, "bot_group_id")| != 0 ==>
      site.sessionCache.sessions == old(site.sessionCache.sessions)[site.productionControl.sessionUUID :=
        SessionFor(old(site.sessionCache.sessions), site.loadedBotGroups, site.productionControl, now)]
  {
    var botGroupId := MapGet(query, "bot_group_id");
    var botId := MapGet(query, "bot_id");
    var botGroup := ZeroBotGroup;
    if |botGroupId| != 0 {
      var found := site.GetBotGroup(site.productionControl, botGroupId, now);
      if found.Err? {
        return Err(found.error);
      }
      botGroup := found.value;
    }
    var bot := ZeroBot;
    if |botId| != 0 && |botGroup.name| != 0 {
      var found := GetBot(botGroup, botId);
      if found.Err? {
        return Err(found.error);
      }
      bot := found.value;
    }
    var inputData := InputData(botGroupId, botId);
    r := Ok(BuildRenderMapFiber(site.name, botGroup, bot, inputData, now, durationMinutes, fmt));
  }
}
