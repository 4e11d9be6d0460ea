/** The Bot creation half of code/extdata/site_update.go: fresh Bots start
    at the first label of every forward-sequence state, and Bots extracted
    from the BotGroup's extractor query are merged into the BotGroup by
    name.  The Go functions update the session's BotGroup in place;
    here they take the old values and return the new ones. */
module SiteUpdateBots {
  import opened Wrappers
  import opened Data
  import opened GoText
  import opened Sorting
  import opened BotGroupLookup
  import opened BotGroupStates
  import opened QueryCache

  /** Go indexes `state.Labels[0]`, so every state must have a label. */
  predicate StatesHaveLabels(group: BotGroup)
  {
    forall i :: 0 <= i < |group.states| ==> |group.states[i].labels| > 0
  }

  /** A configuration in which state names are distinct and contain no dot,
      so every `"Name.Label"` splits back into its state and label. */
  predicate WellFormedStates(group: BotGroup)
  {
    && StatesHaveLabels(group)
    && (forall i :: 0 <= i < |group.states| ==> '.' !in group.states[i].name)
    && (forall i, j :: 0 <= i < j < |group.states| ==> group.states[i].name != group.states[j].name)
  }

  /** The entry a Bot starts with for one state. */
  function FirstStateValue(state: BotForwardSequenceState): string
    requires |state.labels| > 0
  {
    state.name + "." + state.labels[0]
  }

  /** The entries `InitializeBotStates` appends, in state order. */
  function InitialStateValues(states: seq<BotForwardSequenceState>): (r: seq<string>)
    requires forall i :: 0 <= i < |states| ==> |states[i].labels| > 0
    ensures |r| == |states|
    ensures forall i :: 0 <= i < |states| ==> r[i] == FirstStateValue(states[i])
  {
    if |states| == 0 then [] else InitialStateValues(states[..|states| - 1]) + [FirstStateValue(states[|states| - 1])]
  }

  /** The Bot after `InitializeBotStates`. */
  function InitializedBot(group: BotGroup, bot: Bot): Bot
    requires StatesHaveLabels(group)
  {
    bot.(stateValues := SortStrings(InitialStateValues(group.states)))
  }

  /** `InitializeBotStates(botGroup, bot)`: the old states are dropped, one
      `"Name.Labels[0]"` per BotGroup state is appended, and the list is
      sorted.  Nothing else of the Bot changes. */
  method InitializeBotStates(group: BotGroup, bot: Bot) returns (newBot: Bot)
    requires StatesHaveLabels(group)
    ensures newBot == InitializedBot(group, bot)
    ensures |newBot.stateValues| == |group.states| && SortedBy(newBot.stateValues, StrLe)
    ensures forall i :: 0 <= i < |group.states| ==> FirstStateValue(group.states[i]) in newBot.stateValues
    ensures forall s :: s in newBot.stateValues ==> exists i :: 0 <= i < |group.states| && s == FirstStateValue(group.states[i])
  {
    var stateValues: seq<string> := [];
    for i := 0 to |group.states|
      invariant stateValues == InitialStateValues(group.states[..i])
    {
      var state := group.states[i];
      var key := state.name + "." + state.labels[0];
      stateValues := stateValues + [key];
      assert group.states[..i + 1][..i] == group.states[..i];
    }
    assert group.states[..|group.states|] == group.states;
    var sorted := SortStrings(stateValues);
    newBot := bot.(stateValues := sorted);
    InitialEntries(group.states);
  }

  /** The sorted initial entries hold exactly one entry per state's first
      label. */
  lemma InitialEntries(states: seq<BotForwardSequenceState>)
    requires forall i :: 0 <= i < |states| ==> |states[i].labels| > 0
    ensures forall i :: 0 <= i < |states| ==> FirstStateValue(states[i]) in SortStrings(InitialStateValues(states))
    ensures forall s :: s in SortStrings(InitialStateValues(states)) ==>
      exists i :: 0 <= i < |states| && s == FirstStateValue(states[i])
  {
    var init := InitialStateValues(states);
    var sorted := SortStrings(init);
    forall i | 0 <= i < |states|
      ensures FirstStateValue(states[i]) in sorted
    {
      assert init[i] in multiset(sorted);
    }
    forall s | s in sorted
      ensures exists i :: 0 <= i < |states| && s == FirstStateValue(states[i])
    {
      assert s in multiset(init);
      var i :| 0 <= i < |init| && init[i] == s;
    }
  }

  /** With well-formed states, every entry of a fresh Bot names a known
      state and label, so later `SetBotStates` and `ResetBotState` calls find
      it. */
  lemma InitializedStatesKnown(group: BotGroup)
    requires WellFormedStates(group)
    ensures KnownStates(group, SortStrings(InitialStateValues(group.states)))
  {
    var init := InitialStateValues(group.states);
    forall i | 0 <= i < |init|
      ensures '.' in init[i] && GetStateIndex(group, init[i]).Ok?
    {
      var st := group.states[i];
      FirstStateIsFound(group, i);
      KnownJoin(group, st.name, st.labels[0]);
    }
    var sorted := SortStrings(init);
    forall i | 0 <= i < |sorted|
      ensures '.' in sorted[i] && GetStateIndex(group, sorted[i]).Ok?
    {
      assert sorted[i] in multiset(init);
    }
  }

  /** With distinct state names, the lookup by a state's name finds that
      state. */
  lemma FirstStateIsFound(group: BotGroup, i: nat)
    requires WellFormedStates(group) && i < |group.states|
    ensures GetBotForwardSequenceState(group, group.states[i].name) == Ok(group.states[i])
  {
    var r := GetBotForwardSequenceState(group, group.states[i].name);
    var k :| 0 <= k < |group.states| && group.states[k] == r.value && r.value.name == group.states[i].name;
    assert k == i;
  }

  function BotName(b: Bot): string { b.name }

  /** The names of a Bot list, in order. */
  function BotNames(bots: seq<Bot>): (r: seq<string>)
    ensures |r| == |bots| && forall i :: 0 <= i < |bots| ==> r[i] == bots[i].name
  {
    seq(|bots|, i requires 0 <= i < |bots| => bots[i].name)
  }

  /** What merging `extracted` into `old` promises: the old Bots are kept as
      a prefix, every extracted name ends up present, and each appended Bot
      is an initialized extracted Bot whose name was not present before
      it. */
  ghost predicate MergeOf(group: BotGroup, old_: seq<Bot>, extracted: seq<Bot>, bots: seq<Bot>)
    requires StatesHaveLabels(group)
  {
    && old_ <= bots
    && (forall e :: e in extracted ==> e.name in BotNames(bots))
    && (forall k :: |old_| <= k < |bots| ==> exists e :: e in extracted && bots[k] == InitializedBot(group, e))
    && (forall k :: |old_| <= k < |bots| ==> bots[k].name !in BotNames(bots[..k]))
  }

  /** Appending only absent names keeps a list's names distinct. */
  lemma MergeKeepsNamesDistinct(group: BotGroup, old_: seq<Bot>, extracted: seq<Bot>, bots: seq<Bot>)
    requires StatesHaveLabels(group)
    requires MergeOf(group, old_, extracted, bots)
    requires Distinct(BotNames(old_))
    ensures Distinct(BotNames(bots))
  {
    forall i, j | 0 <= i < j < |bots|
      ensures BotNames(bots)[i] != BotNames(bots)[j]
    {
      if j >= |old_| {
        assert BotNames(bots[..j])[i] == bots[i].name;
      } else {
        assert BotNames(old_)[i] == bots[i].name && BotNames(old_)[j] == bots[j].name;
      }
    }
  }

  /** Whether some Bot of the list has the name: the inner loop over
      `session.BotGroups[botGroupIndex].Bots`, which does not stop at the
      first match. */
  method HasBotNamed(bots: seq<Bot>, name: string) returns (found: bool)
    ensures found <==> name in BotNames(bots)
  {
    found := false;
    for i := 0 to |bots|
      invariant found <==> name in BotNames(bots)[..i]
    {
      if bots[i].name == name {
        found := true;
      }
      assert BotNames(bots)[..i + 1] == BotNames(bots)[..i] + [BotNames(bots)[i]];
    }
    assert BotNames(bots)[..|bots|] == BotNames(bots);
  }

  /** An extracted Bot whose name is already present adds nothing. */
  lemma MergeStepSkip(group: BotGroup, old_: seq<Bot>, extracted: seq<Bot>, n: nat, bots: seq<Bot>)
    requires StatesHaveLabels(group) && n < |extracted|
    requires MergeOf(group, old_, extracted[..n], bots)
    requires extracted[n].name in BotNames(bots)
    ensures MergeOf(group, old_, extracted[..n + 1], bots)
  {
    assert forall e :: e in extracted[..n + 1] ==> e in extracted[..n] || e == extracted[n];
    forall k | |old_| <= k < |bots|
      ensures exists e :: e in extracted[..n + 1] && bots[k] == InitializedBot(group, e)
    {
      var e :| e in extracted[..n] && bots[k] == InitializedBot(group, e);
      assert e in extracted[..n + 1];
    }
  }

  /** An extracted Bot with a new name is initialized and appended. */
  lemma MergeStepAppend(group: BotGroup, old_: seq<Bot>, extracted: seq<Bot>, n: nat, bots: seq<Bot>)
    requires StatesHaveLabels(group) && n < |extracted|
    requires MergeOf(group, old_, extracted[..n], bots)
    requires extracted[n].name !in BotNames(bots)
    ensures MergeOf(group, old_, extracted[..n + 1], bots + [InitializedBot(group, extracted[n])])
  {
    var next := bots + [InitializedBot(group, extracted[n])];
    assert BotNames(next) == BotNames(bots) + [extracted[n].name];
    assert next[..|bots|] == bots;
    forall e | e in extracted[..n + 1]
      ensures e.name in BotNames(next)
    {
      if e != extracted[n] {
        assert e in extracted[..n];
      }
    }
    forall k | |old_| <= k < |next|
      ensures exists e :: e in extracted[..n + 1] && next[k] == InitializedBot(group, e)
    {
      if k < |bots| {
        assert next[k] == bots[k];
        var e :| e in extracted[..n] && bots[k] == InitializedBot(group, e);
        assert e in extracted[..n + 1];
      } else {
        assert extracted[n] in extracted[..n + 1];
      }
    }
    forall k | |old_| <= k < |next|
      ensures next[k].name !in BotNames(next[..k])
    {
      if k < |bots| {
        assert next[..k] == bots[..k];
      }
    }
  }

  /** Whether some extracted Bot's name is missing from `bots`, so that the
      merge appends at least one Bot and reads the states' first labels. */
  predicate HasNewName(bots: seq<Bot>, extracted: seq<Bot>)
  {
    exists i :: 0 <= i < |extracted| && extracted[i].name !in BotNames(bots)
  }

  /** The merge as a fold over the extracted Bots in their order: each one
      whose name is not yet present, counting the Bots appended before it,
      is initialized and appended. */
  function MergeFold(group: BotGroup, bots: seq<Bot>, extracted: seq<Bot>): (r: seq<Bot>)
    requires StatesHaveLabels(group)
    decreases |extracted|
  {
    if |extracted| == 0 then bots
    else
      var prev := MergeFold(group, bots, extracted[..|extracted| - 1]);
      var e := extracted[|extracted| - 1];
      if e.name in BotNames(prev) then prev else prev + [InitializedBot(group, e)]
  }

  /** The fold meets every promise of `MergeOf`. */
  lemma {:induction false} MergeFoldIsMerge(group: BotGroup, old_: seq<Bot>, extracted: seq<Bot>)
    requires StatesHaveLabels(group)
    ensures MergeOf(group, old_, extracted, MergeFold(group, old_, extracted))
    decreases |extracted|
  {
    if |extracted| > 0 {
      var n := |extracted| - 1;
      MergeFoldIsMerge(group, old_, extracted[..n]);
      var prev := MergeFold(group, old_, extracted[..n]);
      assert extracted[..n + 1] == extracted;
      if extracted[n].name in BotNames(prev) {
        MergeStepSkip(group, old_, extracted, n, prev);
      } else {
        MergeStepAppend(group, old_, extracted, n, prev);
      }
    }
  }

  /** The merge loop of `UpdateBotGroupFromPrometheus`: each extracted Bot
      whose name is not yet in the BotGroup (including Bots appended by
      earlier iterations) is initialized and appended.  Only an appended Bot
      reads `Labels[0]`, so a state without labels is allowed when every
      extracted name is already present; nothing changes then. */
  method MergeExtractedBots(group: BotGroup, extracted: seq<Bot>) returns (bots: seq<Bot>)
    requires HasNewName(group.bots, extracted) ==> StatesHaveLabels(group)
    ensures StatesHaveLabels(group) ==> bots == MergeFold(group, group.bots, extracted)
    ensures StatesHaveLabels(group) ==> MergeOf(group, group.bots, extracted, bots)
    ensures !HasNewName(group.bots, extracted) ==> bots == group.bots
  {
    bots := group.bots;
    for n := 0 to |extracted|
      invariant StatesHaveLabels(group) ==> bots == MergeFold(group, group.bots, extracted[..n])
      invariant bots != group.bots ==> HasNewName(group.bots, extracted)
    {
      var botNew := extracted[n];
      var found := HasBotNamed(bots, botNew.name);
      assert extracted[..n + 1][..n] == extracted[..n];
      if !found {
        if bots == group.bots {
          assert extracted[n].name !in BotNames(group.bots);
        }
        assert HasNewName(group.bots, extracted);
        var initialized := InitializeBotStates(group, botNew);
        bots := bots + [initialized];
      }
    }
    assert extracted[..|extracted|] == extracted;
    if StatesHaveLabels(group) {
      MergeFoldIsMerge(group, group.bots, extracted);
    }
  }

  /** Go's zero `data.BotQuery{}`, what a failed `GetQuery` leaves. */
  const ZeroQuery: BotQuery := BotQuery("", "", "", 0)

  /** The series of the extractor query's cached result; a failed lookup
      leaves Go's zero `QueryResult`, which has none. */
  function ExtractorSeries(group: BotGroup, poolItems: map<string, QueryResultPoolItem>,
                           session: InteractiveSession, now: Time): (r: seq<PromResult>)
    ensures var query := GetQuery(group, group.botExtractor.queryName).UnwrapOr(ZeroQuery);
      GetCachedQueryResult(poolItems, session, query, now).Err? ==> r == []
  {
    var query := GetQuery(group, group.botExtractor.queryName).UnwrapOr(ZeroQuery);
    match GetCachedQueryResult(poolItems, session, query, now)
    case Ok(result) => result.results
    case Err(_) => []
  }

  /** `UpdateBotGroupFromPrometheus`: the Bots the extractor finds in the
      cached extractor query result are merged into the BotGroup.  The
      extractor of this revision takes the BotGroup and is not part of this
      model; it is the parameter `extract`. */
  method UpdateBotGroupFromPrometheus(group: BotGroup, poolItems: map<string, QueryResultPoolItem>,
                                      session: InteractiveSession, now: Time,
                                      extract: (seq<PromResult>, BotGroup) -> seq<Bot>)
    returns (newGroup: BotGroup)
    requires HasNewName(group.bots, extract(ExtractorSeries(group, poolItems, session, now), group)) ==> StatesHaveLabels(group)
    ensures newGroup == group.(bots := newGroup.bots)
    ensures StatesHaveLabels(group) ==>
      newGroup.bots == MergeFold(group, group.bots, extract(ExtractorSeries(group, poolItems, session, now), group))
    ensures StatesHaveLabels(group) ==>
      MergeOf(group, group.bots, extract(ExtractorSeries(group, poolItems, session, now), group), newGroup.bots)
    ensures !HasNewName(group.bots, extract(ExtractorSeries(group, poolItems, session, now), group)) ==> newGroup == group
  {
    var query: BotQuery;
    var q := GetQuery(group, group.botExtractor.queryName);
    if q.Ok? {
      query := q.value;
    } else {
      query := ZeroQuery;
    }
    var cached := GetCachedQueryResult(poolItems, session, query, now);
    var results: seq<PromResult> := [];
    if cached.Ok? {
      results := cached.value.results;
    }
    var extracted := extract(results, group);
    var bots := MergeExtractedBots(group, extracted);
    newGroup := group.(bots := bots);
  }
}
