/** The forward-sequence state machine of code/app/bot_group.go.  A Bot's
    `StateValues` holds `"Base.Label"` strings; a BotGroup's `States` name
    each base and its ordered labels.  A base only moves forward through
    its labels or is reset to the first one.  The Go functions update
    `bot.StateValues` in place; here they take the old list and
    return the new one. */
module BotGroupStates {
  import opened Wrappers
  import opened Data
  import opened GoText
  import opened Sorting
  import opened BotGroupLookup

  /** The text before the first dot of a state. */
  function StateBaseOf(state: string): string
  {
    SplitFirstDot(state).0
  }

  /** The text after the first dot of a dotted state. */
  function StateLabelOf(state: string): string
    requires '.' in state
  {
    SplitFirstDot(state).1.value
  }

  /** `GetStateIndex`: the label's position in the labels of the first
      BotForwardSequenceState named by the base.  Go panics on a state with
      no dot. */
  function GetStateIndex(group: BotGroup, state: string): (r: Result<nat, BotGroupError>)
    requires '.' in state
    ensures r.Ok? <==> (GetBotForwardSequenceState(group, StateBaseOf(state)).Ok?
      && StateLabelOf(state) in GetBotForwardSequenceState(group, StateBaseOf(state)).value.labels)
    ensures r.Ok? ==> var labels := GetBotForwardSequenceState(group, StateBaseOf(state)).value.labels;
      r.value < |labels| && labels[r.value] == StateLabelOf(state) && StateLabelOf(state) !in labels[..r.value]
    ensures r.Err? ==> r.error == MissingState(state) || r.error == MissingLabel(StateLabelOf(state))
  {
    match GetBotForwardSequenceState(group, StateBaseOf(state))
    case Err(_) => Err(MissingState(state))
    case Ok(stateData) =>
      match FindIndex(stateData.labels, StateLabelOf(state))
      case None => Err(MissingLabel(StateLabelOf(state)))
      case Some(i) => Ok(i)
  }

  lemma PrefixHasDot(s: string, base: string)
    requires HasPrefix(s, base + ".")
    ensures '.' in s
  {
    assert s[|base|] == (base + ".")[|base|];
  }

  /** Position of the first entry that starts with `p`. */
  function FirstWithPrefix(states: seq<string>, p: string): (r: Option<nat>)
    ensures r.None? <==> forall i :: 0 <= i < |states| ==> !HasPrefix(states[i], p)
    ensures r.Some? ==> r.value < |states| && HasPrefix(states[r.value], p)
    ensures r.Some? ==> forall j :: 0 <= j < r.value ==> !HasPrefix(states[j], p)
  {
    if |states| == 0 then None
    else if HasPrefix(states[0], p) then Some(0)
    else match FirstWithPrefix(states[1..], p)
      case None => None
      case Some(i) => Some(i + 1)
  }

  /** What `GetBotCurrentStateAndIndex` returns: the Bot's entry for the
      base, its label index (-1 on an error) and the error. */
  datatype CurrentState = CurrentState(state: string, index: int, err: Option<BotGroupError>)

  /** `GetBotCurrentStateAndIndex`: the first entry of `stateValues` that
      starts with `stateBase + "."`, with the index `GetStateIndex` gives
      it. */
  function GetBotCurrentStateAndIndex(group: BotGroup, stateValues: seq<string>, stateBase: string): (r: CurrentState)
    ensures (forall i :: 0 <= i < |stateValues| ==> !HasPrefix(stateValues[i], stateBase + "."))
      <==> r == CurrentState("", -1, Some(MissingStateBase(stateBase)))
    ensures r.err.None? ==> (r.state in stateValues && HasPrefix(r.state, stateBase + ".") && '.' in r.state
      && r.index >= 0 && GetStateIndex(group, r.state) == Ok(r.index as nat))
    ensures r.err.Some? ==> r.index == -1
    ensures r.state != "" ==> exists i :: (0 <= i < |stateValues| && stateValues[i] == r.state
      && (forall j :: 0 <= j < i ==> !HasPrefix(stateValues[j], stateBase + ".")))
  {
    match FirstWithPrefix(stateValues, stateBase + ".")
    case None => CurrentState("", -1, Some(MissingStateBase(stateBase)))
    case Some(i) =>
      var s := stateValues[i];
      PrefixHasDot(s, stateBase);
      match GetStateIndex(group, s)
      case Err(e) => CurrentState(s, -1, Some(e))
      case Ok(index) => CurrentState(s, index, None)
  }

  /** One `setStates` item with a dot: replace the base's entry by the
      target when the target's index is not below the current one. */
  function SetTargetState(group: BotGroup, stateValues: seq<string>, state: string): (r: Result<seq<string>, BotGroupError>)
    requires '.' in state
    ensures var cur := GetBotCurrentStateAndIndex(group, stateValues, StateBaseOf(state));
      r.Ok? <==> cur.err.None? && GetStateIndex(group, state).Ok? && GetStateIndex(group, state).value >= cur.index
    ensures var cur := GetBotCurrentStateAndIndex(group, stateValues, StateBaseOf(state));
      cur.err.None? && GetStateIndex(group, state).Ok? && GetStateIndex(group, state).value < cur.index ==>
        r == Err(EarlierLabel(state, GetStateIndex(group, state).value, cur.state, cur.index))
    ensures var cur := GetBotCurrentStateAndIndex(group, stateValues, StateBaseOf(state));
      r.Ok? ==> (multiset(r.value) == multiset(stateValues) - multiset{cur.state} + multiset{state}
        && |r.value| == |stateValues|)
  {
    var cur := GetBotCurrentStateAndIndex(group, stateValues, StateBaseOf(state));
    if cur.err.Some? then Err(cur.err.value)
    else match GetStateIndex(group, state)
      case Err(e) => Err(e)
      case Ok(target) =>
        if target < cur.index then Err(EarlierLabel(state, target, cur.state, cur.index))
        else match RemoveFirst(stateValues, cur.state)
          case None => Err(MissingValue(cur.state))
          case Some(rest) => Ok(rest + [state])
  }

  /** One `setStates` item without a dot: move the base named `stateBase`
      to its next label, or leave the list alone at the last label.  The
      new entry is `stateBase + "." + label` when `qualify` holds, and the
      bare label otherwise. */
  function AdvanceState(group: BotGroup, stateValues: seq<string>, stateBase: string, qualify: bool): (r: Result<seq<string>, BotGroupError>)
    ensures var cur := GetBotCurrentStateAndIndex(group, stateValues, stateBase);
      r.Ok? <==> cur.err.None? && GetBotForwardSequenceState(group, stateBase).Ok?
    ensures var cur := GetBotCurrentStateAndIndex(group, stateValues, stateBase);
      var sd := GetBotForwardSequenceState(group, stateBase);
      r.Ok? && cur.index >= |sd.value.labels| - 1 ==> r.value == stateValues
    ensures var cur := GetBotCurrentStateAndIndex(group, stateValues, stateBase);
      var sd := GetBotForwardSequenceState(group, stateBase);
      r.Ok? && cur.index < |sd.value.labels| - 1 ==>
        var lbl := sd.value.labels[cur.index + 1];
        multiset(r.value) == multiset(stateValues) - multiset{cur.state}
          + multiset{if qualify then stateBase + "." + lbl else lbl}
    ensures r.Ok? ==> |r.value| == |stateValues|
  {
    var cur := GetBotCurrentStateAndIndex(group, stateValues, stateBase);
    if cur.err.Some? then Err(cur.err.value)
    else match GetBotForwardSequenceState(group, stateBase)
      case Err(e) => Err(e)
      case Ok(stateData) =>
        if cur.index < |stateData.labels| - 1 then
          var lbl := stateData.labels[cur.index + 1];
          var nextState := if qualify then stateBase + "." + lbl else lbl;
          match RemoveFirst(stateValues, cur.state)
          case None => Err(MissingValue(cur.state))
          case Some(rest) =>
            ReplaceByAppend(stateValues, cur.state, rest, nextState);
            Ok(rest + [nextState])
        else Ok(stateValues)
  }

  /** Removing `x` and appending `y` trades one `x` for one `y`. */
  lemma ReplaceByAppend(s: seq<string>, x: string, rest: seq<string>, y: string)
    requires multiset(rest) + multiset{x} == multiset(s)
    ensures multiset(rest + [y]) == multiset(s) - multiset{x} + multiset{y}
    ensures |rest + [y]| == |s|
  {
    assert |multiset(rest)| + |multiset{x}| == |multiset(s)|;
  }

  /** One item of `SetBotStates` as written: an undotted item looks up the
      base `""` and appends the bare label. */
  function SetStateStepAsWritten(group: BotGroup, stateValues: seq<string>, state: string): (r: Result<seq<string>, BotGroupError>)
    ensures r.Ok? ==> |r.value| == |stateValues|
    ensures '.' !in state && (forall i :: 0 <= i < |stateValues| ==> !HasPrefix(stateValues[i], ".")) ==>
      r == Err(MissingStateBase(""))
  {
    if '.' in state then SetTargetState(group, stateValues, state)
    else AdvanceState(group, stateValues, "", false)
  }

  /** One item of `SetBotStates`, with the undotted item advancing the base
      it names. */
  function SetStateStep(group: BotGroup, stateValues: seq<string>, state: string): (r: Result<seq<string>, BotGroupError>)
    ensures r.Ok? ==> |r.value| == |stateValues|
    ensures '.' !in state ==>
      (r.Ok? <==> (GetBotCurrentStateAndIndex(group, stateValues, state).err.None?
                   && GetBotForwardSequenceState(group, state).Ok?))
  {
    if '.' in state then SetTargetState(group, stateValues, state)
    else AdvanceState(group, stateValues, state, true)
  }

  /** Items applied in order by `step`; the first error stops the walk and
      keeps what the earlier items did. */
  function ApplySteps<E>(step: (seq<string>, string) -> Result<seq<string>, E>, stateValues: seq<string>,
                         items: seq<string>): (seq<string>, Option<E>)
    decreases |items|
  {
    if |items| == 0 then (stateValues, None)
    else match step(stateValues, items[0])
      case Err(e) => (stateValues, Some(e))
      case Ok(next) => ApplySteps(step, next, items[1..])
  }

  /** The walk of `SetBotStates` over `setStates`. */
  function ApplySetStates(group: BotGroup, stateValues: seq<string>, setStates: seq<string>): (seq<string>, Option<BotGroupError>)
  {
    ApplySteps((s: seq<string>, x: string) => SetStateStep(group, s, x), stateValues, setStates)
  }

  /** What `SetBotStates` leaves in `bot.StateValues` and returns: the walk
      sorted on success, the unsorted partial walk on an error. */
  function SetBotStatesResult(group: BotGroup, stateValues: seq<string>, setStates: seq<string>): (r: (seq<string>, Option<BotGroupError>))
    ensures r.1 == ApplySetStates(group, stateValues, setStates).1
    ensures r.1.None? ==> SortedBy(r.0, StrLe) && multiset(r.0) == multiset(ApplySetStates(group, stateValues, setStates).0)
    ensures r.1.Some? ==> r.0 == ApplySetStates(group, stateValues, setStates).0
  {
    var (walked, err) := ApplySetStates(group, stateValues, setStates);
    if err.None? then (SortStrings(walked), None) else (walked, err)
  }

  /** `SetBotStates`. */
  method SetBotStates(group: BotGroup, stateValues: seq<string>, setStates: seq<string>)
    returns (newStateValues: seq<string>, err: Option<BotGroupError>)
    ensures (newStateValues, err) == SetBotStatesResult(group, stateValues, setStates)
  {
    newStateValues := stateValues;
    for i := 0 to |setStates|
      invariant ApplySetStates(group, stateValues, setStates) == ApplySetStates(group, newStateValues, setStates[i..])
    {
      assert setStates[i..][1..] == setStates[i + 1..];
      var step := SetStateStep(group, newStateValues, setStates[i]);
      if step.Err? {
        err := Some(step.error);
        return;
      }
      newStateValues := step.value;
    }
    newStateValues := SortStrings(newStateValues);
    err := None;
  }

  /** Walking `a + b` is walking `a`, then, unless `a` failed, walking `b`
      from where `a` ended. */
  lemma {:induction false} ApplyStepsAppend<E>(step: (seq<string>, string) -> Result<seq<string>, E>,
                                               stateValues: seq<string>, a: seq<string>, b: seq<string>)
    ensures ApplySteps(step, stateValues, a + b) ==
      (var (mid, err) := ApplySteps(step, stateValues, a);
       if err.Some? then (mid, err) else ApplySteps(step, mid, b))
    decreases |a|
  {
    if |a| > 0 {
      assert (a + b)[0] == a[0];
      assert (a + b)[1..] == a[1..] + b;
      match step(stateValues, a[0])
      case Err(_) =>
      case Ok(next) => ApplyStepsAppend(step, next, a[1..], b);
    } else {
      assert a + b == b;
    }
  }

  /** `ResetBotState`: the base's entry is replaced by its first label and
      the list is sorted.  Go panics when the state is found, the Bot's
      entry for it is read without error and the state has no labels; only
      a base with a dot can get that far (`ResetUndottedHasLabels`). */
  function ResetBotState(group: BotGroup, stateValues: seq<string>, stateBase: string): (r: Result<seq<string>, BotGroupError>)
    requires ResetReadsLabel(group, stateValues, stateBase)
    ensures r.Ok? <==> (GetBotForwardSequenceState(group, stateBase).Ok?
      && GetBotCurrentStateAndIndex(group, stateValues, stateBase).err.None?)
    ensures r.Err? && GetBotForwardSequenceState(group, stateBase).Err? ==> r.error == MissingForwardSequenceState(stateBase)
    ensures r.Ok? ==> (SortedBy(r.value, StrLe)
      && multiset(r.value) == multiset(stateValues)
           - multiset{GetBotCurrentStateAndIndex(group, stateValues, stateBase).state}
           + multiset{stateBase + "." + GetBotForwardSequenceState(group, stateBase).value.labels[0]})
  {
    match GetBotForwardSequenceState(group, stateBase)
    case Err(e) => Err(e)
    case Ok(stateData) =>
      var cur := GetBotCurrentStateAndIndex(group, stateValues, stateBase);
      if cur.err.Some? then Err(cur.err.value)
      else
        Ok(SortedReplace(stateValues, cur.state, stateData.name + "." + stateData.labels[0]))
  }

  /** `ResetBotState` reaches `Labels[0]` only with a label to read. */
  predicate ResetReadsLabel(group: BotGroup, stateValues: seq<string>, stateBase: string)
  {
    GetBotForwardSequenceState(group, stateBase).Ok? && GetBotCurrentStateAndIndex(group, stateValues, stateBase).err.None? ==>
      |GetBotForwardSequenceState(group, stateBase).value.labels| > 0
  }

  /** For a base without a dot the entry read back lies in that same state,
      so a state without labels fails with the missing-label error before
      `Labels[0]` is read. */
  lemma ResetUndottedHasLabels(group: BotGroup, stateValues: seq<string>, stateBase: string)
    requires '.' !in stateBase
    ensures ResetReadsLabel(group, stateValues, stateBase)
  {
    var cur := GetBotCurrentStateAndIndex(group, stateValues, stateBase);
    if GetBotForwardSequenceState(group, stateBase).Ok? && cur.err.None? {
      var s := cur.state;
      assert s == stateBase + "." + s[|stateBase| + 1..] by {
        assert s[..|stateBase| + 1] == stateBase + ".";
        assert s == s[..|stateBase| + 1] + s[|stateBase| + 1..];
      }
      SplitJoinDot(stateBase, s[|stateBase| + 1..]);
      assert StateBaseOf(s) == stateBase;
    }
  }

  /** The entry `old_` replaced by `new_`, in Go's string order. */
  function SortedReplace(stateValues: seq<string>, old_: string, new_: string): (r: seq<string>)
    requires old_ in stateValues
    ensures SortedBy(r, StrLe)
    ensures multiset(r) == multiset(stateValues) - multiset{old_} + multiset{new_}
  {
    var removed := RemoveFirst(stateValues, old_).UnwrapOr(stateValues);
    SortStrings(removed + [new_])
  }

  /** Every entry is a `"Base.Label"` that the BotGroup knows. */
  ghost predicate KnownStates(group: BotGroup, stateValues: seq<string>)
  {
    forall i :: 0 <= i < |stateValues| ==> '.' in stateValues[i] && GetStateIndex(group, stateValues[i]).Ok?
  }

  /** A base without a dot followed by one of its labels is a known state. */
  lemma KnownJoin(group: BotGroup, stateBase: string, lbl: string)
    requires '.' !in stateBase
    requires GetBotForwardSequenceState(group, stateBase).Ok?
    requires lbl in GetBotForwardSequenceState(group, stateBase).value.labels
    ensures '.' in stateBase + "." + lbl
    ensures GetStateIndex(group, stateBase + "." + lbl).Ok?
  {
    SplitJoinDot(stateBase, lbl);
    assert (stateBase + "." + lbl)[|stateBase|] == '.';
  }

  lemma KnownAfterReplace(group: BotGroup, stateValues: seq<string>, r: seq<string>, old_: string, new_: string)
    requires KnownStates(group, stateValues)
    requires '.' in new_ && GetStateIndex(group, new_).Ok?
    requires multiset(r) == multiset(stateValues) - multiset{old_} + multiset{new_}
    ensures KnownStates(group, r)
  {
    forall i | 0 <= i < |r|
      ensures '.' in r[i] && GetStateIndex(group, r[i]).Ok?
    {
      assert r[i] in multiset(r);
      if r[i] != new_ {
        assert r[i] in multiset(stateValues);
      }
    }
  }

  /** Each successful item keeps every entry a known state. */
  lemma SetStateStepKeepsKnown(group: BotGroup, stateValues: seq<string>, state: string)
    requires KnownStates(group, stateValues)
    requires SetStateStep(group, stateValues, state).Ok?
    ensures KnownStates(group, SetStateStep(group, stateValues, state).value)
  {
    var r := SetStateStep(group, stateValues, state).value;
    if '.' in state {
      var cur := GetBotCurrentStateAndIndex(group, stateValues, StateBaseOf(state));
      KnownAfterReplace(group, stateValues, r, cur.state, state);
    } else {
      var cur := GetBotCurrentStateAndIndex(group, stateValues, state);
      var sd := GetBotForwardSequenceState(group, state).value;
      if cur.index < |sd.labels| - 1 {
        var lbl := sd.labels[cur.index + 1];
        KnownJoin(group, state, lbl);
        KnownAfterReplace(group, stateValues, r, cur.state, state + "." + lbl);
      }
    }
  }

  /** A whole `SetBotStates` call, successful or not, keeps every entry a
      known state. */
  lemma {:induction false} SetBotStatesKeepsKnown(group: BotGroup, stateValues: seq<string>, setStates: seq<string>)
    requires KnownStates(group, stateValues)
    ensures KnownStates(group, ApplySetStates(group, stateValues, setStates).0)
    ensures KnownStates(group, SetBotStatesResult(group, stateValues, setStates).0)
    decreases |setStates|
  {
    if |setStates| > 0 {
      match SetStateStep(group, stateValues, setStates[0])
      case Err(_) =>
      case Ok(next) =>
        SetStateStepKeepsKnown(group, stateValues, setStates[0]);
        SetBotStatesKeepsKnown(group, next, setStates[1..]);
    }
    var (walked, err) := ApplySetStates(group, stateValues, setStates);
    if err.None? {
      var sorted := SortStrings(walked);
      forall i | 0 <= i < |sorted|
        ensures '.' in sorted[i] && GetStateIndex(group, sorted[i]).Ok?
      {
        assert sorted[i] in walked;
      }
    }
  }

  /** `ResetBotState` keeps every entry a known state. */
  lemma ResetKeepsKnown(group: BotGroup, stateValues: seq<string>, stateBase: string)
    requires '.' !in stateBase
    requires ResetReadsLabel(group, stateValues, stateBase)
    requires KnownStates(group, stateValues)
    requires ResetBotState(group, stateValues, stateBase).Ok?
    ensures KnownStates(group, ResetBotState(group, stateValues, stateBase).value)
  {
    var sd := GetBotForwardSequenceState(group, stateBase).value;
    KnownJoin(group, stateBase, sd.labels[0]);
    KnownAfterReplace(group, stateValues, ResetBotState(group, stateValues, stateBase).value,
                      GetBotCurrentStateAndIndex(group, stateValues, stateBase).state, stateBase + "." + sd.labels[0]);
  }

  /** A group where the dotted base `"A.B"` names a state without labels
      while the entry `"A.B.x"` is read as label `"B.x"` of state `"A"`. */
  function DottedBaseGroup(): BotGroup
  {
    BotGroup("g", BotExtractorQueryKey("", ""),
             [BotForwardSequenceState("A", ["B.x"]), BotForwardSequenceState("A.B", [])],
             [], 0.0, [], [], [], [])
  }

  /** On this group `ResetBotState` gets past both of its checks and then
      reads `Labels[0]` of an empty slice, which panics in Go: this is the
      input its requirement leaves out. */
  lemma ResetDottedReadsEmptyLabels()
    ensures !ResetReadsLabel(DottedBaseGroup(), ["A.B.x"], "A.B")
  {
    DottedBaseLookups();
    DottedBaseCurrent();
  }

  lemma DottedBaseLookups()
    ensures GetBotForwardSequenceState(DottedBaseGroup(), "A.B") == Ok(BotForwardSequenceState("A.B", []))
    ensures GetBotForwardSequenceState(DottedBaseGroup(), "A") == Ok(BotForwardSequenceState("A", ["B.x"]))
  {
    var g := DottedBaseGroup();
    assert g.states[1].name == "A.B" && g.states[0].name != "A.B";
    assert g.states[0].name == "A";
  }

  lemma DottedBaseText()
    ensures SplitFirstDot("A.B.x") == ("A", Some("B.x"))
    ensures HasPrefix("A.B.x", "A.B" + ".")
  {
    assert "A.B.x" == "A" + "." + "B.x";
    SplitJoinDot("A", "B.x");
    assert "A.B.x"[..4] == "A.B.";
  }

  lemma DottedBaseCurrent()
    ensures GetBotCurrentStateAndIndex(DottedBaseGroup(), ["A.B.x"], "A.B") == CurrentState("A.B.x", 0, None)
  {
    DottedBaseLookups();
    DottedBaseText();
    assert FirstWithPrefix(["A.B.x"], "A.B.") == Some(0);
    assert FindIndex(["B.x"], "B.x") == Some(0);
    assert GetStateIndex(DottedBaseGroup(), "A.B.x") == Ok(0);
  }

  /** A one-state group `Faults` with labels `Normal`, `Degraded`, used to
      exhibit the undotted item of `SetBotStates`. */
  function FaultsGroup(): BotGroup
  {
    BotGroup("g", BotExtractorQueryKey("", ""), [BotForwardSequenceState("Faults", ["Normal", "Degraded"])],
             [], 0.0, [], [], [], [])
  }

  /** As written, the undotted item `"Faults"` looks for an entry starting
      with `"."` and fails. */
  lemma UndottedAdvanceAsWritten()
    ensures SetStateStepAsWritten(FaultsGroup(), ["Faults.Normal"], "Faults") == Err(MissingStateBase(""))
  {
    FaultsNormalText();
    assert !HasPrefix("Faults.Normal", "" + ".") by {
      assert "Faults.Normal"[..1][0] == 'F';
    }
    assert GetBotCurrentStateAndIndex(FaultsGroup(), ["Faults.Normal"], "") == CurrentState("", -1, Some(MissingStateBase("")));
  }

  lemma FaultsLookup()
    ensures GetBotForwardSequenceState(FaultsGroup(), "Faults") == Ok(BotForwardSequenceState("Faults", ["Normal", "Degraded"]))
  {
    assert FaultsGroup().states[0].name == "Faults";
  }

  lemma FaultsCurrent()
    ensures GetBotCurrentStateAndIndex(FaultsGroup(), ["Faults.Normal"], "Faults") == CurrentState("Faults.Normal", 0, None)
  {
    FaultsLookup();
    assert "Faults.Normal"[..7] == "Faults.";
    assert FirstWithPrefix(["Faults.Normal"], "Faults.") == Some(0);
    FaultsNormalText();
    SplitJoinDot("Faults", "Normal");
    assert StateBaseOf("Faults.Normal") == "Faults" && StateLabelOf("Faults.Normal") == "Normal";
    assert FindIndex(["Normal", "Degraded"], "Normal") == Some(0);
  }

  lemma FaultsNormalText()
    ensures "Faults" + "." + "Normal" == "Faults.Normal"
    ensures '.' !in "Faults"
  {
  }

  lemma FaultsDegradedText()
    ensures "Faults" + "." + "Degraded" == "Faults.Degraded"
  {
  }

  /** The item meant to advance `Faults` moves `"Faults.Normal"` to
      `"Faults.Degraded"`. */
  lemma UndottedAdvanceIntended()
    ensures SetStateStep(FaultsGroup(), ["Faults.Normal"], "Faults") == Ok(["Faults.Degraded"])
  {
    FaultsNormalText();
    FaultsAdvance();
  }

  lemma FaultsAdvance()
    ensures AdvanceState(FaultsGroup(), ["Faults.Normal"], "Faults", true) == Ok(["Faults.Degraded"])
  {
    FaultsLookup();
    FaultsCurrent();
    FaultsDegradedText();
    AdvanceSingle(FaultsGroup(), "Faults.Normal", "Faults", ["Normal", "Degraded"], 0);
  }

  /** A Bot holding one entry, at `index` of a state with a later label,
      moves to that label. */
  lemma AdvanceSingle(group: BotGroup, s: string, stateBase: string, labels: seq<string>, index: nat)
    requires GetBotCurrentStateAndIndex(group, [s], stateBase) == CurrentState(s, index, None)
    requires GetBotForwardSequenceState(group, stateBase) == Ok(BotForwardSequenceState(stateBase, labels))
    requires index < |labels| - 1
    ensures AdvanceState(group, [s], stateBase, true) == Ok([stateBase + "." + labels[index + 1]])
  {
    assert RemoveFirst([s], s) == Some([]);
    assert [] + [stateBase + "." + labels[index + 1]] == [stateBase + "." + labels[index + 1]];
  }

  /** `GetBotsInState`: the Bots, in order, whose states include
      `"stateName.stateLabel"`. */
  function GetBotsInState(group: BotGroup, stateName: string, stateLabel: string): (r: seq<Bot>)
    ensures forall i :: 0 <= i < |r| ==> stateName + "." + stateLabel in r[i].stateValues
    ensures forall b :: multiset(r)[b] == if stateName + "." + stateLabel in b.stateValues then multiset(group.bots)[b] else 0
    ensures |r| == |MatchingPositions(group.bots, stateName + "." + stateLabel)|
    ensures forall k :: 0 <= k < |r| ==> r[k] == group.bots[MatchingPositions(group.bots, stateName + "." + stateLabel)[k]]
  {
    BotsWithStateAtPositions(group.bots, stateName + "." + stateLabel);
    BotsWithState(group.bots, stateName + "." + stateLabel)
  }

  /** The positions of the Bots holding `stateKey`, in increasing order. */
  function MatchingPositions(bots: seq<Bot>, stateKey: string): (p: seq<nat>)
    ensures forall k :: 0 <= k < |p| ==> p[k] < |bots| && stateKey in bots[p[k]].stateValues
    ensures forall k, l :: 0 <= k < l < |p| ==> p[k] < p[l]
    ensures forall i :: 0 <= i < |bots| && stateKey in bots[i].stateValues ==> i in p
    decreases |bots|
  {
    if |bots| == 0 then []
    else
      var front := bots[..|bots| - 1];
      assert forall i :: 0 <= i < |front| ==> front[i] == bots[i];
      var rest := MatchingPositions(front, stateKey);
      if stateKey in bots[|bots| - 1].stateValues then rest + [|bots| - 1] else rest
  }

  /** The Bots holding `stateKey`, in order, each as often as it occurs. */
  function BotsWithState(bots: seq<Bot>, stateKey: string): (r: seq<Bot>)
    ensures forall i :: 0 <= i < |r| ==> stateKey in r[i].stateValues
    ensures forall b :: multiset(r)[b] == if stateKey in b.stateValues then multiset(bots)[b] else 0
    decreases |bots|
  {
    if |bots| == 0 then []
    else
      var front, last := bots[..|bots| - 1], bots[|bots| - 1];
      assert bots == front + [last];
      var rest := BotsWithState(front, stateKey);
      if stateKey in last.stateValues then rest + [last] else rest
  }

  /** The Bots picked are exactly those at the matching positions. */
  lemma {:induction false} BotsWithStateAtPositions(bots: seq<Bot>, stateKey: string)
    ensures |BotsWithState(bots, stateKey)| == |MatchingPositions(bots, stateKey)|
    ensures forall k :: 0 <= k < |BotsWithState(bots, stateKey)| ==>
      BotsWithState(bots, stateKey)[k] == bots[MatchingPositions(bots, stateKey)[k]]
    decreases |bots|
  {
    if |bots| > 0 {
      var front, last := bots[..|bots| - 1], bots[|bots| - 1];
      var picked, positions := BotsWithState(front, stateKey), MatchingPositions(front, stateKey);
      BotsWithStateAtPositions(front, stateKey);
      var keep := stateKey in last.stateValues;
      assert BotsWithState(bots, stateKey) == picked + (if keep then [last] else []);
      assert MatchingPositions(bots, stateKey) == positions + (if keep then [|bots| - 1] else []);
      PickedExtends(bots, picked, positions, keep);
    }
  }

  lemma PickedExtends(bots: seq<Bot>, picked: seq<Bot>, positions: seq<nat>, keep: bool)
    requires |bots| > 0 && |picked| == |positions|
    requires forall k :: 0 <= k < |positions| ==>
      positions[k] < |bots| - 1 && picked[k] == bots[..|bots| - 1][positions[k]]
    ensures var r := picked + (if keep then [bots[|bots| - 1]] else []);
      var p := positions + (if keep then [|bots| - 1] else []);
      |r| == |p| && forall k :: 0 <= k < |r| ==> r[k] == bots[p[k]]
  {
  }
}
