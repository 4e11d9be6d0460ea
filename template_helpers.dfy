/** The Handlebars helpers of code/webapp/register_helpers.go.  A block
    helper's rendered block is the parameter `fn` (`options.Fn()`), its
    inverse block `inverse` (`options.Inverse()`), and rendering the block
    with a new context is the function `fnWith` (`options.FnWith`). */
module TemplateHelpers {
  import opened Wrappers
  import opened Data
  import opened GoText
  import opened Sorting
  import opened BotGroupSession
  import opened SiteUpdateBots
  import MetricExport

  /** `if_equal_string`. */
  function IfEqualString(a: string, b: string, fn: string): (r: string)
    ensures a == b ==> r == fn
    ensures a != b ==> r == ""
  {
    if a == b then fn else ""
  }

  /** Comparing `a` with `b` renders what comparing `b` with `a` does, and
      a name always equals itself. */
  lemma IfEqualStringSymmetric(a: string, b: string, fn: string)
    ensures IfEqualString(a, b, fn) == IfEqualString(b, a, fn)
    ensures IfEqualString(a, a, fn) == fn
  {
  }

  /** `if_string_in_slice`; `util.StringInSlice` is membership. */
  function IfStringInSlice(slice: seq<string>, find: string, fn: string, inverse: string): (r: string)
    ensures find in slice ==> r == fn
    ensures find !in slice ==> r == inverse
  {
    if find in slice then fn else inverse
  }

  /** The slice test depends only on which strings the slice holds: its
      order and any repeats do not matter. */
  lemma IfStringInSliceSetOnly(s1: seq<string>, s2: seq<string>, find: string, fn: string, inverse: string)
    requires forall x :: x in s1 <==> x in s2
    ensures IfStringInSlice(s1, find, fn, inverse) == IfStringInSlice(s2, find, fn, inverse)
  {
  }

  /** A permutation of the slice, in particular, renders the same. */
  lemma IfStringInSlicePermutation(s1: seq<string>, s2: seq<string>, find: string, fn: string, inverse: string)
    requires multiset(s1) == multiset(s2)
    ensures IfStringInSlice(s1, find, fn, inverse) == IfStringInSlice(s2, find, fn, inverse)
  {
    assert find in s1 <==> find in multiset(s1);
    assert find in s2 <==> find in multiset(s2);
  }

  /** `if_slice_has_dot_strings_2`: the block renders when `b1.b2` is in the
      slice. */
  function IfSliceHasDotStrings2(a: seq<string>, b1: string, b2: string, fn: string, inverse: string): (r: string)
    ensures b1 + "." + b2 in a ==> r == fn
    ensures b1 + "." + b2 !in a ==> r == inverse
  {
    var testString := b1 + "." + b2;
    if testString in a then fn else inverse
  }

  /** For a state name without a dot, the helper renders exactly when some
      entry of the slice splits at its first dot into that state and that
      label: it asks whether a Bot's state values hold `state.label`. */
  lemma DotStringsIsStateLabel(a: seq<string>, state: string, lbl: string, fn: string, inverse: string)
    requires '.' !in state
    requires fn != inverse
    ensures IfSliceHasDotStrings2(a, state, lbl, fn, inverse) == fn
        <==> exists i :: 0 <= i < |a| && SplitFirstDot(a[i]) == (state, Some(lbl))
  {
    SplitJoinDot(state, lbl);
    var s := state + "." + lbl;
    if s in a {
      var i :| 0 <= i < |a| && a[i] == s;
      assert SplitFirstDot(a[i]) == (state, Some(lbl));
    }
    if exists i :: 0 <= i < |a| && SplitFirstDot(a[i]) == (state, Some(lbl)) {
      var i :| 0 <= i < |a| && SplitFirstDot(a[i]) == (state, Some(lbl));
      assert a[i] == s;
    }
  }

  /** `if_time_never`: the block renders for Go's zero time. */
  function IfTimeNever(t: Time, fn: string): (r: string)
    ensures t == ZeroTime ==> r == fn
    ensures t != ZeroTime ==> r == ""
  {
    if t == ZeroTime then fn else ""
  }

  /** `if_not_time_never`. */
  function IfNotTimeNever(t: Time, fn: string): (r: string)
    ensures t != ZeroTime ==> r == fn
    ensures t == ZeroTime ==> r == ""
  {
    if t != ZeroTime then fn else ""
  }

  /** The two time tests render complementary blocks. */
  lemma TimeTestsComplement(t: Time, fn: string)
    requires fn != ""
    ensures (IfTimeNever(t, fn) == fn) != (IfNotTimeNever(t, fn) == fn)
  {
  }

  /** Every `if_*_length` helper on a slice: the block renders when there
      are at least `count` items. */
  function IfLength<T>(items: seq<T>, count: int, fn: string): (r: string)
    ensures |items| >= count ==> r == fn
    ensures |items| < count ==> r == ""
  {
    if |items| >= count then fn else ""
  }

  /** `if_map_string_float64_length`. */
  function IfMapLength(items: map<string, real>, count: int, fn: string): (r: string)
    ensures |items| >= count ==> r == fn
    ensures |items| < count ==> r == ""
  {
    if |items| >= count then fn else ""
  }

  /** A length test that renders for `count` renders for every smaller
      count, and a slice always has at least zero items. */
  lemma IfLengthMonotone<T>(items: seq<T>, count: int, smaller: int, fn: string)
    requires smaller <= count && fn != ""
    ensures IfLength(items, count, fn) == fn ==> IfLength(items, smaller, fn) == fn
    ensures IfLength(items, 0, fn) == fn
  {
  }

  /** The map test is the slice test on any list with one item per entry
      (such as a Bot's sorted pair list of that map), so it shares the
      slice test's monotonicity in `count`. */
  lemma IfMapLengthIsIfLength<T>(items: map<string, real>, list: seq<T>, count: int, smaller: int, fn: string)
    requires |list| == |items|
    requires smaller <= count && fn != ""
    ensures IfMapLength(items, count, fn) == IfLength(list, count, fn)
    ensures IfMapLength(items, count, fn) == fn ==> IfMapLength(items, smaller, fn) == fn
    ensures IfMapLength(items, 0, fn) == fn
  {
  }

  /** The text Go's `fmt.Sprintf("MISSING:%d", index)` makes. */
  function Missing(index: int): string
  {
    "MISSING:" + IntToString(index)
  }

  /** `get_string_slice_index` as written: a negative index counts from the
      end, but only positions strictly above 0 are returned. */
  function GetStringSliceIndexAsWritten(stringArray: seq<string>, index: int): (r: string)
    ensures var i := if index < 0 then |stringArray| + index else index;
      && (0 < i < |stringArray| ==> r == stringArray[i])
      && (!(0 < i < |stringArray|) ==> r == Missing(index))
  {
    var value := Missing(index);
    var i := if index < 0 then |stringArray| + index else index;
    if i > 0 && i < |stringArray| then stringArray[i] else value
  }

  /** The guard `index > 0` rejects the first element, asked for either as
      0 or as minus the length. */
  lemma GetStringSliceIndexMissesFirst(stringArray: seq<string>)
    requires |stringArray| > 0
    ensures GetStringSliceIndexAsWritten(stringArray, 0) == Missing(0)
    ensures GetStringSliceIndexAsWritten(stringArray, -|stringArray|) == Missing(-|stringArray|)
    ensures GetStringSliceIndexAsWritten(["first"], 0) != "first"
  {
    assert Missing(0) != "first" by {
      assert Missing(0)[0] == 'M';
    }
  }

  /** `get_string_slice_index` with the valid positions `0 <= index < len`. */
  function GetStringSliceIndex(stringArray: seq<string>, index: int): (r: string)
    ensures r in stringArray || r == Missing(index)
    ensures 0 <= index < |stringArray| ==> r == stringArray[index]
  {
    var i := if index < 0 then |stringArray| + index else index;
    if 0 <= i < |stringArray| then stringArray[i] else Missing(index)
  }

  /** Every element can be reached both from the front and from the back,
      and every other index gives the missing text. */
  lemma GetStringSliceIndexReachesAll(stringArray: seq<string>, index: int)
    ensures 0 <= index < |stringArray| ==> GetStringSliceIndex(stringArray, index) == stringArray[index]
    ensures -|stringArray| <= index < 0 ==>
      GetStringSliceIndex(stringArray, index) == stringArray[|stringArray| + index]
    ensures (index < -|stringArray| || index >= |stringArray|) ==>
      GetStringSliceIndex(stringArray, index) == Missing(index)
    ensures 0 < index < |stringArray| || -|stringArray| < index < 0 ==>
      GetStringSliceIndex(stringArray, index) == GetStringSliceIndexAsWritten(stringArray, index)
  {
  }

  /** `get_array_bot_names`: the names of the Bots, sorted. */
  method GetArrayBotNames(bots: seq<Bot>, fnWith: seq<string> -> string) returns (r: string)
    ensures r == fnWith(SortStrings(BotNames(bots)))
  {
    var botNames: seq<string> := [];
    for i := 0 to |bots|
      invariant botNames == BotNames(bots)[..i]
    {
      botNames := botNames + [bots[i].name];
    }
    assert botNames == BotNames(bots);
    r := fnWith(SortStrings(botNames));
  }

  /** The names a name list renders with are in Go's string order and are
      exactly the Bots' names. */
  lemma BotNamesSorted(bots: seq<Bot>)
    ensures SortedBy(SortStrings(BotNames(bots)), StrLe)
    ensures multiset(SortStrings(BotNames(bots))) == multiset(BotNames(bots))
    ensures forall b :: b in bots ==> b.name in SortStrings(BotNames(bots))
  {
    forall b | b in bots ensures b.name in SortStrings(BotNames(bots)) {
      var i :| 0 <= i < |bots| && bots[i] == b;
      assert BotNames(bots)[i] == b.name;
    }
  }

  /** The placeholder `with_bot_group_by_name` renders when no group has the
      name. */
  const MissingBotGroupPlaceholder: BotGroup :=
    BotGroup("Missing", BotExtractorQueryKey("", ""), [], [], 0.0, [], [], [], [])

  /** The group `with_bot_group_by_name` renders with. */
  function GroupOrMissing(groups: seq<BotGroup>, name: string): (g: BotGroup)
    ensures (exists i :: 0 <= i < |groups| && groups[i].name == name) ==> g.name == name && g in groups
    ensures (forall i :: 0 <= i < |groups| ==> groups[i].name != name) ==> g == MissingBotGroupPlaceholder
  {
    match FindBotGroup(groups, name)
    case Ok(group) => group
    case Err(_) => MissingBotGroupPlaceholder
  }

  /** `with_bot_group_by_name`: the first group with that name, or the
      placeholder. */
  method WithBotGroupByName(session: InteractiveSession, name: string, fnWith: BotGroup -> string) returns (r: string)
    ensures r == fnWith(GroupOrMissing(session.botGroups, name))
  {
    for i := 0 to |session.botGroups|
      invariant forall j :: 0 <= j < i ==> session.botGroups[j].name != name
    {
      if session.botGroups[i].name == name {
        FirstGroupIsFound(session.botGroups, name, i);
        return fnWith(session.botGroups[i]);
      }
    }
    return fnWith(MissingBotGroupPlaceholder);
  }

  /** The group the loop stops at is the one the lookup finds. */
  lemma FirstGroupIsFound(groups: seq<BotGroup>, name: string, i: nat)
    requires i < |groups| && groups[i].name == name
    requires forall j :: 0 <= j < i ==> groups[j].name != name
    ensures GroupOrMissing(groups, name) == groups[i]
  {
    var r := FindBotGroup(groups, name);
    assert r.Ok?;
    var k :| 0 <= k < |groups| && groups[k] == r.value && r.value.name == name
      && forall j :: 0 <= j < k ==> groups[j].name != name;
    assert k == i;
  }

  /** `format_html_id`: a name made safe to use as an HTML id. */
  function FormatHtmlId(name: string): (r: string)
    ensures |r| == |name|
    ensures forall i :: 0 <= i < |r| ==> r[i] !in MetricExport.UnsafeChars
    ensures forall i :: 0 <= i < |r| ==> name[i] !in MetricExport.UnsafeChars ==> r[i] == name[i]
  {
    MetricExport.ReplaceUnsafeChars(name, MetricExport.UnsafeChars, '_')
  }
}
