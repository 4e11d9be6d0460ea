/** The dynamically created Prometheus metrics of code/app/metric_export.go:
    metric keys are cleaned before use, and gauges and counters are kept in
    two slices, looked up by key and constant labels, and created on first
    use.  The client library's metric object is represented by its current
    value. */
module MetricExport {
  import opened Wrappers
  import opened Data
  import opened GoText

  /** The characters `CleanMetricKeyString` replaces by an underscore. */
  const UnsafeChars: string := " [](){}=-!@#$%^&*()+<>,./?;:'\"`~"

  predicate IsUpper(c: char)
  {
    'A' <= c <= 'Z'
  }

  function LowerChar(c: char): (r: char)
    ensures !IsUpper(r)
    ensures !IsUpper(c) ==> r == c
  {
    if IsUpper(c) then (c as int + 32) as char else c
  }

  /** `strings.ToLower`, for the ASCII letters. */
  function ToLower(s: string): (r: string)
    ensures |r| == |s|
    ensures forall i :: 0 <= i < |r| ==> !IsUpper(r[i])
    ensures forall i :: 0 <= i < |r| ==> (!IsUpper(s[i]) ==> r[i] == s[i])
  {
    seq(|s|, i requires 0 <= i < |s| => LowerChar(s[i]))
  }

  /** `util.StringReplaceUnsafeChars`: every character of `unsafe` becomes
      `rep`, every other character is kept. */
  function ReplaceUnsafeChars(s: string, unsafe: string, rep: char): (r: string)
    ensures |r| == |s|
    ensures forall i :: 0 <= i < |s| ==> (s[i] in unsafe ==> r[i] == rep) && (s[i] !in unsafe ==> r[i] == s[i])
  {
    seq(|s|, i requires 0 <= i < |s| => if s[i] in unsafe then rep else s[i])
  }

  /** Reference meaning of the collapse loop: every run of underscores
      becomes a single underscore. */
  function Squeeze(s: string): string
    decreases |s|
  {
    if |s| < 2 then s
    else if s[0] == '_' && s[1] == '_' then Squeeze(s[1..])
    else [s[0]] + Squeeze(s[1..])
  }

  lemma SqueezeStep(a: char, w: string)
    requires a != '_' || |w| == 0 || w[0] != '_'
    ensures Squeeze([a] + w) == [a] + Squeeze(w)
  {
    if |w| > 0 {
      assert ([a] + w)[1..] == w;
    }
  }

  lemma SqueezeTwice(x: string)
    ensures Squeeze("__" + x) == Squeeze("_" + x)
  {
    assert ("__" + x)[1..] == "_" + x;
  }

  /** One pass of `strings.Replace(key, "__", "_", -1)` does not change what
      the key squeezes to, even after a leading underscore. */
  lemma {:induction false} SqueezeReplaceAll(p: string, t: string)
    requires p == "" || p == "_"
    ensures Squeeze(p + ReplaceAll(t, "__", "_")) == Squeeze(p + t)
    decreases |t|
  {
    if |t| < 2 {
    } else if t[..2] == "__" {
      var x := t[2..];
      SqueezeReplaceAll("_", x);
      assert t == "__" + x;
      assert ReplaceAll(t, "__", "_") == "_" + ReplaceAll(x, "__", "_");
      SqueezeDoubleStep(p, x, ReplaceAll(x, "__", "_"));
    } else {
      var y := t[1..];
      assert t == [t[0]] + y;
      assert ReplaceAll(t, "__", "_") == [t[0]] + ReplaceAll(y, "__", "_");
      if t[0] == '_' {
        SqueezeReplaceAll("_", y);
        SqueezeUnderscoreStep(p, y, ReplaceAll(y, "__", "_"));
      } else {
        SqueezeReplaceAll("", y);
        assert "" + ReplaceAll(y, "__", "_") == ReplaceAll(y, "__", "_") && "" + y == y;
        SqueezePlainStep(p, t[0], y, ReplaceAll(y, "__", "_"));
      }
    }
  }

  /** How the underscore prefixes of the squeeze steps associate. */
  lemma UnderscoreConcat(x: string)
    ensures "_" + ("_" + x) == "__" + x
    ensures "_" + ("__" + x) == "__" + ("_" + x)
    ensures "" + x == x
  {
  }

  /** A double underscore and the single one it is replaced by squeeze
      alike, after either prefix. */
  lemma SqueezeDoubleStep(p: string, x: string, rx: string)
    requires p == "" || p == "_"
    requires Squeeze("_" + rx) == Squeeze("_" + x)
    ensures Squeeze(p + ("_" + rx)) == Squeeze(p + ("__" + x))
  {
    SqueezeTwice(x);
    if p == "_" {
      UnderscoreConcat(rx);
      UnderscoreConcat(x);
      UnderscoreConcat("_" + x);
      SqueezeTwice(rx);
      SqueezeTwice("_" + x);
    } else {
      UnderscoreConcat("_" + rx);
      UnderscoreConcat("__" + x);
    }
  }

  /** A single underscore in front of texts that squeeze alike after an
      underscore. */
  lemma SqueezeUnderscoreStep(p: string, y: string, ry: string)
    requires p == "" || p == "_"
    requires Squeeze("_" + ry) == Squeeze("_" + y)
    ensures Squeeze(p + ("_" + ry)) == Squeeze(p + ("_" + y))
  {
    if p == "_" {
      UnderscoreConcat(ry);
      UnderscoreConcat(y);
      SqueezeTwice(ry);
      SqueezeTwice(y);
    } else {
      UnderscoreConcat("_" + ry);
      UnderscoreConcat("_" + y);
    }
  }

  /** Any other character in front of texts that squeeze alike. */
  lemma SqueezePlainStep(p: string, c: char, y: string, ry: string)
    requires p == "" || p == "_"
    requires c != '_'
    requires Squeeze(ry) == Squeeze(y)
    ensures Squeeze(p + ([c] + ry)) == Squeeze(p + ([c] + y))
  {
    SqueezeStep(c, ry);
    SqueezeStep(c, y);
    if p == "_" {
      assert p + ([c] + ry) == ['_'] + ([c] + ry);
      SqueezeStep('_', [c] + ry);
      assert p + ([c] + y) == ['_'] + ([c] + y);
      SqueezeStep('_', [c] + y);
    } else {
      assert p + ([c] + ry) == [c] + ry;
      assert p + ([c] + y) == [c] + y;
    }
  }

  /** A key without a double underscore is its own squeeze. */
  lemma {:induction false} SqueezeFixed(s: string)
    requires !Contains(s, "__")
    ensures Squeeze(s) == s
    decreases |s|
  {
    if |s| >= 2 {
      assert s[..2] != "__";
      assert !(s[0] == '_' && s[1] == '_') by { assert s[..2] == [s[0], s[1]]; }
      SqueezeFixed(s[1..]);
      assert s == [s[0]] + s[1..];
    }
  }

  /** Replacing never brings in a character that is neither in the text
      nor in the replacement. */
  lemma {:induction false} ReplaceAllChars(s: string, pat: string, rep: string)
    requires |pat| > 0
    ensures forall c :: c in ReplaceAll(s, pat, rep) ==> c in s || c in rep
    decreases |s|
  {
    if |s| >= |pat| {
      if s[..|pat|] == pat {
        ReplaceAllChars(s[|pat|..], pat, rep);
        forall c | c in ReplaceAll(s, pat, rep) ensures c in s || c in rep {
          if c !in rep {
            assert c in ReplaceAll(s[|pat|..], pat, rep);
            assert c in s[|pat|..];
          }
        }
      } else {
        ReplaceAllChars(s[1..], pat, rep);
        forall c | c in ReplaceAll(s, pat, rep) ensures c in s || c in rep {
          if c != s[0] {
            assert c in ReplaceAll(s[1..], pat, rep);
          }
        }
      }
    }
  }

  /** `CleanMetricKeyString`: lower-case the key, turn every unsafe character
      into an underscore, and collapse double underscores until none is
      left. */
  method CleanMetricKeyString(key: string) returns (r: string)
    ensures r == Squeeze(ReplaceUnsafeChars(ToLower(key), UnsafeChars, '_'))
    ensures !Contains(r, "__")
    ensures forall i :: 0 <= i < |r| ==> !IsUpper(r[i]) && r[i] !in UnsafeChars
  {
    r := ToLower(key);
    r := ReplaceUnsafeChars(r, UnsafeChars, '_');
    ghost var sanitized := r;
    while Contains(r, "__")
      invariant Squeeze(r) == Squeeze(sanitized)
      invariant forall c :: c in r ==> c in sanitized || c == '_'
      decreases |r|
    {
      ReplaceAllShorter(r, "__", "_");
      SqueezeReplaceAll("", r);
      assert "" + r == r && "" + ReplaceAll(r, "__", "_") == ReplaceAll(r, "__", "_");
      ReplaceAllChars(r, "__", "_");
      r := ReplaceAll(r, "__", "_");
    }
    SqueezeFixed(r);
    forall i | 0 <= i < |r| ensures !IsUpper(r[i]) && r[i] !in UnsafeChars {
      assert r[i] in r;
    }
  }

  /** A subset is no larger, and a proper subset is smaller. */
  lemma {:induction false} SubsetCard(a: set<string>, b: set<string>)
    requires a <= b
    ensures |a| <= |b|
    ensures a != b ==> |a| < |b|
    decreases |a|
  {
    if a != {} {
      var y :| y in a;
      SubsetCard(a - {y}, b - {y});
      if a != b {
        assert a - {y} != b - {y} by {
          assert !(b <= a);
          var z :| z in b && z !in a;
          assert z in b - {y} && z !in a - {y};
        }
      }
    } else if a != b {
      assert !(b <= a);
      var z :| z in b && z !in a;
    }
  }

  /** Two maps are equal when their sizes agree and every key of one
      is in the other with the same value. */
  lemma SameSizeSubmap(m1: map<string, string>, m2: map<string, string>)
    requires |m1| == |m2|
    requires forall k :: k in m1 ==> k in m2 && m2[k] == m1[k]
    ensures m1 == m2
  {
    assert |m1.Keys| == |m1| && |m2.Keys| == |m2|;
    SubsetCard(m1.Keys, m2.Keys);
  }

  /** `IsEqualMapStringString`: the sizes are compared first, then every
      entry of `m1` is looked up in `m2`. */
  method IsEqualMapStringString(m1: map<string, string>, m2: map<string, string>) returns (equal: bool)
    ensures equal <==> m1 == m2
  {
    if |m1| != |m2| {
      return false;
    }
    var remaining := m1.Keys;
    while remaining != {}
      invariant remaining <= m1.Keys
      invariant forall k :: k in m1 && k !in remaining ==> k in m2 && m2[k] == m1[k]
      decreases remaining
    {
      var k :| k in remaining;
      if k !in m2 || m1[k] != m2[k] {
        return false;
      }
      remaining := remaining - {k};
    }
    SameSizeSubmap(m1, m2);
    return true;
  }

  /** A gauge or a counter: the lookup key, the constant labels and help text
      it was created with, and its current value. */
  datatype Metric = Metric(key: string, labels: map<string, string>, help: string, value: real)

  predicate Matches(m: Metric, key: string, labels: map<string, string>)
  {
    m.key == key && m.labels == labels
  }

  /** The index of the first metric with this key and these labels. */
  function FirstMatch(metrics: seq<Metric>, key: string, labels: map<string, string>): (r: Option<nat>)
    ensures r.Some? ==> r.value < |metrics| && Matches(metrics[r.value], key, labels)
    ensures r.Some? ==> forall j :: 0 <= j < r.value ==> !Matches(metrics[j], key, labels)
    ensures r.None? <==> forall j :: 0 <= j < |metrics| ==> !Matches(metrics[j], key, labels)
    decreases |metrics|
  {
    if |metrics| == 0 then None
    else if Matches(metrics[0], key, labels) then Some(0)
    else match FirstMatch(metrics[1..], key, labels)
      case None => None
      case Some(i) => Some(i + 1)
  }

  /** The loop of `GetMetricGauge` and `GetMetricCounter`. */
  method FindMetric(metrics: seq<Metric>, key: string, labels: map<string, string>) returns (r: Option<nat>)
    ensures r == FirstMatch(metrics, key, labels)
  {
    for index := 0 to |metrics|
      invariant forall j :: 0 <= j < index ==> !Matches(metrics[j], key, labels)
    {
      var sameLabels := IsEqualMapStringString(metrics[index].labels, labels);
      if metrics[index].key == key && sameLabels {
        return Some(index);
      }
    }
    return None;
  }

  /** No two metrics share a key and labels. */
  ghost predicate Unique(metrics: seq<Metric>)
  {
    forall i, j :: 0 <= i < j < |metrics| ==> !Matches(metrics[j], metrics[i].key, metrics[i].labels)
  }

  /** What `SetMetricGauge` makes of the gauges. */
  function SetGauge(gauges: seq<Metric>, key: string, value: real, info: string,
                    labels: map<string, string>): (r: seq<Metric>)
    ensures |gauges| <= |r| <= |gauges| + 1
    ensures forall i :: 0 <= i < |gauges| ==>
      r[i].key == gauges[i].key && r[i].labels == gauges[i].labels && r[i].help == gauges[i].help
    ensures exists i :: 0 <= i < |r| && Matches(r[i], key, labels) && r[i].value == value
  {
    match FirstMatch(gauges, key, labels)
      case None =>
        LastOfAppend(gauges, Metric(key, labels, info, value));
        gauges + [Metric(key, labels, info, value)]
      case Some(i) => gauges[i := gauges[i].(value := value)]
  }

  /** What `AddToMetricCounter` makes of the counters: a new counter starts
      from zero before the addition. */
  function AddToCounter(counters: seq<Metric>, key: string, value: real, info: string,
                        labels: map<string, string>): (r: seq<Metric>)
    ensures |counters| <= |r| <= |counters| + 1
    ensures forall i :: 0 <= i < |counters| ==>
      r[i].key == counters[i].key && r[i].labels == counters[i].labels && r[i].help == counters[i].help
    ensures exists i :: 0 <= i < |r| && Matches(r[i], key, labels) && r[i].value == ValueOf(counters, key, labels) + value
  {
    match FirstMatch(counters, key, labels)
      case None =>
        LastOfAppend(counters, Metric(key, labels, info, 0.0 + value));
        counters + [Metric(key, labels, info, 0.0 + value)]
      case Some(i) => counters[i := counters[i].(value := counters[i].value + value)]
  }

  lemma LastOfAppend(metrics: seq<Metric>, m: Metric)
    ensures (metrics + [m])[|metrics|] == m
  {
  }

  /** The value a lookup finds; zero when there is no such metric. */
  function ValueOf(metrics: seq<Metric>, key: string, labels: map<string, string>): real
  {
    match FirstMatch(metrics, key, labels)
      case None => 0.0
      case Some(i) => metrics[i].value
  }

  /** Only values change, and at most one metric is appended, which matches
      `key` and `labels`. */
  ghost predicate SameKeysPlus(before: seq<Metric>, after: seq<Metric>, key: string, labels: map<string, string>)
  {
    && |before| <= |after| <= |before| + 1
    && (forall j :: 0 <= j < |before| ==> after[j].key == before[j].key && after[j].labels == before[j].labels)
    && (forall j :: |before| <= j < |after| ==> Matches(after[j], key, labels))
  }

  lemma OtherLookupsKept(before: seq<Metric>, after: seq<Metric>, key: string, labels: map<string, string>,
                         key2: string, labels2: map<string, string>)
    requires SameKeysPlus(before, after, key, labels)
    requires key2 != key || labels2 != labels
    ensures FirstMatch(after, key2, labels2) == FirstMatch(before, key2, labels2)
  {
    var a := FirstMatch(after, key2, labels2);
    var b := FirstMatch(before, key2, labels2);
    if b.Some? {
      assert Matches(after[b.value], key2, labels2);
    }
    if a.Some? {
      assert a.value < |before|;
      assert Matches(before[a.value], key2, labels2);
    }
  }

  /** After `SetMetricGauge`, the gauge with that key and labels holds the
      new value; the gauges grow by one exactly when none matched, and every
      other lookup finds what it found before. */
  lemma SetGaugeSets(gauges: seq<Metric>, key: string, value: real, info: string, labels: map<string, string>)
    ensures var r := SetGauge(gauges, key, value, info, labels);
      && FirstMatch(r, key, labels).Some?
      && ValueOf(r, key, labels) == value
      && |r| == |gauges| + (if FirstMatch(gauges, key, labels).None? then 1 else 0)
      && forall key2, labels2 :: key2 != key || labels2 != labels ==>
           ValueOf(r, key2, labels2) == ValueOf(gauges, key2, labels2)
  {
    SetGaugeFinds(gauges, key, value, info, labels);
    forall key2, labels2 | key2 != key || labels2 != labels
      ensures ValueOf(SetGauge(gauges, key, value, info, labels), key2, labels2) == ValueOf(gauges, key2, labels2)
    {
      SetGaugeKeepsOthers(gauges, key, value, info, labels, key2, labels2);
    }
  }

  lemma SetGaugeFinds(gauges: seq<Metric>, key: string, value: real, info: string, labels: map<string, string>)
    ensures var r := SetGauge(gauges, key, value, info, labels);
      && FirstMatch(r, key, labels).Some?
      && ValueOf(r, key, labels) == value
      && |r| == |gauges| + (if FirstMatch(gauges, key, labels).None? then 1 else 0)
  {
    var r := SetGauge(gauges, key, value, info, labels);
    match FirstMatch(gauges, key, labels)
    case None =>
      assert Matches(r[|gauges|], key, labels);
      assert FirstMatch(r, key, labels) == Some(|gauges|);
    case Some(i) =>
      assert Matches(r[i], key, labels);
      assert forall j :: 0 <= j < i ==> r[j] == gauges[j];
      assert FirstMatch(r, key, labels) == Some(i);
  }

  lemma SetGaugeKeepsOthers(gauges: seq<Metric>, key: string, value: real, info: string, labels: map<string, string>,
                            key2: string, labels2: map<string, string>)
    requires key2 != key || labels2 != labels
    ensures ValueOf(SetGauge(gauges, key, value, info, labels), key2, labels2) == ValueOf(gauges, key2, labels2)
  {
    var r := SetGauge(gauges, key, value, info, labels);
    assert SameKeysPlus(gauges, r, key, labels);
    OtherLookupsKept(gauges, r, key, labels, key2, labels2);
    var b := FirstMatch(gauges, key2, labels2);
    if b.Some? {
      assert r[b.value] == gauges[b.value] by {
        assert !Matches(gauges[b.value], key, labels);
      }
    }
  }

  /** After `AddToMetricCounter`, the counter with that key and labels has
      grown by `value` (a new one starts from zero), and the counters grow by
      one exactly when none matched. */
  lemma AddToCounterAdds(counters: seq<Metric>, key: string, value: real, info: string, labels: map<string, string>)
    ensures var r := AddToCounter(counters, key, value, info, labels);
      && FirstMatch(r, key, labels).Some?
      && ValueOf(r, key, labels) == ValueOf(counters, key, labels) + value
      && |r| == |counters| + (if FirstMatch(counters, key, labels).None? then 1 else 0)
  {
    var r := AddToCounter(counters, key, value, info, labels);
    match FirstMatch(counters, key, labels)
    case None =>
      assert r == counters + [Metric(key, labels, info, 0.0 + value)];
      assert Matches(r[|counters|], key, labels);
      assert FirstMatch(r, key, labels) == Some(|counters|);
    case Some(i) =>
      assert r == counters[i := counters[i].(value := counters[i].value + value)];
      assert Matches(r[i], key, labels);
      assert forall j :: 0 <= j < i ==> r[j] == counters[j];
      assert FirstMatch(r, key, labels) == Some(i);
  }

  /** Adding to one counter leaves what every other lookup finds. */
  lemma AddToCounterKeepsOthers(counters: seq<Metric>, key: string, value: real, info: string,
                                labels: map<string, string>, key2: string, labels2: map<string, string>)
    requires key2 != key || labels2 != labels
    ensures ValueOf(AddToCounter(counters, key, value, info, labels), key2, labels2) == ValueOf(counters, key2, labels2)
  {
    var r := AddToCounter(counters, key, value, info, labels);
    assert SameKeysPlus(counters, r, key, labels);
    OtherLookupsKept(counters, r, key, labels, key2, labels2);
  }

  /** Creating on first use never makes two metrics with the same key and
      labels. */
  lemma SetKeepsUnique(metrics: seq<Metric>, key: string, value: real, info: string, labels: map<string, string>)
    requires Unique(metrics)
    ensures Unique(SetGauge(metrics, key, value, info, labels))
    ensures Unique(AddToCounter(metrics, key, value, info, labels))
  {
  }

  /** `data.SireusData.MetricExport`: the gauges and counters made so far. */
  class MetricExportData {
    var gauges: seq<Metric>
    var counters: seq<Metric>

    constructor ()
      ensures gauges == [] && counters == []
    {
      gauges := [];
      counters := [];
    }

    /** `GetMetricGauge`: the index of the first matching gauge. */
    method GetMetricGauge(key: string, labels: map<string, string>) returns (r: Result<nat, string>)
      ensures r.Ok? <==> FirstMatch(gauges, key, labels).Some?
      ensures r.Ok? ==> r.value == FirstMatch(gauges, key, labels).value
      ensures r.Err? ==> r.error == "Missing Gauge: " + key
    {
      var found := FindMetric(gauges, key, labels);
      if found.None? {
        return Err("Missing Gauge: " + key);
      }
      return Ok(found.value);
    }

    /** `GetMetricCounter`: the index of the first matching counter. */
    method GetMetricCounter(key: string, labels: map<string, string>) returns (r: Result<nat, string>)
      ensures r.Ok? <==> FirstMatch(counters, key, labels).Some?
      ensures r.Ok? ==> r.value == FirstMatch(counters, key, labels).value
      ensures r.Err? ==> r.error == "Missing Counter: " + key
    {
      var found := FindMetric(counters, key, labels);
      if found.None? {
        return Err("Missing Counter: " + key);
      }
      return Ok(found.value);
    }

    /** `SetMetricGauge`: set the matching gauge, or append a new one. */
    method SetMetricGauge(key: string, value: real, info: string, labels: map<string, string>)
      modifies this
      ensures gauges == SetGauge(old(gauges), key, value, info, labels)
      ensures counters == old(counters)
    {
      var found := GetMetricGauge(key, labels);
      if found.Err? {
        gauges := gauges + [Metric(key, labels, info, value)];
      } else {
        var i := found.value;
        gauges := gauges[i := gauges[i].(value := value)];
      }
    }

    /** `AddToMetricCounter`: add to the matching counter, or append a new
        one holding `value`. */
    method AddToMetricCounter(key: string, value: real, info: string, labels: map<string, string>)
      modifies this
      ensures counters == AddToCounter(old(counters), key, value, info, labels)
      ensures gauges == old(gauges)
    {
      var found := GetMetricCounter(key, labels);
      if found.Err? {
        counters := counters + [Metric(key, labels, info, 0.0 + value)];
      } else {
        var i := found.value;
        counters := counters[i := counters[i].(value := counters[i].value + value)];
      }
    }
  }

  /** `GetMetricLabelsAndInfo_Bot`. */
  function BotLabels(group: BotGroup, bot: Bot): (r: map<string, string>)
    ensures r.Keys == {"service", "bot", "bot_group"}
    ensures r["service"] == "sireus" && r["bot"] == bot.name && r["bot_group"] == group.name
  {
    map["service" := "sireus", "bot" := bot.name, "bot_group" := group.name]
  }

  /** `GetMetricLabelsAndInfo_Condition`; `csv` is `util.PrintStringArrayCSV`. */
  function ConditionLabels(group: BotGroup, bot: Bot, condition: Condition, csv: seq<string> -> string): (r: map<string, string>)
    ensures r.Keys == {"service", "bot", "bot_group", "condition", "states"}
    ensures r["service"] == "sireus" && r["bot"] == bot.name && r["bot_group"] == group.name
    ensures r["condition"] == condition.name && r["states"] == csv(condition.requiredStates)
  {
    map["service" := "sireus", "bot" := bot.name, "bot_group" := group.name,
        "condition" := condition.name, "states" := csv(condition.requiredStates)]
  }

  /** `GetMetricLabelsAndInfo_BotVariable`. */
  function VariableLabels(group: BotGroup, bot: Bot, varName: string): (r: map<string, string>)
    ensures r.Keys == {"service", "bot", "bot_group", "variable"}
    ensures r["service"] == "sireus" && r["bot"] == bot.name && r["bot_group"] == group.name
    ensures r["variable"] == varName
  {
    map["service" := "sireus", "bot" := bot.name, "bot_group" := group.name, "variable" := varName]
  }

  /** The label sets keep metrics apart: the three kinds never share labels,
      and within a kind equal labels mean the same group, bot and
      condition or variable. */
  lemma LabelsSeparateMetrics(g1: BotGroup, b1: Bot, g2: BotGroup, b2: Bot, c: Condition, v1: string, v2: string,
                              csv: seq<string> -> string)
    ensures BotLabels(g1, b1) == BotLabels(g2, b2) <==> g1.name == g2.name && b1.name == b2.name
    ensures VariableLabels(g1, b1, v1) == VariableLabels(g2, b2, v2)
        <==> g1.name == g2.name && b1.name == b2.name && v1 == v2
    ensures BotLabels(g1, b1) != VariableLabels(g2, b2, v2)
    ensures BotLabels(g1, b1) != ConditionLabels(g2, b2, c, csv)
    ensures VariableLabels(g1, b1, v1) != ConditionLabels(g2, b2, c, csv)
  {
    var b := BotLabels(g1, b1);
    var v := VariableLabels(g2, b2, v2);
    var cl := ConditionLabels(g2, b2, c, csv);
    assert "variable" in v && "variable" !in b;
    assert "condition" in cl && "condition" !in b;
    assert "condition" !in VariableLabels(g1, b1, v1);
    if BotLabels(g1, b1) == BotLabels(g2, b2) {
      assert BotLabels(g1, b1)["bot"] == BotLabels(g2, b2)["bot"];
      assert BotLabels(g1, b1)["bot_group"] == BotLabels(g2, b2)["bot_group"];
    }
    if VariableLabels(g1, b1, v1) == VariableLabels(g2, b2, v2) {
      assert VariableLabels(g1, b1, v1)["bot"] == v["bot"];
      assert VariableLabels(g1, b1, v1)["bot_group"] == v["bot_group"];
      assert VariableLabels(g1, b1, v1)["variable"] == v["variable"];
    }
  }
}
