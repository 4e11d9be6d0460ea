/** The matching rules `UpdateBotsFromQueries` applies to every series of a
    cached query result (code/extdata/site_update.go and the older
    code/extdata/site_common.go share them word for word).  The Bots are seen
    through their names, which the loop only reads, and their variable maps,
    which it writes: position `i` of `names` and of `values` is Bot `i`. */
module QueryMatching {
  import opened Wrappers
  import opened Data
  import opened BotGroupLookup

  /** The names `UpdateBotsWithSyntheticVariables` collects first: the
      variables without an `Evaluate` expression, in order. */
  function QueryVariableNames(variables: seq<BotVariable>): (r: seq<string>)
    ensures forall n :: n in r <==> exists i :: 0 <= i < |variables| && variables[i].name == n && variables[i].evaluate == ""
  {
    if |variables| == 0 then []
    else
      var rest := QueryVariableNames(variables[..|variables| - 1]);
      var last := variables[|variables| - 1];
      assert forall i :: 0 <= i < |variables| - 1 ==> variables[..|variables| - 1][i] == variables[i];
      if last.evaluate == "" then rest + [last.name] else rest
  }

  /** The variable is read from the query's series: it names the query and
      has no `Evaluate` expression (synthetic variables are computed later). */
  predicate ReadsQuery(v: BotVariable, queryName: string)
  {
    v.queryName == queryName && v.evaluate == ""
  }

  /** The series carries the variable: no `QueryKey`, or the series' label
      under `QueryKey` equals `QueryKeyValue`. */
  predicate SeriesSelects(v: BotVariable, pr: PromResult)
  {
    v.queryKey == "" || v.queryKeyValue == MapGet(pr.metric, v.queryKey)
  }

  /** The Bot the series is for: the label under `BotKey` equals the Bot's
      name, or the variable has no `BotKey` and so is for every Bot. */
  predicate SeriesNamesBot(v: BotVariable, pr: PromResult, botName: string)
  {
    MapGet(pr.metric, v.botKey) == botName || v.botKey == ""
  }

  /** What reading the first sample of a series can give. */
  datatype SampleRead = Read(value: real) | IndexOutOfRange

  /** The sample read as written: the guard checks that the first sample is
      non-empty, then indexes its second element, which a one-element
      sample does not have. */
  function SampleValueAsWritten(values: seq<seq<string>>, parseFloat: string -> real): (r: SampleRead)
    ensures r.IndexOutOfRange? <==> |values| > 0 && |values[0]| == 1
  {
    if |values| > 0 && |values[0]| > 0 then
      if 1 < |values[0]| then Read(parseFloat(values[0][1])) else IndexOutOfRange
    else Read(SmallestNonzeroFloat64)
  }

  /** A series whose only sample holds just a timestamp passes the guard
      and fails on the index. */
  lemma GuardAdmitsShortSample(parseFloat: string -> real)
    ensures SampleValueAsWritten([["1700000000"]], parseFloat) == IndexOutOfRange
  {
  }

  /** The sample read as intended: the value of the first `[timestamp,
      value]` pair, or the `SmallestNonzeroFloat64` placeholder when there
      is no such pair.  `parseFloat` is `strconv.ParseFloat(_, 32)`'s value
      (zero for text that is not a number; the error is only logged). */
  function SampleValue(values: seq<seq<string>>, parseFloat: string -> real): (r: real)
    ensures SampleValueAsWritten(values, parseFloat).Read? ==> r == SampleValueAsWritten(values, parseFloat).value
    ensures |values| > 0 && |values[0]| == 1 ==> r == SmallestNonzeroFloat64
  {
    if |values| > 0 && |values[0]| > 1 then parseFloat(values[0][1]) else SmallestNonzeroFloat64
  }

  /** The corrected read agrees with the code as written on every series the
      code does not fail on, and the code fails exactly on one-element
      samples. */
  lemma SampleValueAgrees(values: seq<seq<string>>, parseFloat: string -> real)
    ensures SampleValueAsWritten(values, parseFloat).Read? <==> !(|values| > 0 && |values[0]| == 1)
    ensures SampleValueAsWritten(values, parseFloat).Read? ==>
      SampleValueAsWritten(values, parseFloat).value == SampleValue(values, parseFloat)
  {
  }

  function Identity(s: string): string { s }

  /** Bot `i` is the first in the list with name `n`. */
  predicate FirstNamed(names: seq<string>, i: nat, n: string)
    requires i < |names|
  {
    names[i] == n && forall j :: 0 <= j < i ==> names[j] != n
  }

  /** The innermost loop: the value goes under `key` into every Bot's map
      when the variable has no `BotKey`, and otherwise into the map of the
      first Bot named by the series' `BotKey` label only, the loop breaking
      there. */
  function Write(values: seq<map<string, real>>, names: seq<string>, v: BotVariable, pr: PromResult,
                 value: real, key: string): (r: seq<map<string, real>>)
    requires |values| == |names|
    ensures |r| == |values|
    ensures v.botKey == "" ==> forall i :: 0 <= i < |values| ==> r[i] == values[i][key := value]
    ensures v.botKey != "" ==> forall i :: 0 <= i < |values| ==>
      r[i] == if FirstNamed(names, i, MapGet(pr.metric, v.botKey)) then values[i][key := value] else values[i]
  {
    if v.botKey == "" then
      seq(|values|, i requires 0 <= i < |values| => values[i][key := value])
    else
      match FirstIndex(names, Identity, MapGet(pr.metric, v.botKey))
      case None => values
      case Some(k) => values[k := values[k][key := value]]
  }

  /** One variable against one series. */
  function VariableStep(values: seq<map<string, real>>, names: seq<string>, queryName: string, pr: PromResult,
                        v: BotVariable, parseFloat: string -> real,
                        format: (string, map<string, string>) -> string): seq<map<string, real>>
    requires |values| == |names|
  {
    if ReadsQuery(v, queryName) && SeriesSelects(v, pr) then
      Write(values, names, v, pr, SampleValue(pr.values, parseFloat), format(v.name, pr.metric))
    else values
  }

  /** Every variable of the BotGroup against one series, in order; a map
      only ever gains keys. */
  function VariablesFold(values: seq<map<string, real>>, names: seq<string>, queryName: string, pr: PromResult,
                         variables: seq<BotVariable>, parseFloat: string -> real,
                         format: (string, map<string, string>) -> string): (r: seq<map<string, real>>)
    requires |values| == |names|
    ensures |r| == |values|
    ensures forall i :: 0 <= i < |values| ==> values[i].Keys <= r[i].Keys
    decreases |variables|
  {
    if |variables| == 0 then values
    else VariablesFold(VariableStep(values, names, queryName, pr, variables[0], parseFloat, format),
                       names, queryName, pr, variables[1..], parseFloat, format)
  }

  /** Every series of one query result, in order; a map only ever gains
      keys. */
  function SeriesFold(values: seq<map<string, real>>, names: seq<string>, queryName: string, results: seq<PromResult>,
                      variables: seq<BotVariable>, parseFloat: string -> real,
                      format: (string, map<string, string>) -> string): (r: seq<map<string, real>>)
    requires |values| == |names|
    ensures |r| == |values|
    ensures forall i :: 0 <= i < |values| ==> values[i].Keys <= r[i].Keys
    decreases |results|
  {
    if |results| == 0 then values
    else SeriesFold(VariablesFold(values, names, queryName, results[0], variables, parseFloat, format),
                    names, queryName, results[1..], variables, parseFloat, format)
  }

  /** No variable that does not read the query is ever written from it:
      with only such variables, the series change nothing. */
  lemma {:induction false} VariablesFoldSkipsOthers(values: seq<map<string, real>>, names: seq<string>, queryName: string,
                                                    pr: PromResult, variables: seq<BotVariable>,
                                                    parseFloat: string -> real, format: (string, map<string, string>) -> string)
    requires |values| == |names|
    requires forall i :: 0 <= i < |variables| ==> !ReadsQuery(variables[i], queryName)
    ensures VariablesFold(values, names, queryName, pr, variables, parseFloat, format) == values
    decreases |variables|
  {
    if |variables| > 0 {
      assert !ReadsQuery(variables[0], queryName);
      assert forall i :: 0 <= i < |variables[1..]| ==> variables[1..][i] == variables[i + 1];
      VariablesFoldSkipsOthers(values, names, queryName, pr, variables[1..], parseFloat, format);
    }
  }

  lemma {:induction false} SeriesFoldSkipsOthers(values: seq<map<string, real>>, names: seq<string>, queryName: string,
                                                 results: seq<PromResult>, variables: seq<BotVariable>,
                                                 parseFloat: string -> real, format: (string, map<string, string>) -> string)
    requires |values| == |names|
    requires forall i :: 0 <= i < |variables| ==> !ReadsQuery(variables[i], queryName)
    ensures SeriesFold(values, names, queryName, results, variables, parseFloat, format) == values
    decreases |results|
  {
    if |results| > 0 {
      VariablesFoldSkipsOthers(values, names, queryName, results[0], variables, parseFloat, format);
      SeriesFoldSkipsOthers(values, names, queryName, results[1..], variables, parseFloat, format);
    }
  }

  /** A series for a Bot the BotGroup does not have changes nothing when
      the variable is per-Bot. */
  lemma UnknownBotIgnored(values: seq<map<string, real>>, names: seq<string>, v: BotVariable, pr: PromResult,
                          value: real, key: string)
    requires |values| == |names|
    requires v.botKey != "" && MapGet(pr.metric, v.botKey) !in names
    ensures Write(values, names, v, pr, value, key) == values
  {
    var r := Write(values, names, v, pr, value, key);
    forall i | 0 <= i < |values|
      ensures r[i] == values[i]
    {
      assert names[i] != MapGet(pr.metric, v.botKey);
    }
  }

  /** The Bot loop, with its `break` after the first named Bot. */
  method WriteToBots(values: seq<map<string, real>>, names: seq<string>, v: BotVariable, pr: PromResult,
                     value: real, key: string)
    returns (r: seq<map<string, real>>)
    requires |values| == |names|
    ensures r == Write(values, names, v, pr, value, key)
  {
    r := values;
    var botIndex := 0;
    while botIndex < |names|
      invariant 0 <= botIndex <= |names|
      invariant |r| == |values|
      invariant forall j :: botIndex <= j < |values| ==> r[j] == values[j]
      invariant v.botKey == "" ==> forall j :: 0 <= j < botIndex ==> r[j] == values[j][key := value]
      invariant v.botKey != "" ==> forall j :: 0 <= j < botIndex ==> names[j] != MapGet(pr.metric, v.botKey) && r[j] == values[j]
    {
      if MapGet(pr.metric, v.botKey) == names[botIndex] || v.botKey == "" {
        r := r[botIndex := r[botIndex][key := value]];
        if v.botKey != "" {
          assert FirstNamed(names, botIndex, MapGet(pr.metric, v.botKey));
          assert forall j :: 0 <= j < |values| && j != botIndex ==> !FirstNamed(names, j, MapGet(pr.metric, v.botKey));
          break;
        }
      }
      botIndex := botIndex + 1;
    }
    var w := Write(values, names, v, pr, value, key);
    assert forall j :: 0 <= j < |values| ==> r[j] == w[j];
  }

  /** The variable loop for one series. */
  method ApplySeries(values: seq<map<string, real>>, names: seq<string>, queryName: string, pr: PromResult,
                     variables: seq<BotVariable>, parseFloat: string -> real,
                     format: (string, map<string, string>) -> string)
    returns (r: seq<map<string, real>>)
    requires |values| == |names|
    ensures r == VariablesFold(values, names, queryName, pr, variables, parseFloat, format)
  {
    r := values;
    for i := 0 to |variables|
      invariant |r| == |values|
      invariant VariablesFold(values, names, queryName, pr, variables, parseFloat, format)
             == VariablesFold(r, names, queryName, pr, variables[i..], parseFloat, format)
    {
      assert variables[i..][1..] == variables[i + 1..];
      var variable := variables[i];
      if variable.queryName != queryName || |variable.evaluate| > 0 {
        continue;
      }
      if |variable.queryKey| == 0 || (|variable.queryKey| > 0 && variable.queryKeyValue == MapGet(pr.metric, variable.queryKey)) {
        var value := SampleValue(pr.values, parseFloat);
        var nameFormatted := format(variable.name, pr.metric);
        r := WriteToBots(r, names, variable, pr, value, nameFormatted);
      }
    }
  }

  /** The series loop for one query result. */
  method ApplyQueryResult(values: seq<map<string, real>>, names: seq<string>, queryName: string, results: seq<PromResult>,
                          variables: seq<BotVariable>, parseFloat: string -> real,
                          format: (string, map<string, string>) -> string)
    returns (r: seq<map<string, real>>)
    requires |values| == |names|
    ensures r == SeriesFold(values, names, queryName, results, variables, parseFloat, format)
  {
    r := values;
    for i := 0 to |results|
      invariant |r| == |values|
      invariant SeriesFold(values, names, queryName, results, variables, parseFloat, format)
             == SeriesFold(r, names, queryName, results[i..], variables, parseFloat, format)
    {
      assert results[i..][1..] == results[i + 1..];
      r := ApplySeries(r, names, queryName, results[i], variables, parseFloat, format);
    }
  }
}
