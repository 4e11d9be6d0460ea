/** The bot extractor of code/extdata/prometheus.go: one Bot per distinct
    value of the extractor label among the series of a Prometheus
    response. */
module PromExtract {
  import opened Data
  import opened Sorting
  import opened ActionData

  /** The label value that names a series' Bot; a series without the label
      names the Bot `""`, as Go's map read gives the empty string. */
  function BotNameOf(r: PromResult, botKey: string): string
  {
    MapGet(r.metric, botKey)
  }

  /** Every name the response carries under `botKey`. */
  ghost function NamesIn(results: seq<PromResult>, botKey: string): set<string>
  {
    set r | r in results :: BotNameOf(r, botKey)
  }


  lemma NamesInAppend(s: seq<PromResult>, r: PromResult, botKey: string)
    ensures NamesIn(s + [r], botKey) == NamesIn(s, botKey) + {BotNameOf(r, botKey)}
  {
    assert forall x :: x in s + [r] <==> x in s || x == r;
  }

  /** The first loop of `ExtractBotsFromPromData`: a map from each name to
      a fresh Bot of that name. */
  method CollectBots(results: seq<PromResult>, botKey: string) returns (byName: map<string, LegacyBot>)
    ensures byName.Keys == NamesIn(results, botKey)
    ensures forall n :: n in byName ==> byName[n] == NewLegacyBot(n)
  {
    byName := map[];
    for i := 0 to |results|
      invariant byName.Keys == NamesIn(results[..i], botKey)
      invariant forall n :: n in byName ==> byName[n] == NewLegacyBot(n)
    {
      var name := if botKey in results[i].metric then results[i].metric[botKey] else "";
      if name !in byName {
        byName := byName[name := NewLegacyBot(name)];
      }
      assert results[..i + 1] == results[..i] + [results[i]];
      NamesInAppend(results[..i], results[i], botKey);
    }
    assert results[..|results|] == results;
  }

  /** The second loop of `ExtractBotsFromPromData`: the map's Bots in
      iteration order. */
  method ListBots(byName: map<string, LegacyBot>) returns (bots: seq<LegacyBot>)
    requires forall n :: n in byName ==> byName[n].name == n
    ensures forall i :: 0 <= i < |bots| ==> bots[i].name in byName && bots[i] == byName[bots[i].name]
    ensures Distinct(Names(bots))
    ensures forall n :: n in byName <==> n in Names(bots)
    ensures |bots| == |byName.Keys|
  {
    bots := [];
    var remaining := byName.Keys;
    ghost var names: seq<string> := [];
    while remaining != {}
      invariant remaining <= byName.Keys
      invariant |names| == |bots|
      invariant forall i :: 0 <= i < |bots| ==> names[i] == bots[i].name
      invariant forall i :: 0 <= i < |bots| ==> bots[i].name in byName && bots[i] == byName[bots[i].name]
      invariant forall n :: n in byName ==> (n in names <==> n !in remaining)
      invariant Distinct(names)
      invariant |bots| + |remaining| == |byName.Keys|
      decreases |remaining|
    {
      var name :| name in remaining;
      bots := bots + [byName[name]];
      names := names + [name];
      remaining := remaining - {name};
    }
    assert names == Names(bots);
  }

  /** `ExtractBotsFromPromData(data, botKey)`.  The first loop keys a map by
      name, so repeated names collapse; the second appends the map's
      entries in iteration order, which the model leaves unspecified. */
  method ExtractBotsFromPromData(results: seq<PromResult>, botKey: string) returns (bots: seq<LegacyBot>)
    ensures forall i :: 0 <= i < |bots| ==> bots[i] == NewLegacyBot(bots[i].name)
    ensures Distinct(Names(bots))
    ensures forall i :: 0 <= i < |bots| ==> bots[i].name in NamesIn(results, botKey)
    ensures forall r :: r in results ==> BotNameOf(r, botKey) in Names(bots)
    ensures |bots| == |NamesIn(results, botKey)|
  {
    var byName := CollectBots(results, botKey);
    bots := ListBots(byName);
  }

  /** The names of a Bot list, in order. */
  function Names(bots: seq<LegacyBot>): (r: seq<string>)
    ensures |r| == |bots|
    ensures forall i :: 0 <= i < |bots| ==> r[i] == bots[i].name
  {
    if |bots| == 0 then [] else Names(bots[..|bots| - 1]) + [bots[|bots| - 1].name]
  }
}
