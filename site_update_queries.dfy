/** `UpdateBotsFromQueries` of code/extdata/site_update.go: every query of
    the BotGroup is looked up in the query cache, and each series of a
    result found there is matched against the BotGroup's variables and
    written into the Bots' variable maps. */
module SiteUpdateQueries {
  import opened Wrappers
  import opened Data
  import opened QueryCache
  import opened QueryMatching
  import opened SiteUpdateBots

  function VariableMaps(bots: seq<Bot>): (r: seq<map<string, real>>)
    ensures |r| == |bots| && forall i :: 0 <= i < |bots| ==> r[i] == bots[i].variableValues
  {
    seq(|bots|, i requires 0 <= i < |bots| => bots[i].variableValues)
  }

  /** The query loop: a query the cache cannot answer is skipped; the
      others' series are applied in order. */
  function QueriesFold(values: seq<map<string, real>>, names: seq<string>, queries: seq<BotQuery>,
                       variables: seq<BotVariable>, poolItems: map<string, QueryResultPoolItem>,
                       session: InteractiveSession, now: Time, parseFloat: string -> real,
                       format: (string, map<string, string>) -> string): (r: seq<map<string, real>>)
    requires |values| == |names|
    ensures |r| == |values|
    ensures forall i :: 0 <= i < |values| ==> values[i].Keys <= r[i].Keys
    decreases |queries|
  {
    if |queries| == 0 then values
    else
      var next := match GetCachedQueryResult(poolItems, session, queries[0], now)
        case Err(_) => values
        case Ok(queryResult) => SeriesFold(values, names, queries[0].name, queryResult.results, variables, parseFloat, format);
      QueriesFold(next, names, queries[1..], variables, poolItems, session, now, parseFloat, format)
  }

  /** A query missing from the cache contributes nothing: the Bots end as if
      it were not in the BotGroup. */
  lemma MissingQuerySkipped(values: seq<map<string, real>>, names: seq<string>, q: BotQuery, queries: seq<BotQuery>,
                            variables: seq<BotVariable>, poolItems: map<string, QueryResultPoolItem>,
                            session: InteractiveSession, now: Time, parseFloat: string -> real,
                            format: (string, map<string, string>) -> string)
    requires |values| == |names|
    requires GetQueryKey(session, q) !in poolItems
    ensures QueriesFold(values, names, [q] + queries, variables, poolItems, session, now, parseFloat, format)
         == QueriesFold(values, names, queries, variables, poolItems, session, now, parseFloat, format)
  {
    assert ([q] + queries)[1..] == queries;
  }

  /** `UpdateBotsFromQueries`.  Only the Bots' variable maps change, and
      each becomes what the matching rules make of it. */
  method UpdateBotsFromQueries(group: BotGroup, poolItems: map<string, QueryResultPoolItem>, session: InteractiveSession,
                               now: Time, parseFloat: string -> real, format: (string, map<string, string>) -> string)
    returns (newGroup: BotGroup)
    ensures newGroup == group.(bots := newGroup.bots)
    ensures |newGroup.bots| == |group.bots|
    ensures var r := QueriesFold(VariableMaps(group.bots), BotNames(group.bots), group.queries, group.variables,
                                 poolItems, session, now, parseFloat, format);
      forall i :: 0 <= i < |group.bots| ==> newGroup.bots[i] == group.bots[i].(variableValues := r[i])
  {
    var names := BotNames(group.bots);
    var values := VariableMaps(group.bots);
    ghost var start := values;
    for q := 0 to |group.queries|
      invariant |values| == |names|
      invariant QueriesFold(start, names, group.queries, group.variables, poolItems, session, now, parseFloat, format)
             == QueriesFold(values, names, group.queries[q..], group.variables, poolItems, session, now, parseFloat, format)
    {
      assert group.queries[q..][1..] == group.queries[q + 1..];
      var query := group.queries[q];
      var queryResult := GetCachedQueryResult(poolItems, session, query, now);
      if queryResult.Err? {
        continue;
      }
      values := ApplyQueryResult(values, names, query.name, queryResult.value.results, group.variables, parseFloat, format);
    }
    newGroup := group.(bots := seq(|group.bots|, i requires 0 <= i < |group.bots| =>
                                     group.bots[i].(variableValues := values[i])));
  }
}
