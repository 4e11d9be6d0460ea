/** The query result cache and query lock table of
    code/extdata/site_query.go, with the one-line lookup of
    code/app/query.go.  Results are keyed by session id, query server and
    query text; a lock records when a query was last started.  Go's
    `since.Seconds() > d.Seconds()` comparisons are taken on the exact
    nanosecond counts, and the mutexes are not modelled. */
module QueryCache {
  import opened Wrappers
  import opened Data
  import opened GoText

  /** `GetQueryKey`: `"<UUID>.<QueryServer>.<Query>"`. */
  function GetQueryKey(session: InteractiveSession, query: BotQuery): (key: string)
    ensures key == NatToString(session.uuid) + "." + query.queryServer + "." + query.query
    ensures var id := NatToString(session.uuid); '.' !in id && |key| > |id| && key[..|id|] == id && key[|id|] == '.'
  {
    DigitsHaveNoDot(session.uuid);
    NatToString(session.uuid) + "." + query.queryServer + "." + query.query
  }

  lemma DigitsHaveNoDot(n: nat)
    ensures '.' !in NatToString(n)
  {
  }

  /** Two sessions and queries share a cache key only when they have the
      same session id, query server and query (query server names being
      free of dots). */
  lemma QueryKeyInjective(s1: InteractiveSession, q1: BotQuery, s2: InteractiveSession, q2: BotQuery)
    requires '.' !in q1.queryServer && '.' !in q2.queryServer
    requires GetQueryKey(s1, q1) == GetQueryKey(s2, q2)
    ensures s1.uuid == s2.uuid && q1.queryServer == q2.queryServer && q1.query == q2.query
  {
    var n1, n2 := NatToString(s1.uuid), NatToString(s2.uuid);
    var t1, t2 := q1.queryServer + "." + q1.query, q2.queryServer + "." + q2.query;
    assert GetQueryKey(s1, q1) == n1 + "." + t1;
    assert GetQueryKey(s2, q2) == n2 + "." + t2;
    DigitsHaveNoDot(s1.uuid);
    DigitsHaveNoDot(s2.uuid);
    SplitJoinDot(n1, t1);
    SplitJoinDot(n2, t2);
    NatToStringInjective(s1.uuid, s2.uuid);
    SplitJoinDot(q1.queryServer, q1.query);
    SplitJoinDot(q2.queryServer, q2.query);
  }

  datatype CacheError =
    | ResultNotFound(queryServer: string, queryName: string)
    | StartDurationMismatch(queryStartTime: Time, queryDuration: Duration)
    | OverInterval(queryServer: string, queryName: string)

  /** `app.GetQueryResultByQueryKey`. */
  function GetQueryResultByQueryKey(poolItems: map<string, QueryResultPoolItem>, queryKey: string): (r: Option<QueryResultPoolItem>)
    ensures r.Some? <==> queryKey in poolItems
    ensures r.Some? ==> r.value == poolItems[queryKey]
  {
    if queryKey in poolItems then Some(poolItems[queryKey]) else None
  }

  /** `GetCachedQueryResult`: the cached result for this session's query,
      refused when it is missing, when the session insists on a matching
      window and the window differs, or when the session refuses results
      older than the query's interval and this one is. */
  function GetCachedQueryResult(poolItems: map<string, QueryResultPoolItem>, session: InteractiveSession,
                                query: BotQuery, now: Time): (r: Result<QueryResult, CacheError>)
    ensures GetQueryKey(session, query) !in poolItems ==> r == Err(ResultNotFound(query.queryServer, query.name))
    ensures var key := GetQueryKey(session, query);
      r.Ok? <==> (key in poolItems
        && !(session.ignoreCacheQueryMismatch
             && (poolItems[key].queryStartTime != session.queryStartTime || poolItems[key].queryDuration != session.queryDuration))
        && !(session.ignoreCacheOverInterval && now - poolItems[key].timeReceived > query.interval))
    ensures r.Ok? ==> r.value == poolItems[GetQueryKey(session, query)].result
  {
    match GetQueryResultByQueryKey(poolItems, GetQueryKey(session, query))
    case None => Err(ResultNotFound(query.queryServer, query.name))
    case Some(item) =>
      if session.ignoreCacheQueryMismatch
         && (item.queryStartTime != session.queryStartTime || item.queryDuration != session.queryDuration) then
        Err(StartDurationMismatch(session.queryStartTime, session.queryDuration))
      else
        var since := now - item.timeReceived;
        if since > query.interval && session.ignoreCacheOverInterval then Err(OverInterval(query.queryServer, query.name))
        else Ok(item.result)
  }

  /** The pool item `StoreQueryResult` builds. */
  function NewCacheItem(session: InteractiveSession, query: BotQuery, startTime: Time,
                        queryResult: QueryResult, now: Time): (item: QueryResultPoolItem)
    ensures item.result == queryResult && item.isValid && item.timeReceived == now && item.timeRequested == startTime
    ensures item.queryStartTime == session.queryStartTime && item.queryDuration == session.queryDuration
    ensures item.interactiveUUID == session.uuid && item.queryServer == query.queryServer && item.query == query.query
  {
    QueryResultPoolItem(query.queryServer, query.query, session.uuid, startTime, now, queryResult, true,
                        session.queryStartTime, session.queryDuration)
  }

  /** A result just stored for a session is what that session reads back,
      until it is older than the query's interval for a session that
      refuses stale results. */
  lemma StoredResultIsRead(poolItems: map<string, QueryResultPoolItem>, session: InteractiveSession, query: BotQuery,
                           startTime: Time, queryResult: QueryResult, received: Time, now: Time)
    requires !session.ignoreCacheOverInterval || now - received <= query.interval
    ensures var stored := poolItems[GetQueryKey(session, query) := NewCacheItem(session, query, startTime, queryResult, received)];
      GetCachedQueryResult(stored, session, query, now) == Ok(queryResult)
  {
  }

  /** A stored result for one session is refused by a session with another
      window that insists on a match. */
  lemma MismatchedWindowRefused(poolItems: map<string, QueryResultPoolItem>, session: InteractiveSession, query: BotQuery, now: Time)
    requires GetQueryKey(session, query) in poolItems
    requires session.ignoreCacheQueryMismatch
    requires poolItems[GetQueryKey(session, query)].queryStartTime != session.queryStartTime
    ensures GetCachedQueryResult(poolItems, session, query, now) == Err(StartDurationMismatch(session.queryStartTime, session.queryDuration))
  {
  }

  /** `IsQueryLocked` on the lock table: a lock younger than the timeout. */
  function IsQueryLocked(queryLocks: map<string, Time>, session: InteractiveSession, query: BotQuery,
                         now: Time, queryLockTimeout: Duration): (r: bool)
    ensures GetQueryKey(session, query) !in queryLocks ==> !r
    ensures GetQueryKey(session, query) in queryLocks ==> (r <==> now - queryLocks[GetQueryKey(session, query)] < queryLockTimeout)
  {
    var key := GetQueryKey(session, query);
    if key !in queryLocks then false
    else now - queryLocks[key] < queryLockTimeout
  }

  /** `data.QueryResultPool` as site_query.go uses it. */
  class QueryResultPool {
    var poolItems: map<string, QueryResultPoolItem>
    var queryLocks: map<string, Time>

    /** The empty pool `LoadSiteConfig` makes. */
    constructor ()
      ensures poolItems == map[] && queryLocks == map[]
    {
      poolItems := map[];
      queryLocks := map[];
    }

    /** `QueryCacheSet`: the item is stored under its key; every other key
        and the locks are unchanged. */
    method QueryCacheSet(session: InteractiveSession, query: BotQuery, newCacheItem: QueryResultPoolItem)
      modifies this
      ensures poolItems == old(poolItems)[GetQueryKey(session, query) := newCacheItem]
      ensures queryLocks == old(queryLocks)
    {
      var queryKey := GetQueryKey(session, query);
      poolItems := poolItems[queryKey := newCacheItem];
    }

    /** `StoreQueryResult`. */
    method StoreQueryResult(session: InteractiveSession, query: BotQuery, startTime: Time, queryResult: QueryResult, now: Time)
      modifies this
      ensures poolItems == old(poolItems)[GetQueryKey(session, query) := NewCacheItem(session, query, startTime, queryResult, now)]
      ensures queryLocks == old(queryLocks)
    {
      var newCacheItem := NewCacheItem(session, query, startTime, queryResult, now);
      QueryCacheSet(session, query, newCacheItem);
    }

    /** `QueryLockClear`: only that key's lock is removed. */
    method QueryLockClear(queryKey: string)
      modifies this
      ensures queryLocks == old(queryLocks) - {queryKey}
      ensures poolItems == old(poolItems)
    {
      queryLocks := queryLocks - {queryKey};
    }

    /** `QueryLockSet`: the key is locked from now. */
    method QueryLockSet(queryKey: string, now: Time)
      modifies this
      ensures queryLocks == old(queryLocks)[queryKey := now]
      ensures poolItems == old(poolItems)
    {
      queryLocks := queryLocks[queryKey := now];
    }
  }

  /** A query whose lock was just set reads as locked for a positive
      timeout, and as unlocked once its lock is cleared. */
  lemma LockSetThenClear(queryLocks: map<string, Time>, session: InteractiveSession, query: BotQuery,
                         now: Time, queryLockTimeout: Duration)
    requires queryLockTimeout > 0
    ensures IsQueryLocked(queryLocks[GetQueryKey(session, query) := now], session, query, now, queryLockTimeout)
    ensures !IsQueryLocked(queryLocks - {GetQueryKey(session, query)}, session, query, now, queryLockTimeout)
  {
  }
}
