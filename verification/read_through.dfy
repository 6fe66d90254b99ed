/** The read-through pattern every backend service method follows
    (backend/src/services/summonerService.ts, matchService.ts,
    championService.ts): derive a key, `get` it from the cache and return a
    hit as it is; on a miss call the upstream, `set` the result under the key
    with the data class's expiry, and return it. An upstream error propagates
    and nothing is written.

    A cached value counts as a hit only when it is truthy and of the kind the
    method reads (`cast`); the upstream fetch is given as its outcome and the
    upstream calls it makes, in order. */
module ReadThroughCache {
  import opened Wrappers
  import opened RiotTypes
  import opened Cache

  /** Which cache calls throw: by key, for `get` and for `set`. */
  datatype StoreFaults = StoreFaults(getFails: string -> bool, setFails: string -> bool)

  /** What an upstream fetch produced, and the upstream calls it made. */
  datatype Fetched<T> = Fetched(result: Result<T, ApiError>, calls: seq<ApiCall>)

  /** What a read-through answered, the upstream calls it made, and the
      server's keys afterwards. */
  datatype Served<T> = Served(result: Result<T, ApiError>, calls: seq<ApiCall>, store: Store)

  const NO_FAULTS: StoreFaults := StoreFaults(_ => false, _ => false)

  /** The cache hit, if the `get` answers a usable value. */
  function Hit<T>(connected: bool, faults: StoreFaults, store: Store, key: string,
                  cast: ApiValue -> Option<T>): (h: Option<T>)
    ensures h.Some? ==> connected && !faults.getFails(key) && key in store && cast(store[key].value) == h
  {
    match GetResult(connected && !faults.getFails(key), store, key)
    case Some(v) => cast(v)
    case None => None
  }

  function ReadThrough<T>(connected: bool, faults: StoreFaults, store: Store, key: string, ttl: int,
                          cast: ApiValue -> Option<T>, wrap: T -> ApiValue, fetch: Fetched<T>): Served<T>
  {
    match Hit(connected, faults, store, key, cast)
    case Some(v) => Served(Ok(v), [], store)
    case None =>
      match fetch.result
      case Ok(v) => Served(Ok(v), fetch.calls, SetResult(connected && !faults.setFails(key), store, key, wrap(v), ttl))
      case Err(e) => Served(Err(e), fetch.calls, store)
  }

  // ------------------------------------------------------------ properties

  /** A hit answers the cached value, calls nothing upstream and writes
      nothing. */
  lemma HitServesCached<T>(connected: bool, faults: StoreFaults, store: Store, key: string, ttl: int,
                           cast: ApiValue -> Option<T>, wrap: T -> ApiValue, fetch: Fetched<T>)
    requires Hit(connected, faults, store, key, cast).Some?
    ensures ReadThrough(connected, faults, store, key, ttl, cast, wrap, fetch)
            == Served(Ok(cast(store[key].value).value), [], store)
  {
  }

  /** A miss answers what the upstream answered, after exactly its calls. */
  lemma MissFetches<T>(connected: bool, faults: StoreFaults, store: Store, key: string, ttl: int,
                       cast: ApiValue -> Option<T>, wrap: T -> ApiValue, fetch: Fetched<T>)
    requires Hit(connected, faults, store, key, cast).None?
    ensures ReadThrough(connected, faults, store, key, ttl, cast, wrap, fetch).result == fetch.result
    ensures ReadThrough(connected, faults, store, key, ttl, cast, wrap, fetch).calls == fetch.calls
  {
  }

  /** A failed read-through writes nothing, and any read-through writes at
      most its own key. */
  lemma WritesOnlyItsKey<T>(connected: bool, faults: StoreFaults, store: Store, key: string, ttl: int,
                            cast: ApiValue -> Option<T>, wrap: T -> ApiValue, fetch: Fetched<T>)
    ensures var s := ReadThrough(connected, faults, store, key, ttl, cast, wrap, fetch);
            (s.result.Err? ==> s.store == store)
            && s.store - {key} == store - {key}
  {
  }

  /** A miss whose fetch succeeds, on a healthy cache, is followed by a hit
      on the same key that answers the same value without any upstream call,
      whatever the upstream would now answer. */
  lemma SecondReadHits<T>(faults: StoreFaults, store: Store, key: string, ttl: int,
                          cast: ApiValue -> Option<T>, wrap: T -> ApiValue, fetch: Fetched<T>, later: Fetched<T>)
    requires fetch.result.Ok? && ttl > 0
    requires !faults.getFails(key) && !faults.setFails(key)
    requires cast(wrap(fetch.result.value)) == Some(fetch.result.value)
    ensures var s := ReadThrough(true, faults, store, key, ttl, cast, wrap, fetch);
            ReadThrough(true, faults, s.store, key, ttl, cast, wrap, later) == Served(s.result, [], s.store)
  {
    var s := ReadThrough(true, faults, store, key, ttl, cast, wrap, fetch);
    match Hit(true, faults, store, key, cast)
    case Some(v) =>
      assert s.store == store;
    case None =>
      assert s.store == store[key := CacheEntry(wrap(fetch.result.value), ttl)];
  }

  /** With the cache unavailable, a read-through is the upstream fetch. */
  lemma UnavailablePassesThrough<T>(faults: StoreFaults, store: Store, key: string, ttl: int,
                                    cast: ApiValue -> Option<T>, wrap: T -> ApiValue, fetch: Fetched<T>)
    ensures ReadThrough(false, faults, store, key, ttl, cast, wrap, fetch) == Served(fetch.result, fetch.calls, store)
  {
  }

  // ---------------------------------------------------------- the method

  /** One read-through against the cache object. */
  method Serve<T>(cache: RedisCache, faults: StoreFaults, key: string, ttl: int,
                  cast: ApiValue -> Option<T>, wrap: T -> ApiValue, fetch: Fetched<T>)
      returns (r: Result<T, ApiError>, calls: seq<ApiCall>)
    requires cache.Valid()
    modifies cache
    ensures cache.Valid() && cache.hasClient == old(cache.hasClient) && cache.isConnected == old(cache.isConnected)
    ensures Served(r, calls, cache.store)
            == ReadThrough(old(cache.Connected()), faults, old(cache.store), key, ttl, cast, wrap, fetch)
  {
    var cached := cache.Get(key, faults.getFails(key));
    if cached.Some? && cast(cached.value).Some? {
      return Ok(cast(cached.value).value), [];
    }
    r, calls := fetch.result, fetch.calls;
    if r.Ok? {
      cache.Set(key, wrap(r.value), ttl, faults.setFails(key));
    }
  }
}
