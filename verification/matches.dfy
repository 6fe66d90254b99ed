/** `MatchService` (backend/src/services/matchService.ts): the read-through
    lookups of a player's match ids (one page, kept ten minutes) and of one
    match (kept seven days, under a key without the region), the sequential
    batch lookup that skips failed matches, and their composition. */
module Matches {
  import opened Wrappers
  import opened Strings
  import opened RiotTypes
  import opened Cache
  import opened ReadThroughCache

  const HISTORY_TTL: int := 600
  const DETAILS_TTL: int := 604800

  function HistoryKey(region: string, puuid: string, start: int, count: int): string {
    "matches:" + region + ":" + puuid + ":" + IntToString(start) + ":" + IntToString(count)
  }

  function DetailsKey(matchId: string): string {
    "match:" + matchId
  }

  function AsMatchIds(v: ApiValue): Option<seq<string>> {
    if v.MatchIdsValue? then Some(v.ids) else None
  }

  function AsMatch(v: ApiValue): Option<MatchDto> {
    if v.MatchValue? then Some(v.details) else None
  }

  /** How a page of ids and a match are stored. */
  function OfMatchIds(ids: seq<string>): ApiValue {
    MatchIdsValue(ids)
  }

  function OfMatch(m: MatchDto): ApiValue {
    MatchValue(m)
  }

  function FetchHistory(api: RiotApi, puuid: string, region: string, start: int, count: int): Fetched<seq<string>> {
    Fetched(api.matchIds(puuid, region, start, count), [MatchIdsCall(puuid, region, start, count)])
  }

  function FetchDetails(api: RiotApi, matchId: string, region: string): Fetched<MatchDto> {
    Fetched(api.matchDetails(matchId, region), [MatchDetailsCall(matchId, region)])
  }

  /** A history page and a match never share a key. */
  lemma HistoryAndDetailsKeysDiffer(region: string, puuid: string, start: int, count: int, matchId: string)
    ensures HistoryKey(region, puuid, start, count) != DetailsKey(matchId)
  {
    assert HistoryKey(region, puuid, start, count)[5] != DetailsKey(matchId)[5];
  }

  /** Two pages of the same player in the same region share a key only when
      they are the same page. */
  lemma HistoryKeyDeterminesPage(region: string, puuid: string, s1: int, c1: int, s2: int, c2: int)
    requires HistoryKey(region, puuid, s1, c1) == HistoryKey(region, puuid, s2, c2)
    ensures s1 == s2 && c1 == c2
  {
    var prefix := "matches:" + region + ":" + puuid + ":";
    KeySplits(region, puuid, s1, c1);
    KeySplits(region, puuid, s2, c2);
    SameTail(prefix, IntToString(s1) + ":" + IntToString(c1), IntToString(s2) + ":" + IntToString(c2));
    TailDeterminesPage(s1, c1, s2, c2);
  }

  /** A history key is the player's prefix followed by the page's numbers. */
  lemma KeySplits(region: string, puuid: string, start: int, count: int)
    ensures HistoryKey(region, puuid, start, count)
              == ("matches:" + region + ":" + puuid + ":") + (IntToString(start) + ":" + IntToString(count))
  {
  }

  /** Equal texts with the same beginning have the same remainder. */
  lemma SameTail(prefix: string, t1: string, t2: string)
    requires prefix + t1 == prefix + t2
    ensures t1 == t2
  {
    assert t1 == (prefix + t1)[|prefix|..];
    assert t2 == (prefix + t2)[|prefix|..];
  }

  /** The `start:count` text names one page. */
  lemma TailDeterminesPage(s1: int, c1: int, s2: int, c2: int)
    requires IntToString(s1) + ":" + IntToString(c1) == IntToString(s2) + ":" + IntToString(c2)
    ensures s1 == s2 && c1 == c2
  {
    TwoNumbers(s1, c1);
    TwoNumbers(s2, c2);
    IntToStringInjective(s1, s2);
    IntToStringInjective(c1, c2);
  }

  lemma TwoNumbers(a: int, b: int)
    ensures Split(IntToString(a) + ":" + IntToString(b), ':') == [IntToString(a), IntToString(b)]
  {
    SplitNoSep(IntToString(a), ':');
    SplitNoSep(IntToString(b), ':');
    SplitAround(IntToString(a), IntToString(b), ':');
  }

  // ------------------------------------------------ getMultipleMatchDetails

  /** The matches collected so far, the upstream calls made, and the
      server's keys. */
  datatype Batch = Batch(matches: seq<MatchDto>, calls: seq<ApiCall>, store: Store)

  /** One iteration: look the match up; keep it if the lookup succeeded. */
  function DetailsStep(connected: bool, faults: StoreFaults, api: RiotApi, region: string,
                       b: Batch, matchId: string): Batch {
    var s := ReadThrough(connected, faults, b.store, DetailsKey(matchId), DETAILS_TTL,
                         AsMatch, OfMatch, FetchDetails(api, matchId, region));
    Batch(b.matches + (if s.result.Ok? then [s.result.value] else []), b.calls + s.calls, s.store)
  }

  /** The batch lookup of `ids`, one after another, each seeing the keys the
      earlier ones wrote. */
  function DetailsRun(connected: bool, faults: StoreFaults, api: RiotApi, region: string,
                      store: Store, ids: seq<string>): (b: Batch)
    ensures |b.matches| <= |ids|
    ensures |b.calls| <= |ids|
    decreases |ids|
  {
    if |ids| == 0 then Batch([], [], store)
    else DetailsStep(connected, faults, api, region,
                     DetailsRun(connected, faults, api, region, store, ids[..|ids| - 1]), ids[|ids| - 1])
  }

  /** `DetailsRun` over the first `i` ids, as the batch loop tracks it. */
  ghost function RunUpTo(connected: bool, faults: StoreFaults, api: RiotApi, region: string, store: Store,
                         ids: seq<string>, i: nat): Batch
    requires i <= |ids|
  {
    DetailsRun(connected, faults, api, region, store, ids[..i])
  }

  /** The run over one more id: the run so far, then a lookup that served
      `r`, `calls` and `after`, keeping the match when there is one. */
  lemma RunStep(connected: bool, faults: StoreFaults, api: RiotApi, region: string, store: Store,
                ids: seq<string>, i: nat, prev: Batch, r: Result<MatchDto, ApiError>, calls: seq<ApiCall>, after: Store)
    requires i < |ids|
    requires prev == RunUpTo(connected, faults, api, region, store, ids, i)
    requires Served(r, calls, after)
             == ReadThrough(connected, faults, prev.store, DetailsKey(ids[i]), DETAILS_TTL,
                            AsMatch, OfMatch, FetchDetails(api, ids[i], region))
    ensures Batch(prev.matches + (if r.Ok? then [r.value] else []), prev.calls + calls, after)
            == RunUpTo(connected, faults, api, region, store, ids, i + 1)
  {
    assert ids[..i + 1][..i] == ids[..i];
  }

  /** The matches the upstream returns for `ids`, in order, failures skipped. */
  function Successes(api: RiotApi, region: string, ids: seq<string>): seq<MatchDto>
    decreases |ids|
  {
    if |ids| == 0 then []
    else Successes(api, region, ids[..|ids| - 1])
         + (if api.matchDetails(ids[|ids| - 1], region).Ok? then [api.matchDetails(ids[|ids| - 1], region).value] else [])
  }

  /** With the cache unavailable, the batch is the upstream's successful
      answers in input order, one upstream call per id, and nothing is
      written. */
  lemma {:induction false} UnavailableBatch(faults: StoreFaults, api: RiotApi, region: string, store: Store, ids: seq<string>)
    ensures DetailsRun(false, faults, api, region, store, ids).matches == Successes(api, region, ids)
    ensures DetailsRun(false, faults, api, region, store, ids).calls == seq(|ids|, i requires 0 <= i < |ids| => MatchDetailsCall(ids[i], region))
    ensures DetailsRun(false, faults, api, region, store, ids).store == store
  {
    if |ids| > 0 {
      var init := ids[..|ids| - 1];
      UnavailableBatch(faults, api, region, store, init);
      UnavailablePassesThrough(faults, store, DetailsKey(ids[|ids| - 1]), DETAILS_TTL,
                               AsMatch, OfMatch, FetchDetails(api, ids[|ids| - 1], region));
    }
  }

  /** On a healthy cache, a match id repeated in the batch is fetched from the
      upstream once: the second occurrence is served by the entry the first
      one wrote. */
  lemma RepeatedIdFetchedOnce(api: RiotApi, region: string, store: Store, id: string)
    requires DetailsKey(id) !in store && api.matchDetails(id, region).Ok?
    ensures DetailsRun(true, NO_FAULTS, api, region, store, [id, id]).calls == [MatchDetailsCall(id, region)]
    ensures DetailsRun(true, NO_FAULTS, api, region, store, [id, id]).matches
            == [api.matchDetails(id, region).value, api.matchDetails(id, region).value]
  {
    var key := DetailsKey(id);
    var m := api.matchDetails(id, region).value;
    var fetch := FetchDetails(api, id, region);
    assert !NO_FAULTS.getFails(key) && !NO_FAULTS.setFails(key);
    var first := ReadThrough(true, NO_FAULTS, store, key, DETAILS_TTL, AsMatch, OfMatch, fetch);
    assert Hit(true, NO_FAULTS, store, key, AsMatch) == None;
    assert first == Served(Ok(m), [MatchDetailsCall(id, region)], store[key := CacheEntry(MatchValue(m), DETAILS_TTL)]);
    var second := ReadThrough(true, NO_FAULTS, first.store, key, DETAILS_TTL, AsMatch, OfMatch, fetch);
    assert Hit(true, NO_FAULTS, first.store, key, AsMatch) == Some(m);
    assert second == Served(Ok(m), [], first.store);
    assert [id, id][..1] == [id];
    assert [id][..0] == [];
    assert DetailsRun(true, NO_FAULTS, api, region, store, [id]) == Batch([m], [MatchDetailsCall(id, region)], first.store);
  }

  // --------------------------------------------------------------- the class

  class MatchService {
    const cache: RedisCache
    const api: RiotApi

    constructor(cache: RedisCache, api: RiotApi)
      ensures this.cache == cache && this.api == api
    {
      this.cache := cache;
      this.api := api;
    }

    /** `getMatchHistory` */
    method GetMatchHistory(puuid: string, region: string, start: int, count: int, faults: StoreFaults)
        returns (r: Result<seq<string>, ApiError>, calls: seq<ApiCall>)
      requires cache.Valid()
      modifies cache
      ensures cache.Valid() && cache.Connected() == old(cache.Connected())
      ensures Served(r, calls, cache.store)
              == ReadThrough(old(cache.Connected()), faults, old(cache.store), HistoryKey(region, puuid, start, count),
                             HISTORY_TTL, AsMatchIds, OfMatchIds, FetchHistory(api, puuid, region, start, count))
    {
      r, calls := Serve(cache, faults, HistoryKey(region, puuid, start, count), HISTORY_TTL,
                        AsMatchIds, OfMatchIds, FetchHistory(api, puuid, region, start, count));
    }

    /** `getMatchDetails` */
    method GetMatchDetails(matchId: string, region: string, faults: StoreFaults)
        returns (r: Result<MatchDto, ApiError>, calls: seq<ApiCall>)
      requires cache.Valid()
      modifies cache
      ensures cache.Valid() && cache.Connected() == old(cache.Connected())
      ensures Served(r, calls, cache.store)
              == ReadThrough(old(cache.Connected()), faults, old(cache.store), DetailsKey(matchId),
                             DETAILS_TTL, AsMatch, OfMatch, FetchDetails(api, matchId, region))
    {
      r, calls := Serve(cache, faults, DetailsKey(matchId), DETAILS_TTL,
                        AsMatch, OfMatch, FetchDetails(api, matchId, region));
    }

    /** `getMultipleMatchDetails`: a failed lookup is skipped, never thrown. */
    method GetMultipleMatchDetails(ids: seq<string>, region: string, faults: StoreFaults)
        returns (matches: seq<MatchDto>, calls: seq<ApiCall>)
      requires cache.Valid()
      modifies cache
      ensures cache.Valid() && cache.Connected() == old(cache.Connected())
      ensures Batch(matches, calls, cache.store)
              == DetailsRun(old(cache.Connected()), faults, api, region, old(cache.store), ids)
    {
      matches, calls := [], [];
      for i := 0 to |ids|
        invariant cache.Valid() && cache.Connected() == old(cache.Connected())
        invariant Batch(matches, calls, cache.store)
                  == RunUpTo(old(cache.Connected()), faults, api, region, old(cache.store), ids, i)
      {
        ghost var prev := Batch(matches, calls, cache.store);
        var r, c := GetMatchDetails(ids[i], region, faults);
        RunStep(old(cache.Connected()), faults, api, region, old(cache.store), ids, i, prev, r, c, cache.store);
        if r.Ok? {
          matches := matches + [r.value];
        }
        calls := calls + c;
      }
      assert ids[..|ids|] == ids;
    }

    /** `getMatchHistoryWithDetails`: the page of ids, then the batch lookup
        of those ids; a failed page propagates. */
    method GetMatchHistoryWithDetails(puuid: string, region: string, start: int, count: int, faults: StoreFaults)
        returns (r: Result<seq<MatchDto>, ApiError>, calls: seq<ApiCall>)
      requires cache.Valid()
      modifies cache
      ensures cache.Valid() && cache.Connected() == old(cache.Connected())
      ensures var page := ReadThrough(old(cache.Connected()), faults, old(cache.store), HistoryKey(region, puuid, start, count),
                                      HISTORY_TTL, AsMatchIds, OfMatchIds, FetchHistory(api, puuid, region, start, count));
              match page.result
              case Err(e) => r == Err(e) && calls == page.calls && cache.store == old(cache.store)
              case Ok(ids) =>
                var batch := DetailsRun(old(cache.Connected()), faults, api, region, page.store, ids);
                r == Ok(batch.matches) && calls == page.calls + batch.calls && cache.store == batch.store
    {
      var page, pageCalls := GetMatchHistory(puuid, region, start, count, faults);
      if page.Err? {
        return Err(page.error), pageCalls;
      }
      var matches, batchCalls := GetMultipleMatchDetails(page.value, region, faults);
      r, calls := Ok(matches), pageCalls + batchCalls;
    }
  }
}
