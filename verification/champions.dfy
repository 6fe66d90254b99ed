/** `ChampionService` (backend/src/services/championService.ts): the
    champion catalog (kept a day), the lookup of one champion by its numeric
    key, the placeholder tier list of a role (kept an hour), and the latest
    game version (kept a day).

    The tier list's win rates are in hundredths of a percent; the random
    jitter `Math.random() * 4 - 2` of each row is the parameter `jitter`,
    by row index, in the same unit. */
module Champions {
  import opened Wrappers
  import opened Strings
  import opened RiotTypes
  import opened Cache
  import opened ReadThroughCache

  const CHAMPIONS_KEY: string := "champions:all"
  const CHAMPIONS_TTL: int := 86400
  const TIER_LIST_TTL: int := 3600
  const VERSION_KEY: string := "version:latest"
  const VERSION_TTL: int := 86400
  /** The version `getAllChampions` asks the gateway for. */
  const LATEST: string := "latest"

  const VALID_ROLES: seq<string> := ["top", "jungle", "mid", "adc", "support"]
  /** How many champions the placeholder list takes from the catalog. */
  const MOCK_SIZE: nat := 15
  /** The tier labels `calculateTier` hands out, best first. */
  const TIERS: seq<string> := ["S", "A", "B", "C", "D"]

  /** `parts.join(sep)` */
  function JoinWith(parts: seq<string>, sep: string): string {
    if |parts| == 0 then "" else if |parts| == 1 then parts[0] else parts[0] + sep + JoinWith(parts[1..], sep)
  }

  predicate IsValidRole(role: string) {
    Lower(role) in VALID_ROLES
  }

  function InvalidRoleMessage(role: string): string {
    "Invalid role" + ": " + role + ". Must be one of: " + JoinWith(VALID_ROLES, ", ")
  }

  function TierListKey(role: string): string {
    "tierlist:" + Lower(role)
  }

  function AsChampions(v: ApiValue): Option<ChampionData> {
    if v.ChampionsValue? then Some(v.champions) else None
  }

  function AsTierList(v: ApiValue): Option<seq<ChampionStats>> {
    if v.TierListValue? then Some(v.stats) else None
  }

  /** An empty version string is falsy, so it is not a hit. */
  function AsVersion(v: ApiValue): Option<string> {
    if v.VersionValue? && v.version != "" then Some(v.version) else None
  }

  /** How the catalog and the version are stored. */
  function OfChampions(d: ChampionData): ApiValue {
    ChampionsValue(d)
  }

  function OfVersion(v: string): ApiValue {
    VersionValue(v)
  }

  function FetchChampions(api: RiotApi): Fetched<ChampionData> {
    Fetched(api.championData(LATEST), [ChampionDataCall(LATEST)])
  }

  function FetchVersion(api: RiotApi): Fetched<string> {
    Fetched(api.latestVersion(), [LatestVersionCall])
  }

  // ------------------------------------------------------ getChampionById

  /** `Object.values(data).find(c => c.key === id) || null` */
  function FindChampion(champions: seq<Champion>, id: string): (r: Option<Champion>)
    ensures r.None? <==> forall i :: 0 <= i < |champions| ==> champions[i].key != id
    ensures r.Some? ==> exists i :: 0 <= i < |champions| && champions[i] == r.value
                                    && r.value.key == id
                                    && forall j :: 0 <= j < i ==> champions[j].key != id
  {
    if |champions| == 0 then None
    else if champions[0].key == id then Some(champions[0])
    else
      var r := FindChampion(champions[1..], id);
      assert forall i :: 1 <= i < |champions| ==> champions[i] == champions[1..][i - 1];
      if r.Some? then
        var i :| 0 <= i < |champions[1..]| && champions[1..][i] == r.value && r.value.key == id
                 && forall j :: 0 <= j < i ==> champions[1..][j].key != id;
        assert champions[i + 1] == r.value;
        r
      else r
  }

  // ------------------------------------------------------- calculateTier

  /** The tier of the row at `index` of the unsorted list: three rows per
      tier, `D` from the thirteenth on. */
  function CalculateTier(index: int): (t: string)
    ensures t in TIERS
  {
    if index < 3 then "S"
    else if index < 6 then "A"
    else if index < 9 then "B"
    else if index < 12 then "C"
    else "D"
  }

  /** The position of a tier label in `TIERS`. */
  function TierRank(t: string): nat {
    if t == "S" then 0 else if t == "A" then 1 else if t == "B" then 2 else if t == "C" then 3 else 4
  }

  /** A later row never gets a better tier, and each tier starts where the
      source's thresholds say. */
  lemma TierMonotone(i: int, j: int)
    requires i <= j
    ensures TierRank(CalculateTier(i)) <= TierRank(CalculateTier(j))
    ensures 0 <= i ==> TierRank(CalculateTier(i)) == if i < 12 then i / 3 else 4
  {
  }

  // ------------------------------------------------- generateMockTierList

  /** The row of the `index`-th catalog champion, before sorting. */
  function MockRow(champion: Champion, index: nat, role: string, jitter: nat -> int): (s: ChampionStats)
    ensures s.winRate >= 4500
  {
    var base := 5200 - 50 * index;
    var rate := base + jitter(index);
    ChampionStats(champion.key, champion.name, role, if rate > 4500 then rate else 4500, CalculateTier(index))
  }

  function MockSize(data: ChampionData): nat {
    if |data.data| < MOCK_SIZE then |data.data| else MOCK_SIZE
  }

  /** The first fifteen champions, each mapped with its index. */
  function MockRows(data: ChampionData, role: string, jitter: nat -> int): (rows: seq<ChampionStats>)
    ensures |rows| == MockSize(data)
    ensures forall i :: 0 <= i < |rows| ==> rows[i] == MockRow(data.data[i], i, role, jitter)
  {
    seq(MockSize(data), i requires 0 <= i < MockSize(data) => MockRow(data.data[i], i, role, jitter))
  }

  predicate SortedByWinRate(s: seq<ChampionStats>) {
    forall i, j :: 0 <= i < j < |s| ==> s[i].winRate >= s[j].winRate
  }

  /** Inserts `x` before the first row with a lower win rate, so `x` goes
      ahead of the rows of equal win rate that follow it in the input. */
  function Insert(x: ChampionStats, sorted: seq<ChampionStats>): (r: seq<ChampionStats>)
    ensures multiset(r) == multiset(sorted) + multiset{x}
  {
    if |sorted| == 0 then [x]
    else if sorted[0].winRate > x.winRate then
      assert sorted == [sorted[0]] + sorted[1..];
      [sorted[0]] + Insert(x, sorted[1..])
    else [x] + sorted
  }

  lemma {:induction false} InsertSorted(x: ChampionStats, sorted: seq<ChampionStats>)
    requires SortedByWinRate(sorted)
    ensures SortedByWinRate(Insert(x, sorted))
  {
    if |sorted| > 0 && sorted[0].winRate > x.winRate {
      var rest := Insert(x, sorted[1..]);
      InsertSorted(x, sorted[1..]);
      InsertBelow(x, sorted[1..], sorted[0].winRate);
      ConsSorted(sorted[0], rest);
      assert Insert(x, sorted) == [sorted[0]] + rest;
    }
  }

  /** Inserting a row no higher than `m` among rows no higher than `m`
      keeps every row no higher than `m`. */
  lemma InsertBelow(x: ChampionStats, s: seq<ChampionStats>, m: int)
    requires x.winRate <= m
    requires forall i :: 0 <= i < |s| ==> s[i].winRate <= m
    ensures forall i :: 0 <= i < |Insert(x, s)| ==> Insert(x, s)[i].winRate <= m
  {
    var r := Insert(x, s);
    forall i | 0 <= i < |r| ensures r[i].winRate <= m {
      assert r[i] in multiset(s) + multiset{x};
      if r[i] != x {
        assert r[i] in s;
      }
    }
  }

  lemma ConsSorted(h: ChampionStats, rest: seq<ChampionStats>)
    requires SortedByWinRate(rest)
    requires forall i :: 0 <= i < |rest| ==> rest[i].winRate <= h.winRate
    ensures SortedByWinRate([h] + rest)
  {
  }

  /** `.sort((a, b) => b.winRate - a.winRate)`, a stable sort by win rate,
      highest first. */
  function SortByWinRate(rows: seq<ChampionStats>): (r: seq<ChampionStats>)
    ensures multiset(r) == multiset(rows)
    ensures SortedByWinRate(r)
  {
    if |rows| == 0 then []
    else
      assert rows == [rows[0]] + rows[1..];
      InsertSorted(rows[0], SortByWinRate(rows[1..]));
      Insert(rows[0], SortByWinRate(rows[1..]))
  }

  function GenerateMockTierList(data: ChampionData, role: string, jitter: nat -> int): seq<ChampionStats> {
    SortByWinRate(MockRows(data, role, jitter))
  }

  /** The placeholder list has min(15, catalog size) rows, ordered by win
      rate from the highest; it holds exactly the rows of the first fifteen
      champions, each with the given role, a win rate of at least 45 % and the
      tier of its position in the catalog, not of its place in the list. */
  lemma MockTierListShape(data: ChampionData, role: string, jitter: nat -> int)
    ensures var list := GenerateMockTierList(data, role, jitter);
            && |list| == MockSize(data)
            && SortedByWinRate(list)
            && multiset(list) == multiset(MockRows(data, role, jitter))
            && forall k :: 0 <= k < |list| ==>
                 list[k].role == role && list[k].winRate >= 4500
                 && exists i :: 0 <= i < MockSize(data) && list[k] == MockRow(data.data[i], i, role, jitter)
  {
    var list := GenerateMockTierList(data, role, jitter);
    var rows := MockRows(data, role, jitter);
    assert |list| == |multiset(list)| == |multiset(rows)| == |rows|;
    forall k | 0 <= k < |list|
      ensures exists i :: 0 <= i < MockSize(data) && list[k] == MockRow(data.data[i], i, role, jitter)
    {
      assert list[k] in multiset(list);
      assert list[k] in multiset(rows);
      var i :| 0 <= i < |rows| && rows[i] == list[k];
    }
  }

  // ------------------------------------------------------- getTierListByRole

  /** What `getTierListByRole` answers, the upstream calls, and the server's
      keys afterwards: an invalid role fails before the cache is read; a
      miss goes through `getAllChampions`, itself a read-through. */
  function TierListServed(connected: bool, faults: StoreFaults, store: Store, api: RiotApi,
                          role: string, jitter: nat -> int): Served<seq<ChampionStats>>
  {
    if !IsValidRole(role) then Served(Err(AppError(InvalidRoleMessage(role), None)), [], store)
    else
      var key := TierListKey(role);
      match Hit(connected, faults, store, key, AsTierList)
      case Some(list) => Served(Ok(list), [], store)
      case None =>
        var all := ReadThrough(connected, faults, store, CHAMPIONS_KEY, CHAMPIONS_TTL,
                               AsChampions, OfChampions, FetchChampions(api));
        match all.result
        case Err(e) => Served(Err(e), all.calls, all.store)
        case Ok(data) =>
          var list := GenerateMockTierList(data, Lower(role), jitter);
          Served(Ok(list), all.calls,
                 SetResult(connected && !faults.setFails(key), all.store, key, TierListValue(list), TIER_LIST_TTL))
  }

  /** A role whose lower-case form is not one of the five is rejected, with
      the message naming it and the valid roles, before anything is read,
      written or fetched; for a valid role the only error is the catalog
      fetch's. */
  lemma InvalidRoleRejected(connected: bool, faults: StoreFaults, store: Store, api: RiotApi,
                            role: string, jitter: nat -> int)
    ensures !IsValidRole(role) ==> TierListServed(connected, faults, store, api, role, jitter)
                                   == Served(Err(AppError(InvalidRoleMessage(role), None)), [], store)
    ensures IsValidRole(role) && TierListServed(connected, faults, store, api, role, jitter).result.Err? ==>
              && api.championData(LATEST).Err?
              && TierListServed(connected, faults, store, api, role, jitter).result.error == api.championData(LATEST).error
  {
  }

  /** Role names differ only in case share one cache entry and one list. */
  lemma RoleCaseInsensitive(connected: bool, faults: StoreFaults, store: Store, api: RiotApi,
                            role: string, jitter: nat -> int)
    requires IsValidRole(role)
    ensures TierListKey(role) == TierListKey(Lower(role))
    ensures TierListServed(connected, faults, store, api, role, jitter)
            == TierListServed(connected, faults, store, api, Lower(role), jitter)
  {
    LowerIdempotent(role);
  }

  /** A cached empty version string does not count: the version is fetched. */
  lemma EmptyVersionIsMiss(faults: StoreFaults, store: Store, api: RiotApi)
    requires VERSION_KEY in store && store[VERSION_KEY].value == VersionValue("")
    ensures ReadThrough(true, faults, store, VERSION_KEY, VERSION_TTL, AsVersion, OfVersion, FetchVersion(api)).calls
            == [LatestVersionCall]
  {
  }

  // --------------------------------------------------------------- the class

  class ChampionService {
    const cache: RedisCache
    const api: RiotApi

    constructor(cache: RedisCache, api: RiotApi)
      ensures this.cache == cache && this.api == api
    {
      this.cache := cache;
      this.api := api;
    }

    /** `getAllChampions` */
    method GetAllChampions(faults: StoreFaults) returns (r: Result<ChampionData, ApiError>, calls: seq<ApiCall>)
      requires cache.Valid()
      modifies cache
      ensures cache.Valid() && cache.Connected() == old(cache.Connected())
      ensures Served(r, calls, cache.store)
              == ReadThrough(old(cache.Connected()), faults, old(cache.store), CHAMPIONS_KEY, CHAMPIONS_TTL,
                             AsChampions, OfChampions, FetchChampions(api))
    {
      r, calls := Serve(cache, faults, CHAMPIONS_KEY, CHAMPIONS_TTL, AsChampions, OfChampions, FetchChampions(api));
    }

    /** `getChampionById`: the catalog, then the first champion with that key. */
    method GetChampionById(id: string, faults: StoreFaults) returns (r: Result<Option<Champion>, ApiError>, calls: seq<ApiCall>)
      requires cache.Valid()
      modifies cache
      ensures cache.Valid() && cache.Connected() == old(cache.Connected())
      ensures var all := ReadThrough(old(cache.Connected()), faults, old(cache.store), CHAMPIONS_KEY, CHAMPIONS_TTL,
                                     AsChampions, OfChampions, FetchChampions(api));
              && calls == all.calls && cache.store == all.store
              && r == match all.result
                      case Ok(data) => Ok(FindChampion(data.data, id))
                      case Err(e) => Err(e)
    {
      var all;
      all, calls := GetAllChampions(faults);
      if all.Err? {
        return Err(all.error), calls;
      }
      r := Ok(FindChampion(all.value.data, id));
    }

    /** `getTierListByRole` */
    method GetTierListByRole(role: string, jitter: nat -> int, faults: StoreFaults)
        returns (r: Result<seq<ChampionStats>, ApiError>, calls: seq<ApiCall>)
      requires cache.Valid()
      modifies cache
      ensures cache.Valid() && cache.Connected() == old(cache.Connected())
      ensures Served(r, calls, cache.store) == TierListServed(old(cache.Connected()), faults, old(cache.store), api, role, jitter)
    {
      if Lower(role) !in VALID_ROLES {
        return Err(AppError(InvalidRoleMessage(role), None)), [];
      }
      var key := TierListKey(role);
      var cached := cache.Get(key, faults.getFails(key));
      if cached.Some? && AsTierList(cached.value).Some? {
        return Ok(AsTierList(cached.value).value), [];
      }
      var all;
      all, calls := GetAllChampions(faults);
      if all.Err? {
        return Err(all.error), calls;
      }
      var list := GenerateMockTierList(all.value, Lower(role), jitter);
      cache.Set(key, TierListValue(list), TIER_LIST_TTL, faults.setFails(key));
      r := Ok(list);
    }

    /** `getLatestVersion` */
    method GetLatestVersion(faults: StoreFaults) returns (r: Result<string, ApiError>, calls: seq<ApiCall>)
      requires cache.Valid()
      modifies cache
      ensures cache.Valid() && cache.Connected() == old(cache.Connected())
      ensures Served(r, calls, cache.store)
              == ReadThrough(old(cache.Connected()), faults, old(cache.store), VERSION_KEY, VERSION_TTL,
                             AsVersion, OfVersion, FetchVersion(api))
    {
      r, calls := Serve(cache, faults, VERSION_KEY, VERSION_TTL, AsVersion, OfVersion, FetchVersion(api));
    }
  }
}
