/** `SummonerService` (backend/src/services/summonerService.ts): the summoner
    profile, a composite of three upstream calls cached under one key, and
    the read-through lookups of a summoner by puuid and of ranked entries.
    Every entry is kept for five minutes. */
module Summoners {
  import opened Wrappers
  import opened RiotTypes
  import opened Cache
  import opened ReadThroughCache
  import Strings

  const SUMMONER_TTL: int := 300

  function ProfileKey(region: string, gameName: string, tagLine: string): string {
    "summoner:" + region + ":" + gameName + ":" + tagLine
  }

  function PuuidKey(region: string, puuid: string): string {
    "summoner:puuid:" + region + ":" + puuid
  }

  function RankedKey(region: string, summonerId: string): string {
    "ranked:" + region + ":" + summonerId
  }

  function AsProfile(v: ApiValue): Option<SummonerProfile> {
    if v.ProfileValue? then Some(v.profile) else None
  }

  function AsSummoner(v: ApiValue): Option<Summoner> {
    if v.SummonerValue? then Some(v.summoner) else None
  }

  function AsRanked(v: ApiValue): Option<seq<LeagueEntry>> {
    if v.RankedValue? then Some(v.entries) else None
  }

  /** How a profile, a summoner and ranked entries are stored. */
  function OfProfile(p: SummonerProfile): ApiValue {
    ProfileValue(p)
  }

  function OfSummoner(s: Summoner): ApiValue {
    SummonerValue(s)
  }

  function OfRanked(e: seq<LeagueEntry>): ApiValue {
    RankedValue(e)
  }

  /** The upstream part of `getSummonerProfile`: the account by Riot ID, then
      the summoner by that account's puuid, then the league entries by that
      summoner's id; the first failure ends the chain and is the outcome. */
  function FetchProfile(api: RiotApi, gameName: string, tagLine: string, region: string): (f: Fetched<SummonerProfile>)
    ensures 1 <= |f.calls| <= 3 && f.calls[0] == AccountCall(gameName, tagLine, region)
    ensures f.result.Err? || |f.calls| == 3
    ensures f.result.Ok? ==>
              && api.account(gameName, tagLine, region).Ok?
              && f.result.value.account == api.account(gameName, tagLine, region).value
              && api.summonerByPuuid(f.result.value.account.puuid, region).Ok?
              && f.calls[1] == SummonerCall(f.result.value.account.puuid, region)
              && f.result.value.summoner == api.summonerByPuuid(f.result.value.account.puuid, region).value
              && f.calls[2] == LeagueCall(f.result.value.summoner.id, region)
              && api.leagueEntries(f.result.value.summoner.id, region).Ok?
              && f.result.value.rankedStats == api.leagueEntries(f.result.value.summoner.id, region).value
  {
    var first := [AccountCall(gameName, tagLine, region)];
    match api.account(gameName, tagLine, region)
    case Err(e) => Fetched(Err(e), first)
    case Ok(account) =>
      var second := first + [SummonerCall(account.puuid, region)];
      match api.summonerByPuuid(account.puuid, region)
      case Err(e) => Fetched(Err(e), second)
      case Ok(summoner) =>
        var third := second + [LeagueCall(summoner.id, region)];
        match api.leagueEntries(summoner.id, region)
        case Err(e) => Fetched(Err(e), third)
        case Ok(entries) => Fetched(Ok(SummonerProfile(account, summoner, entries)), third)
  }

  function FetchSummoner(api: RiotApi, puuid: string, region: string): Fetched<Summoner> {
    Fetched(api.summonerByPuuid(puuid, region), [SummonerCall(puuid, region)])
  }

  function FetchRanked(api: RiotApi, summonerId: string, region: string): Fetched<seq<LeagueEntry>> {
    Fetched(api.leagueEntries(summonerId, region), [LeagueCall(summonerId, region)])
  }

  /** The profile key of a region code without a colon can be a puuid key
      only for the region `puuid`: for any real region the two kinds of
      entry never share a key. The ranked key differs from both. */
  lemma KeysDisjoint(region: string, gameName: string, tagLine: string, region2: string, id: string)
    requires ':' !in region && region != "puuid"
    ensures ProfileKey(region, gameName, tagLine) != PuuidKey(region2, id)
    ensures ProfileKey(region, gameName, tagLine) != RankedKey(region2, id)
    ensures PuuidKey(region, id) != RankedKey(region2, id)
  {
    var p := ProfileKey(region, gameName, tagLine);
    var q := PuuidKey(region2, id);
    assert p[0] != RankedKey(region2, id)[0];
    assert q[0] != RankedKey(region2, id)[0];
    var n := |region|;
    assert forall i :: 9 <= i < 9 + n ==> p[i] == region[i - 9];
    if n < 5 {
      assert p[9 + n] != q[9 + n];
    } else if n > 5 {
      assert p[14] != q[14];
    } else {
      assert p[9..14] == region;
      assert q[9..14] == "puuid";
    }
  }

  /** The excluded case is reachable: the profile of region `puuid`, game
      name `r` and tag `p` is stored under the very key the puuid lookup of
      `p` in region `r` uses. */
  lemma ProfileKeyMeetsPuuidKey(r: string, p: string)
    ensures ProfileKey("puuid", r, p) == PuuidKey(r, p)
  {
    assert "summoner:" + "puuid" + ":" == "summoner:puuid:";
  }

  /** When every part is colon-free, the profile key determines the region,
      the game name and the tag line. */
  lemma ProfileKeyInjective(r1: string, g1: string, t1: string, r2: string, g2: string, t2: string)
    requires ':' !in r1 && ':' !in g1 && ':' !in t1 && ':' !in r2 && ':' !in g2 && ':' !in t2
    requires ProfileKey(r1, g1, t1) == ProfileKey(r2, g2, t2)
    ensures r1 == r2 && g1 == g2 && t1 == t2
  {
    var rest1 := r1 + ":" + (g1 + ":" + t1);
    var rest2 := r2 + ":" + (g2 + ":" + t2);
    assert ProfileKey(r1, g1, t1) == "summoner:" + rest1;
    assert ProfileKey(r2, g2, t2) == "summoner:" + rest2;
    assert rest1 == ProfileKey(r1, g1, t1)[9..] == rest2;
    assert Strings.Split(rest1, ':') == [r1, g1, t1] by {
      ThreeParts(r1, g1, t1);
    }
    ThreeParts(r2, g2, t2);
  }

  lemma ThreeParts(a: string, b: string, c: string)
    requires ':' !in a && ':' !in b && ':' !in c
    ensures Strings.Split(a + ":" + (b + ":" + c), ':') == [a, b, c]
  {
    Strings.SplitNoSep(a, ':');
    Strings.SplitNoSep(b, ':');
    Strings.SplitNoSep(c, ':');
    Strings.SplitAround(b, c, ':');
    Strings.SplitAround(a, b + ":" + c, ':');
  }

  class SummonerService {
    const cache: RedisCache
    const api: RiotApi

    constructor(cache: RedisCache, api: RiotApi)
      ensures this.cache == cache && this.api == api
    {
      this.cache := cache;
      this.api := api;
    }

    /** `getSummonerProfile` */
    method GetSummonerProfile(gameName: string, tagLine: string, region: string, faults: StoreFaults)
        returns (r: Result<SummonerProfile, ApiError>, calls: seq<ApiCall>)
      requires cache.Valid()
      modifies cache
      ensures cache.Valid() && cache.Connected() == old(cache.Connected())
      ensures Served(r, calls, cache.store)
              == ReadThrough(old(cache.Connected()), faults, old(cache.store), ProfileKey(region, gameName, tagLine),
                             SUMMONER_TTL, AsProfile, OfProfile, FetchProfile(api, gameName, tagLine, region))
    {
      r, calls := Serve(cache, faults, ProfileKey(region, gameName, tagLine), SUMMONER_TTL,
                        AsProfile, OfProfile, FetchProfile(api, gameName, tagLine, region));
    }

    /** `getSummonerByPuuid` */
    method GetSummonerByPuuid(puuid: string, region: string, faults: StoreFaults)
        returns (r: Result<Summoner, ApiError>, calls: seq<ApiCall>)
      requires cache.Valid()
      modifies cache
      ensures cache.Valid() && cache.Connected() == old(cache.Connected())
      ensures Served(r, calls, cache.store)
              == ReadThrough(old(cache.Connected()), faults, old(cache.store), PuuidKey(region, puuid),
                             SUMMONER_TTL, AsSummoner, OfSummoner, FetchSummoner(api, puuid, region))
    {
      r, calls := Serve(cache, faults, PuuidKey(region, puuid), SUMMONER_TTL,
                        AsSummoner, OfSummoner, FetchSummoner(api, puuid, region));
    }

    /** `getRankedStats` */
    method GetRankedStats(summonerId: string, region: string, faults: StoreFaults)
        returns (r: Result<seq<LeagueEntry>, ApiError>, calls: seq<ApiCall>)
      requires cache.Valid()
      modifies cache
      ensures cache.Valid() && cache.Connected() == old(cache.Connected())
      ensures Served(r, calls, cache.store)
              == ReadThrough(old(cache.Connected()), faults, old(cache.store), RankedKey(region, summonerId),
                             SUMMONER_TTL, AsRanked, OfRanked, FetchRanked(api, summonerId, region))
    {
      r, calls := Serve(cache, faults, RankedKey(region, summonerId), SUMMONER_TTL,
                        AsRanked, OfRanked, FetchRanked(api, summonerId, region));
    }
  }
}
