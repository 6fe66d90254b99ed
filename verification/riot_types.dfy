/** The backend's entities as they flow between the upstream API, the cache
    and the HTTP layer, reduced to the fields the core reads or keys on, and
    the two kinds of error the core distinguishes. */
module RiotTypes {
  import opened Wrappers

  datatype Account = Account(puuid: string, gameName: string, tagLine: string)

  datatype Summoner = Summoner(id: string, puuid: string, profileIconId: int, summonerLevel: int)

  datatype LeagueEntry = LeagueEntry(queueType: string, tier: string, rank: string,
                                     leaguePoints: int, wins: int, losses: int)

  datatype MatchDto = MatchDto(matchId: string, gameMode: string, queueId: int, gameDuration: int)

  datatype Champion = Champion(id: string, key: string, name: string)

  /** Data Dragon's champion catalog; `data` lists the champions in the order
      `Object.values(championData.data)` visits them. */
  datatype ChampionData = ChampionData(version: string, data: seq<Champion>)

  /** One row of the placeholder tier list. The win rate is the (randomly
      jittered) figure the list is sorted by, an input of the model. */
  datatype ChampionStats = ChampionStats(championId: string, championName: string, role: string,
                                         winRate: int, tier: string)

  datatype SummonerProfile = SummonerProfile(account: Account, summoner: Summoner,
                                             rankedStats: seq<LeagueEntry>)

  /** A thrown error: an HTTP client error from the upstream call (`status` is
      None when no response arrived; `retryAfter` is the parsed `retry-after`
      header, None when absent; `dataMessage` is `response.data.message`), or
      any other `Error`, which may carry a `statusCode`. */
  datatype ApiError =
    | HttpError(status: Option<int>, retryAfter: Option<int>, dataMessage: Option<string>, message: string)
    | AppError(message: string, statusCode: Option<int>)
  {
    /** `error.response?.status === s` */
    predicate HasResponseStatus(s: int) {
      HttpError? && status == Some(s)
    }
  }

  /** A JSON value of one of the kinds the gateway returns and the cache holds
      (the cache stores `JSON.stringify(value)`; the model takes the JSON round
      trip to be the identity and keeps the value). */
  datatype ApiValue =
    | AccountValue(account: Account)
    | SummonerValue(summoner: Summoner)
    | RankedValue(entries: seq<LeagueEntry>)
    | MatchIdsValue(ids: seq<string>)
    | MatchValue(details: MatchDto)
    | ChampionsValue(champions: ChampionData)
    | ProfileValue(profile: SummonerProfile)
    | TierListValue(stats: seq<ChampionStats>)
    | VersionValue(version: string)

  /** The upstream operations the services call (the gateway's public
      methods), as functions of their arguments. */
  datatype RiotApi = RiotApi(
    account: (string, string, string) -> Result<Account, ApiError>,
    summonerByPuuid: (string, string) -> Result<Summoner, ApiError>,
    leagueEntries: (string, string) -> Result<seq<LeagueEntry>, ApiError>,
    matchIds: (string, string, int, int) -> Result<seq<string>, ApiError>,
    matchDetails: (string, string) -> Result<MatchDto, ApiError>,
    championData: string -> Result<ChampionData, ApiError>,
    latestVersion: () -> Result<string, ApiError>)

  /** One upstream call, as recorded in a service's call trace. */
  datatype ApiCall =
    | AccountCall(gameName: string, tagLine: string, region: string)
    | SummonerCall(puuid: string, region: string)
    | LeagueCall(summonerId: string, region: string)
    | MatchIdsCall(puuid: string, region: string, start: int, count: int)
    | MatchDetailsCall(matchId: string, region: string)
    | ChampionDataCall(version: string)
    | LatestVersionCall
}
