/** The HTTP responses the Express handlers send, reduced to the status and
    the JSON body, and the parameters they read. A handler either answers or
    passes the error on to the error-handling middleware (`next(error)`). */
module Http {
  import opened Wrappers
  import opened RiotTypes

  /** The `data` member of a successful body. */
  datatype Data =
    | MatchIdsPage(matchIds: seq<string>, start: int, count: int, total: int)
    | MatchesPage(matches: seq<MatchDto>, start: int, count: int, total: int)
    | MatchData(details: MatchDto)
    | ProfileData(profile: SummonerProfile)
    | CatalogData(catalog: ChampionData)
    | ChampionFound(champion: Champion)
    | TierListData(role: string, champions: seq<ChampionStats>)
    | VersionData(version: string)

  datatype Body =
    /** `{ error }`, the missing-parameter answers */
    | ErrorBody(error: string)
    /** `{ success: false, error }` */
    | FailureBody(error: string)
    /** `{ success: true, data }` */
    | SuccessBody(data: Data)

  datatype Response =
    | Json(status: int, body: Body)
    | Next(error: ApiError)

  const OK: int := 200
  const BAD_REQUEST: int := 400
  const NOT_FOUND: int := 404
  const INTERNAL_ERROR: int := 500

  /** A route parameter or query string, absent or present. An empty string
      is falsy, like an absent one. */
  predicate Present(p: Option<string>) {
    p.Some? && p.value != ""
  }

  /** `value || fallback` for a string parameter. */
  function OrDefault(p: Option<string>, fallback: string): (s: string)
    ensures Present(p) ==> s == p.value
    ensures !Present(p) ==> s == fallback
  {
    if Present(p) then p.value else fallback
  }

  /** `parseInt(value) || fallback`: NaN (None) and 0 are falsy. */
  function IntOrDefault(parsed: Option<int>, fallback: int): (n: int)
    ensures parsed.Some? && parsed.value != 0 ==> n == parsed.value
    ensures parsed.None? || parsed.value == 0 ==> n == fallback
  {
    if parsed.Some? && parsed.value != 0 then parsed.value else fallback
  }
}
