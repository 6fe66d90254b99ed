/** `MatchController` (backend/src/controllers/matchController.ts): the three
    match endpoints. Each normalises its query (region defaulting to `na`,
    `start` to 0, `count` to a default and a cap), rejects a missing path
    parameter, calls the service with the lower-cased region, and echoes the
    paging it used. The service is a function of its arguments; `parseInt`
    of a query value is given as its result, None for NaN or absent. */
module MatchController {
  import opened Wrappers
  import opened Strings
  import opened RiotTypes
  import opened Http

  const DEFAULT_REGION: string := "na"
  const HISTORY_DEFAULT_COUNT: int := 20
  const HISTORY_MAX_COUNT: int := 100
  const DETAILS_DEFAULT_COUNT: int := 10
  const DETAILS_MAX_COUNT: int := 20

  /** The arguments a history handler calls the service with. */
  datatype PageQuery = PageQuery(puuid: string, region: string, start: int, count: int)

  /** `Math.min(parseInt(count) || fallback, cap)` */
  function ClampCount(parsed: Option<int>, fallback: int, cap: int): (n: int)
    requires fallback <= cap
    ensures n <= cap
    ensures parsed.None? || parsed.value == 0 ==> n == fallback
    ensures parsed.Some? && parsed.value != 0 ==> n == if parsed.value < cap then parsed.value else cap
  {
    var n := IntOrDefault(parsed, fallback);
    if n < cap then n else cap
  }

  /** The service call of a history handler, or none when the puuid is
      missing. */
  function PageArgs(puuid: Option<string>, region: Option<string>, start: Option<int>, count: Option<int>,
                    fallback: int, cap: int): (q: Option<PageQuery>)
    requires fallback <= cap
    ensures q.Some? <==> Present(puuid)
    ensures q.Some? ==> q.value.puuid == puuid.value && q.value.count <= cap
                        && q.value.region == Lower(OrDefault(region, DEFAULT_REGION))
                        && q.value.start == IntOrDefault(start, 0)
  {
    if !Present(puuid) then None
    else Some(PageQuery(puuid.value, Lower(OrDefault(region, DEFAULT_REGION)), IntOrDefault(start, 0),
                        ClampCount(count, fallback, cap)))
  }

  /** `getMatchHistory` */
  function MatchHistory(puuid: Option<string>, region: Option<string>, start: Option<int>, count: Option<int>,
                        service: PageQuery -> Result<seq<string>, ApiError>): Response
  {
    match PageArgs(puuid, region, start, count, HISTORY_DEFAULT_COUNT, HISTORY_MAX_COUNT)
    case None => Json(BAD_REQUEST, ErrorBody("Missing required parameter: puuid"))
    case Some(q) =>
      match service(q)
      case Ok(ids) => Json(OK, SuccessBody(MatchIdsPage(ids, q.start, q.count, |ids|)))
      case Err(e) => Next(e)
  }

  /** `getMatchDetails` */
  function MatchDetails(matchId: Option<string>, region: Option<string>,
                        service: (string, string) -> Result<MatchDto, ApiError>): Response
  {
    if !Present(matchId) then Json(BAD_REQUEST, ErrorBody("Missing required parameter: matchId"))
    else
      match service(matchId.value, Lower(OrDefault(region, DEFAULT_REGION)))
      case Ok(m) => Json(OK, SuccessBody(MatchData(m)))
      case Err(e) =>
        if e.HasResponseStatus(404) then Json(NOT_FOUND, FailureBody("Match not found")) else Next(e)
  }

  /** `getMatchHistoryWithDetails` */
  function MatchHistoryWithDetails(puuid: Option<string>, region: Option<string>, start: Option<int>, count: Option<int>,
                                   service: PageQuery -> Result<seq<MatchDto>, ApiError>): Response
  {
    match PageArgs(puuid, region, start, count, DETAILS_DEFAULT_COUNT, DETAILS_MAX_COUNT)
    case None => Json(BAD_REQUEST, ErrorBody("Missing required parameter: puuid"))
    case Some(q) =>
      match service(q)
      case Ok(matches) => Json(OK, SuccessBody(MatchesPage(matches, q.start, q.count, |matches|)))
      case Err(e) => Next(e)
  }

  // ------------------------------------------------------------ properties

  /** The history page size: a parsed 0 or an unparseable value gives 20,
      and no request asks for more than 100; with details, 10 and 20. */
  lemma CountBounds(parsed: Option<int>)
    ensures ClampCount(parsed, HISTORY_DEFAULT_COUNT, HISTORY_MAX_COUNT) <= 100
    ensures ClampCount(parsed, DETAILS_DEFAULT_COUNT, DETAILS_MAX_COUNT) <= 20
    ensures ClampCount(Some(0), HISTORY_DEFAULT_COUNT, HISTORY_MAX_COUNT) == 20
    ensures ClampCount(None, DETAILS_DEFAULT_COUNT, DETAILS_MAX_COUNT) == 10
    ensures parsed.Some? && 0 < parsed.value ==> 0 < ClampCount(parsed, HISTORY_DEFAULT_COUNT, HISTORY_MAX_COUNT)
  {
  }

  /** Without a puuid the answer is 400, whatever the service would say. */
  lemma MissingPuuid(puuid: Option<string>, region: Option<string>, start: Option<int>, count: Option<int>,
                     s1: PageQuery -> Result<seq<string>, ApiError>, s2: PageQuery -> Result<seq<MatchDto>, ApiError>)
    requires !Present(puuid)
    ensures MatchHistory(puuid, region, start, count, s1) == Json(BAD_REQUEST, ErrorBody("Missing required parameter: puuid"))
    ensures MatchHistoryWithDetails(puuid, region, start, count, s2) == Json(BAD_REQUEST, ErrorBody("Missing required parameter: puuid"))
  {
  }

  /** A successful page echoes the start and count it asked for and the
      number of ids it got; every error is passed on. */
  lemma HistoryPagination(puuid: Option<string>, region: Option<string>, start: Option<int>, count: Option<int>,
                          service: PageQuery -> Result<seq<string>, ApiError>)
    requires Present(puuid)
    ensures var q := PageQuery(puuid.value, Lower(OrDefault(region, DEFAULT_REGION)), IntOrDefault(start, 0),
                               ClampCount(count, HISTORY_DEFAULT_COUNT, HISTORY_MAX_COUNT));
            var r := MatchHistory(puuid, region, start, count, service);
            && (service(q).Ok? ==> r == Json(OK, SuccessBody(MatchIdsPage(service(q).value, q.start, q.count, |service(q).value|))))
            && (service(q).Err? ==> r == Next(service(q).error))
  {
  }

  /** An upstream 404 on a match is "Match not found"; any other failure is
      passed on; a missing id is 400. */
  lemma MatchDetailsOutcomes(matchId: Option<string>, region: Option<string>,
                             service: (string, string) -> Result<MatchDto, ApiError>)
    ensures var r := MatchDetails(matchId, region, service);
            && (!Present(matchId) ==> r == Json(BAD_REQUEST, ErrorBody("Missing required parameter: matchId")))
            && (Present(matchId) ==>
                  var o := service(matchId.value, Lower(OrDefault(region, DEFAULT_REGION)));
                  && (o.Ok? ==> r == Json(OK, SuccessBody(MatchData(o.value))))
                  && (o.Err? && o.error.HasResponseStatus(404) ==> r == Json(NOT_FOUND, FailureBody("Match not found")))
                  && (o.Err? && !o.error.HasResponseStatus(404) ==> r == Next(o.error)))
  {
  }
}
