/** `SummonerController` (backend/src/controllers/summonerController.ts):
    the profile endpoint. It rejects a missing parameter, calls the service
    with the lower-cased region and the name and tag as given, and reports an
    upstream 404 as "Summoner not found". */
module SummonerController {
  import opened Wrappers
  import opened Strings
  import opened RiotTypes
  import opened Http

  const MISSING_MESSAGE: string := "Missing required parameters: region, gameName, tagLine"

  /** `getSummonerProfile`; `service(gameName, tagLine, region)` */
  function SummonerProfile(region: Option<string>, gameName: Option<string>, tagLine: Option<string>,
                           service: (string, string, string) -> Result<RiotTypes.SummonerProfile, ApiError>): Response
  {
    if !Present(region) || !Present(gameName) || !Present(tagLine) then
      Json(BAD_REQUEST, ErrorBody(MISSING_MESSAGE))
    else
      match service(gameName.value, tagLine.value, Lower(region.value))
      case Ok(profile) => Json(OK, SuccessBody(ProfileData(profile)))
      case Err(e) =>
        if e.HasResponseStatus(404) then Json(NOT_FOUND, FailureBody("Summoner not found")) else Next(e)
  }

  /** Any missing parameter is 400; otherwise the answer is exactly the
      service's outcome for (name, tag, lower-cased region): the profile, a
      404 for an upstream 404, or the error passed on. */
  lemma ProfileOutcomes(region: Option<string>, gameName: Option<string>, tagLine: Option<string>,
                        service: (string, string, string) -> Result<RiotTypes.SummonerProfile, ApiError>)
    ensures var r := SummonerProfile(region, gameName, tagLine, service);
            && (r == Json(BAD_REQUEST, ErrorBody(MISSING_MESSAGE)) <==> !Present(region) || !Present(gameName) || !Present(tagLine))
            && (Present(region) && Present(gameName) && Present(tagLine) ==>
                  var o := service(gameName.value, tagLine.value, Lower(region.value));
                  && (o.Ok? ==> r == Json(OK, SuccessBody(ProfileData(o.value))))
                  && (o.Err? && o.error.HasResponseStatus(404) ==> r == Json(NOT_FOUND, FailureBody("Summoner not found")))
                  && (o.Err? && !o.error.HasResponseStatus(404) ==> r == Next(o.error)))
  {
  }

  /** Region codes differing only in case are the same request. */
  lemma RegionCaseInsensitive(region: string, gameName: Option<string>, tagLine: Option<string>,
                              service: (string, string, string) -> Result<RiotTypes.SummonerProfile, ApiError>)
    ensures SummonerProfile(Some(region), gameName, tagLine, service)
            == SummonerProfile(Some(Lower(region)), gameName, tagLine, service)
  {
    LowerIdempotent(region);
    assert region != "" <==> Lower(region) != "";
  }
}
