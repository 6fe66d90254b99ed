/** `ChampionController` (backend/src/controllers/championController.ts):
    the catalog, one champion, the tier list of a role, and the version. A
    missing parameter is 400, an unknown champion 404, and a service error
    whose message mentions "Invalid role" 400 with that message. */
module ChampionController {
  import opened Wrappers
  import opened Strings
  import opened RiotTypes
  import opened Http
  import Champions
  import Cache
  import ReadThroughCache

  const INVALID_ROLE_MARK: string := "Invalid role"

  /** `getAllChampions` */
  function AllChampions(outcome: Result<ChampionData, ApiError>): Response {
    match outcome
    case Ok(data) => Json(OK, SuccessBody(CatalogData(data)))
    case Err(e) => Next(e)
  }

  /** `getChampionById` */
  function ChampionById(championId: Option<string>, service: string -> Result<Option<Champion>, ApiError>): Response {
    if !Present(championId) then Json(BAD_REQUEST, ErrorBody("Missing required parameter: championId"))
    else
      match service(championId.value)
      case Ok(None) => Json(NOT_FOUND, FailureBody("Champion not found"))
      case Ok(Some(c)) => Json(OK, SuccessBody(ChampionFound(c)))
      case Err(e) => Next(e)
  }

  /** `getTierListByRole` */
  function TierListByRole(role: Option<string>, service: string -> Result<seq<ChampionStats>, ApiError>): Response {
    if !Present(role) then Json(BAD_REQUEST, ErrorBody("Missing required parameter: role"))
    else
      match service(role.value)
      case Ok(list) => Json(OK, SuccessBody(TierListData(Lower(role.value), list)))
      case Err(e) => if Contains(e.message, INVALID_ROLE_MARK) then Json(BAD_REQUEST, FailureBody(e.message)) else Next(e)
  }

  /** `getLatestVersion` */
  function LatestVersion(outcome: Result<string, ApiError>): Response {
    match outcome
    case Ok(v) => Json(OK, SuccessBody(VersionData(v)))
    case Err(e) => Next(e)
  }

  // ------------------------------------------------------------ properties

  /** The catalog and the version are sent as the service returns them, and
      any failure goes to the error handler. */
  lemma PassThroughHandlers(catalog: Result<ChampionData, ApiError>, version: Result<string, ApiError>)
    ensures catalog.Ok? ==> AllChampions(catalog) == Json(OK, SuccessBody(CatalogData(catalog.value)))
    ensures catalog.Err? ==> AllChampions(catalog) == Next(catalog.error)
    ensures version.Ok? ==> LatestVersion(version) == Json(OK, SuccessBody(VersionData(version.value)))
    ensures version.Err? ==> LatestVersion(version) == Next(version.error)
  {
  }

  /** A missing id is 400, a champion the catalog does not have is 404. */
  lemma ChampionByIdOutcomes(championId: Option<string>, service: string -> Result<Option<Champion>, ApiError>)
    ensures !Present(championId) ==> ChampionById(championId, service).status == BAD_REQUEST
    ensures Present(championId) && service(championId.value) == Ok(None) ==>
              ChampionById(championId, service) == Json(NOT_FOUND, FailureBody("Champion not found"))
    ensures Present(championId) && service(championId.value).Ok? && service(championId.value).value.Some? ==>
              ChampionById(championId, service) == Json(OK, SuccessBody(ChampionFound(service(championId.value).value.value)))
  {
  }

  /** Every message the tier-list service gives an invalid role carries the
      mark the controller looks for. */
  lemma InvalidRoleMessageMarked(role: string)
    ensures Contains(Champions.InvalidRoleMessage(role), INVALID_ROLE_MARK)
  {
    ContainsLead(INVALID_ROLE_MARK, ": ", role, ". Must be one of: ", Champions.JoinWith(Champions.VALID_ROLES, ", "));
  }

  /** Against any service that answers an invalid role as the tier-list
      service does (`Champions.InvalidRoleRejected`): a role that is not one
      of the five, in any case, is answered 400 with the service's message;
      a list is answered with the role in lower case. */
  lemma EveryBadRoleIsBadRequest(role: string, service: string -> Result<seq<ChampionStats>, ApiError>)
    requires role != ""
    requires !Champions.IsValidRole(role) ==> service(role) == Err(AppError(Champions.InvalidRoleMessage(role), None))
    ensures !Champions.IsValidRole(role) ==>
              TierListByRole(Some(role), service) == Json(BAD_REQUEST, FailureBody(Champions.InvalidRoleMessage(role)))
    ensures service(role).Ok? ==>
              TierListByRole(Some(role), service) == Json(OK, SuccessBody(TierListData(Lower(role), service(role).value)))
  {
    if !Champions.IsValidRole(role) {
      InvalidRoleMessageMarked(role);
    }
  }

  /** A missing role is 400 and the service is not consulted. */
  lemma MissingRole(service: string -> Result<seq<ChampionStats>, ApiError>)
    ensures TierListByRole(None, service) == Json(BAD_REQUEST, ErrorBody("Missing required parameter: role"))
    ensures TierListByRole(Some(""), service) == Json(BAD_REQUEST, ErrorBody("Missing required parameter: role"))
  {
  }
}
