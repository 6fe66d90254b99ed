/** The six adapter methods of `RiotApiClient` and `getLatestVersion`
    (backend/src/clients/riotApiClient.ts), reduced to what each one asks of
    the gateway: a base URL, a path with its query parameters, and the
    rate-limit bucket it is queued under (none for the latest-version lookup,
    which bypasses the queue). Account and match endpoints use the region's
    routing host (falling back to `americas`), summoner and league endpoints
    its platform host (falling back to `na1`). */
module Adapters {
  import opened Wrappers
  import opened Strings
  import Regions
  import opened Gateway

  const DEFAULT_ROUTING: string := "americas"
  const DEFAULT_PLATFORM: string := "na1"
  const DDRAGON_BUCKET: string := "ddragon"
  const VERSIONS_PATH: string := "/api/versions.json"
  const ACCOUNT_BY_RIOT_ID: string := "/riot/account/v1/accounts/by-riot-id"
  /** The default of `getChampionData`'s `version` parameter. */
  const LATEST: string := "latest"
  /** What a template string renders for a missing array element. */
  const UNDEFINED: string := "undefined"

  datatype Endpoint = Endpoint(baseUrl: string, path: string, query: seq<(string, int)>, bucket: Option<string>)

  /** `RIOT_REGIONS[region]?.region || 'americas'` */
  function RoutingOf(region: string): (r: string)
    ensures r in Regions.ROUTING_HOSTS
    ensures region in Regions.RIOT_REGIONS ==> r == Regions.RIOT_REGIONS[region].region
    ensures region !in Regions.RIOT_REGIONS ==> r == DEFAULT_ROUTING
  {
    match Regions.Lookup(region)
    case Some(entry) => entry.region
    case None => DEFAULT_ROUTING
  }

  /** `RIOT_REGIONS[region]?.platform || 'na1'` */
  function PlatformOf(region: string): (p: string)
    ensures region in Regions.RIOT_REGIONS ==> p == Regions.RIOT_REGIONS[region].platform
    ensures region !in Regions.RIOT_REGIONS ==> p == DEFAULT_PLATFORM
  {
    match Regions.Lookup(region)
    case Some(entry) => entry.platform
    case None => DEFAULT_PLATFORM
  }

  // --------------------------------------------------- encodeURIComponent

  /** The characters `encodeURIComponent` leaves as they are. */
  predicate Unreserved(c: char) {
    ('A' <= c <= 'Z') || ('a' <= c <= 'z') || ('0' <= c <= '9')
    || c == '-' || c == '_' || c == '.' || c == '!' || c == '~' || c == '*' || c == '\'' || c == '(' || c == ')'
  }

  predicate IsHexDigit(c: char) {
    ('0' <= c <= '9') || ('A' <= c <= 'F')
  }

  function HexDigit(d: nat): (c: char)
    requires d < 16
    ensures IsHexDigit(c)
  {
    if d < 10 then ('0' as int + d) as char else ('A' as int + d - 10) as char
  }

  /** `%XX` for one byte, upper-case hex. */
  function PercentByte(b: nat): (r: string)
    requires b < 256
    ensures |r| == 3 && r[0] == '%' && IsHexDigit(r[1]) && IsHexDigit(r[2])
  {
    ['%', HexDigit(b / 16), HexDigit(b % 16)]
  }

  /** The UTF-8 encoding of one Unicode scalar value. */
  function Utf8(c: char): (bytes: seq<nat>)
    ensures 1 <= |bytes| <= 4
    ensures forall i :: 0 <= i < |bytes| ==> bytes[i] < 256
    ensures (c as int < 0x80) <==> |bytes| == 1
  {
    var n := c as int;
    if n < 0x80 then [n]
    else if n < 0x800 then [0xC0 + n / 64, 0x80 + n % 64]
    else if n < 0x1_0000 then [0xE0 + n / 4096, 0x80 + (n / 64) % 64, 0x80 + n % 64]
    else [0xF0 + n / 262144, 0x80 + (n / 4096) % 64, 0x80 + (n / 64) % 64, 0x80 + n % 64]
  }

  function PercentBytes(bytes: seq<nat>): (r: string)
    requires forall i :: 0 <= i < |bytes| ==> bytes[i] < 256
    ensures |r| == 3 * |bytes|
    ensures Encoded(r)
  {
    if |bytes| == 0 then [] else
      var head := PercentByte(bytes[0]);
      EncodedConcat(head, PercentBytes(bytes[1..]));
      head + PercentBytes(bytes[1..])
  }

  /** Only unreserved characters and percent escapes. */
  predicate Encoded(r: string) {
    forall i :: 0 <= i < |r| ==> Unreserved(r[i]) || IsHexDigit(r[i]) || r[i] == '%'
  }

  lemma EncodedConcat(a: string, b: string)
    requires Encoded(a) && Encoded(b)
    ensures Encoded(a + b)
  {
    forall i | 0 <= i < |a + b| ensures Unreserved((a + b)[i]) || IsHexDigit((a + b)[i]) || (a + b)[i] == '%' {
      if i < |a| {
        assert (a + b)[i] == a[i];
      } else {
        assert (a + b)[i] == b[i - |a|];
      }
    }
  }

  /** An encoded string holds no path, query or fragment delimiter. */
  lemma EncodedHasNoDelimiter(r: string)
    requires Encoded(r)
    ensures '/' !in r && '?' !in r && '#' !in r
  {
  }

  /** One character as `encodeURIComponent` writes it. */
  function EncodeChar(c: char): (r: string)
    ensures Encoded(r)
    ensures Unreserved(c) ==> r == [c]
    ensures !Unreserved(c) ==> |r| >= 3 && r[0] == '%'
  {
    if Unreserved(c) then [c] else PercentBytes(Utf8(c))
  }

  /** `encodeURIComponent(s)`: unreserved characters are kept, every other
      character becomes the percent-encoding of its UTF-8 bytes. The result
      never contains a path or query delimiter. */
  function EncodeUriComponent(s: string): (r: string)
    ensures Encoded(r)
    ensures '/' !in r && '?' !in r && '#' !in r
    ensures (forall i :: 0 <= i < |s| ==> Unreserved(s[i])) ==> r == s
    ensures |s| <= |r|
  {
    if |s| == 0 then []
    else
      var rest := EncodeUriComponent(s[1..]);
      EncodedConcat(EncodeChar(s[0]), rest);
      EncodedHasNoDelimiter(EncodeChar(s[0]) + rest);
      assert (forall i :: 0 <= i < |s| ==> Unreserved(s[i])) ==> EncodeChar(s[0]) + rest == [s[0]] + s[1..];
      EncodeChar(s[0]) + rest
  }

  // ----------------------------------------------------------- endpoints

  /** `getAccountByRiotId`: both parts of the Riot ID are URI-encoded. */
  function AccountEndpoint(gameName: string, tagLine: string, region: string): Endpoint {
    var routing := RoutingOf(region);
    Endpoint(HostUrl(routing),
             ACCOUNT_BY_RIOT_ID + "/" + EncodeUriComponent(gameName) + "/" + EncodeUriComponent(tagLine),
             [], Some("account-" + routing))
  }

  /** `getSummonerByPuuid`: the puuid is interpolated as it is. */
  function SummonerEndpoint(puuid: string, region: string): Endpoint {
    var platform := PlatformOf(region);
    Endpoint(HostUrl(platform), "/lol/summoner/v4/summoners/by-puuid/" + puuid, [], Some("summoner-" + platform))
  }

  /** `getLeagueEntries` */
  function LeagueEndpoint(summonerId: string, region: string): Endpoint {
    var platform := PlatformOf(region);
    Endpoint(HostUrl(platform), "/lol/league/v4/entries/by-summoner/" + summonerId, [], Some("league-" + platform))
  }

  /** `getMatchIds`; `start` and `count` default to 0 and 20 at its callers. */
  function MatchIdsEndpoint(puuid: string, region: string, start: int, count: int): Endpoint {
    var routing := RoutingOf(region);
    Endpoint(HostUrl(routing), "/lol/match/v5/matches/by-puuid/" + puuid + "/ids",
             [("start", start), ("count", count)], Some("match-" + routing))
  }

  /** `getMatchDetails` */
  function MatchDetailsEndpoint(matchId: string, region: string): Endpoint {
    var routing := RoutingOf(region);
    Endpoint(HostUrl(routing), "/lol/match/v5/matches/" + matchId, [], Some("match-" + routing))
  }

  /** The version `getChampionData` fetches: `latest` is replaced by the
      first entry of Data Dragon's version list (`undefined` when the list
      is empty). */
  function ResolveVersion(version: string, versions: seq<string>): (v: string)
    ensures version != LATEST ==> v == version
    ensures version == LATEST && |versions| > 0 ==> v == versions[0]
  {
    if version == LATEST then (if |versions| > 0 then versions[0] else UNDEFINED) else version
  }

  function ChampionJsonPath(version: string): string {
    "/cdn/" + version + "/data/en_US/champion.json"
  }

  /** `getChampionData`: queued under the `ddragon` bucket; one attempt
      first fetches the version list when asked for `latest`, then the
      catalog of the resolved version. */
  function ChampionDataEndpoint(version: string, versions: seq<string>): Endpoint {
    Endpoint(DDRAGON_URL, ChampionJsonPath(ResolveVersion(version, versions)), [], Some(DDRAGON_BUCKET))
  }

  /** The paths one attempt of `getChampionData` requests, in order. */
  function ChampionDataFetches(version: string, versions: seq<string>): (paths: seq<string>)
    ensures |paths| == if version == LATEST then 2 else 1
    ensures paths[|paths| - 1] == ChampionDataEndpoint(version, versions).path
    ensures version == LATEST ==> paths[0] == VERSIONS_PATH
  {
    (if version == LATEST then [VERSIONS_PATH] else []) + [ChampionJsonPath(ResolveVersion(version, versions))]
  }

  /** `getLatestVersion`: a direct request, outside the queue and the
      limiter. */
  function LatestVersionEndpoint(): Endpoint {
    Endpoint(DDRAGON_URL, VERSIONS_PATH, [], None)
  }

  /** `response.data[0]` of the version list; nothing for an empty list. */
  function FirstVersion(versions: seq<string>): (v: Option<string>)
    ensures v.Some? <==> |versions| > 0
    ensures v.Some? ==> v.value == versions[0]
  {
    if |versions| > 0 then Some(versions[0]) else None
  }

  // -------------------------------------------------------------- lemmas

  /** Every base URL an adapter produces, for any region string at all, is
      one `initializeClients` registered. */
  lemma AdapterUrlsRegistered(region: string, gameName: string, tagLine: string, id: string,
                              start: int, count: int, version: string, versions: seq<string>)
    ensures AccountEndpoint(gameName, tagLine, region).baseUrl in RegisteredUrls()
    ensures SummonerEndpoint(id, region).baseUrl in RegisteredUrls()
    ensures LeagueEndpoint(id, region).baseUrl in RegisteredUrls()
    ensures MatchIdsEndpoint(id, region, start, count).baseUrl in RegisteredUrls()
    ensures MatchDetailsEndpoint(id, region).baseUrl in RegisteredUrls()
    ensures ChampionDataEndpoint(version, versions).baseUrl in RegisteredUrls()
    ensures LatestVersionEndpoint().baseUrl in RegisteredUrls()
  {
    var routing := HostUrl(RoutingOf(region));
    var platform := HostUrl(PlatformOf(region));
    assert routing in RegisteredUrls() by {
      RoutingRegistered(RoutingOf(region));
    }
    assert platform in RegisteredUrls() by {
      if region in Regions.RIOT_REGIONS {
        PlatformRegistered(region);
      } else {
        PlatformRegistered("na");
      }
    }
    assert DDRAGON_URL in RegisteredUrls();
  }

  /** Hence, on a client built by the constructor, `getClient` succeeds for
      every adapter call. */
  lemma AdapterClientsExist(client: RiotApiClient, region: string, id: string, start: int, count: int)
    requires client.clients.Keys == RegisteredUrls()
    ensures client.GetClient(AccountEndpoint(id, id, region).baseUrl).Ok?
    ensures client.GetClient(SummonerEndpoint(id, region).baseUrl).Ok?
    ensures client.GetClient(LeagueEndpoint(id, region).baseUrl).Ok?
    ensures client.GetClient(MatchIdsEndpoint(id, region, start, count).baseUrl).Ok?
    ensures client.GetClient(MatchDetailsEndpoint(id, region).baseUrl).Ok?
    ensures client.GetClient(DDRAGON_URL).Ok?
  {
    AdapterUrlsRegistered(region, id, id, id, start, count, LATEST, []);
  }

  /** The match-ids and match-details calls of one region share one bucket,
      distinct from the account bucket of the same routing host; summoner
      and league buckets of a platform are distinct too. */
  lemma BucketsOfRegion(region: string, id: string, start: int, count: int)
    ensures MatchIdsEndpoint(id, region, start, count).bucket == MatchDetailsEndpoint(id, region).bucket
    ensures MatchIdsEndpoint(id, region, start, count).bucket != AccountEndpoint(id, id, region).bucket
    ensures SummonerEndpoint(id, region).bucket != LeagueEndpoint(id, region).bucket
    ensures MatchIdsEndpoint(id, region, start, count).bucket == Some("match-" + RoutingOf(region))
    ensures SummonerEndpoint(id, region).bucket == Some("summoner-" + PlatformOf(region))
  {
    var routing := RoutingOf(region);
    assert ("match-" + routing)[0] != ("account-" + routing)[0];
    var platform := PlatformOf(region);
    assert ("summoner-" + platform)[0] != ("league-" + platform)[0];
  }

  /** Unknown region codes fall back to North America's hosts. */
  lemma UnknownRegionFallsBack(region: string)
    requires region !in Regions.RIOT_REGIONS
    ensures RoutingOf(region) == Regions.RIOT_REGIONS["na"].region
    ensures PlatformOf(region) == Regions.RIOT_REGIONS["na"].platform
  {
  }

  /** The account path has exactly the segments of the endpoint followed by
      the encoded name and tag, whatever the Riot ID contains: the Riot ID
      cannot add or split path segments. */
  lemma AccountPathSegments(gameName: string, tagLine: string, region: string)
    ensures Split(AccountEndpoint(gameName, tagLine, region).path, '/')
            == Split(ACCOUNT_BY_RIOT_ID, '/') + [EncodeUriComponent(gameName), EncodeUriComponent(tagLine)]
  {
    var g := EncodeUriComponent(gameName);
    var t := EncodeUriComponent(tagLine);
    assert AccountEndpoint(gameName, tagLine, region).path == ACCOUNT_BY_RIOT_ID + "/" + (g + "/" + t);
    var tail := g + "/" + t;
    assert Split(tail, '/') == [g, t] by {
      SplitNoSep(g, '/');
      SplitNoSep(t, '/');
      SplitAround(g, t, '/');
    }
    SplitAround(ACCOUNT_BY_RIOT_ID, tail, '/');
  }
}
