# League stats site: the backend gateway, cache, services and handlers, and the frontend helpers

This project models in Dafny the core of a League of Legends statistics site.

**Backend**
- `RiotApiClient`: the gateway to the Riot and Data Dragon APIs.
  - One HTTP client per base URL.
  - A per-bucket rate limiter with two windows: 20 requests per second and 100 per two minutes.
  - A FIFO request queue, with bounded retries of 429 and 503 answers.
  - Seven adapter calls.
- The fixed region table `RIOT_REGIONS`.
- The Redis cache wrapper, which degrades to "no cache" when Redis is not connected or a call throws.
- The three read-through services: summoners, matches and champions. This includes the placeholder tier list.
- The Express handlers of the three controllers.
- The error-handling middleware.

**Frontend helpers**
- The Riot ID parser and validator.
- Match formatting: queue names, KDA and `m:ss` durations.
- Match-card derivations, including "time ago".
- Grouping of the tier-list table.
- Champion image URLs.
- The KDA colour thresholds.

**Modelling approach**
- Stateful objects are Dafny classes whose methods are proved against pure specification functions: the gateway, the Redis wrapper and the three services.
- Handlers and helpers are functions.
- Each property is stated as a lemma.
- Time (`now`), the network, and random jitter are parameters:
  - the upstream API is a value of type `RiotApi`, and each attempt's outcome is a function argument;
  - the Redis server's keys are a `map`;
  - which cache calls throw is a per-key oracle, `StoreFaults`.
- Services also return the trace of upstream calls they made, so the call order can be stated.

Module layout: one module per source file, plus three shared modules:
- `Wrappers`: `Option` and `Result`.
- `Strings`: the JavaScript string operations used: `toLowerCase` on ASCII, `trim`, `split` on one character, `includes`, `padStart`, number to string, and UTF-16 length.
- `RiotTypes`: the upstream entities, errors, cached values and API calls.

## Model

| member | source | states |
|---|---|---|
| Regions.Lookup | backend/src/types/riot.ts:6-18 | a lookup succeeds exactly for the eleven codes and its routing value is one of the four routing hosts |
| Regions.RoutingValuesAreRoutingHosts | backend/src/types/riot.ts:6-18 | every region routes to americas, asia, europe or sea |
| Regions.TableKeys | frontend/src/types/api.ts:25-28 | the table has exactly the eleven codes, and the frontend's region list is the table's keys in declaration order |
| Regions.RegionOrderDistinct | backend/src/types/riot.ts:6-18 | the declaration order lists eleven distinct codes |
| Regions.PlatformsDistinct | backend/src/types/riot.ts:6-18 | no two regions share a platform |
| Regions.PlatformIsNotRouting | backend/src/types/riot.ts:6-18 | a platform host is never a routing host, so the two host sets never collide |
| Regions.Platforms | backend/src/clients/riotApiClient.ts:45-47 | the set of platform fragments holds exactly the table's platforms |
| RateLimit.Recent | backend/src/clients/riotApiClient.ts:79-86 | the filter keeps only timestamps younger than the window and never grows the list |
| RateLimit.RecentAppend | backend/src/clients/riotApiClient.ts:79-81 | filtering distributes over concatenation, so kept timestamps keep their order |
| RateLimit.RecentKeepsExactly | backend/src/clients/riotApiClient.ts:79-81 | exactly the young timestamps are kept, each with its multiplicity |
| RateLimit.RecentOfYoung | backend/src/clients/riotApiClient.ts:79-81 | a list of young timestamps is kept whole |
| RateLimit.RecentLater | backend/src/clients/riotApiClient.ts:79-86 | filtering later or more narrowly after filtering equals filtering once |
| RateLimit.RecentShrinks | backend/src/clients/riotApiClient.ts:84-86 | as time passes a window can only lose timestamps |
| RateLimit.RecentDropsOld | backend/src/clients/riotApiClient.ts:79-81 | an old timestamp makes the filter strictly shorten the list |
| RateLimit.Max | backend/src/clients/riotApiClient.ts:92-94 | `Math.max(...)` is an element and bounds all others |
| RateLimit.Min | backend/src/clients/riotApiClient.ts:102 | `Math.min(...)` is an element and is bounded by all others |
| RateLimit.Decide | backend/src/clients/riotApiClient.ts:88-109 | admit iff fewer than 20 in the last second and fewer than 100 in two minutes; the per-second check comes first; the per-second wait runs until the newest in-second timestamp leaves the second, plus 50 ms (`Math.max`, whatever the comment beside it says); the window wait runs until the oldest kept timestamp leaves the two minutes, plus 50 ms |
| RateLimit.AdmissionKeepsLimits | backend/src/clients/riotApiClient.ts:90-110 | right after an admission the bucket holds at most 20 timestamps in the last second and 100 in two minutes |
| RateLimit.LimitsPersist | backend/src/clients/riotApiClient.ts:79-88 | limits that hold at one instant hold at every later one |
| RateLimit.WaitPositive | backend/src/clients/riotApiClient.ts:95-103 | every computed wait exceeds the 50 ms margin |
| RateLimit.WaitBounds | backend/src/clients/riotApiClient.ts:92-104 | with no future timestamps, waits lie in (50, 120050] ms and a per-second wait is at most 1050 ms |
| RateLimit.SecondWaitClearsSecond | backend/src/clients/riotApiClient.ts:90-97 | sleeping out a per-second wait empties the last second |
| RateLimit.WindowWaitAdmits | backend/src/clients/riotApiClient.ts:100-105 | sleeping out a window wait retires the oldest timestamp; a bucket at exactly 100 is then admitted |
| RateLimit.SecondOfPruned | backend/src/clients/riotApiClient.ts:79-86 | the last-second count is the same before and after the two-minute prune |
| RateLimit.WaitLowersLoad | backend/src/clients/riotApiClient.ts:90-106 | each wait strictly lowers the bucket's load, so the re-evaluation loop ends |
| RateLimit.SecondWaitLowersLoad | backend/src/clients/riotApiClient.ts:90-97 | a per-second wait lowers the load |
| RateLimit.WindowWaitLowersLoad | backend/src/clients/riotApiClient.ts:100-105 | a window wait lowers the load |
| RateLimit.AdmissionTime | backend/src/clients/riotApiClient.ts:71-111 | the loop's admission time is no earlier than the start and is a time at which the bucket admits |
| RateLimit.AdmissionTimeAfterWait | backend/src/clients/riotApiClient.ts:95-97 | sleeping out a wait does not move the eventual admission time |
| RateLimit.DecideAfterPrune | backend/src/clients/riotApiClient.ts:79-81 | a stored list pruned earlier decides exactly as the unpruned list |
| Gateway.RoutingUrls | backend/src/clients/riotApiClient.ts:39-42 | the four routing URLs in registration order |
| Gateway.PlatformUrls | backend/src/clients/riotApiClient.ts:45-47 | one platform URL per region in declaration order |
| Gateway.HostsRegistered | backend/src/clients/riotApiClient.ts:34-50 | every region's platform and routing hosts are registered |
| Gateway.PlatformRegistered | backend/src/clients/riotApiClient.ts:45-47 | each platform URL is among those added |
| Gateway.RoutingRegistered | backend/src/clients/riotApiClient.ts:39-42 | each routing URL is among those added |
| Gateway.AddToSet | backend/src/clients/riotApiClient.ts:36-50 | `Set.add` adds exactly the element |
| Gateway.TimerDelay | backend/src/clients/riotApiClient.ts:96 | a timer's effective delay is between 1 ms and Node's maximum, and equals the request when in range |
| Gateway.Classify | backend/src/clients/riotApiClient.ts:125-145 | retry iff the attempt failed with 429 or 503 and retries remain; a 429 waits `retry-after` seconds, 5 by default; a 503 waits 2 s |
| Gateway.RetryOutcome | backend/src/clients/riotApiClient.ts:120-146 | the final outcome is the last attempt's; every earlier attempt was retryable; there are at most retries+1 attempts |
| Gateway.AttemptsBounded | backend/src/clients/riotApiClient.ts:116 | with the default 3 retries there are at most four attempts, and one when the first is final |
| Gateway.RetryableFailureExhausts | backend/src/clients/riotApiClient.ts:130-145 | a retryable final error means every attempt failed retryably and the budget was used up |
| Gateway.RetryWait | backend/src/clients/riotApiClient.ts:130-143 | the time slept between attempts is at least 1 ms per retry made |
| Gateway.RetryAfterRespected | backend/src/clients/riotApiClient.ts:130-143 | after a 429 with `retry-after: T` (5 when absent) and retries left, the next attempt waits at least T seconds whenever T s is within the timer's range; after a 503, at least 2 s |
| Gateway.SettleWith | backend/src/clients/riotApiClient.ts:166-171 | a request is resolved iff its outcome is a success |
| Gateway.SettleAll | backend/src/clients/riotApiClient.ts:163-173 | draining settles every request once, in queue order |
| Gateway.SettleAllCons | backend/src/clients/riotApiClient.ts:163-173 | draining settles the head first, then the rest |
| Gateway.SettleAllOutcomes | backend/src/clients/riotApiClient.ts:166-171 | the i-th settlement is request i's, by its retry outcome |
| Gateway.SettleAllAppend | backend/src/clients/riotApiClient.ts:152-173 | requests pushed during draining are settled after the earlier ones, in order |
| Gateway.RiotApiClient.constructor | backend/src/clients/riotApiClient.ts:29-32 | a client per registered URL with the API key and 10 s timeout; empty limiter, queue and flag |
| Gateway.RiotApiClient.InitializeClients | backend/src/clients/riotApiClient.ts:34-61 | registers exactly the routing, platform and Data Dragon URLs and keeps other entries |
| Gateway.RiotApiClient.CollectBaseUrls | backend/src/clients/riotApiClient.ts:36-50 | the collected set is exactly the four routing URLs, every region's platform URL and Data Dragon's |
| Gateway.RiotApiClient.AddEach | backend/src/clients/riotApiClient.ts:44-46 | adding URLs one by one to the set yields exactly the old elements and the new ones |
| Gateway.RiotApiClient.RegisterClients | backend/src/clients/riotApiClient.ts:52-60 | every collected URL gets a client with the key and the 10 s timeout; no other entry changes |
| Gateway.RiotApiClient.GetClient | backend/src/clients/riotApiClient.ts:63-69 | the registered client, or the "No client configured for" error |
| Gateway.RiotApiClient.AdmissionStep | backend/src/clients/riotApiClient.ts:72-110 | one evaluation decides as `Decide` on the stored list; an admission stores the pruned list plus `now`; other buckets are untouched |
| Gateway.RiotApiClient.LimiterPass | backend/src/clients/riotApiClient.ts:71-111 | one pass of the wait: an admission happens exactly at the predicted admission time; a wait is positive and leaves the predicted admission time unchanged; other buckets are untouched |
| Gateway.RiotApiClient.WaitForRateLimit | backend/src/clients/riotApiClient.ts:71-111 | the clock ends at the admission time, the bucket holds the admitted list, and the limits keep holding |
| Gateway.RiotApiClient.AdmissionKeepsAllLimits | backend/src/clients/riotApiClient.ts:108-110 | admitting one bucket keeps every bucket within its limits |
| Gateway.RiotApiClient.Sleep | backend/src/clients/riotApiClient.ts:96 | time advances by the delay and the limits keep holding |
| Gateway.RiotApiClient.ExecuteWithRetry | backend/src/clients/riotApiClient.ts:120-146 | the outcome and attempt count are `RetryOutcome`'s; the clock advances by at least the sum `RetryWait` of the retries' timer delays; only the request's bucket changes |
| Gateway.RiotApiClient.Attempt | backend/src/clients/riotApiClient.ts:120-146 | one attempt after admission: settled exactly when `Classify` says so; otherwise it sleeps out the retry's timer delay and leaves the same outcome to the remaining retries |
| Gateway.RiotApiClient.ProcessQueue | backend/src/clients/riotApiClient.ts:158-176 | a re-entrant call changes nothing; otherwise the queue is drained and settled as `SettleAll` says, and the flag is cleared |
| Gateway.RiotApiClient.QueueRequest | backend/src/clients/riotApiClient.ts:113-156 | pushes under a fresh promise id and drains unless the queue is already being processed |
| Gateway.RiotApiClient.Request | backend/src/clients/riotApiClient.ts:181-319 | a missing client fails with `getClient`'s error; the latest-version lookup makes one direct attempt; a queued call on an idle queue answers its retry outcome; the limits keep holding |
| RetryDeadlock.Find | backend/src/clients/riotApiClient.ts:118-150 | a promise's settlement is found iff it was settled |
| RetryDeadlock.StuckForever | backend/src/clients/riotApiClient.ts:136-142 | a dispatcher waiting on an unsettled re-queued retry never changes again |
| RetryDeadlock.RetryDeadlocks | backend/src/clients/riotApiClient.ts:136-167 | as written, a first retry leaves every request unsettled and the processing flag set, forever |
| RetryDeadlock.DeadlockExample | backend/src/clients/riotApiClient.ts:130-136 | one 429 followed by a success never settles as written, but resolves on the second attempt in the corrected gateway |
| Adapters.RoutingOf | backend/src/clients/riotApiClient.ts:186 | a known region's routing host, else `americas` |
| Adapters.PlatformOf | backend/src/clients/riotApiClient.ts:205 | a known region's platform, else `na1` |
| Adapters.EncodeUriComponent | backend/src/clients/riotApiClient.ts:194 | the result holds only unreserved characters and escapes, so it has no `/`, `?` or `#`; unreserved input is kept as is |
| Adapters.EncodeChar | backend/src/clients/riotApiClient.ts:194 | an unreserved character is kept; any other becomes percent escapes |
| Adapters.PercentBytes | backend/src/clients/riotApiClient.ts:194 | three characters per UTF-8 byte, all escapes |
| Adapters.Utf8 | backend/src/clients/riotApiClient.ts:194 | one to four bytes, one exactly for ASCII |
| Adapters.ResolveVersion | backend/src/clients/riotApiClient.ts:297-300 | `latest` becomes the first listed version; any other version is kept |
| Adapters.ChampionDataFetches | backend/src/clients/riotApiClient.ts:293-306 | `latest` costs a version-list fetch before the champion file; otherwise only the file is fetched |
| Adapters.FirstVersion | backend/src/clients/riotApiClient.ts:313-319 | the first version, or nothing for an empty list |
| Adapters.AdapterUrlsRegistered | backend/src/clients/riotApiClient.ts:181-308 | every adapter's base URL, for any region string, is registered |
| Adapters.AdapterClientsExist | backend/src/clients/riotApiClient.ts:188 | so `getClient` never throws for an adapter on a constructed client |
| Adapters.BucketsOfRegion | backend/src/clients/riotApiClient.ts:191-275 | match ids and match details share the `match-<routing>` bucket; account, summoner and league buckets are separate |
| Adapters.UnknownRegionFallsBack | backend/src/clients/riotApiClient.ts:186-205 | an unknown region uses North America's hosts |
| Adapters.AccountPathSegments | backend/src/clients/riotApiClient.ts:193-195 | the account path has the endpoint's segments followed by exactly the two encoded name parts |
| Cache.GetResult | backend/src/clients/redisClient.ts:47-61 | a value is returned iff the cache is up and holds the key |
| Cache.SetResult | backend/src/clients/redisClient.ts:66-77 | only an up cache with a positive TTL adds the key |
| Cache.DeleteResult | backend/src/clients/redisClient.ts:82-92 | an up cache loses exactly the key |
| Cache.DeletePatternResult | backend/src/clients/redisClient.ts:97-110 | a pattern delete only removes keys |
| Cache.TtlResult | backend/src/clients/redisClient.ts:132-143 | -1 when unavailable, -2 for a missing key |
| Cache.Degraded | backend/src/clients/redisClient.ts:48-51 | when unavailable every read says absent and every write changes nothing |
| Cache.SetThenGet | backend/src/clients/redisClient.ts:66-77 | a successful set is read back with its TTL, and other keys are unaffected |
| Cache.DeleteThenGet | backend/src/clients/redisClient.ts:82-92 | after a delete the key is absent and others are kept |
| Cache.ExistsIffGet | backend/src/clients/redisClient.ts:115-127 | `exists` agrees with `get` |
| Cache.DeletePatternExactly | backend/src/clients/redisClient.ts:97-110 | exactly the matching keys are removed; the rest keep their entries |
| Cache.GlobLiteral | backend/src/clients/redisClient.ts:101 | a wildcard-free pattern matches only itself |
| Cache.GlobStarMatchesAll | backend/src/clients/redisClient.ts:101 | `*` matches every key |
| Cache.GlobPrefix | backend/src/clients/redisClient.ts:101 | `prefix*` matches exactly the keys starting with the prefix |
| Cache.RedisCache.constructor | backend/src/clients/redisClient.ts:3-5 | no client and not connected |
| Cache.RedisCache.Connect | backend/src/clients/redisClient.ts:7-35 | a no-op when connected; otherwise a client exists afterwards, connected iff the server was reachable |
| Cache.RedisCache.OnConnect | backend/src/clients/redisClient.ts:24-27 | the connect event sets the flag |
| Cache.RedisCache.OnDisconnect | backend/src/clients/redisClient.ts:29-32 | the disconnect event clears the flag |
| Cache.RedisCache.Disconnect | backend/src/clients/redisClient.ts:37-42 | afterwards not connected; nothing changes if it was not connected |
| Cache.RedisCache.Get | backend/src/clients/redisClient.ts:47-61 | answers `GetResult`; a hit is the stored value |
| Cache.RedisCache.Set | backend/src/clients/redisClient.ts:66-77 | the store becomes `SetResult`'s |
| Cache.RedisCache.Delete | backend/src/clients/redisClient.ts:82-92 | the store becomes `DeleteResult`'s |
| Cache.RedisCache.DeletePattern | backend/src/clients/redisClient.ts:97-110 | the store becomes `DeletePatternResult`'s |
| Cache.RedisCache.Exists | backend/src/clients/redisClient.ts:115-127 | answers `ExistsResult`; true only for a stored key |
| Cache.RedisCache.Ttl | backend/src/clients/redisClient.ts:132-143 | answers `TtlResult`; -1 when unavailable |
| ReadThroughCache.Hit | backend/src/services/summonerService.ts:30-34 | a hit needs a connected cache, a working `get` and a stored value of the expected kind |
| ReadThroughCache.HitServesCached | backend/src/services/matchService.ts:25-29 | a hit answers the cached value without upstream calls or writes |
| ReadThroughCache.MissFetches | backend/src/services/matchService.ts:33-39 | a miss answers the upstream's result after exactly its calls |
| ReadThroughCache.WritesOnlyItsKey | backend/src/services/matchService.ts:36-37 | a failure writes nothing; any read-through writes at most its own key |
| ReadThroughCache.SecondReadHits | backend/src/services/matchService.ts:22-39 | on a healthy cache, a repeat after a successful miss is a hit with the same value and no calls |
| ReadThroughCache.UnavailablePassesThrough | backend/src/clients/redisClient.ts:48-51 | with the cache down, a read-through is just the upstream fetch |
| ReadThroughCache.Serve | backend/src/services/summonerService.ts:22-53 | one read-through on the cache object has exactly `ReadThrough`'s answer, calls and new store |
| Summoners.FetchProfile | backend/src/services/summonerService.ts:39-47 | account, then summoner by the account's puuid, then league entries by the summoner's id; stops at the first failure; a profile holds the three answers |
| Summoners.KeysDisjoint | backend/src/services/summonerService.ts:27-83 | profile, puuid and ranked keys never collide for a colon-free region other than `puuid` |
| Summoners.ProfileKeyMeetsPuuidKey | backend/src/services/summonerService.ts:27-60 | the excluded region `puuid` does collide: the profile of (`puuid`, r, p) is stored under the puuid key of p in region r |
| Summoners.ProfileKeyInjective | backend/src/services/summonerService.ts:27 | with colon-free parts, the profile key determines region, name and tag |
| Summoners.SummonerService.GetSummonerProfile | backend/src/services/summonerService.ts:22-53 | read-through of the profile under its key, with a 300 s TTL |
| Summoners.SummonerService.GetSummonerByPuuid | backend/src/services/summonerService.ts:59-76 | read-through of the summoner by puuid, with a 300 s TTL |
| Summoners.SummonerService.GetRankedStats | backend/src/services/summonerService.ts:82-99 | read-through of the league entries, with a 300 s TTL |
| Matches.HistoryAndDetailsKeysDiffer | backend/src/services/matchService.ts:22-47 | a history key never equals a match key |
| Matches.HistoryKeyDeterminesPage | backend/src/services/matchService.ts:22 | two pages of one player share a key only if start and count agree |
| Matches.DetailsRun | backend/src/services/matchService.ts:76-84 | the batch yields at most one match and at most one call per id |
| Matches.UnavailableBatch | backend/src/services/matchService.ts:76-84 | with the cache down, the batch is the upstream's successes in order, one call per id, with no writes |
| Matches.RepeatedIdFetchedOnce | backend/src/services/matchService.ts:76-84 | on a healthy cache a repeated id is fetched once and listed twice |
| Matches.MatchService.GetMatchHistory | backend/src/services/matchService.ts:16-40 | read-through of the id page, with a 600 s TTL |
| Matches.MatchService.GetMatchDetails | backend/src/services/matchService.ts:46-65 | read-through of the match, with a 604800 s TTL |
| Matches.MatchService.GetMultipleMatchDetails | backend/src/services/matchService.ts:70-87 | the loop's matches, calls and store are `DetailsRun`'s; failures are skipped |
| Matches.MatchService.GetMatchHistoryWithDetails | backend/src/services/matchService.ts:93-101 | the history page, then the batch over its ids; a failed page fails the whole call |
| Champions.FindChampion | backend/src/services/championService.ts:52-61 | the first champion with that key, or none iff no champion has it |
| Champions.CalculateTier | backend/src/services/championService.ts:137-143 | every index gets one of S, A, B, C, D |
| Champions.TierMonotone | backend/src/services/championService.ts:137-143 | a later index never gets a better tier; tiers change every three indices up to 12 |
| Champions.MockRow | backend/src/services/championService.ts:115-130 | a row's win rate is never below 45 % |
| Champions.MockRows | backend/src/services/championService.ts:110-130 | the first min(15, n) champions, each mapped with its index |
| Champions.Insert | backend/src/services/championService.ts:131 | insertion adds exactly the element |
| Champions.InsertSorted | backend/src/services/championService.ts:131 | insertion keeps the order by descending win rate |
| Champions.SortByWinRate | backend/src/services/championService.ts:131 | the sort is a permutation ordered by descending win rate |
| Champions.MockTierListShape | backend/src/services/championService.ts:109-132 | min(15, n) rows, sorted, a permutation of the mapped rows, each with the role, a win rate of at least 45 % and its catalog-position tier |
| Champions.InvalidRoleRejected | backend/src/services/championService.ts:73-76 | an invalid role fails before any cache or upstream call, with the exact message; a valid role fails only with the catalog's error |
| Champions.RoleCaseInsensitive | backend/src/services/championService.ts:74-96 | roles differing only in case share one key and one answer |
| Champions.EmptyVersionIsMiss | backend/src/services/championService.ts:152-160 | a cached empty version string is refetched |
| Champions.ChampionService.GetAllChampions | backend/src/services/championService.ts:27-46 | read-through of the latest catalog, with a 86400 s TTL |
| Champions.ChampionService.GetChampionById | backend/src/services/championService.ts:52-61 | the catalog read-through, then `FindChampion` on it |
| Champions.ChampionService.GetTierListByRole | backend/src/services/championService.ts:72-103 | the answer, calls and store are `TierListServed`'s |
| Champions.ChampionService.GetLatestVersion | backend/src/services/championService.ts:149-166 | read-through of the version, with a 86400 s TTL |
| Http.OrDefault | backend/src/controllers/matchController.ts:22 | `value \|\| fallback` for a string parameter |
| Http.IntOrDefault | backend/src/controllers/matchController.ts:23 | `parseInt(..) \|\| 0`: NaN and 0 give the fallback |
| ErrorHandler.HandleError | backend/src/middleware/errorHandler.ts:12-65 | every error becomes a JSON failure body |
| ErrorHandler.Deliver | backend/src/middleware/errorHandler.ts:12-65 | a handler's own answer is sent as is; a passed-on error goes through the handler |
| ErrorHandler.AppErrorResponse | backend/src/middleware/errorHandler.ts:21-22 | a non-upstream error keeps its status (or 500) and message (or the default) |
| ErrorHandler.UpstreamStatusKept | backend/src/middleware/errorHandler.ts:25-26 | an upstream error reports the upstream status, or 500 without a response |
| ErrorHandler.FixedMessages | backend/src/middleware/errorHandler.ts:29-50 | the five common statuses and 500/502/503/504 get their fixed messages |
| ErrorHandler.OtherStatusMessage | backend/src/middleware/errorHandler.ts:51-52 | any other status reports the upstream body's message, else the error's own |
| ErrorHandler.FixedStatuses | backend/src/middleware/errorHandler.ts:29-53 | exactly nine statuses have fixed messages |
| MatchController.ClampCount | backend/src/controllers/matchController.ts:24 | the count never exceeds the cap; NaN or 0 gives the default |
| MatchController.PageArgs | backend/src/controllers/matchController.ts:21-31 | the service is called iff the puuid is present, with a capped count |
| MatchController.CountBounds | backend/src/controllers/matchController.ts:24-110 | page sizes are at most 100 (history) and 20 (with details), with defaults 20 and 10 |
| MatchController.MissingPuuid | backend/src/controllers/matchController.ts:26-31 | a missing puuid is 400, whatever the service would say |
| MatchController.HistoryPagination | backend/src/controllers/matchController.ts:33-50 | a page echoes the requested start and count and reports the number of ids as its total |
| MatchController.MatchDetailsOutcomes | backend/src/controllers/matchController.ts:60-95 | a missing id is 400; an upstream 404 is "Match not found"; other failures go to the error handler |
| SummonerController.ProfileOutcomes | backend/src/controllers/summonerController.ts:15-50 | 400 iff a parameter is missing; else the profile, a 404 "Summoner not found", or the error passed on |
| SummonerController.RegionCaseInsensitive | backend/src/controllers/summonerController.ts:30-34 | region codes differing in case give the same answer |
| ChampionController.PassThroughHandlers | backend/src/controllers/championController.ts:15-129 | the catalog handler (lines 15-30) and the version handler (lines 114-129) send the service's value as returned, and pass failures to the error handler |
| ChampionController.ChampionByIdOutcomes | backend/src/controllers/championController.ts:36-68 | a missing id is 400, an unknown one 404, a found one 200 with the champion |
| ChampionController.EveryBadRoleIsBadRequest | backend/src/controllers/championController.ts:98-104 | against any service that rejects an invalid role as the tier-list service does (Champions.InvalidRoleRejected), every invalid role is answered 400 with the service's message; a list is sent with the lower-case role |
| ChampionController.MissingRole | backend/src/controllers/championController.ts:82-87 | a missing or empty role is 400 |
| SearchInput.ParseFailsExactly | frontend/src/services/summonerService.ts:22-39 | the parse fails iff the trimmed input does not have exactly one `#` or one side is empty |
| SearchInput.ParsedPartsWellFormed | frontend/src/services/summonerService.ts:23-44 | parsed parts are non-empty, `#`-free and already trimmed |
| SearchInput.ParseRoundTrip | frontend/src/services/summonerService.ts:22-45 | `a#b` parses back to (a, b) for non-empty, trimmed, `#`-free parts |
| SearchInput.ValidationOutcomes | frontend/src/services/summonerService.ts:50-69 | blank input asks for a name; valid iff it parses with a name of 3-16 and a tag of 3-5 UTF-16 units; otherwise the first failing check names the error |
| MatchTypes.QueueIdsExactly | frontend/src/types/match.ts:95-104 | the table names exactly the eight queue ids |
| MatchTypes.KdaValue | frontend/src/types/match.ts:107-112 | no deaths gives kills plus assists; otherwise the value is within 0.005 of the exact ratio |
| MatchTypes.JsRem | frontend/src/types/match.ts:117 | JavaScript's remainder lies strictly between -60 and 60 and agrees with `%` on non-negative operands |
| MatchTypes.ParseDuration | frontend/src/types/match.ts:115-119 | the reader of `m:ss` accepts only digits, a colon and two digits |
| MatchTypes.DurationRoundTrip | frontend/src/types/match.ts:115-119 | for s >= 0 the text is minutes, a colon and two digits below 60 that read back as s |
| MatchCard.FindParticipant | frontend/src/components/MatchCard.tsx:14-17 | the first participant with the puuid, or none iff no one has it |
| MatchCard.TimeAgoUnits | frontend/src/components/MatchCard.tsx:110-128 | the largest whole unit of the elapsed time, plural iff above one; under a minute or in the future gives "Just now" |
| MatchCard.CardContents | frontend/src/components/MatchCard.tsx:10-27 | no card iff the player is absent; otherwise their result, CS = lane + jungle minions, KDA, the queue name falling back to the game mode, and the 14.1.1 icon |
| KdaBadge.ColorBands | frontend/src/components/KDABadge.tsx:10-17 | yellow at 5 and above, green in [3, 5), blue in [2, 3), gray below 2 |
| KdaBadge.ColorMonotone | frontend/src/components/KDABadge.tsx:10-17 | a higher KDA never gets a lower colour |
| KdaBadge.PerfectGameColor | frontend/src/components/KDABadge.tsx:11-12 | a deathless game is yellow iff kills plus assists reach 5 |
| ChampionTypes.IconUrlShape | frontend/src/types/champion.ts:101-103 | the CDN, the version (14.1.1 by default), then `/img/champion/<name>.png` |
| ChampionTypes.IconUrlInjective | frontend/src/types/champion.ts:101-103 | for one version, different champions get different icon URLs |
| ChampionTypes.SplashUrlShape | frontend/src/types/champion.ts:106-108 | ends in `<name>_<skin>.jpg`, with skin 0 by default |
| ChampionTypes.SplashUrlSkinInjective | frontend/src/types/champion.ts:106-108 | for one champion, different skins get different URLs |
| ChampionTypes.RolesAndTiersAgree | frontend/src/types/champion.ts:63-75 | the roles are the backend's five, every backend tier is a table rank, and the ranks are distinct |
| TierListTable.SectionsOver | frontend/src/components/TierListTable.tsx:18-28 | each drawn section is a rank's non-empty group with its size as the count |
| TierListTable.GroupMembers | frontend/src/components/TierListTable.tsx:11-14 | a group holds exactly the rows of its tier, with their multiplicities |
| TierListTable.GroupAppend | frontend/src/components/TierListTable.tsx:12 | grouping commutes with concatenation, so groups keep input order |
| TierListTable.GroupSizes | frontend/src/components/TierListTable.tsx:11-23 | over distinct ranks, the drawn counts add up to the number of rows whose tier is a rank |
| TierListTable.SectionOrder | frontend/src/components/TierListTable.tsx:18-23 | sections follow rank order, with empty groups skipped |
| TierListTable.MockListDrawnWhole | frontend/src/components/TierListTable.tsx:11-28 | every row of the backend's placeholder list is drawn |
| Strings.Lower | backend/src/services/championService.ts:74 | ASCII lower-casing, length-preserving and idempotent |
| Strings.Trim | frontend/src/services/summonerService.ts:23 | the trimmed text starts and ends with a visible character and is no longer than the input |
| Strings.TrimSlice | frontend/src/services/summonerService.ts:23 | the trimmed text is a slice of the input with only white space cut off at either end |
| Strings.TrimKeeps | frontend/src/services/summonerService.ts:23 | every visible character of the input survives trimming |
| Strings.Split | frontend/src/services/summonerService.ts:30 | one more part than separators, none containing the separator |
| Strings.JoinSplit | frontend/src/services/summonerService.ts:30 | joining the parts with the separator gives the input back |
| Strings.IntToString | backend/src/services/matchService.ts:22 | decimal text, with a minus sign exactly for negatives, injective |
| Strings.PadStart | frontend/src/types/match.ts:118 | the padded text ends with the input, after pad characters only |

## Left out
- Real time, timers and promise scheduling:
  - `now` is a parameter, or the gateway's `clock` field, and `Sleep` advances it.
  - Concurrent callers of the queue are interleaved only at `queueRequest`.
- The network, axios and Redis internals are parameters or maps:
  - Redis key expiry over time is not modelled; the TTL is stored and reported.
  - JSON encoding is taken as a lossless round trip.
  - A cached value of the wrong kind counts as a miss, where JavaScript would return it unchecked.
- Glob character classes (`[...]`) in `KEYS` patterns are not modelled; only `*`, `?` and `\` escapes are.
- Floating point:
  - Win rates are whole hundredths of a percent, with the random jitter as a function argument.
  - Pick rate, ban rate and games played of the placeholder rows are not modelled, since they are random values that nothing reads.
- MatchTypes.CalculateKda: rounds the exact quotient to two decimals, halves up, where `toFixed` rounds the nearest double. The two can differ at exact halves such as 201/200.
- Champions.SortByWinRate: sortedness and permutation are proved. That rows with equal win rates keep catalog order, as JavaScript's stable sort does, is not stated as a lemma.
- `toLowerCase` is modelled for ASCII letters only.
- `encodeURIComponent` of lone surrogates, which throws in JavaScript, is not modelled.
- Logging, `console` output and the development-only `stack` and `details` fields of error bodies are left out.
- Query values that arrive as arrays are not modelled; a parameter is an optional string.
- Numeric query parameters are given already parsed, as `parseInt` results.
- The retry path as written is modelled separately; see Findings. The gateway runs retries in place.
- Express wiring, routes, the express-rate-limit middleware, bootstrap and the JSX-only components are not part of this model.
- Summoners.KeysDisjoint: requires the region to be colon-free and not `puuid`. The region comes from the user, so the profile of region `puuid` is reachable and lands on a puuid key (`Summoners.ProfileKeyMeetsPuuidKey`). The collision is harmless only because no controller calls `getSummonerByPuuid`: the summoner controller calls `getSummonerProfile` alone.

## Findings

| source | as written | input that shows it | evidently intended | confidence | as-written member | corrected member |
|---|---|---|---|---|---|---|
| backend/src/clients/riotApiClient.ts:130-167 | a retry calls `queueRequest` again. This pushes a new entry on the tail of the queue while `processQueue` is awaiting the current `execute`, which awaits that new entry. The flag is set, so nothing dispatches it | one request whose first attempt is answered 429 with retries left | the request is retried up to three times and then settled | not executed | RetryDeadlock.DeadlockExample | Gateway.RiotApiClient.ProcessQueue |
