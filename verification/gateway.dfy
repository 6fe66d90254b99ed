/** The stateful part of `RiotApiClient` (backend/src/clients/riotApiClient.ts):
    the registry of per-base-URL HTTP clients, the per-bucket timestamp lists
    of the rate limiter, the FIFO request queue with its processing flag, and
    the bounded retry of rate-limited (429) and unavailable (503) responses.

    Time is the field `clock` (milliseconds); a sleep advances it. The outcome
    of the k-th HTTP attempt of a request is given by the request's `call`
    function, so the network is an input of the model. Settling a request's
    promise appends to the `settled` log. */
module Gateway {
  import opened Wrappers
  import opened RateLimit
  import opened RiotTypes
  import Regions

  const API_HOST_SUFFIX: string := ".api.riotgames.com"
  const DDRAGON_URL: string := "https://ddragon.leagueoflegends.com"
  const REQUEST_TIMEOUT_MS: int := 10000
  /** The default of `queueRequest`'s `retries` parameter. */
  const DEFAULT_RETRIES: nat := 3
  /** The `retry-after` value used when a 429 carries no such header. */
  const DEFAULT_RETRY_AFTER_SECONDS: int := 5
  const UNAVAILABLE_RETRY_MS: int := 2000
  /** Node's largest timer delay; a longer or non-positive delay fires after 1 ms. */
  const TIMEOUT_MAX: int := 2147483647

  /** `https://<host>.api.riotgames.com` */
  function HostUrl(host: string): string {
    "https://" + host + API_HOST_SUFFIX
  }

  /** The routing hosts in the order the client registers them. */
  const ROUTING_HOST_ORDER: seq<string> := ["americas", "asia", "europe", "sea"]

  /** The routing-host URLs, in registration order. */
  function RoutingUrls(): (r: seq<string>)
    ensures |r| == |ROUTING_HOST_ORDER|
    ensures forall j :: 0 <= j < |r| ==> r[j] == HostUrl(ROUTING_HOST_ORDER[j])
  {
    seq(|ROUTING_HOST_ORDER|, j requires 0 <= j < |ROUTING_HOST_ORDER| => HostUrl(ROUTING_HOST_ORDER[j]))
  }

  /** The platform-host URL of every region, in declaration order. */
  function PlatformUrls(): (r: seq<string>)
    ensures |r| == |Regions.REGION_ORDER|
    ensures forall j :: 0 <= j < |r| ==> Regions.REGION_ORDER[j] in Regions.RIOT_REGIONS
    ensures forall j :: 0 <= j < |r| ==> r[j] == HostUrl(Regions.RIOT_REGIONS[Regions.REGION_ORDER[j]].platform)
  {
    Regions.TableKeys();
    seq(|Regions.REGION_ORDER|, j requires 0 <= j < |Regions.REGION_ORDER|
                                  => HostUrl(Regions.RIOT_REGIONS[Regions.REGION_ORDER[j]].platform))
  }

  /** The base URLs `initializeClients` registers: the four routing hosts,
      every region's platform host and Data Dragon. */
  function RegisteredUrls(): set<string> {
    Elements(RoutingUrls()) + Elements(PlatformUrls()) + {DDRAGON_URL}
  }

  /** Every region's platform host and routing host is registered. */
  lemma HostsRegistered(code: string)
    requires code in Regions.RIOT_REGIONS
    ensures HostUrl(Regions.RIOT_REGIONS[code].platform) in RegisteredUrls()
    ensures HostUrl(Regions.RIOT_REGIONS[code].region) in RegisteredUrls()
  {
    PlatformRegistered(code);
    RoutingRegistered(Regions.RIOT_REGIONS[code].region);
  }

  lemma PlatformRegistered(code: string)
    requires code in Regions.RIOT_REGIONS
    ensures HostUrl(Regions.RIOT_REGIONS[code].platform) in Elements(PlatformUrls())
  {
    Regions.TableKeys();
    var j :| 0 <= j < |Regions.REGION_ORDER| && Regions.REGION_ORDER[j] == code;
    assert PlatformUrls()[j] == HostUrl(Regions.RIOT_REGIONS[code].platform);
  }

  lemma RoutingRegistered(host: string)
    requires host in Regions.ROUTING_HOSTS
    ensures HostUrl(host) in Elements(RoutingUrls())
  {
    var k := if host == "americas" then 0 else if host == "asia" then 1 else if host == "europe" then 2 else 3;
    assert ROUTING_HOST_ORDER[k] == host;
    assert RoutingUrls()[k] == HostUrl(host);
  }

  /** An HTTP client instance: its base URL, the `X-Riot-Token` header value
      and the timeout. */
  datatype ClientConfig = ClientConfig(baseUrl: string, apiKey: string, timeoutMs: int)

  function Elements(s: seq<string>): set<string> {
    set x | x in s
  }

  lemma ElementsSnoc(s: seq<string>, i: nat)
    requires i < |s|
    ensures Elements(s[..i + 1]) == Elements(s[..i]) + {s[i]}
  {
    assert s[..i + 1] == s[..i] + [s[i]];
  }

  /** `set.add(x)` on a set kept as its insertion-ordered elements. */
  function AddToSet(s: seq<string>, x: string): (r: seq<string>)
    ensures Elements(r) == Elements(s) + {x}
  {
    if x in s then s else s + [x]
  }

  /** `setTimeout`'s effective delay. */
  function TimerDelay(ms: int): (d: int)
    ensures 1 <= d <= TIMEOUT_MAX
    ensures 1 <= ms <= TIMEOUT_MAX ==> d == ms
  {
    if 1 <= ms <= TIMEOUT_MAX then ms else 1
  }

  // ------------------------------------------------------------ retries

  datatype RetryDecision = Settle | RetryAfter(ms: int)

  predicate Retryable(e: ApiError) {
    e.HasResponseStatus(429) || e.HasResponseStatus(503)
  }

  /** What the catch block of a request's `execute` does with an attempt's
      outcome when `retries` re-submissions remain: retry a 429 after its
      `retry-after` seconds (5 when absent), retry a 503 after 2 s, settle
      with anything else. */
  function Classify(outcome: Result<ApiValue, ApiError>, retries: nat): (d: RetryDecision)
    ensures d.RetryAfter? <==> outcome.Err? && retries > 0 && Retryable(outcome.error)
    ensures (d.RetryAfter? && outcome.error.HasResponseStatus(429))
              ==> d.ms == outcome.error.retryAfter.GetOr(DEFAULT_RETRY_AFTER_SECONDS) * 1000
    ensures d.RetryAfter? && outcome.error.HasResponseStatus(503) ==> d.ms == UNAVAILABLE_RETRY_MS
  {
    if outcome.Err? && outcome.error.HasResponseStatus(429) && retries > 0 then
      RetryAfter(outcome.error.retryAfter.GetOr(DEFAULT_RETRY_AFTER_SECONDS) * 1000)
    else if outcome.Err? && outcome.error.HasResponseStatus(503) && retries > 0 then
      RetryAfter(UNAVAILABLE_RETRY_MS)
    else
      Settle
  }

  /** The final outcome and the number of attempts made by a request whose
      attempt number `k` yields `call(k)`, starting at attempt `k` with
      `retries` re-submissions left. Every attempt before the last was
      retried; the last one was not. */
  function RetryOutcome(call: nat -> Result<ApiValue, ApiError>, retries: nat, k: nat)
    : (r: (Result<ApiValue, ApiError>, nat))
    ensures k < r.1 <= k + retries + 1
    ensures r.0 == call(r.1 - 1)
    ensures Classify(r.0, retries - (r.1 - 1 - k)) == Settle
    ensures forall j :: k <= j < r.1 - 1 ==> Classify(call(j), retries - (j - k)).RetryAfter?
    decreases retries
  {
    match Classify(call(k), retries)
    case Settle => (call(k), k + 1)
    case RetryAfter(_) => RetryOutcome(call, retries - 1, k + 1)
  }

  /** The time a request sleeps between its attempts from attempt `k` on:
      the effective timer delay of every retry. */
  function RetryWait(call: nat -> Result<ApiValue, ApiError>, retries: nat, k: nat): (w: int)
    ensures w >= RetryOutcome(call, retries, k).1 - 1 - k
    decreases retries
  {
    match Classify(call(k), retries)
    case Settle => 0
    case RetryAfter(ms) => TimerDelay(ms) + RetryWait(call, retries - 1, k + 1)
  }

  /** A 429 answered with `retry-after: T` while retries remain delays the
      next attempt by T seconds at least (5 when the header is absent), and
      a 503 by two seconds. */
  lemma RetryAfterRespected(call: nat -> Result<ApiValue, ApiError>, retries: nat, k: nat)
    requires retries > 0 && call(k).Err?
    ensures call(k).error.HasResponseStatus(429)
            && 1 <= call(k).error.retryAfter.GetOr(DEFAULT_RETRY_AFTER_SECONDS) * 1000 <= TIMEOUT_MAX
            ==> RetryWait(call, retries, k) >= call(k).error.retryAfter.GetOr(DEFAULT_RETRY_AFTER_SECONDS) * 1000
    ensures call(k).error.HasResponseStatus(503) ==> RetryWait(call, retries, k) >= UNAVAILABLE_RETRY_MS
  {
    if Classify(call(k), retries).RetryAfter? {
      assert RetryWait(call, retries, k) >= TimerDelay(Classify(call(k), retries).ms) by {
        RetryWaitNonNegative(call, retries - 1, k + 1);
      }
    }
  }

  lemma {:induction false} RetryWaitNonNegative(call: nat -> Result<ApiValue, ApiError>, retries: nat, k: nat)
    ensures RetryWait(call, retries, k) >= 0
    decreases retries
  {
    if Classify(call(k), retries).RetryAfter? {
      RetryWaitNonNegative(call, retries - 1, k + 1);
    }
  }

  /** `RetryWait` seen from attempt `k` on, as the retry loop tracks it. */
  ghost function WaitsFrom(call: nat -> Result<ApiValue, ApiError>, left: nat, k: nat): int
  {
    RetryWait(call, left, k)
  }

  /** `RetryOutcome` seen from attempt `k` on, as the retry loop tracks it. */
  ghost function Remaining(call: nat -> Result<ApiValue, ApiError>, left: nat, k: nat): (Result<ApiValue, ApiError>, nat)
  {
    RetryOutcome(call, left, k)
  }

  lemma SettledNow(call: nat -> Result<ApiValue, ApiError>, left: nat, k: nat)
    requires Classify(call(k), left) == Settle
    ensures Remaining(call, left, k) == (call(k), k + 1)
    ensures WaitsFrom(call, left, k) == 0
  {
  }

  lemma RetriedNow(call: nat -> Result<ApiValue, ApiError>, left: nat, k: nat, ms: int)
    requires Classify(call(k), left) == RetryAfter(ms)
    ensures left > 0 && Remaining(call, left - 1, k + 1) == Remaining(call, left, k)
    ensures WaitsFrom(call, left, k) == TimerDelay(ms) + WaitsFrom(call, left - 1, k + 1)
  {
  }

  /** A request with the default three retries makes at most four attempts;
      one whose first outcome is a success or a non-retryable error makes
      exactly one. */
  lemma AttemptsBounded(call: nat -> Result<ApiValue, ApiError>)
    ensures 1 <= RetryOutcome(call, DEFAULT_RETRIES, 0).1 <= 4
    ensures call(0).Ok? || !Retryable(call(0).error) ==> RetryOutcome(call, DEFAULT_RETRIES, 0).1 == 1
  {
  }

  /** The request fails with a retryable error only when every one of its
      attempts did, i.e. its retries are exhausted. */
  lemma {:induction false} RetryableFailureExhausts(call: nat -> Result<ApiValue, ApiError>, retries: nat, k: nat)
    requires RetryOutcome(call, retries, k).0.Err? && Retryable(RetryOutcome(call, retries, k).0.error)
    ensures RetryOutcome(call, retries, k).1 == k + retries + 1
    ensures forall j :: k <= j < k + retries + 1 ==> call(j).Err? && Retryable(call(j).error)
    decreases retries
  {
    if Classify(call(k), retries).RetryAfter? {
      RetryableFailureExhausts(call, retries - 1, k + 1);
    }
  }

  // -------------------------------------------------------------- queue

  /** A queued request: the id of its promise, its rate-limit bucket, the
      outcomes of its HTTP attempts and its retry budget. */
  datatype QueuedRequest = QueuedRequest(id: nat, bucket: string,
                                         call: nat -> Result<ApiValue, ApiError>, retries: nat)

  /** A call to a request's `resolve` or `reject`. */
  datatype Settlement = Resolved(id: nat, value: ApiValue) | Rejected(id: nat, error: ApiError)

  function SettleWith(id: nat, outcome: Result<ApiValue, ApiError>): (s: Settlement)
    ensures s.id == id
    ensures s.Resolved? <==> outcome.Ok?
  {
    match outcome
    case Ok(v) => Resolved(id, v)
    case Err(e) => Rejected(id, e)
  }

  /** The settlements of a queue drained in order. */
  function SettleAll(q: seq<QueuedRequest>): (s: seq<Settlement>)
    ensures |s| == |q|
    ensures forall i :: 0 <= i < |q| ==> s[i].id == q[i].id
  {
    if |q| == 0 then []
    else [SettleWith(q[0].id, RetryOutcome(q[0].call, q[0].retries, 0).0)] + SettleAll(q[1..])
  }

  lemma AppendAssoc<T>(a: seq<T>, x: T, b: seq<T>)
    ensures (a + [x]) + b == a + ([x] + b)
  {
  }

  lemma SettleAllCons(q: seq<QueuedRequest>)
    requires |q| > 0
    ensures SettleAll(q) == [SettleWith(q[0].id, RetryOutcome(q[0].call, q[0].retries, 0).0)] + SettleAll(q[1..])
  {
  }

  /** Every drained request is settled exactly once: by `reject` exactly when
      its retry run ends in an error, so a rejection never stops the ones
      behind it. */
  lemma {:induction false} SettleAllOutcomes(q: seq<QueuedRequest>, i: nat)
    requires i < |q|
    ensures SettleAll(q)[i] == SettleWith(q[i].id, RetryOutcome(q[i].call, q[i].retries, 0).0)
  {
    if i > 0 {
      SettleAllOutcomes(q[1..], i - 1);
    }
  }

  /** Draining a queue and then what was pushed behind it settles both, in
      order. */
  lemma {:induction false} SettleAllAppend(a: seq<QueuedRequest>, b: seq<QueuedRequest>)
    ensures SettleAll(a + b) == SettleAll(a) + SettleAll(b)
  {
    if |a| == 0 {
      assert a + b == b;
    } else {
      assert (a + b)[1..] == a[1..] + b;
      SettleAllAppend(a[1..], b);
    }
  }

  /** Two maps that agree away from `k` agree once `k` is set. */
  /** Overwriting one key keeps it present and leaves every other key as it was. */
  lemma OthersKept<K, V>(before: map<K, V>, after: map<K, V>, k: K, v: V)
    requires after == before[k := v]
    ensures k in after && after - {k} == before - {k}
  {
  }

  lemma UpdateAgrees<K, V>(m1: map<K, V>, m2: map<K, V>, k: K, v: V)
    requires m1 - {k} == m2 - {k}
    ensures m1[k := v] == m2[k := v]
  {
    forall x | x != k ensures x in m1 <==> x in m2 {
      assert x in m1 <==> x in m1 - {k};
      assert x in m2 <==> x in m2 - {k};
    }
    forall x | x != k && x in m1 ensures m1[x] == m2[x] {
      assert m1[x] == (m1 - {k})[x];
    }
  }

  /** The stored list of a bucket in the limiter loop: the list it started
      with, or that list pruned at an earlier pass. */
  predicate StoredFrom(cur: seq<int>, ts: seq<int>, last: int) {
    cur == ts || cur == Prune(ts, last)
  }

  /** A stored list decides, admits and prunes at `now` as the list it
      started with. */
  lemma StoredDecides(cur: seq<int>, ts: seq<int>, last: int, now: int)
    requires StoredFrom(cur, ts, last) && last <= now
    ensures Decide(cur, now) == Decide(ts, now)
    ensures Prune(cur, now) == Prune(ts, now)
    ensures Admitted(cur, now) == Admitted(ts, now)
  {
    if cur != ts {
      DecideAfterPrune(ts, last, now);
    }
  }

  /** An admitting pass of the limiter loop admits the original list too,
      at the admission time it was heading for, and stores the same list. */
  lemma AdmitPass(cur: seq<int>, ts: seq<int>, last: int, now: int, target: int)
    requires StoredFrom(cur, ts, last) && last <= now
    requires Decide(cur, now) == Admit
    requires Heading(ts, now) == target
    ensures Admitted(cur, now) == Admitted(ts, now)
    ensures Decide(ts, now) == Admit
    ensures now == target
  {
    StoredDecides(cur, ts, last, now);
  }

  /** A waiting pass of the limiter loop, on the stored buckets before and
      after it: the stored list is still the original one, possibly pruned
      at this pass, and the wait is positive and keeps the admission time
      the loop is heading for. */
  lemma WaitPass(before: map<string, seq<int>>, after: map<string, seq<int>>, bucket: string,
                 cur: seq<int>, next: seq<int>, ts: seq<int>, last: int, mark: int,
                 now: int, d: Admission, target: int)
    requires cur == (if bucket in before then before[bucket] else [])
    requires next == (if bucket in after then after[bucket] else [])
    requires mark == (if bucket in before then now else last)
    requires StoredFrom(cur, ts, last) && last <= now
    requires d == Decide(cur, now) && d.Wait?
    requires bucket in before ==> after == before[bucket := Prune(before[bucket], now)]
    requires bucket !in before ==> after == before
    requires Heading(ts, now) == target
    ensures StoredFrom(next, ts, mark) && last <= mark <= now
    ensures d.ms > 0 && now + d.ms <= target && Heading(ts, now + d.ms) == target
  {
    StoredDecides(cur, ts, last, now);
    WaitAfter(ts, now, d);
  }

  /** The admission time the limiter loop is heading for, from `now` on. */
  ghost function Heading(ts: seq<int>, now: int): int {
    AdmissionTime(ts, now)
  }

  /** `AdmissionTimeAfterWait`, for a decision already computed. */
  lemma WaitAfter(ts: seq<int>, now: int, d: Admission)
    requires d == Decide(ts, now) && d.Wait?
    ensures d.ms > 0
    ensures Load(ts, now + d.ms) < Load(ts, now)
    ensures AdmissionTime(ts, now + d.ms) == AdmissionTime(ts, now)
  {
    AdmissionTimeAfterWait(ts, now);
  }

  // ------------------------------------------------------------- client

  class RiotApiClient {
    const apiKey: string
    var clients: map<string, ClientConfig>
    /** Per bucket, the admission timestamps. */
    var rateLimits: map<string, seq<int>>
    var requestQueue: seq<QueuedRequest>
    var isProcessingQueue: bool
    /** The time, in milliseconds. */
    var clock: int
    /** The id the next queued request's promise gets. */
    var nextId: nat
    /** Every `resolve`/`reject` call so far, in order. */
    var settled: seq<Settlement>

    /** No bucket exceeds either limit at the current time. */
    ghost predicate LimitsHold()
      reads this
    {
      forall b :: b in rateLimits ==> WithinLimits(rateLimits[b], clock)
    }

    /** The timestamps of a bucket; a bucket not yet seen has none. */
    function Bucket(bucket: string): seq<int>
      reads this
    {
      if bucket in rateLimits then rateLimits[bucket] else []
    }

    constructor(apiKey: string, now: int)
      ensures this.apiKey == apiKey && clock == now
      ensures clients.Keys == RegisteredUrls()
      ensures forall u :: u in clients ==> clients[u] == ClientConfig(u, apiKey, REQUEST_TIMEOUT_MS)
      ensures rateLimits == map[] && |requestQueue| == 0 && !isProcessingQueue
      ensures nextId == 0 && settled == []
      ensures LimitsHold()
    {
      this.apiKey := apiKey;
      clients := map[];
      rateLimits := map[];
      requestQueue := [];
      isProcessingQueue := false;
      clock := now;
      nextId := 0;
      settled := [];
      new;
      InitializeClients();
    }

    /** Registers one client per registered base URL. */
    method InitializeClients()
      modifies this`clients
      ensures clients.Keys == old(clients).Keys + RegisteredUrls()
      ensures forall u :: u in RegisteredUrls() ==> clients[u] == ClientConfig(u, apiKey, REQUEST_TIMEOUT_MS)
      ensures forall u :: u in old(clients) && u !in RegisteredUrls() ==> clients[u] == old(clients)[u]
    {
      var baseUrls := CollectBaseUrls();
      RegisterClients(baseUrls);
    }

    /** The `Set` of base URLs, built by adding the routing hosts, every
        region's platform host and Data Dragon. */
    method CollectBaseUrls() returns (baseUrls: seq<string>)
      ensures Elements(baseUrls) == RegisteredUrls()
    {
      baseUrls := AddEach([], RoutingUrls());
      baseUrls := AddEach(baseUrls, PlatformUrls());
      baseUrls := AddToSet(baseUrls, DDRAGON_URL);
    }

    /** Adds the URLs one by one, in order, to a duplicate-free list. */
    method AddEach(start: seq<string>, urls: seq<string>) returns (baseUrls: seq<string>)
      ensures Elements(baseUrls) == Elements(start) + Elements(urls)
    {
      baseUrls := start;
      for i := 0 to |urls|
        invariant Elements(baseUrls) == Elements(start) + Elements(urls[..i])
      {
        ElementsSnoc(urls, i);
        baseUrls := AddToSet(baseUrls, urls[i]);
      }
      assert urls[..|urls|] == urls;
    }

    /** The `forEach` over the collected URLs: one client each, with the
        key and the 10 s timeout; other entries stay. */
    method RegisterClients(baseUrls: seq<string>)
      modifies this`clients
      ensures clients.Keys == old(clients).Keys + Elements(baseUrls)
      ensures forall u :: u in Elements(baseUrls) ==> clients[u] == ClientConfig(u, apiKey, REQUEST_TIMEOUT_MS)
      ensures forall u :: u in old(clients) && u !in Elements(baseUrls) ==> clients[u] == old(clients)[u]
    {
      assert Elements(baseUrls[..0]) == {};
      for i := 0 to |baseUrls|
        invariant clients.Keys == old(clients).Keys + Elements(baseUrls[..i])
        invariant forall u :: u in Elements(baseUrls[..i]) ==> clients[u] == ClientConfig(u, apiKey, REQUEST_TIMEOUT_MS)
        invariant forall u :: u in old(clients) && u !in Elements(baseUrls[..i]) ==> clients[u] == old(clients)[u]
      {
        ElementsSnoc(baseUrls, i);
        clients := clients[baseUrls[i] := ClientConfig(baseUrls[i], apiKey, REQUEST_TIMEOUT_MS)];
      }
      assert baseUrls[..|baseUrls|] == baseUrls;
    }

    /** `getClient`: the registered client, or the error it throws. */
    function GetClient(baseUrl: string): (r: Result<ClientConfig, ApiError>)
      reads this
      ensures r.Ok? <==> baseUrl in clients
      ensures r.Ok? ==> r.value == clients[baseUrl]
      ensures r.Err? ==> r.error == AppError("No client configured for " + baseUrl, None)
    {
      if baseUrl in clients then Ok(clients[baseUrl])
      else Err(AppError("No client configured for " + baseUrl, None))
    }

    /** One evaluation of the limiter at time `now`: prune the bucket, then
        admit (recording `now`) or report the wait. A bucket that existed
        keeps its pruned list when told to wait; one that did not is created
        only on admission. No other bucket changes. */
    method AdmissionStep(bucket: string, now: int) returns (d: Admission)
      modifies this`rateLimits
      ensures d == Decide(old(Bucket(bucket)), now)
      ensures d == Admit ==> rateLimits == old(rateLimits)[bucket := Admitted(old(Bucket(bucket)), now)]
      ensures (d.Wait? && bucket in old(rateLimits))
                ==> rateLimits == old(rateLimits)[bucket := Prune(old(rateLimits)[bucket], now)]
      ensures d.Wait? && bucket !in old(rateLimits) ==> rateLimits == old(rateLimits)
      ensures rateLimits - {bucket} == old(rateLimits) - {bucket}
    {
      var requests := Prune(Bucket(bucket), now);
      var existed := bucket in rateLimits;
      if existed {
        rateLimits := rateLimits[bucket := requests];
      }
      var inSecond := Recent(requests, now, SECOND_WINDOW);
      if |inSecond| >= RATE_LIMIT_PER_SECOND {
        return Wait(SECOND_WINDOW - (now - Max(inSecond)) + WAIT_MARGIN);
      }
      if |requests| >= RATE_LIMIT_PER_2_MINUTES {
        return Wait(TWO_MINUTE_WINDOW - (now - Min(requests)) + WAIT_MARGIN);
      }
      rateLimits := rateLimits[bucket := requests + [now]];
      return Admit;
    }

    /** One pass of the limiter loop for a wait that started from the list
        `ts` and is heading for admission at `target`; the stored list is
        `ts`, possibly pruned at an earlier pass `last`. `next` is when the
        loop evaluates again: after the wait, or `now` itself on admission.
        An admitting pass happens at `target` and stores `ts` pruned plus
        `now`; a waiting pass waits a positive time that keeps the heading
        and leaves the stored list pruned at most at `now`. No other bucket
        changes. */
    method LimiterPass(bucket: string, now: int, ghost ts: seq<int>, ghost last: int, ghost target: int)
        returns (d: Admission, next: int, ghost mark: int)
      modifies this`rateLimits
      requires StoredFrom(Bucket(bucket), ts, last) && last <= now
      requires Heading(ts, now) == target
      ensures rateLimits - {bucket} == old(rateLimits) - {bucket}
      ensures next == (if d.Wait? then now + d.ms else now)
      ensures now <= next <= target && Heading(ts, next) == target
      ensures d == Admit ==> now == target && Decide(ts, now) == Admit
      ensures d == Admit ==> rateLimits == old(rateLimits)[bucket := Admitted(ts, now)]
      ensures d.Wait? ==> now < next && StoredFrom(Bucket(bucket), ts, mark) && last <= mark <= now
    {
      ghost var cur := Bucket(bucket);
      ghost var before := rateLimits;
      d := AdmissionStep(bucket, now);
      if d == Admit {
        next, mark := now, now;
        AdmitPass(cur, ts, last, now, target);
      } else {
        next := now + d.ms;
        mark := if bucket in before then now else last;
        WaitPass(before, rateLimits, bucket, cur, Bucket(bucket), ts, last, mark, now, d, target);
      }
    }

    /** `waitForRateLimit`: sleep out each computed wait and re-evaluate
        until admitted. The admission time is the one the pure rule
        predicts, the bucket ends as the list it started with pruned at that
        time plus that time, and no other bucket changes. */
    method WaitForRateLimit(bucket: string)
      modifies this`rateLimits, this`clock
      ensures clock == AdmissionTime(old(Bucket(bucket)), old(clock))
      ensures rateLimits == old(rateLimits)[bucket := Admitted(old(Bucket(bucket)), clock)]
      ensures old(LimitsHold()) ==> LimitsHold()
    {
      ghost var ts0 := Bucket(bucket);
      ghost var last := clock;
      ghost var target := Heading(ts0, clock);
      var now := clock;
      while true
        invariant old(clock) <= last <= now <= target
        invariant Heading(ts0, now) == target
        invariant StoredFrom(Bucket(bucket), ts0, last)
        invariant rateLimits - {bucket} == old(rateLimits) - {bucket}
        invariant clock == old(clock)
        decreases target - now
      {
        ghost var before := rateLimits;
        var d, next;
        ghost var mark;
        d, next, mark := LimiterPass(bucket, now, ts0, last, target);
        if d == Admit {
          UpdateAgrees(before, old(rateLimits), bucket, Admitted(ts0, now));
          clock := now;
          if old(LimitsHold()) {
            AdmissionKeepsAllLimits(old(rateLimits), old(clock), bucket);
          }
          return;
        }
        last := mark;
        now := next;
      }
    }

    /** A bucket admitted through the limiter respects both limits at the
        admission time; with every other bucket respecting them before, all
        do after. */
    lemma AdmissionKeepsAllLimits(before: map<string, seq<int>>, start: int, bucket: string)
      requires forall b :: b in before ==> WithinLimits(before[b], start)
      requires start <= clock
      requires Decide(if bucket in before then before[bucket] else [], clock) == Admit
      requires rateLimits == before[bucket := Admitted(if bucket in before then before[bucket] else [], clock)]
      ensures LimitsHold()
    {
      forall b | b in rateLimits ensures WithinLimits(rateLimits[b], clock) {
        if b == bucket {
          AdmissionKeepsLimits(if bucket in before then before[bucket] else [], clock);
        } else {
          LimitsPersist(before[b], start, clock);
        }
      }
    }

    /** Lets `ms` milliseconds pass; the limits, once they hold, keep
        holding. */
    method Sleep(ms: int)
      requires ms > 0
      modifies this`clock
      ensures clock == old(clock) + ms
      ensures old(LimitsHold()) ==> LimitsHold()
    {
      clock := clock + ms;
      forall b | b in rateLimits && old(LimitsHold()) ensures WithinLimits(rateLimits[b], clock) {
        LimitsPersist(rateLimits[b], old(clock), clock);
      }
    }

    /** The body of a request's `execute` with its retries run in place: wait
        for admission, attempt, and on a retryable failure sleep and go
        again with one retry fewer. The outcome and attempt count are the
        ones `RetryOutcome` predicts; the clock moves on by at least the
        sleeps `RetryWait` adds up; only this request's bucket changes. */
    method ExecuteWithRetry(bucket: string, call: nat -> Result<ApiValue, ApiError>, retries: nat)
      returns (outcome: Result<ApiValue, ApiError>, attempts: nat)
      modifies this`rateLimits, this`clock
      ensures (outcome, attempts) == RetryOutcome(call, retries, 0)
      ensures old(clock) + RetryWait(call, retries, 0) <= clock
      ensures bucket in rateLimits && rateLimits - {bucket} == old(rateLimits) - {bucket}
      ensures old(LimitsHold()) ==> LimitsHold()
    {
      var left := retries;
      var k: nat := 0;
      ghost var expected := RetryOutcome(call, retries, 0);
      ghost var waits := RetryWait(call, retries, 0);
      while true
        invariant k + left == retries
        invariant Remaining(call, left, k) == expected
        invariant old(clock) + waits - WaitsFrom(call, left, k) <= clock
        invariant rateLimits - {bucket} == old(rateLimits) - {bucket}
        invariant old(LimitsHold()) ==> LimitsHold()
        decreases left
      {
        var result, done := Attempt(bucket, call, left, k);
        if done {
          return result, k + 1;
        }
        left := left - 1;
        k := k + 1;
      }
    }

    /** One pass of `execute`: wait for admission, make attempt `k`, and on
        a retryable failure sleep out its delay. Says whether the request is
        settled, and otherwise what the remaining retries still owe. */
    method Attempt(bucket: string, call: nat -> Result<ApiValue, ApiError>, left: nat, k: nat)
      returns (result: Result<ApiValue, ApiError>, done: bool)
      modifies this`rateLimits, this`clock
      ensures result == call(k)
      ensures done <==> Classify(call(k), left) == Settle
      ensures done ==> Remaining(call, left, k) == (call(k), k + 1) && old(clock) + WaitsFrom(call, left, k) <= clock
      ensures !done ==> && left > 0 && Remaining(call, left - 1, k + 1) == Remaining(call, left, k)
                        && old(clock) + WaitsFrom(call, left, k) - WaitsFrom(call, left - 1, k + 1) <= clock
      ensures bucket in rateLimits && rateLimits - {bucket} == old(rateLimits) - {bucket}
      ensures old(LimitsHold()) ==> LimitsHold()
    {
      ghost var before, ts := rateLimits, Bucket(bucket);
      WaitForRateLimit(bucket);
      OthersKept(before, rateLimits, bucket, Admitted(ts, clock));
      result := call(k);
      match Classify(result, left)
      case Settle =>
        SettledNow(call, left, k);
        done := true;
      case RetryAfter(ms) =>
        RetriedNow(call, left, k, ms);
        Sleep(TimerDelay(ms));
        done := false;
    }

    /** `processQueue`: a call while the flag is set does nothing; otherwise
        the queue is drained in push order, every request settled exactly
        once by its retry run (a rejection does not stop the loop), and the
        flag is cleared. */
    method ProcessQueue()
      modifies this`requestQueue, this`isProcessingQueue, this`settled, this`rateLimits, this`clock
      ensures old(isProcessingQueue) ==> unchanged(this)
      ensures !old(isProcessingQueue) ==>
                && |requestQueue| == 0 && !isProcessingQueue
                && settled == old(settled) + SettleAll(old(requestQueue))
                && old(clock) <= clock
      ensures old(LimitsHold()) ==> LimitsHold()
    {
      if isProcessingQueue {
        return;
      }
      isProcessingQueue := true;
      while |requestQueue| > 0
        invariant settled + SettleAll(requestQueue) == old(settled) + SettleAll(old(requestQueue))
        invariant isProcessingQueue
        invariant old(clock) <= clock
        invariant old(LimitsHold()) ==> LimitsHold()
        decreases |requestQueue|
      {
        var request := requestQueue[0];
        ghost var done := settled;
        ghost var rest := requestQueue[1..];
        ghost var expected := SettleWith(request.id, RetryOutcome(request.call, request.retries, 0).0);
        SettleAllCons(requestQueue);
        requestQueue := requestQueue[1..];
        var outcome, _ := ExecuteWithRetry(request.bucket, request.call, request.retries);
        assert SettleWith(request.id, outcome) == expected;
        settled := settled + [SettleWith(request.id, outcome)];
        AppendAssoc(done, expected, SettleAll(rest));
      }
      isProcessingQueue := false;
    }

    /** `queueRequest`: push a request under a fresh promise id and, unless
        the queue is already being processed, process it. With the flag
        clear, every queued request including the new one is settled in
        order, and the new one's settlement is returned. */
    method QueueRequest(bucket: string, call: nat -> Result<ApiValue, ApiError>, retries: nat)
      returns (id: nat, settlement: Option<Settlement>)
      modifies this`requestQueue, this`isProcessingQueue, this`settled, this`rateLimits, this`clock, this`nextId
      ensures id == old(nextId) && nextId == old(nextId) + 1
      ensures old(isProcessingQueue) ==>
                && requestQueue == old(requestQueue) + [QueuedRequest(id, bucket, call, retries)]
                && settlement == None && settled == old(settled)
      ensures !old(isProcessingQueue) ==>
                && |requestQueue| == 0 && !isProcessingQueue
                && settled == old(settled) + SettleAll(old(requestQueue) + [QueuedRequest(id, bucket, call, retries)])
                && settlement == Some(SettleWith(id, RetryOutcome(call, retries, 0).0))
      ensures old(LimitsHold()) ==> LimitsHold()
    {
      id := nextId;
      nextId := nextId + 1;
      var entry := QueuedRequest(id, bucket, call, retries);
      requestQueue := requestQueue + [entry];
      settlement := None;
      if !isProcessingQueue {
        ProcessQueue();
        SettleAllAppend(old(requestQueue), [entry]);
        assert SettleAll([entry]) == [SettleWith(id, RetryOutcome(call, retries, 0).0)];
        settlement := Some(settled[|settled| - 1]);
      }
    }

    /** One adapter request: fail with `getClient`'s error when the base
        URL has no client; a request without a bucket (the latest-version
        lookup) is one direct attempt outside the queue and the limiter;
        any other request is queued with the default retry budget. */
    method Request(baseUrl: string, bucket: Option<string>, call: nat -> Result<ApiValue, ApiError>)
      returns (r: Option<Result<ApiValue, ApiError>>)
      modifies this`requestQueue, this`isProcessingQueue, this`settled, this`rateLimits, this`clock, this`nextId
      ensures GetClient(baseUrl).Err? ==> r == Some(Err(GetClient(baseUrl).error)) && unchanged(this)
      ensures GetClient(baseUrl).Ok? && bucket.None? ==> r == Some(call(0)) && unchanged(this)
      ensures (GetClient(baseUrl).Ok? && bucket.Some? && !old(isProcessingQueue))
                ==> r == Some(RetryOutcome(call, DEFAULT_RETRIES, 0).0)
      ensures old(LimitsHold()) ==> LimitsHold()
    {
      var client := GetClient(baseUrl);
      if client.Err? {
        return Some(Err(client.error));
      }
      if bucket.None? {
        return Some(call(0));
      }
      var _, settlement := QueueRequest(bucket.value, call, DEFAULT_RETRIES);
      if settlement.Some? {
        r := Some(match settlement.value
                  case Resolved(_, v) => Ok(v)
                  case Rejected(_, e) => Err(e));
      } else {
        r := None;
      }
    }
  }
}
