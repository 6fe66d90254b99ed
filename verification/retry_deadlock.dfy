/** The request queue of `RiotApiClient` as its code is written
    (backend/src/clients/riotApiClient.ts, `queueRequest` and
    `processQueue`): a retry does not loop inside `execute` but calls
    `queueRequest` again, which pushes a NEW entry on the tail of the queue
    and, the processing flag being set, does not start processing; the
    current `execute` then awaits that entry's promise while `processQueue`
    awaits the current `execute`. The dispatcher below steps through that
    program; once a retry has been re-queued, no step changes anything
    again. The gateway in module Gateway runs retries in place instead. */
module RetryDeadlock {
  import opened Wrappers
  import opened RiotTypes
  import opened Gateway

  /** A queue entry: its promise id, which request function it runs, the
      number of that function's next attempt, and its retry budget. */
  datatype Entry = Entry(id: nat, request: nat, attempt: nat, retries: nat)

  /** The state of the queue and of the awaits in flight: `current` is the
      entry whose `execute` `processQueue` awaits, `awaiting` the re-queued
      entry that `execute` itself awaits. */
  datatype Dispatcher = Dispatcher(
    queue: seq<Entry>,
    current: Option<nat>,
    awaiting: Option<nat>,
    settled: seq<Settlement>,
    nextId: nat,
    processing: bool)

  /** The settlement of promise `id`, if it has one. */
  function Find(settled: seq<Settlement>, id: nat): (r: Option<Settlement>)
    ensures r.Some? <==> exists i :: 0 <= i < |settled| && settled[i].id == id
    ensures r.Some? ==> r.value in settled && r.value.id == id
  {
    if |settled| == 0 then None
    else if settled[0].id == id then Some(settled[0])
    else
      var r := Find(settled[1..], id);
      assert forall i :: 1 <= i < |settled| ==> settled[i] == settled[1..][i - 1];
      r
  }

  /** The same settlement, for another promise. */
  function Relabel(s: Settlement, id: nat): Settlement {
    match s
    case Resolved(_, v) => Resolved(id, v)
    case Rejected(_, e) => Rejected(id, e)
  }

  /** `processQueue` entered with `q` queued. */
  function Start(q: seq<Entry>, nextId: nat): Dispatcher {
    Dispatcher(q, None, None, [], nextId, true)
  }

  /** One step of the program as written; `outcome(request, attempt)` is the
      result of that attempt of that request function. */
  function Step(s: Dispatcher, outcome: (nat, nat) -> Result<ApiValue, ApiError>): Dispatcher {
    if s.current.Some? then
      if s.awaiting.Some? && Find(s.settled, s.awaiting.value).Some? then
        s.(settled := s.settled + [Relabel(Find(s.settled, s.awaiting.value).value, s.current.value)],
           current := None, awaiting := None)
      else
        s
    else if |s.queue| == 0 then
      s.(processing := false)
    else
      var e := s.queue[0];
      var o := outcome(e.request, e.attempt);
      match Classify(o, e.retries)
      case Settle =>
        s.(queue := s.queue[1..], settled := s.settled + [SettleWith(e.id, o)])
      case RetryAfter(_) =>
        s.(queue := s.queue[1..] + [Entry(s.nextId, e.request, e.attempt + 1, e.retries - 1)],
           current := Some(e.id), awaiting := Some(s.nextId), nextId := s.nextId + 1)
  }

  function Run(s: Dispatcher, n: nat, outcome: (nat, nat) -> Result<ApiValue, ApiError>): Dispatcher
    decreases n
  {
    if n == 0 then s else Run(Step(s, outcome), n - 1, outcome)
  }

  /** `processQueue` is awaiting an `execute` that awaits a promise nobody
      has settled. */
  predicate Stuck(s: Dispatcher) {
    s.current.Some? && (s.awaiting.None? || Find(s.settled, s.awaiting.value).None?)
  }

  /** A stuck dispatcher stays exactly as it is, however long it runs. */
  lemma {:induction false} StuckForever(s: Dispatcher, n: nat, outcome: (nat, nat) -> Result<ApiValue, ApiError>)
    requires Stuck(s)
    ensures Run(s, n, outcome) == s
  {
    if n > 0 {
      assert Step(s, outcome) == s;
      StuckForever(s, n - 1, outcome);
    }
  }

  /** As written: when the first queued request meets a retryable failure
      with retries left, no request in the queue is ever settled, the re-
      queued retry is never dispatched, and the processing flag stays set,
      so every later `queueRequest` only pushes behind it. */
  lemma RetryDeadlocks(q: seq<Entry>, nextId: nat, outcome: (nat, nat) -> Result<ApiValue, ApiError>, n: nat)
    requires |q| > 0
    requires Classify(outcome(q[0].request, q[0].attempt), q[0].retries).RetryAfter?
    ensures Run(Start(q, nextId), n + 1, outcome).settled == []
    ensures Run(Start(q, nextId), n + 1, outcome).processing
    ensures Run(Start(q, nextId), n + 1, outcome).queue == q[1..] + [Entry(nextId, q[0].request, q[0].attempt + 1, q[0].retries - 1)]
  {
    var s1 := Step(Start(q, nextId), outcome);
    assert Stuck(s1);
    StuckForever(s1, n, outcome);
  }

  /** A concrete instance: one request whose first attempt is answered 429
      without a `retry-after` header and whose second attempt would succeed.
      As written it is never settled; the gateway's in-place retry resolves
      it on the second attempt. */
  lemma DeadlockExample(n: nat)
    ensures Run(Start([Entry(0, 0, 0, DEFAULT_RETRIES)], 1), n + 1, SecondTimeLucky).settled == []
    ensures RetryOutcome((k: nat) => SecondTimeLucky(0, k), DEFAULT_RETRIES, 0) == (Ok(VersionValue("14.1.1")), 2)
    ensures SettleAll([QueuedRequest(0, "ddragon", (k: nat) => SecondTimeLucky(0, k), DEFAULT_RETRIES)])
            == [Resolved(0, VersionValue("14.1.1"))]
  {
    RetryDeadlocks([Entry(0, 0, 0, DEFAULT_RETRIES)], 1, SecondTimeLucky, n);
  }

  /** Attempt 0 of any request is rate limited; every later attempt succeeds. */
  function SecondTimeLucky(request: nat, attempt: nat): Result<ApiValue, ApiError> {
    if attempt == 0 then Err(HttpError(Some(429), None, None, "Request failed with status code 429"))
    else Ok(VersionValue("14.1.1"))
  }
}
