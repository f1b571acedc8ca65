/**
 * The per-match fetch loop of `DataCollector` (`fetch_riot_data`, `fetch_dota_data`).
 *
 * The HTTP layer is an oracle: `server(i, k)` is what `requests.get` gives on
 * attempt `k` (0, 1 or 2) for the `i`-th match id of the batch. Every `time.sleep`
 * is an entry, in milliseconds, of a delay log; the random backoff jitter is a
 * parameter `jitter(i, k)` below one second. Match records are opaque values.
 */
module DataCollection {
  import opened Wrappers
  import PyInt

  datatype Provider = Riot | OpenDota

  /** What one `requests.get` call produces. */
  datatype Response<R> =
    | Reply(status: int, body: R, retryAfter: Option<string>)  // the parsed JSON body and the Retry-After header
    | NetError                                                  // a `RequestException` raised by the call

  /** The part of `random.random()` seconds that a backoff adds, in whole milliseconds. */
  type Jitter = j: nat | j < 1000

  /** `range(3)`: the attempt budget of every match id. */
  const MaxAttempts: nat := 3

  /** The sleep after a match id, whatever its outcome: 1.2 s for Riot, 1 s for OpenDota. */
  function InterRequestDelay(p: Provider): nat
  {
    match p
    case Riot => 1200
    case OpenDota => 1000
  }

  function Pow2(k: nat): (r: nat)
    ensures r >= 1
  {
    if k == 0 then 1 else 2 * Pow2(k - 1)
  }

  /** `2 ** attempt + random.random()` seconds, in milliseconds. */
  function BackoffDelay(attempt: nat, j: Jitter): nat
  {
    1000 * Pow2(attempt) + j
  }

  /** `int(response.headers.get("Retry-After", 2))`; `None` where `int` raises ValueError. */
  function RetryAfterSeconds(header: Option<string>): Option<int>
  {
    match header
    case None => Some(2)
    case Some(text) => PyInt.ParseInt(text)
  }

  /** How one attempt ends. */
  datatype Step<R> =
    | Store(record: R)   // status 200: append the body, stop this id
    | Sleep(ms: nat)     // sleep, then go on to the next attempt (if any)
    | Abandon            // any other status: stop this id with nothing
    | RaiseValueError    // Retry-After is no integer, or a negative one: the exception leaves the fetch

  function StepOf<R>(p: Provider, r: Response<R>, attempt: nat, j: Jitter): Step<R>
  {
    match r
    case NetError => Sleep(BackoffDelay(attempt, j))
    case Reply(status, body, header) =>
      if status == 200 then Store(body)
      else if p == Riot && status == 429 then
        match RetryAfterSeconds(header)
        case None => RaiseValueError
        case Some(seconds) => if seconds < 0 then RaiseValueError else Sleep(1000 * seconds)
      else Abandon
  }

  /** The step of attempt `k` for the `i`-th id. */
  function StepAt<R>(p: Provider, server: (nat, nat) -> Response<R>, jitter: (nat, nat) -> Jitter, i: nat, k: nat): Step<R>
  {
    StepOf(p, server(i, k), k, jitter(i, k))
  }

  /** What the attempts for one match id did. */
  datatype IdOutcome<R> = IdOutcome(record: Option<R>, requests: nat, sleeps: seq<nat>, raised: bool)

  /** The attempts for the `i`-th id from attempt `k` on. */
  function AttemptsFrom<R>(p: Provider, server: (nat, nat) -> Response<R>, jitter: (nat, nat) -> Jitter, i: nat, k: nat): (o: IdOutcome<R>)
    requires k <= MaxAttempts
    ensures o.requests <= MaxAttempts - k
    ensures k < MaxAttempts ==> o.requests >= 1
    ensures |o.sleeps| <= o.requests
    ensures !(o.record.Some? && o.raised)
    decreases MaxAttempts - k
  {
    if k == MaxAttempts then IdOutcome(None, 0, [], false)
    else
      match StepAt(p, server, jitter, i, k)
      case Store(record) => IdOutcome(Some(record), 1, [], false)
      case Abandon => IdOutcome(None, 1, [], false)
      case RaiseValueError => IdOutcome(None, 1, [], true)
      case Sleep(ms) =>
        var rest := AttemptsFrom(p, server, jitter, i, k + 1);
        IdOutcome(rest.record, 1 + rest.requests, [ms] + rest.sleeps, rest.raised)
  }

  /** The attempts for the `i`-th id. */
  function Attempts<R>(p: Provider, server: (nat, nat) -> Response<R>, jitter: (nat, nat) -> Jitter, i: nat): IdOutcome<R>
  {
    AttemptsFrom(p, server, jitter, i, 0)
  }

  /** What a run over match ids did: the records, the requests per id, every sleep, and whether it raised. */
  datatype Run<R> = Run(records: seq<R>, attempts: seq<nat>, delays: seq<nat>, raised: bool)

  function RecordList<R>(r: Option<R>): seq<R>
  {
    match r
    case Some(x) => [x]
    case None => []
  }

  /**
   * The run over the ids at positions `i` to `n - 1`, given what the attempts
   * for each id do (`outcome(q)` for the id at position `q`); it ends at the
   * first id that raises.
   */
  function RunOver<R>(p: Provider, outcome: nat -> IdOutcome<R>, i: nat, n: nat): (b: Run<R>)
    requires i <= n
    ensures |b.records| <= |b.attempts| <= n - i
    ensures !b.raised ==> |b.attempts| == n - i
    decreases n - i
  {
    if i == n then Run([], [], [], false)
    else
      var o := outcome(i);
      if o.raised then Run([], [o.requests], o.sleeps, true)
      else
        var rest := RunOver(p, outcome, i + 1, n);
        Run(RecordList(o.record) + rest.records, [o.requests] + rest.attempts,
            o.sleeps + [InterRequestDelay(p)] + rest.delays, rest.raised)
  }

  /** The attempts of every id of a batch. */
  function PerId<R>(p: Provider, server: (nat, nat) -> Response<R>, jitter: (nat, nat) -> Jitter): nat -> IdOutcome<R>
  {
    (q: nat) => Attempts(p, server, jitter, q)
  }

  /** The run over a whole batch of `n` match ids. */
  function FetchRun<R>(p: Provider, server: (nat, nat) -> Response<R>, jitter: (nat, nat) -> Jitter, n: nat): Run<R>
  {
    RunOver(p, PerId(p, server, jitter), 0, n)
  }

  /** What has been done, followed by what remains. */
  function Then<R>(done: Run<R>, rest: Run<R>): Run<R>
  {
    Run(done.records + rest.records, done.attempts + rest.attempts, done.delays + rest.delays, rest.raised)
  }

  /** The attempts made so far for one id (`done` requests, `sleeps` taken), followed by the rest. */
  function Resume<R>(done: nat, sleeps: seq<nat>, rest: IdOutcome<R>): IdOutcome<R>
  {
    IdOutcome(rest.record, done + rest.requests, sleeps + rest.sleeps, rest.raised)
  }

  /** One attempt that sleeps, followed by the rest: the unfolding the inner fetch loops step through. */
  lemma AttemptsStep<R>(p: Provider, server: (nat, nat) -> Response<R>, jitter: (nat, nat) -> Jitter, i: nat, k: nat,
                        done: nat, sleeps: seq<nat>)
    requires k < MaxAttempts && StepAt(p, server, jitter, i, k).Sleep?
    ensures Resume(done, sleeps, AttemptsFrom(p, server, jitter, i, k))
         == Resume(done + 1, sleeps + [StepAt(p, server, jitter, i, k).ms], AttemptsFrom(p, server, jitter, i, k + 1))
  {
    var rest := AttemptsFrom(p, server, jitter, i, k + 1);
    assert sleeps + ([StepAt(p, server, jitter, i, k).ms] + rest.sleeps)
        == (sleeps + [StepAt(p, server, jitter, i, k).ms]) + rest.sleeps;
  }

  /** An attempt that does not sleep ends the attempts for its id. */
  lemma AttemptsStop<R>(p: Provider, server: (nat, nat) -> Response<R>, jitter: (nat, nat) -> Jitter, i: nat, k: nat,
                        done: nat, sleeps: seq<nat>)
    requires k < MaxAttempts && !StepAt(p, server, jitter, i, k).Sleep?
    ensures var step := StepAt(p, server, jitter, i, k);
      Resume(done, sleeps, AttemptsFrom(p, server, jitter, i, k))
        == IdOutcome(if step.Store? then Some(step.record) else None, done + 1, sleeps, step.RaiseValueError?)
  {
    assert sleeps + [] == sleeps;
  }

  /** One id that does not raise, followed by the rest of the batch, as the outer fetch loops step through it. */
  lemma RunStep<R>(p: Provider, outcome: nat -> IdOutcome<R>, i: nat, n: nat, done: Run<R>,
                   record: Option<R>, requests: nat, sleeps: seq<nat>)
    requires i < n && outcome(i) == IdOutcome(record, requests, sleeps, false)
    ensures Then(done, RunOver(p, outcome, i, n))
         == Then(Run(done.records + RecordList(record), done.attempts + [requests],
                     done.delays + sleeps + [InterRequestDelay(p)], false),
                 RunOver(p, outcome, i + 1, n))
  {
    var rest := RunOver(p, outcome, i + 1, n);
    assert done.records + (RecordList(record) + rest.records) == (done.records + RecordList(record)) + rest.records;
    assert done.attempts + ([requests] + rest.attempts) == (done.attempts + [requests]) + rest.attempts;
    assert done.delays + (sleeps + [InterRequestDelay(p)] + rest.delays)
        == (done.delays + sleeps + [InterRequestDelay(p)]) + rest.delays;
  }

  /** An id that raises ends the batch. */
  lemma RunRaise<R>(p: Provider, outcome: nat -> IdOutcome<R>, i: nat, n: nat, done: Run<R>,
                    requests: nat, sleeps: seq<nat>)
    requires i < n && outcome(i) == IdOutcome(None, requests, sleeps, true)
    ensures Then(done, RunOver(p, outcome, i, n)) == Run(done.records, done.attempts + [requests], done.delays + sleeps, true)
  {
    assert done.records + [] == done.records;
  }

  /** What a fetch method hands back to its caller. */
  datatype Fetched<R> = Returned(records: seq<R>) | RaisedValueError

  function Outcome<R>(b: Run<R>): Fetched<R>
  {
    if b.raised then RaisedValueError else Returned(b.records)
  }

  /** OpenDota has no 429 branch, so nothing in its attempts raises. */
  lemma {:induction false} OpenDotaNeverRaises<R>(server: (nat, nat) -> Response<R>, jitter: (nat, nat) -> Jitter, i: nat, k: nat)
    requires k <= MaxAttempts
    ensures !AttemptsFrom(OpenDota, server, jitter, i, k).raised
    decreases MaxAttempts - k
  {
    if k < MaxAttempts {
      OpenDotaNeverRaises(server, jitter, i, k + 1);
    }
  }

  /**
   * The `for attempt in range(3)` loop of both fetch methods, for the `i`-th id:
   * it returns the record appended (if any), the number of requests sent, the
   * sleeps taken in order, and whether a ValueError left the loop.
   */
  method FetchMatch<R>(p: Provider, server: (nat, nat) -> Response<R>, jitter: (nat, nat) -> Jitter, i: nat)
    returns (record: Option<R>, requests: nat, sleeps: seq<nat>, raised: bool)
    ensures PerId(p, server, jitter)(i) == IdOutcome(record, requests, sleeps, raised)
    ensures raised ==> record == None
    ensures p == OpenDota ==> !raised
  {
    record, requests, sleeps, raised := None, 0, [], false;
    var attempt := 0;
    while attempt < MaxAttempts
      invariant attempt <= MaxAttempts && requests == attempt
      invariant Attempts(p, server, jitter, i) == Resume(requests, sleeps, AttemptsFrom(p, server, jitter, i, attempt))
    {
      // The if-chain on the response is `StepOf`; what follows acts on its verdict.
      var step := StepOf(p, server(i, attempt), attempt, jitter(i, attempt));
      match step {
        case Sleep(ms) =>
          AttemptsStep(p, server, jitter, i, attempt, requests, sleeps);
          sleeps := sleeps + [ms];
        case Store(body) =>
          AttemptsStop(p, server, jitter, i, attempt, requests, sleeps);
          record, requests := Some(body), requests + 1;
          return;
        case RaiseValueError =>
          AttemptsStop(p, server, jitter, i, attempt, requests, sleeps);
          raised, requests := true, requests + 1;
          return;
        case Abandon =>
          AttemptsStop(p, server, jitter, i, attempt, requests, sleeps);
          requests := requests + 1;
          return;
      }
      requests := requests + 1;
      attempt := attempt + 1;
    }
  }

  /**
   * `fetch_riot_data`: for each id up to 3 attempts; 200 stores the body, 429
   * sleeps Retry-After seconds, another status gives up, a network error backs off;
   * then the 1.2 s pause. `attempts` and `delays` record the requests sent and the
   * sleeps taken, also when a ValueError ends the call.
   */
  method FetchRiotData<Id, R>(matchIds: seq<Id>, server: (nat, nat) -> Response<R>, jitter: (nat, nat) -> Jitter)
    returns (result: Fetched<R>, attempts: seq<nat>, delays: seq<nat>)
    ensures var b := FetchRun(Riot, server, jitter, |matchIds|);
      result == Outcome(b) && attempts == b.attempts && delays == b.delays
  {
    var matchesData: seq<R> := [];
    attempts, delays := [], [];
    ghost var outcome := PerId(Riot, server, jitter);
    ghost var total := FetchRun(Riot, server, jitter, |matchIds|);
    var i := 0;
    while i < |matchIds|
      invariant i <= |matchIds|
      invariant total == Then(Run(matchesData, attempts, delays, false), RunOver(Riot, outcome, i, |matchIds|))
    {
      var record, requests, sleeps, raised := FetchMatch(Riot, server, jitter, i);
      if raised {
        RunRaise(Riot, outcome, i, |matchIds|, Run(matchesData, attempts, delays, false), requests, sleeps);
        return RaisedValueError, attempts + [requests], delays + sleeps;
      }
      RunStep(Riot, outcome, i, |matchIds|, Run(matchesData, attempts, delays, false), record, requests, sleeps);
      matchesData := matchesData + RecordList(record);
      attempts := attempts + [requests];
      delays := delays + sleeps + [InterRequestDelay(Riot)];
      i := i + 1;
    }
    result := Returned(matchesData);
  }

  /**
   * `fetch_dota_data`: as `FetchRiotData`, except that every status other than
   * 200, 429 included, gives up on the id at once and the pause is 1 s; it never raises.
   */
  method FetchDotaData<Id, R>(matchIds: seq<Id>, server: (nat, nat) -> Response<R>, jitter: (nat, nat) -> Jitter)
    returns (records: seq<R>, attempts: seq<nat>, delays: seq<nat>)
    ensures var b := FetchRun(OpenDota, server, jitter, |matchIds|);
      !b.raised && records == b.records && attempts == b.attempts && delays == b.delays
  {
    records, attempts, delays := [], [], [];
    ghost var outcome := PerId(OpenDota, server, jitter);
    ghost var total := FetchRun(OpenDota, server, jitter, |matchIds|);
    var i := 0;
    while i < |matchIds|
      invariant i <= |matchIds|
      invariant total == Then(Run(records, attempts, delays, false), RunOver(OpenDota, outcome, i, |matchIds|))
    {
      var record, requests, sleeps, raised := FetchMatch(OpenDota, server, jitter, i);
      RunStep(OpenDota, outcome, i, |matchIds|, Run(records, attempts, delays, false), record, requests, sleeps);
      records := records + RecordList(record);
      attempts := attempts + [requests];
      delays := delays + sleeps + [InterRequestDelay(OpenDota)];
      i := i + 1;
    }
  }
}
