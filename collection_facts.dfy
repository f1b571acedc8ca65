/**
 * What the fetch loops of `DataCollector` guarantee: how many requests each
 * match id gets, which ids contribute a record and in what order, and the
 * exact schedule of sleeps.
 */
module CollectionFacts {
  import opened Wrappers
  import opened DataCollection

  /**
   * The attempts for one id, characterised by `m`, the first attempt from `k` on
   * that does not sleep (3 when all of them sleep): attempts `k` to `m` are
   * sent, one sleep follows each of the attempts before `m`, and attempt `m`
   * alone decides whether a record is kept or a ValueError escapes.
   */
  lemma {:induction false} AttemptsSchedule<R>(p: Provider, server: (nat, nat) -> Response<R>, jitter: (nat, nat) -> Jitter,
                                               i: nat, k: nat, m: nat)
    requires k <= m <= MaxAttempts
    requires forall j :: k <= j < m ==> StepAt(p, server, jitter, i, j).Sleep?
    requires m < MaxAttempts ==> !StepAt(p, server, jitter, i, m).Sleep?
    ensures var o := AttemptsFrom(p, server, jitter, i, k);
      && o.requests == (if m < MaxAttempts then m + 1 else MaxAttempts) - k
      && |o.sleeps| == m - k
      && (forall j :: k <= j < m ==> o.sleeps[j - k] == StepAt(p, server, jitter, i, j).ms)
      && o.record == (if m < MaxAttempts && StepAt(p, server, jitter, i, m).Store?
                      then Some(StepAt(p, server, jitter, i, m).record) else None)
      && o.raised == (m < MaxAttempts && StepAt(p, server, jitter, i, m).RaiseValueError?)
    decreases m - k
  {
    if k < m {
      AttemptsSchedule(p, server, jitter, i, k + 1, m);
      var rest := AttemptsFrom(p, server, jitter, i, k + 1);
      var o := AttemptsFrom(p, server, jitter, i, k);
      assert o.sleeps == [StepAt(p, server, jitter, i, k).ms] + rest.sleeps;
      forall j | k <= j < m
        ensures o.sleeps[j - k] == StepAt(p, server, jitter, i, j).ms
      {
        if j > k {
          assert o.sleeps[j - k] == rest.sleeps[j - (k + 1)];
        }
      }
    }
  }

  /**
   * A 200 on attempt `k`, after `k` attempts that all slept, keeps that body and
   * sends no further request: `k + 1` requests in all.
   */
  lemma OkEndsAttempts<R>(p: Provider, server: (nat, nat) -> Response<R>, jitter: (nat, nat) -> Jitter, i: nat, k: nat)
    requires k < MaxAttempts
    requires forall j :: 0 <= j < k ==> StepAt(p, server, jitter, i, j).Sleep?
    requires server(i, k).Reply? && server(i, k).status == 200
    ensures var o := Attempts(p, server, jitter, i);
      o.record == Some(server(i, k).body) && o.requests == k + 1 && |o.sleeps| == k && !o.raised
  {
    AttemptsSchedule(p, server, jitter, i, 0, k);
  }

  /**
   * A status that is neither 200 nor (for Riot) 429 ends the id after that one
   * request, with nothing kept and nothing raised. For OpenDota this covers 429 too.
   */
  lemma OtherStatusAbandons<R>(p: Provider, server: (nat, nat) -> Response<R>, jitter: (nat, nat) -> Jitter, i: nat, k: nat)
    requires k < MaxAttempts
    requires forall j :: 0 <= j < k ==> StepAt(p, server, jitter, i, j).Sleep?
    requires server(i, k).Reply? && server(i, k).status != 200
    requires p == OpenDota || server(i, k).status != 429
    ensures var o := Attempts(p, server, jitter, i);
      o.record == None && o.requests == k + 1 && |o.sleeps| == k && !o.raised
  {
    AttemptsSchedule(p, server, jitter, i, 0, k);
  }

  /**
   * A Riot 429 whose Retry-After is no integer, or a negative one, raises
   * ValueError out of the fetch after `k + 1` requests.
   */
  lemma BadRetryAfterRaises<R>(server: (nat, nat) -> Response<R>, jitter: (nat, nat) -> Jitter, i: nat, k: nat)
    requires k < MaxAttempts
    requires forall j :: 0 <= j < k ==> StepAt(Riot, server, jitter, i, j).Sleep?
    requires server(i, k).Reply? && server(i, k).status == 429
    requires match RetryAfterSeconds(server(i, k).retryAfter)
             case None => true
             case Some(seconds) => seconds < 0
    ensures var o := Attempts(Riot, server, jitter, i);
      o.raised && o.record == None && o.requests == k + 1 && |o.sleeps| == k
  {
    AttemptsSchedule(Riot, server, jitter, i, 0, k);
  }

  /** The Retry-After a 429 waits: the header's integer, or 2 seconds without the header. */
  predicate WaitsSeconds<R>(r: Response<R>, seconds: nat)
  {
    r.Reply? && r.status == 429 && RetryAfterSeconds(r.retryAfter) == Some(seconds)
  }

  /**
   * Three Riot 429s in a row use up all three attempts and keep nothing; the
   * sleeps are the three Retry-After waits.
   */
  lemma RateLimitedThrice<R>(server: (nat, nat) -> Response<R>, jitter: (nat, nat) -> Jitter, i: nat, s0: nat, s1: nat, s2: nat)
    requires WaitsSeconds(server(i, 0), s0) && WaitsSeconds(server(i, 1), s1) && WaitsSeconds(server(i, 2), s2)
    ensures Attempts(Riot, server, jitter, i) == IdOutcome(None, 3, [1000 * s0, 1000 * s1, 1000 * s2], false)
  {
    AttemptsSchedule(Riot, server, jitter, i, 0, 3);
  }

  /** Two Riot 429s and then a 200 keep the record after exactly three requests. */
  lemma RateLimitedTwiceThenOk<R>(server: (nat, nat) -> Response<R>, jitter: (nat, nat) -> Jitter, i: nat, s0: nat, s1: nat)
    requires WaitsSeconds(server(i, 0), s0) && WaitsSeconds(server(i, 1), s1)
    requires server(i, 2).Reply? && server(i, 2).status == 200
    ensures Attempts(Riot, server, jitter, i) == IdOutcome(Some(server(i, 2).body), 3, [1000 * s0, 1000 * s1], false)
  {
    AttemptsSchedule(Riot, server, jitter, i, 0, 2);
  }

  /** The backoff before attempt `k + 2` is always longer than the one before attempt `k + 1`. */
  lemma BackoffIncreases(k: nat, a: Jitter, b: Jitter)
    ensures BackoffDelay(k, a) < BackoffDelay(k + 1, b)
  {
  }

  /**
   * An id whose every attempt fails at the network level gets three requests
   * and keeps nothing; it sleeps 1 s, 2 s and 4 s plus jitter (after the last
   * attempt too), and these sleeps strictly increase.
   */
  lemma NetworkDownThrice<R>(p: Provider, server: (nat, nat) -> Response<R>, jitter: (nat, nat) -> Jitter, i: nat)
    requires server(i, 0).NetError? && server(i, 1).NetError? && server(i, 2).NetError?
    ensures var o := Attempts(p, server, jitter, i);
      && o == IdOutcome(None, 3, [1000 + jitter(i, 0), 2000 + jitter(i, 1), 4000 + jitter(i, 2)], false)
      && o.sleeps[0] < o.sleeps[1] < o.sleeps[2]
  {
    AttemptsSchedule(p, server, jitter, i, 0, 3);
    assert Pow2(1) == 2 && Pow2(2) == 4;
  }

  /** A run in which no id raises does not raise. */
  lemma {:induction false} RunWithoutRaise<R>(p: Provider, outcome: nat -> IdOutcome<R>, i: nat, n: nat)
    requires i <= n
    requires forall q :: i <= q < n ==> !outcome(q).raised
    ensures !RunOver(p, outcome, i, n).raised
    decreases n - i
  {
    if i < n {
      RunWithoutRaise(p, outcome, i + 1, n);
    }
  }

  /** OpenDota has no 429 branch, so `fetch_dota_data` never raises. */
  lemma OpenDotaFetchNeverRaises<R>(server: (nat, nat) -> Response<R>, jitter: (nat, nat) -> Jitter, n: nat)
    ensures !FetchRun(OpenDota, server, jitter, n).raised
  {
    forall q | 0 <= q < n
      ensures !PerId(OpenDota, server, jitter)(q).raised
    {
      OpenDotaNeverRaises(server, jitter, q, 0);
    }
    RunWithoutRaise(OpenDota, PerId(OpenDota, server, jitter), 0, n);
  }

  /**
   * The run over ids `i` to `n - 1` sends, for each id `q` it reaches, exactly
   * the requests of that id's attempts, and every id it reaches before the last
   * did not raise.
   */
  lemma {:induction false} RunAttempts<R>(p: Provider, outcome: nat -> IdOutcome<R>, i: nat, n: nat)
    requires i <= n
    ensures var b := RunOver(p, outcome, i, n);
      forall q :: i <= q < i + |b.attempts| ==>
        && b.attempts[q - i] == outcome(q).requests
        && (q < i + |b.attempts| - 1 ==> !outcome(q).raised)
    decreases n - i
  {
    if i < n && !outcome(i).raised {
      RunAttempts(p, outcome, i + 1, n);
      var b := RunOver(p, outcome, i, n);
      var rest := RunOver(p, outcome, i + 1, n);
      assert b.attempts == [outcome(i).requests] + rest.attempts;
      forall q | i < q < i + |b.attempts|
        ensures b.attempts[q - i] == outcome(q).requests
      {
        assert b.attempts[q - i] == rest.attempts[q - (i + 1)];
      }
    }
  }

  /** The run reaches every id unless one raises, and it stops at the first id that raises. */
  lemma {:induction false} RunStopsAtRaise<R>(p: Provider, outcome: nat -> IdOutcome<R>, i: nat, n: nat)
    requires i <= n
    ensures var b := RunOver(p, outcome, i, n);
      && (b.raised <==> |b.attempts| > 0 && outcome(i + |b.attempts| - 1).raised)
      && (!b.raised ==> |b.attempts| == n - i)
    decreases n - i
  {
    if i < n && !outcome(i).raised {
      RunStopsAtRaise(p, outcome, i + 1, n);
      var b := RunOver(p, outcome, i, n);
      var rest := RunOver(p, outcome, i + 1, n);
      assert |b.attempts| == 1 + |rest.attempts|;
      assert i + |b.attempts| - 1 == (i + 1) + |rest.attempts| - 1;
    }
  }

  /**
   * Every match id of a batch that the fetch reaches gets between 1 and 3
   * requests: exactly those of its attempts.
   */
  lemma FetchAttemptsBounded<R>(p: Provider, server: (nat, nat) -> Response<R>, jitter: (nat, nat) -> Jitter, n: nat)
    ensures var b := FetchRun(p, server, jitter, n);
      forall q :: 0 <= q < |b.attempts| ==>
        b.attempts[q] == Attempts(p, server, jitter, q).requests && 1 <= b.attempts[q] <= MaxAttempts
  {
    RunAttempts(p, PerId(p, server, jitter), 0, n);
    var b := FetchRun(p, server, jitter, n);
    forall q | 0 <= q < |b.attempts|
      ensures b.attempts[q] == Attempts(p, server, jitter, q).requests && 1 <= b.attempts[q] <= MaxAttempts
    {
      assert b.attempts[q - 0] == PerId(p, server, jitter)(q).requests;
      var o := AttemptsFrom(p, server, jitter, q, 0);
      assert 1 <= o.requests <= MaxAttempts;
    }
  }

  /**
   * The records come from the ids whose attempts kept one, in the order of those
   * ids: `pos[j]` is the position of the id that produced the `j`-th record,
   * positions strictly increase, and every id reached that kept a record is among them.
   */
  lemma {:induction false} RunRecordsInOrder<R>(p: Provider, outcome: nat -> IdOutcome<R>, i: nat, n: nat)
    returns (pos: seq<nat>)
    requires i <= n
    requires forall q :: i <= q < n ==> !(outcome(q).raised && outcome(q).record.Some?)
    ensures var b := RunOver(p, outcome, i, n);
      && |pos| == |b.records|
      && (forall j :: 0 <= j < |pos| ==> i <= pos[j] < i + |b.attempts| && outcome(pos[j]).record == Some(b.records[j]))
      && (forall j1, j2 :: 0 <= j1 < j2 < |pos| ==> pos[j1] < pos[j2])
      && (forall q :: i <= q < i + |b.attempts| && outcome(q).record.Some? ==> q in pos)
    decreases n - i
  {
    if i == n || outcome(i).raised {
      pos := [];
    } else {
      var rest := RunRecordsInOrder(p, outcome, i + 1, n);
      var o := outcome(i);
      pos := (if o.record.Some? then [i] else []) + rest;
      var b := RunOver(p, outcome, i, n);
      var r := RunOver(p, outcome, i + 1, n);
      assert b.records == RecordList(o.record) + r.records;
      forall j | 0 <= j < |pos|
        ensures i <= pos[j] < i + |b.attempts| && outcome(pos[j]).record == Some(b.records[j])
      {
        if o.record.Some? && j > 0 {
          assert pos[j] == rest[j - 1] && b.records[j] == r.records[j - 1];
        }
      }
    }
  }

  /**
   * A fetch keeps the records of the match ids that got a 200, in the order of
   * those ids, and no others.
   */
  lemma FetchRecordsInOrder<R>(p: Provider, server: (nat, nat) -> Response<R>, jitter: (nat, nat) -> Jitter, n: nat)
    returns (pos: seq<nat>)
    ensures var b := FetchRun(p, server, jitter, n);
      && |pos| == |b.records|
      && (forall j :: 0 <= j < |pos| ==> pos[j] < |b.attempts| && Attempts(p, server, jitter, pos[j]).record == Some(b.records[j]))
      && (forall j1, j2 :: 0 <= j1 < j2 < |pos| ==> pos[j1] < pos[j2])
      && (forall q :: 0 <= q < |b.attempts| && Attempts(p, server, jitter, q).record.Some? ==> q in pos)
  {
    var outcome := PerId(p, server, jitter);
    forall q | 0 <= q < n
      ensures !(outcome(q).raised && outcome(q).record.Some?)
    {
      var o := AttemptsFrom(p, server, jitter, q, 0);
      assert !(o.raised && o.record.Some?);
    }
    pos := RunRecordsInOrder(p, outcome, 0, n);
    var b := FetchRun(p, server, jitter, n);
    forall q | 0 <= q < |b.attempts| && Attempts(p, server, jitter, q).record.Some?
      ensures q in pos
    {
      assert outcome(q).record.Some?;
    }
  }

  /** The concatenation of a sequence of sequences. */
  function Concat<T>(ss: seq<seq<T>>): seq<T>
  {
    if ss == [] then [] else ss[0] + Concat(ss[1..])
  }

  /** The part of the delay log one id is responsible for. */
  function Segment<R>(p: Provider, o: IdOutcome<R>): seq<nat>
  {
    o.sleeps + (if o.raised then [] else [InterRequestDelay(p)])
  }

  /**
   * The delay log splits into one segment per id reached: that id's own sleeps,
   * then (unless it raised) exactly one inter-request delay, 1.2 s for Riot and 1 s
   * for OpenDota.
   */
  lemma {:induction false} RunDelaySchedule<R>(p: Provider, outcome: nat -> IdOutcome<R>, i: nat, n: nat)
    returns (segments: seq<seq<nat>>)
    requires i <= n
    ensures var b := RunOver(p, outcome, i, n);
      && |segments| == |b.attempts|
      && Concat(segments) == b.delays
      && (forall q :: i <= q < i + |segments| ==> segments[q - i] == Segment(p, outcome(q)))
    decreases n - i
  {
    if i == n {
      segments := [];
    } else if outcome(i).raised {
      segments := [outcome(i).sleeps];
      assert Concat(segments) == segments[0] + Concat([]);
    } else {
      var rest := RunDelaySchedule(p, outcome, i + 1, n);
      var o := outcome(i);
      var r := RunOver(p, outcome, i + 1, n);
      segments := [Segment(p, o)] + rest;
      assert segments[1..] == rest;
      calc {
        Concat(segments);
        Segment(p, o) + Concat(rest);
        o.sleeps + [InterRequestDelay(p)] + r.delays;
        RunOver(p, outcome, i, n).delays;
      }
      forall q | i < q < i + |segments|
        ensures segments[q - i] == Segment(p, outcome(q))
      {
        assert segments[q - i] == rest[q - (i + 1)];
      }
    }
  }

  /**
   * A fetch's delay log is, id by id, that id's sleeps and then one
   * inter-request delay (none after an id that raised).
   */
  lemma FetchDelaySchedule<R>(p: Provider, server: (nat, nat) -> Response<R>, jitter: (nat, nat) -> Jitter, n: nat)
    returns (segments: seq<seq<nat>>)
    ensures var b := FetchRun(p, server, jitter, n);
      && |segments| == |b.attempts|
      && Concat(segments) == b.delays
      && (forall q :: 0 <= q < |segments| ==> segments[q] == Segment(p, Attempts(p, server, jitter, q)))
  {
    segments := RunDelaySchedule(p, PerId(p, server, jitter), 0, n);
    forall q | 0 <= q < |segments|
      ensures segments[q] == Segment(p, Attempts(p, server, jitter, q))
    {
      assert segments[q - 0] == Segment(p, PerId(p, server, jitter)(q));
    }
  }

  /** A batch never yields more records than it has match ids. */
  lemma RecordsBounded<R>(p: Provider, server: (nat, nat) -> Response<R>, jitter: (nat, nat) -> Jitter, n: nat)
    ensures |FetchRun(p, server, jitter, n).records| <= n
  {
  }

  /** Two ids, the first answered at once with a 200 and the second with a 404: only the first record, one request each. */
  lemma OkThenNotFound<R>(p: Provider, server: (nat, nat) -> Response<R>, jitter: (nat, nat) -> Jitter)
    requires server(0, 0).Reply? && server(0, 0).status == 200
    requires server(1, 0).Reply? && server(1, 0).status == 404
    ensures FetchRun(p, server, jitter, 2)
         == Run([server(0, 0).body], [1, 1], [InterRequestDelay(p), InterRequestDelay(p)], false)
  {
  }
}
