/** The retry policy around a request: which errors are retried, how long
    to wait before the next attempt, and the bounded attempt loop. Each
    attempt's outcome and each backoff's race against the context are
    inputs: `send(k)` is the result of attempt k, and `cancelled(k)` is the
    context's error when the context ends during the backoff after attempt
    k, or None when the timer fires first. Durations are nanoseconds. */
module Retry {
  import opened Json
  import opened Errors

  const Second: nat := 1_000_000_000

  /** The backoff multiplier is a whole number here (a float64 in Go). */
  datatype RetryConfig = RetryConfig(
    maxRetries: int, initialBackoff: nat, maxBackoff: nat, multiplier: nat, retryableStatusCodes: set<int>)

  const DefaultRetryConfig := RetryConfig(3, 1 * Second, 30 * Second, 2, {429, 500, 502, 503, 504})

  /** RetryConfig.shouldRetry: only an APIError whose status is listed as
      retryable is retried, and never by a missing config or one allowing
      no retries. */
  function ShouldRetry(rc: Option<RetryConfig>, err: Error): (b: bool)
    ensures b <==> rc.Some? && rc.value.maxRetries != 0 && err.API? && err.api.statusCode in rc.value.retryableStatusCodes
  {
    if rc.None? || rc.value.maxRetries == 0 then false
    else if err.API? then err.api.statusCode in rc.value.retryableStatusCodes
    else false
  }

  /** The default config retries exactly the transient statuses. */
  lemma DefaultRetriesTransientStatuses(err: Error)
    ensures ShouldRetry(Some(DefaultRetryConfig), err) <==>
      err.API? && err.api.statusCode in {429, 500, 502, 503, 504}
    ensures err.API? && err.api.statusCode in {400, 401, 404} ==> !ShouldRetry(Some(DefaultRetryConfig), err)
  {
  }

  function Pow(base: nat, k: nat): nat
  {
    if k == 0 then 1 else base * Pow(base, k - 1)
  }

  lemma {:induction false} PowMonotone(base: nat, k: nat)
    requires base >= 1
    ensures Pow(base, k) <= Pow(base, k + 1)
    ensures Pow(base, k) >= 1
  {
    if k > 0 {
      PowMonotone(base, k - 1);
    }
  }

  function Min(a: nat, b: nat): nat
  {
    if a <= b then a else b
  }

  /** RetryConfig.calculateBackoff: initial · multiplier^attempt, capped at
      the maximum; zero without a config. */
  function CalculateBackoff(rc: Option<RetryConfig>, attempt: nat): (d: nat)
    ensures rc.None? ==> d == 0
    ensures rc.Some? ==> d <= rc.value.maxBackoff
    ensures rc.Some? ==> d == Min(rc.value.initialBackoff * Pow(rc.value.multiplier, attempt), rc.value.maxBackoff)
  {
    if rc.None? then 0
    else
      var backoff := rc.value.initialBackoff * Pow(rc.value.multiplier, attempt);
      if backoff > rc.value.maxBackoff then rc.value.maxBackoff else backoff
  }

  /** With a multiplier of at least one the backoff never shrinks. */
  lemma BackoffNonDecreasing(rc: RetryConfig, attempt: nat)
    requires rc.multiplier >= 1
    ensures CalculateBackoff(Some(rc), attempt) <= CalculateBackoff(Some(rc), attempt + 1)
  {
    PowMonotone(rc.multiplier, attempt);
    ScaleMonotone(rc.initialBackoff, Pow(rc.multiplier, attempt), Pow(rc.multiplier, attempt + 1));
  }

  lemma ScaleMonotone(a: nat, p: nat, q: nat)
    requires p <= q
    ensures a * p <= a * q
  {
    assert a * q == a * p + a * (q - p);
  }

  /** The default schedule: 1, 2, 4, 8, 16 seconds, then 30 seconds from the
      fifth retry on. */
  lemma DefaultBackoffSchedule()
    ensures CalculateBackoff(Some(DefaultRetryConfig), 0) == 1 * Second
    ensures CalculateBackoff(Some(DefaultRetryConfig), 1) == 2 * Second
    ensures CalculateBackoff(Some(DefaultRetryConfig), 2) == 4 * Second
    ensures CalculateBackoff(Some(DefaultRetryConfig), 3) == 8 * Second
    ensures CalculateBackoff(Some(DefaultRetryConfig), 4) == 16 * Second
    ensures CalculateBackoff(Some(DefaultRetryConfig), 5) == 30 * Second
    ensures CalculateBackoff(Some(DefaultRetryConfig), 10) == 30 * Second
  {
    assert Pow(2, 5) == 32;
    assert Pow(2, 10) == 1024;
  }

  /** The retry budget the loop reads from the client: zero without a config. */
  function MaxRetries(rc: Option<RetryConfig>): int
  {
    if rc.Some? then rc.value.maxRetries else 0
  }

  /** Whether the loop backs off after a failed attempt k with error e. */
  predicate RetriesAfter(rc: Option<RetryConfig>, k: nat, e: Error)
  {
    k < MaxRetries(rc) && rc.Some? && ShouldRetry(rc, e)
  }

  /** What the loop returns: the body or the error, how many attempts it
      made, and the backoffs it started, in order. */
  datatype Outcome = Outcome(body: Option<string>, err: Option<Error>, attempts: nat, waits: seq<nat>)

  /** The loop from attempt `attempt` on, with `lastErr` the last error seen. */
  function RetryFrom(
    rc: Option<RetryConfig>, send: nat -> Result<string, Error>, cancelled: nat -> Option<string>,
    attempt: nat, lastErr: Option<Error>): Outcome
    decreases MaxRetries(rc) + 1 - attempt
  {
    if attempt > MaxRetries(rc) then Outcome(None, lastErr, attempt, [])
    else match send(attempt)
      case Ok(body) => Outcome(Some(body), None, attempt + 1, [])
      case Err(e) =>
        if RetriesAfter(rc, attempt, e) then
          var backoff := CalculateBackoff(rc, attempt);
          if cancelled(attempt).Some? then Outcome(None, Some(RetryCancelled(cancelled(attempt).value)), attempt + 1, [backoff])
          else
            var rest := RetryFrom(rc, send, cancelled, attempt + 1, Some(e));
            rest.(waits := [backoff] + rest.waits)
        else Outcome(None, Some(e), attempt + 1, [])
  }

  function RetryOutcome(rc: Option<RetryConfig>, send: nat -> Result<string, Error>, cancelled: nat -> Option<string>): Outcome
  {
    RetryFrom(rc, send, cancelled, 0, None)
  }

  /** Client.doRequestWithRetry. */
  method DoRequestWithRetry(rc: Option<RetryConfig>, send: nat -> Result<string, Error>, cancelled: nat -> Option<string>)
    returns (body: Option<string>, err: Option<Error>, attempts: nat, waits: seq<nat>)
    ensures Outcome(body, err, attempts, waits) == RetryOutcome(rc, send, cancelled)
  {
    var lastErr: Option<Error> := None;
    var maxRetries := 0;
    if rc.Some? {
      maxRetries := rc.value.maxRetries;
    }
    waits := [];
    attempts := 0;
    var attempt: nat := 0;
    while attempt <= maxRetries
      invariant maxRetries == MaxRetries(rc) && attempts == attempt
      invariant var o := RetryFrom(rc, send, cancelled, attempt, lastErr);
        RetryOutcome(rc, send, cancelled) == o.(waits := waits + o.waits)
      decreases maxRetries + 1 - attempt
    {
      var result := send(attempt);
      attempts := attempt + 1;
      if result.Ok? {
        body, err := Some(result.value), None;
        return;
      }
      lastErr := Some(result.error);
      if attempt < maxRetries && rc.Some? && ShouldRetry(rc, result.error) {
        var backoff := CalculateBackoff(rc, attempt);
        waits := waits + [backoff];
        if cancelled(attempt).Some? {
          body, err := None, Some(RetryCancelled(cancelled(attempt).value));
          return;
        }
      } else {
        break;
      }
      attempt := attempt + 1;
    }
    body, err := None, lastErr;
  }

  // ----- what the loop guarantees -----

  /** The result of the attempt that ended the loop. */
  predicate EndsWith(rc: Option<RetryConfig>, send: nat -> Result<string, Error>, cancelled: nat -> Option<string>, k: nat, o: Outcome)
  {
    match send(k)
    case Ok(b) => o.body == Some(b) && o.err.None?
    case Err(e) =>
      && o.body.None?
      && if RetriesAfter(rc, k, e) then cancelled(k).Some? && o.err == Some(RetryCancelled(cancelled(k).value))
         else o.err == Some(e)
  }

  /** Attempt j failed, was retryable, and its backoff ran to the end. */
  predicate RetriedAfter(rc: Option<RetryConfig>, send: nat -> Result<string, Error>, cancelled: nat -> Option<string>, j: nat)
  {
    send(j).Err? && RetriesAfter(rc, j, send(j).error) && cancelled(j).None?
  }

  lemma {:induction false} RetryFromShape(
    rc: Option<RetryConfig>, send: nat -> Result<string, Error>, cancelled: nat -> Option<string>,
    attempt: nat, lastErr: Option<Error>)
    requires attempt <= MaxRetries(rc)
    ensures var o := RetryFrom(rc, send, cancelled, attempt, lastErr);
      && attempt < o.attempts <= MaxRetries(rc) + 1
      && (forall j :: attempt <= j < o.attempts - 1 ==> RetriedAfter(rc, send, cancelled, j))
      && EndsWith(rc, send, cancelled, o.attempts - 1, o)
    decreases MaxRetries(rc) + 1 - attempt
  {
    var o := RetryFrom(rc, send, cancelled, attempt, lastErr);
    if send(attempt).Err? && RetriesAfter(rc, attempt, send(attempt).error) && cancelled(attempt).None? {
      RetryFromShape(rc, send, cancelled, attempt + 1, Some(send(attempt).error));
    }
  }

  /** The whole run: with a non-negative budget the loop makes between one
      and MaxRetries+1 attempts; every attempt but the last failed with a
      retryable error and its backoff completed; the last one decides the
      result: its body on success, the wrapped context error when the
      context ended during its backoff, and otherwise its own error, which
      is the last error observed. */
  lemma RetryRun(rc: Option<RetryConfig>, send: nat -> Result<string, Error>, cancelled: nat -> Option<string>)
    requires MaxRetries(rc) >= 0
    ensures var o := RetryOutcome(rc, send, cancelled);
      && 1 <= o.attempts <= MaxRetries(rc) + 1
      && (forall j :: 0 <= j < o.attempts - 1 ==> RetriedAfter(rc, send, cancelled, j))
      && EndsWith(rc, send, cancelled, o.attempts - 1, o)
  {
    RetryFromShape(rc, send, cancelled, 0, None);
  }

  /** The attempt k failed with an error the loop retries, so a backoff began. */
  predicate BackoffAfter(rc: Option<RetryConfig>, send: nat -> Result<string, Error>, k: nat)
  {
    send(k).Err? && RetriesAfter(rc, k, send(k).error)
  }

  lemma {:induction false} RetryFromWaits(
    rc: Option<RetryConfig>, send: nat -> Result<string, Error>, cancelled: nat -> Option<string>,
    attempt: nat, lastErr: Option<Error>)
    requires attempt <= MaxRetries(rc)
    ensures var o := RetryFrom(rc, send, cancelled, attempt, lastErr);
      && attempt < o.attempts
      && (forall i :: 0 <= i < |o.waits| ==> o.waits[i] == CalculateBackoff(rc, attempt + i))
      && attempt + |o.waits| == (if BackoffAfter(rc, send, o.attempts - 1) then o.attempts else o.attempts - 1)
    decreases MaxRetries(rc) + 1 - attempt
  {
    if send(attempt).Err? && RetriesAfter(rc, attempt, send(attempt).error) && cancelled(attempt).None? {
      RetryFromWaits(rc, send, cancelled, attempt + 1, Some(send(attempt).error));
    }
  }

  /** Before attempt k+1 the loop waits CalculateBackoff(rc, k): it waits
      once per retry, plus once more when the last attempt's backoff was cut
      short by the context. */
  lemma RetryWaits(rc: Option<RetryConfig>, send: nat -> Result<string, Error>, cancelled: nat -> Option<string>)
    requires MaxRetries(rc) >= 0
    ensures var o := RetryOutcome(rc, send, cancelled);
      && (forall k :: 0 <= k < |o.waits| ==> o.waits[k] == CalculateBackoff(rc, k))
      && 1 <= o.attempts
      && |o.waits| == (if BackoffAfter(rc, send, o.attempts - 1) then o.attempts else o.attempts - 1)
  {
    RetryFromWaits(rc, send, cancelled, 0, None);
  }

  /** Without a config the request is sent once and its result returned. */
  lemma NoConfigSingleAttempt(send: nat -> Result<string, Error>, cancelled: nat -> Option<string>)
    ensures var o := RetryOutcome(None, send, cancelled);
      && o.attempts == 1 && o.waits == []
      && (send(0).Ok? ==> o.body == Some(send(0).value) && o.err.None?)
      && (send(0).Err? ==> o.body.None? && o.err == Some(send(0).error))
  {
  }

  /** A negative budget sends nothing and returns neither body nor error. */
  lemma NegativeBudgetSendsNothing(rc: RetryConfig, send: nat -> Result<string, Error>, cancelled: nat -> Option<string>)
    requires rc.maxRetries < 0
    ensures RetryOutcome(Some(rc), send, cancelled) == Outcome(None, None, 0, [])
  {
  }

  /** A non-retryable first error is returned after one attempt, whatever the config. */
  lemma NonRetryableStopsAtOnce(rc: Option<RetryConfig>, send: nat -> Result<string, Error>, cancelled: nat -> Option<string>)
    requires MaxRetries(rc) >= 0 && send(0).Err? && !ShouldRetry(rc, send(0).error)
    ensures RetryOutcome(rc, send, cancelled) == Outcome(None, Some(send(0).error), 1, [])
  {
  }

  function Unavailable(): Error
  {
    API(APIError(503, "GET", "test/endpoint", "", "", [ErrorDetail("service unavailable", 0)]))
  }

  /** A server that answers 503 twice and then succeeds. */
  function FlakyServer(k: nat): Result<string, Error>
  {
    if k < 2 then Err(Unavailable()) else Ok("{\"result\": []}")
  }

  /** A context that never ends. */
  function NeverCancelled(k: nat): Option<string>
  {
    None
  }

  /** Two 503 answers and then a success, with three retries allowed for
      503: three attempts, the third body, and backoffs of 10 and 20 ms. */
  lemma TransientFailuresThenSuccess()
    ensures var o := RetryOutcome(Some(RetryConfig(3, 10_000_000, 100_000_000, 2, {503})), FlakyServer, NeverCancelled);
      o.attempts == 3 && o.body == Some("{\"result\": []}") && o.err.None? && o.waits == [10_000_000, 20_000_000]
  {
    var rc := Some(RetryConfig(3, 10_000_000, 100_000_000, 2, {503}));
    assert Pow(2, 1) == 2;
    var third := RetryFrom(rc, FlakyServer, NeverCancelled, 2, Some(Unavailable()));
    assert third == Outcome(Some("{\"result\": []}"), None, 3, []);
    var second := RetryFrom(rc, FlakyServer, NeverCancelled, 1, Some(Unavailable()));
    assert second == third.(waits := [20_000_000]);
  }
}
