/** The bounded retry loop around one transport call. The transport is given
    as `send`, the outcome of the call with each attempt number, and the
    randomness of the backoff as `jitter`, one draw per attempt number. */
module Retry {
  import opened Payments
  import opened Backoff

  /** A response status in [400, 500) other than 408 and 429: retrying cannot
      help. A missing status (0) never counts. */
  predicate IsClientError(f: Fault)
    ensures IsClientError(f) ==> f.response.Some? && f.response.value.status / 100 == 4
    ensures f.response.Some? && f.response.value.status in {0, 408, 429} ==> !IsClientError(f)
  {
    f.response.Some? &&
    var status := f.response.value.status;
    status != 0 && 400 <= status < 500 && status != 408 && status != 429
  }

  /** Attempt number `attempt`, with outcome `a`, is the last one the loop makes. */
  predicate Stops(cfg: RetryConfig, attempt: nat, a: Attempt)
  {
    a.Ok? || IsClientError(a.error) || attempt == cfg.maxRetries
  }

  /** The first attempt at or after `k` that ends the loop. */
  function FirstStop(cfg: RetryConfig, send: nat -> Attempt, k: nat): (j: nat)
    requires k <= cfg.maxRetries
    ensures k <= j <= cfg.maxRetries
    ensures Stops(cfg, j, send(j))
    ensures forall i :: k <= i < j ==> !Stops(cfg, i, send(i))
    decreases cfg.maxRetries - k
  {
    if Stops(cfg, k, send(k)) then k else FirstStop(cfg, send, k + 1)
  }

  /** The backoff delays computed after attempts 0 .. n - 1, in order. */
  function DelaysUpTo(cfg: RetryConfig, jitter: nat -> Jitter, n: nat): (ds: seq<nat>)
    ensures |ds| == n
    ensures forall k :: 0 <= k < n ==> ds[k] == BackoffDelay(cfg, k, jitter(k))
  {
    if n == 0 then [] else DelaysUpTo(cfg, jitter, n - 1) + [BackoffDelay(cfg, n - 1, jitter(n - 1))]
  }

  /** What a run of the retry loop returns: its outcome, the number of
      transport calls made and the backoff delays computed, in order. */
  datatype RetryRun = RetryRun(outcome: Attempt, calls: nat, delays: seq<nat>)

  /** The run the loop makes, described without the loop. */
  function RetryPlan(cfg: RetryConfig, send: nat -> Attempt, jitter: nat -> Jitter): (r: RetryRun)
    ensures cfg.maxRetries < 0 ==> r == RetryRun(Err(FallbackFault), 0, [])
    ensures 0 <= cfg.maxRetries ==>
      1 <= r.calls <= cfg.maxRetries + 1 && r.outcome == send(r.calls - 1) &&
      |r.delays| == r.calls - 1 && Stops(cfg, r.calls - 1, send(r.calls - 1))
    ensures forall k :: 0 <= k < |r.delays| ==>
      send(k).Err? && !IsClientError(send(k).error) && r.delays[k] == BackoffDelay(cfg, k, jitter(k))
  {
    if cfg.maxRetries < 0 then RetryRun(Err(FallbackFault), 0, [])
    else
      var last := FirstStop(cfg, send, 0);
      RetryRun(send(last), last + 1, DelaysUpTo(cfg, jitter, last))
  }

  /** `executeWithRetry`: at most maxRetries + 1 attempts, stopping at the
      first success or client error; a backoff delay between attempts. */
  method ExecuteWithRetry(cfg: RetryConfig, send: nat -> Attempt, jitter: nat -> Jitter)
    returns (r: Attempt, calls: nat, delays: seq<nat>)
    ensures RetryRun(r, calls, delays) == RetryPlan(cfg, send, jitter)
  {
    var lastError: Option<Fault> := None;
    calls := 0;
    delays := [];
    var attempt: nat := 0;
    while attempt <= cfg.maxRetries
      invariant 0 <= cfg.maxRetries ==> attempt <= cfg.maxRetries
      invariant cfg.maxRetries < 0 ==> attempt == 0
      invariant calls == attempt
      invariant forall i :: 0 <= i < attempt ==> !Stops(cfg, i, send(i))
      invariant delays == DelaysUpTo(cfg, jitter, attempt)
      invariant lastError == if attempt == 0 then None else Some(send(attempt - 1).error)
      decreases cfg.maxRetries - attempt
    {
      calls := calls + 1;
      var a := send(attempt);
      if a.Ok? {
        r := a;
        return;
      }
      lastError := Some(a.error);
      if IsClientError(a.error) {
        r := a;
        return;
      }
      if attempt == cfg.maxRetries {
        r := a;
        return;
      }
      delays := delays + [BackoffDelay(cfg, attempt, jitter(attempt))];
      attempt := attempt + 1;
    }
    // The loop only falls through when it never ran.
    assert cfg.maxRetries < 0;
    r := Err(match lastError case Some(e) => e case None => FallbackFault);
  }

  /** A failure at attempt k, within budget and after retryable failures only,
      is retried, with the backoff for attempt k computed, exactly when it has
      no response, no status, status 408 or 429, a status of 500 or more, or a
      status below 400. */
  lemma RetriedExactlyWhen(cfg: RetryConfig, send: nat -> Attempt, jitter: nat -> Jitter, k: nat)
    requires k < cfg.maxRetries && send(k).Err?
    requires forall i :: 0 <= i < k ==> send(i).Err? && !IsClientError(send(i).error)
    ensures var f := send(k).error;
      RetryPlan(cfg, send, jitter).calls > k + 1 <==>
        f.response.None? || f.response.value.status in {0, 408, 429} ||
        f.response.value.status >= 500 || f.response.value.status < 400
    ensures RetryPlan(cfg, send, jitter).calls > k + 1 ==>
      RetryPlan(cfg, send, jitter).delays[k] == BackoffDelay(cfg, k, jitter(k))
  {
    var j := FirstStop(cfg, send, 0);
    if Stops(cfg, k, send(k)) {
      assert j == k;
    } else {
      assert j != k;
    }
  }

  /** With the gateway's own policy the loop computes at most three delays,
      after attempts 0, 1 and 2, so the capped part is at most 4000 and every
      delay stays below 5200 in exact arithmetic (at most 5200 once doubles
      round): the cap of 10000 is never reached. */
  lemma DefaultDelaysStayBelowCap(send: nat -> Attempt, jitter: nat -> Jitter)
    ensures var ds := RetryPlan(DefaultRetryConfig, send, jitter).delays;
      |ds| <= 3 && forall k :: 0 <= k < |ds| ==> ds[k] < 5200
  {
    var ds := RetryPlan(DefaultRetryConfig, send, jitter).delays;
    forall k | 0 <= k < |ds|
      ensures ds[k] < 5200
    {
      assert k <= 2;
      assert Pow(2, 0) == 1 && Pow(2, 1) == 2 && Pow(2, 2) == 4;
      assert 0 < ExponentialDelay(DefaultRetryConfig, k) <= 4000;
    }
  }

  /** Overshoot needs no capped attempt: with base 1000, multiplier 2, cap
      10000 and a budget of four retries, a payment failing with 504 every
      time computes the delay after attempt 3 from e = 8000, below the cap,
      and a jitter of 0.29 makes it 10320. */
  lemma LoopOvershootsBeforeCap()
    ensures var cfg := RetryConfig(4, 1000, 10000, 2);
      var fault := Fault(false, None, Some(HttpResponse(504, "Gateway Timeout")), false, false, "");
      var ds := RetryPlan(cfg, (k: nat) => Err(fault), (k: nat) => Fraction(29, 100)).delays;
      ExponentialDelay(cfg, 3) == 8000 && |ds| == 4 && ds[3] == 10320 && ds[3] > cfg.maxDelay
  {
    var cfg := RetryConfig(4, 1000, 10000, 2);
    var fault := Fault(false, None, Some(HttpResponse(504, "Gateway Timeout")), false, false, "");
    RetryableFailuresExhaustBudget(cfg, (k: nat) => Err(fault), (k: nat) => Fraction(29, 100));
    assert Pow(2, 3) == 8;
  }

  /** The first success, after retryable failures only, is returned unchanged
      after exactly k + 1 calls. */
  lemma FirstSuccessReturned(cfg: RetryConfig, send: nat -> Attempt, jitter: nat -> Jitter, k: nat)
    requires k <= cfg.maxRetries && send(k).Ok?
    requires forall i :: 0 <= i < k ==> send(i).Err? && !IsClientError(send(i).error)
    ensures RetryPlan(cfg, send, jitter).calls == k + 1
    ensures RetryPlan(cfg, send, jitter).outcome == send(k)
  {
    var j := FirstStop(cfg, send, 0);
  }

  /** A client error on the first attempt ends the loop there: one call, no
      backoff, that error returned. */
  lemma ClientErrorEndsAtOnce(cfg: RetryConfig, send: nat -> Attempt, jitter: nat -> Jitter)
    requires 0 <= cfg.maxRetries && send(0).Err? && IsClientError(send(0).error)
    ensures RetryPlan(cfg, send, jitter) == RetryRun(send(0), 1, [])
  {
  }

  /** When every attempt fails retryably the whole budget is spent: maxRetries + 1
      calls, maxRetries delays, and the last failure returned. */
  lemma RetryableFailuresExhaustBudget(cfg: RetryConfig, send: nat -> Attempt, jitter: nat -> Jitter)
    requires 0 <= cfg.maxRetries
    requires forall i :: 0 <= i <= cfg.maxRetries ==> send(i).Err? && !IsClientError(send(i).error)
    ensures RetryPlan(cfg, send, jitter).calls == cfg.maxRetries + 1
    ensures RetryPlan(cfg, send, jitter).outcome == send(cfg.maxRetries)
    ensures |RetryPlan(cfg, send, jitter).delays| == cfg.maxRetries
  {
    var j := FirstStop(cfg, send, 0);
    assert send(j).Err? && !IsClientError(send(j).error);
  }
}
