/** The payment gateway service: the circuit breaker wraps the whole retry
    loop, every failed payment is queued, and the queue can be replayed. */
module Gateway {
  import opened Payments
  import opened Backoff
  import opened Breaker
  import opened Retry

  /** The error a failed payment surfaces to its caller. */
  datatype GatewayError =
    | GatewayTimeout                                // "Payment gateway timeout after 30 seconds"
    | GatewayStatus(status: int, statusText: string) // "Payment gateway error: <status> - <statusText>"
    | NoResponse                                    // "No response received from payment gateway"
    | Rethrown(fault: Fault)                        // an Error instance, passed through
    | UnknownPaymentError                           // "Unknown payment error"

  /** `handleError`: the first matching case wins, in the order timeout,
      response, request, then pass-through. */
  function HandleError(e: Fault): (r: GatewayError)
    ensures r == GatewayTimeout <==> e.isAxios && e.code == Some(ConnectionAborted)
    ensures r.GatewayStatus? <==> e.isAxios && e.code != Some(ConnectionAborted) && e.response.Some?
    ensures r.GatewayStatus? ==> r.status == e.response.value.status && r.statusText == e.response.value.statusText
    ensures r == NoResponse <==>
      e.isAxios && e.code != Some(ConnectionAborted) && e.response.None? && e.hasRequest
    ensures r.Rethrown? ==> r.fault == e
    ensures r.Rethrown? || r == UnknownPaymentError <==>
      !(e.isAxios && (e.code == Some(ConnectionAborted) || e.response.Some? || e.hasRequest))
    ensures r.Rethrown? ==> e.isErrorInstance
    ensures r == UnknownPaymentError ==> !e.isErrorInstance
  {
    if e.isAxios && e.code == Some(ConnectionAborted) then GatewayTimeout
    else if e.isAxios && e.response.Some? then GatewayStatus(e.response.value.status, e.response.value.statusText)
    else if e.isAxios && e.hasRequest then NoResponse
    else if e.isErrorInstance then Rethrown(e)
    else UnknownPaymentError
  }

  /** The circuit-open rejection reaches the caller unchanged. */
  lemma CircuitOpenPassesThrough()
    ensures HandleError(CircuitOpenFault) == Rethrown(CircuitOpenFault)
  {
  }

  /** What the outside world does during one `processPayment`: the clock when
      the breaker is consulted and when a failure is recorded, the transport's
      outcome for each attempt number, and the jitter drawn for each. */
  datatype Environment = Environment(
    admittedAt: int,
    send: nat -> Attempt,
    jitter: nat -> Jitter,
    settledAt: int)

  /** One payment: the breaker after it, the outcome before normalisation,
      the transport calls made and the backoff delays computed. */
  datatype PaymentRun = PaymentRun(health: Health, outcome: Attempt, calls: nat, delays: seq<nat>)

  /** The most transport calls one payment can make. */
  function CallBudget(rcfg: RetryConfig): nat
  {
    if rcfg.maxRetries < 0 then 0 else rcfg.maxRetries + 1
  }

  /** `processPayment` on values: `execute` of the breaker around the whole
      retry loop, so one payment is one breaker step. */
  function Pay(h: Health, bcfg: BreakerConfig, rcfg: RetryConfig, env: Environment): (p: PaymentRun)
    ensures p.calls <= CallBudget(rcfg)
    ensures p.health.failureCount <= h.failureCount + 1
  {
    if !Admits(h, bcfg, env.admittedAt) then PaymentRun(h, Err(CircuitOpenFault), 0, [])
    else
      var run := RetryPlan(rcfg, env.send, env.jitter);
      PaymentRun(ExecuteStep(h, bcfg, env.admittedAt, env.settledAt, run.outcome.Ok?), run.outcome, run.calls, run.delays)
  }

  /** The breaker counts payments, not transport attempts: an admitted payment
      that fails adds exactly one failure however many calls it made, and a
      successful one leaves the breaker CLOSED with no failures. A rejected
      payment makes no call and changes nothing. */
  lemma PayCountsOnePerPayment(h: Health, bcfg: BreakerConfig, rcfg: RetryConfig, env: Environment)
    ensures var p := Pay(h, bcfg, rcfg, env);
      (!Admits(h, bcfg, env.admittedAt) ==> p == PaymentRun(h, Err(CircuitOpenFault), 0, [])) &&
      (Admits(h, bcfg, env.admittedAt) && p.outcome.Err? ==>
         p.health.failureCount == h.failureCount + 1 && p.health.lastFailureTime == env.settledAt) &&
      (p.outcome.Ok? ==> p.health == Health(Closed, 0, h.lastFailureTime) && 1 <= p.calls)
  {
  }

  /** A payment keeps the breaker's CLOSED-iff-below-threshold invariant. */
  lemma PayKeepsConsistent(h: Health, bcfg: BreakerConfig, rcfg: RetryConfig, env: Environment)
    requires 1 <= bcfg.failureThreshold && Consistent(h, bcfg)
    ensures Consistent(Pay(h, bcfg, rcfg, env).health, bcfg)
  {
    var run := RetryPlan(rcfg, env.send, env.jitter);
    ExecuteKeepsConsistent(h, bcfg, env.admittedAt, env.settledAt, run.outcome.Ok?);
  }

  /** A bulk replay so far: the breaker, the requests queued again and the
      transport calls made. */
  datatype ReplayRun = ReplayRun(health: Health, failed: seq<PaymentRequest>, calls: nat)

  /** The first n entries of `reqs` replayed through `processPayment`, the
      i-th in environment envs(i); each failure is queued again at the end. */
  function Replay(h: Health, bcfg: BreakerConfig, rcfg: RetryConfig, reqs: seq<PaymentRequest>,
                  envs: nat -> Environment, n: nat): (r: ReplayRun)
    requires n <= |reqs|
    ensures r.calls <= n * CallBudget(rcfg)
    decreases n
  {
    if n == 0 then ReplayRun(h, [], 0)
    else
      var prev := Replay(h, bcfg, rcfg, reqs, envs, n - 1);
      var p := Pay(prev.health, bcfg, rcfg, envs(n - 1));
      ReplayRun(p.health, prev.failed + (if p.outcome.Ok? then [] else [reqs[n - 1]]), prev.calls + p.calls)
  }

  /** One more entry of a replay is one more payment. */
  lemma ReplayStep(h: Health, bcfg: BreakerConfig, rcfg: RetryConfig, reqs: seq<PaymentRequest>,
                   envs: nat -> Environment, i: nat, before: ReplayRun)
    requires i < |reqs| && before == Replay(h, bcfg, rcfg, reqs, envs, i)
    ensures var p := Pay(before.health, bcfg, rcfg, envs(i));
      Replay(h, bcfg, rcfg, reqs, envs, i + 1) ==
      ReplayRun(p.health, before.failed + (if p.outcome.Ok? then [] else [reqs[i]]), before.calls + p.calls)
  {
  }

  /** `xs` is `ys` with some elements left out, order kept. */
  predicate Subsequence<T(==)>(xs: seq<T>, ys: seq<T>)
    decreases |ys|
  {
    if ys == [] then xs == []
    else
      (xs != [] && xs[|xs| - 1] == ys[|ys| - 1] && Subsequence(xs[..|xs| - 1], ys[..|ys| - 1])) ||
      Subsequence(xs, ys[..|ys| - 1])
  }

  /** The requests a replay queues again are snapshot entries, in snapshot order. */
  lemma {:induction false} ReplayFailedInOrder(h: Health, bcfg: BreakerConfig, rcfg: RetryConfig,
                                               reqs: seq<PaymentRequest>, envs: nat -> Environment, n: nat)
    requires n <= |reqs|
    ensures Subsequence(Replay(h, bcfg, rcfg, reqs, envs, n).failed, reqs[..n])
    ensures |Replay(h, bcfg, rcfg, reqs, envs, n).failed| <= n
    decreases n
  {
    if n > 0 {
      ReplayFailedInOrder(h, bcfg, rcfg, reqs, envs, n - 1);
      var prev := Replay(h, bcfg, rcfg, reqs, envs, n - 1);
      var r := Replay(h, bcfg, rcfg, reqs, envs, n);
      assert reqs[..n][..n - 1] == reqs[..n - 1];
      if r.failed != prev.failed {
        assert r.failed[..|r.failed| - 1] == prev.failed;
      }
    }
  }

  /** Replaying while the breaker is OPEN and its timeout has not passed for
      any entry makes no transport call, changes nothing in the breaker and
      queues every entry again, in order. */
  lemma {:induction false} ReplayWhileOpen(h: Health, bcfg: BreakerConfig, rcfg: RetryConfig,
                                           reqs: seq<PaymentRequest>, envs: nat -> Environment, n: nat)
    requires n <= |reqs|
    requires h.state == Open
    requires forall i :: 0 <= i < n ==> envs(i).admittedAt - h.lastFailureTime < bcfg.resetTimeout
    ensures Replay(h, bcfg, rcfg, reqs, envs, n) == ReplayRun(h, reqs[..n], 0)
    decreases n
  {
    if n > 0 {
      ReplayWhileOpen(h, bcfg, rcfg, reqs, envs, n - 1);
      assert reqs[..n - 1] + [reqs[n - 1]] == reqs[..n];
    }
  }

  /** A replay keeps the breaker's CLOSED-iff-below-threshold invariant. */
  lemma {:induction false} ReplayKeepsConsistent(h: Health, bcfg: BreakerConfig, rcfg: RetryConfig,
                                                 reqs: seq<PaymentRequest>, envs: nat -> Environment, n: nat)
    requires n <= |reqs|
    requires 1 <= bcfg.failureThreshold && Consistent(h, bcfg)
    ensures Consistent(Replay(h, bcfg, rcfg, reqs, envs, n).health, bcfg)
    decreases n
  {
    if n > 0 {
      ReplayKeepsConsistent(h, bcfg, rcfg, reqs, envs, n - 1);
      PayKeepsConsistent(Replay(h, bcfg, rcfg, reqs, envs, n - 1).health, bcfg, rcfg, envs(n - 1));
    }
  }

  /** What `getCircuitBreakerStatus` reports. */
  datatype Status = Status(state: CircuitState, queuedPayments: nat)

  /** The service object: a breaker and a queue of failed payments. */
  class PaymentGateway {
    const retryConfig: RetryConfig
    const breaker: CircuitBreaker
    var failedQueue: seq<PaymentRequest>

    constructor ()
      ensures retryConfig == DefaultRetryConfig
      ensures fresh(breaker) && breaker.config == DefaultBreakerConfig && breaker.Snapshot() == InitialHealth
      ensures failedQueue == []
    {
      retryConfig := DefaultRetryConfig;
      breaker := new CircuitBreaker(DefaultBreakerConfig);
      failedQueue := [];
    }

    /** `processPayment`: the breaker's `execute` around the retry loop. On any
        failure, the circuit-open rejection included, the request is appended
        to the queue once and the normalised error is returned; on success the
        response comes back unchanged and the queue is untouched. */
    method ProcessPayment(request: PaymentRequest, env: Environment)
      returns (r: Result<PaymentResponse, GatewayError>, calls: nat, delays: seq<nat>)
      modifies this, breaker
      ensures var p := Pay(old(breaker.Snapshot()), breaker.config, retryConfig, env);
        breaker.Snapshot() == p.health && calls == p.calls && delays == p.delays &&
        r == (match p.outcome case Ok(v) => Ok(v) case Err(e) => Err(HandleError(e))) &&
        failedQueue == old(failedQueue) + (if p.outcome.Ok? then [] else [request])
    {
      var admitted := breaker.Admit(env.admittedAt);
      if !admitted {
        QueueFailedPayment(request);
        r, calls, delays := Err(HandleError(CircuitOpenFault)), 0, [];
        return;
      }
      var outcome;
      outcome, calls, delays := ExecuteWithRetry(retryConfig, env.send, env.jitter);
      if outcome.Ok? {
        breaker.OnSuccess();
        r := Ok(outcome.value);
      } else {
        breaker.OnFailure(env.settledAt);
        QueueFailedPayment(request);
        r := Err(HandleError(outcome.error));
      }
    }

    /** `queueFailedPayment`: append at the end. */
    method QueueFailedPayment(request: PaymentRequest)
      modifies this
      ensures failedQueue == old(failedQueue) + [request]
    {
      failedQueue := failedQueue + [request];
    }

    /** `retryFailedPayments`: drain the queue into a snapshot, then replay
        every entry in order; entries that fail again are queued anew. Returns
        the transport calls made. */
    method RetryFailedPayments(envs: nat -> Environment) returns (calls: nat)
      modifies this, breaker
      ensures var run := Replay(old(breaker.Snapshot()), breaker.config, retryConfig, old(failedQueue), envs, |old(failedQueue)|);
        breaker.Snapshot() == run.health && failedQueue == run.failed && calls == run.calls
      ensures old(failedQueue) == [] ==> calls == 0 && failedQueue == [] && breaker.Snapshot() == old(breaker.Snapshot())
    {
      calls := 0;
      if |failedQueue| == 0 {
        return;
      }
      ghost var h0 := breaker.Snapshot();
      var queue := failedQueue;
      failedQueue := [];
      var i := 0;
      while i < |queue|
        invariant 0 <= i <= |queue|
        invariant breaker.Snapshot() == Replay(h0, breaker.config, retryConfig, queue, envs, i).health
        invariant failedQueue == Replay(h0, breaker.config, retryConfig, queue, envs, i).failed
        invariant calls == Replay(h0, breaker.config, retryConfig, queue, envs, i).calls
      {
        ghost var before := Replay(h0, breaker.config, retryConfig, queue, envs, i);
        var _, c, _ := ProcessPayment(queue[i], envs(i));
        ReplayStep(h0, breaker.config, retryConfig, queue, envs, i, before);
        calls := calls + c;
        i := i + 1;
      }
    }

    /** `getCircuitBreakerStatus`: reads the breaker state and the queue length. */
    method GetCircuitBreakerStatus() returns (s: Status)
      ensures s.state == breaker.GetState() && s.queuedPayments == |failedQueue|
    {
      s := Status(breaker.GetState(), |failedQueue|);
    }
  }
}
