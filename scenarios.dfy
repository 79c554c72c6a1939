/** The behaviours the gateway's own tests exercise, replayed on a freshly
    constructed gateway. The transport doubles there reject with plain objects,
    which are neither HTTP-client errors nor `Error` instances. */
module Scenarios {
  import opened Payments
  import opened Backoff
  import opened Breaker
  import opened Retry
  import opened Gateway

  const Order: PaymentRequest := PaymentRequest(100.0, "USD", "cust_123", "order_123", None)

  const Timeout: Fault := Fault(false, Some(ConnectionAborted), None, false, false, "timeout")
  const BadRequest: Fault := Fault(false, None, Some(HttpResponse(400, "Bad Request")), false, false, "")
  const GatewayTimeout504: Fault := Fault(false, None, Some(HttpResponse(504, "Gateway Timeout")), false, false, "")

  const NoJitter: nat -> Jitter := (k: nat) => Fraction(0, 1)

  /** A transport that answers every attempt the same way, at time 0. */
  function Always(a: Attempt): Environment
  {
    Environment(0, (k: nat) => a, NoJitter, 0)
  }

  /** A successful payment returns the transport's response after one call and queues nothing. */
  method SuccessfulPayment() returns (r: Result<PaymentResponse, GatewayError>, calls: nat, queued: nat)
    ensures r == Ok(PaymentResponse("txn_123", Success, None)) && calls == 1 && queued == 0
  {
    var g := new PaymentGateway();
    var response := PaymentResponse("txn_123", Success, None);
    var delays;
    r, calls, delays := g.ProcessPayment(Order, Always(Ok(response)));
    var s := g.GetCircuitBreakerStatus();
    queued := s.queuedPayments;
  }

  /** Two timeouts then a success: three calls, the response returned, two
      backoff delays of 1000 and 2000 without jitter, nothing queued. */
  method RetriesTimeouts() returns (r: Result<PaymentResponse, GatewayError>, calls: nat, delays: seq<nat>, queued: nat)
    ensures r == Ok(PaymentResponse("txn_456", Success, None))
    ensures calls == 3 && delays == [1000, 2000] && queued == 0
  {
    var g := new PaymentGateway();
    var response := PaymentResponse("txn_456", Success, None);
    var send := (k: nat) => if k < 2 then Err(Timeout) else Ok(response);
    FirstSuccessReturned(DefaultRetryConfig, send, NoJitter, 2);
    assert Pow(2, 1) == 2;
    r, calls, delays := g.ProcessPayment(Order, Environment(0, send, NoJitter, 0));
    var s := g.GetCircuitBreakerStatus();
    queued := s.queuedPayments;
  }

  /** A 400 is not retried: one call, the payment queued, the error normalised. */
  method ClientErrorNotRetried() returns (r: Result<PaymentResponse, GatewayError>, calls: nat, queued: nat)
    ensures r == Err(UnknownPaymentError) && calls == 1 && queued == 1
  {
    var g := new PaymentGateway();
    var env := Always(Err(BadRequest));
    ClientErrorEndsAtOnce(DefaultRetryConfig, env.send, env.jitter);
    var delays;
    r, calls, delays := g.ProcessPayment(Order, env);
    var s := g.GetCircuitBreakerStatus();
    queued := s.queuedPayments;
  }

  /** A payment that times out on every attempt spends the whole budget of
      four calls and is queued once. */
  method TimedOutPaymentQueued() returns (calls: nat, s: Status)
    ensures calls == 4 && s == Status(Closed, 1)
  {
    var g := new PaymentGateway();
    var env := Always(Err(Timeout));
    RetryableFailuresExhaustBudget(DefaultRetryConfig, env.send, env.jitter);
    var _, c, _ := g.ProcessPayment(Order, env);
    calls := c;
    s := g.GetCircuitBreakerStatus();
  }

  /** Five payments failing with 504 open the circuit and fill the queue with
      five entries; a sixth payment right after makes no transport call. */
  method FiveFailuresOpenCircuit() returns (s: Status, sixthCalls: nat)
    ensures s == Status(Open, 5) && sixthCalls == 0
  {
    var g := new PaymentGateway();
    var env := Always(Err(GatewayTimeout504));
    RetryableFailuresExhaustBudget(DefaultRetryConfig, env.send, env.jitter);
    var i := 0;
    while i < 5
      invariant 0 <= i <= 5
      invariant g.retryConfig == DefaultRetryConfig && g.breaker.config == DefaultBreakerConfig
      invariant g.breaker.Snapshot() == Health(if i < 5 then Closed else Open, i, 0)
      invariant |g.failedQueue| == i
    {
      var _, _, _ := g.ProcessPayment(Order, env);
      i := i + 1;
    }
    s := g.GetCircuitBreakerStatus();
    var _, c, _ := g.ProcessPayment(Order, env);
    sixthCalls := c;
  }
}
