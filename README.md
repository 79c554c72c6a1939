# Payment gateway resilience layer, modelled in Dafny

This project models the resilience core of a payment gateway service. The
service sends each payment to a remote payment API through four layers:

- a **circuit breaker** with the states CLOSED, OPEN and HALF_OPEN. It counts
  failures. It opens at a threshold and rejects calls while OPEN. Once a reset
  timeout has passed it lets one trial call through.
- a **bounded retry loop** that makes at most `maxRetries + 1` transport calls.
  It stops at the first success or at the first client error (a 4xx other than
  408 and 429). Between attempts it computes an exponential backoff delay with
  jitter.
- a **failure queue**. Every failed payment is appended to it, the circuit-open
  rejection included. A bulk retry drains the queue and replays each entry.
- **error normalisation**, which maps the raw failure to the error the caller sees.

The breaker wraps the whole retry loop. So the breaker counts one failure per
failed payment, not one per transport attempt.

Files and modules:

- `payments.dfy` (`Payments`): requests, responses, and the `Fault` record a
  failed call is inspected as. It also holds the two errors the core throws
  itself: the circuit-open error and the line-196 fallback.
- `backoff.dfy` (`Backoff`): the backoff arithmetic over naturals, with the
  jitter as an explicit fraction in [0, 0.3).
- `breaker.dfy` (`Breaker`): the `CircuitBreaker` class. Its fields are updated
  in place. Its methods are specified by value-level step functions on
  `Health`, and the lemmas are about those functions.
- `retry.dfy` (`Retry`): `ExecuteWithRetry`, a `while` loop proved against
  `RetryPlan`, a description of the run without the loop.
- `gateway.dfy` (`Gateway`): the `PaymentGateway` class with its queue. `Pay`
  and `Replay` are value-level descriptions of one payment and of a bulk
  retry. `HandleError` is also here.
- `scenarios.dfy` (`Scenarios`): the behaviours the repository's tests
  exercise. Each one runs on a freshly constructed gateway.

The environment enters as parameters:

- the clock is read at most twice per payment: when an OPEN breaker is
  consulted (`admittedAt`) and when a failure is recorded (`settledAt`);
- the transport is a function from attempt number to outcome (`send`);
- the random source is a function from attempt number to a jitter fraction
  (`jitter`).

Three behaviours of the code are easy to misread. The model follows the code:

- The retry policy's comment says the delay caps at 10 seconds. The code adds
  jitter after the cap, so the delay function can return up to 1.3 times
  `maxDelay`. A delay passes `maxDelay` for some jitter exactly when 1.3
  times the capped part leaves room above it (`Backoff.JitterCanPassCap`),
  and that can happen before the cap binds. With base 1000 and multiplier 2
  the loop computes such a delay once `maxRetries` is at least 4: attempt 3
  has e = 8000 and a jitter of 0.29 gives 10320 (`Retry.LoopOvershootsBeforeCap`).
  With the gateway's own budget of 3 it never does: every delay is at most
  5200 in the code, and below 5200 in the model's exact arithmetic
  (`Retry.DefaultDelaysStayBelowCap`).
- A failed HALF_OPEN trial does not reopen the breaker by itself. `onFailure`
  opens only when the failure count reaches the threshold. A HALF_OPEN
  breaker always has such a count whenever it is in the state
  `Breaker.Consistent` describes: CLOSED exactly when the count is below the
  threshold. With a threshold of at least 1, every sequential run keeps that
  state (`Breaker.ExecuteKeepsConsistent`, `Gateway.ReplayKeepsConsistent`).
- The transport doubles in the tests reject with plain objects. Those are
  neither HTTP-client errors nor `Error` instances, so `handleError` turns
  them into "Unknown payment error". `Scenarios.ClientErrorNotRetried` states
  this.

## Model

| member | source | states |
|---|---|---|
| `Backoff.ExponentialDelay` | src/services/paymentGateway.ts:203-206 | the capped component never exceeds `maxDelay` nor `base * mult^attempt` |
| `Backoff.BackoffDelay` | src/services/paymentGateway.ts:202-211 | the delay lies between the capped component e and 1.3·e, strictly below 1.3·e when e > 0 |
| `Backoff.JitterBounds` | src/services/paymentGateway.ts:209-210 | floor(e + f·e) for a jitter fraction f in [0, 0.3) lies in [e, 1.3·e] |
| `Backoff.ExponentialMonotone` | src/services/paymentGateway.ts:203-206 | for a multiplier ≥ 1 the capped component is non-decreasing in the attempt number |
| `Backoff.BelowCapDelayBounds` | src/services/paymentGateway.ts:202-211 | for a multiplier ≥ 1, up to the attempt where the cap first binds, the delay after attempt i lies between `base * mult^i` and 1.3 times it |
| `Backoff.JitterPastCap` | src/services/paymentGateway.ts:203-210 | once the cap binds, a jitter worth at least one millisecond of `maxDelay` makes the delay exceed `maxDelay` |
| `Backoff.JitterCanPassCap` | src/services/paymentGateway.ts:203-210 | some jitter makes the delay exceed `maxDelay` if and only if 1.3 times the capped part exceeds `maxDelay + 1`; the cap need not bind |
| `Backoff.JitterCanExceedCap` | src/services/paymentGateway.ts:208-210 | jitter is added after the cap: the delay function, for base 1000, multiplier 2 and cap 10000, returns 11000 at attempt 4 with jitter 0.1 |
| `Breaker.ExecuteStep` | src/services/paymentGateway.ts:56-93 | a rejected call changes nothing; an admitted success leaves CLOSED with zero failures; an admitted failure adds one failure stamped with the finish time and opens exactly when the count reaches the threshold |
| `Breaker.ExecuteKeepsConsistent` | src/services/paymentGateway.ts:46-93 | with threshold ≥ 1 the initial breaker is CLOSED-iff-below-threshold and every execute keeps it so |
| `Breaker.TrialDecides` | src/services/paymentGateway.ts:57-93 | once the reset timeout has passed, an OPEN breaker's trial success closes it with zero failures and a trial failure reopens it stamped with the finish time |
| `Breaker.FailuresReachThreshold` | src/services/paymentGateway.ts:85-93 | from CLOSED, consecutive failures are all admitted and counted, and the breaker opens exactly when the count reaches the threshold; once open it rejects every call made before the reset timeout has passed since the last failure |
| `Breaker.CircuitBreaker.constructor` | src/services/paymentGateway.ts:46-54 | a new breaker is CLOSED with zero failures and last failure time 0 |
| `Breaker.CircuitBreaker.Admit` | src/services/paymentGateway.ts:57-65 | OPEN with the timeout unexpired: rejected and unchanged; OPEN with it expired: becomes HALF_OPEN and admitted; otherwise admitted and unchanged |
| `Breaker.CircuitBreaker.OnSuccess` | src/services/paymentGateway.ts:77-83 | the count is zeroed and HALF_OPEN becomes CLOSED |
| `Breaker.CircuitBreaker.OnFailure` | src/services/paymentGateway.ts:85-93 | count + 1, last failure time := now, OPEN when the count reaches the threshold |
| `Breaker.CircuitBreaker.Execute` | src/services/paymentGateway.ts:56-75 | a rejected call returns the circuit-open error without using the operation; an admitted call returns the operation's own outcome unchanged; the new state is one `ExecuteStep` |
| `Retry.IsClientError` | src/services/paymentGateway.ts:171-177 | a client error always has a 4xx response status; a missing response, status 0, 408 and 429 are never client errors |
| `Retry.RetriedExactlyWhen` | src/services/paymentGateway.ts:165-186 | a failure at attempt k below the budget, after retryable failures only, is followed by another attempt and its backoff exactly when it has no response, status 0, 408, 429, a status ≥ 500 or a status below 400 |
| `Retry.FirstStop` | src/services/paymentGateway.ts:157-183 | the index of the first attempt, within budget, that succeeds, is a client error or is the last permitted one |
| `Retry.DelaysUpTo` | src/services/paymentGateway.ts:185-186 | the k-th recorded delay is the backoff for attempt k |
| `Retry.RetryPlan` | src/services/paymentGateway.ts:154-197 | 1 to maxRetries+1 calls; the outcome is the last attempt's own (first success or last error); every earlier attempt was a retryable failure followed by its backoff delay; with maxRetries < 0 no call and the fallback error |
| `Retry.ExecuteWithRetry` | src/services/paymentGateway.ts:154-197 | the loop's result, call count and delays are exactly `RetryPlan`'s; the fallback at line 196 is reached only when maxRetries < 0 |
| `Retry.DefaultDelaysStayBelowCap` | src/services/paymentGateway.ts:157-186 | with the gateway's own policy (3, 1000, 10000, 2) at most three delays are computed and each is below 5200 in exact arithmetic, never near the 10000 cap |
| `Retry.LoopOvershootsBeforeCap` | src/services/paymentGateway.ts:180-210 | with policy (4, 1000, 10000, 2) and 504 on every attempt, the fourth delay is computed from 8000, below the cap, and with jitter 0.29 is 10320, above it |
| `Retry.FirstSuccessReturned` | src/services/paymentGateway.ts:157-164 | a first success at attempt k after retryable failures is returned unchanged after exactly k+1 calls |
| `Retry.ClientErrorEndsAtOnce` | src/services/paymentGateway.ts:170-177 | a client error on the first attempt ends the loop after one call with no backoff computed |
| `Retry.RetryableFailuresExhaustBudget` | src/services/paymentGateway.ts:179-183 | if every attempt fails retryably, maxRetries+1 calls and maxRetries delays are made and the last error is raised |
| `Gateway.HandleError` | src/services/paymentGateway.ts:262-282 | first match: HTTP-client error with code ECONNABORTED, then with a response (status and text kept), then with a request, else the error itself if it is an `Error`, else the unknown error |
| `Gateway.CircuitOpenPassesThrough` | src/services/paymentGateway.ts:63 | the circuit-open rejection reaches the caller as itself |
| `Gateway.Pay` | src/services/paymentGateway.ts:136-149 | one payment is one breaker step: it makes at most `maxRetries + 1` transport calls, none at all with a negative budget, and raises the breaker's failure count by at most one |
| `Gateway.PayCountsOnePerPayment` | src/services/paymentGateway.ts:136-149 | a rejected payment makes no call and leaves the breaker unchanged; an admitted failed payment adds exactly one failure whatever the number of calls; a success leaves CLOSED with zero failures |
| `Gateway.PayKeepsConsistent` | src/services/paymentGateway.ts:136-140 | one payment keeps the breaker CLOSED-iff-below-threshold |
| `Gateway.Replay` | src/services/paymentGateway.ts:238-246 | replaying n snapshot entries makes at most n · (maxRetries + 1) transport calls |
| `Gateway.ReplayFailedInOrder` | src/services/paymentGateway.ts:235-246 | the entries queued again by a replay are snapshot entries in snapshot order, at most as many as the snapshot |
| `Gateway.ReplayWhileOpen` | src/services/paymentGateway.ts:238-246 | replaying while the breaker is OPEN within its timeout makes no call, leaves the breaker unchanged and queues the whole snapshot again in order |
| `Gateway.ReplayKeepsConsistent` | src/services/paymentGateway.ts:238-246 | a replay keeps the breaker CLOSED-iff-below-threshold |
| `Gateway.PaymentGateway.constructor` | src/services/paymentGateway.ts:106-131 | retry policy (3, 1000, 10000, 2), breaker (5, 60000) fresh and CLOSED, empty queue |
| `Gateway.PaymentGateway.ProcessPayment` | src/services/paymentGateway.ts:136-149 | the breaker takes one step for the whole retry run; on any failure, circuit-open included, the request is appended once and the normalised error returned; on success the response is returned unchanged and the queue untouched |
| `Gateway.PaymentGateway.QueueFailedPayment` | src/services/paymentGateway.ts:216-223 | the request is appended at the end; earlier entries keep their order |
| `Gateway.PaymentGateway.RetryFailedPayments` | src/services/paymentGateway.ts:228-247 | an empty queue: no call, nothing changes; otherwise the queue is drained and every snapshot entry replayed in order, the new queue being exactly the entries that failed again |
| `Gateway.PaymentGateway.GetCircuitBreakerStatus` | src/services/paymentGateway.ts:252-257 | reports the breaker state and queue length and changes nothing |
| `Scenarios.SuccessfulPayment` | src/__tests__/paymentGateway.test.ts:39-62 | a successful payment returns the transport's response after one call, nothing queued |
| `Scenarios.RetriesTimeouts` | src/__tests__/paymentGateway.test.ts:64-90 | two timeouts then a success: three calls, the response returned, delays 1000 and 2000 without jitter, nothing queued |
| `Scenarios.ClientErrorNotRetried` | src/__tests__/paymentGateway.test.ts:92-117 | a 400 is tried once, the payment queued and an error returned |
| `Scenarios.TimedOutPaymentQueued` | src/__tests__/paymentGateway.test.ts:119-144 | a payment that always times out makes four calls and is queued once |
| `Scenarios.FiveFailuresOpenCircuit` | src/__tests__/paymentGateway.test.ts:148-175 | five failed payments open the circuit with five queued entries; a sixth payment right after makes no call |

## Left out

- HTTP client construction, the base URL, environment variables, headers and
  the 30-second client timeout (src/services/paymentGateway.ts:109-116) are
  foreign library setup. The transport is the `send` parameter; its timeout
  shows up only as an ECONNABORTED failure.
- Console logging throughout is side output with no logic.
- `sleep` (src/services/paymentGateway.ts:287-289) is not modelled. The
  computed delays are returned instead of waited on.
- `Date.now()` is not modelled. The two clock readings of a payment are the
  parameters `admittedAt` and `settledAt`.
- `Math.random` becomes an explicit jitter fraction in [0, 0.3).
  `Math.pow` and the floating-point `min`/`floor` are computed exactly over
  naturals. Double rounding is not modelled, and it matters at ordinary
  values: for the largest random draws, `e + random * 0.3 * e` rounds up to
  exactly 1.3·e, so the code can return 1.3·e (1300 for e = 1000, 5200 for
  e = 4000).
- BackoffDelay: the strict bound "below 1.3·e when e > 0" holds in the
  model's exact arithmetic only; in the code's doubles the delay can equal 1.3·e.
- DefaultDelaysStayBelowCap: "below 5200" holds in exact arithmetic; in the
  code's doubles the third delay can be exactly 5200.
- JavaScript number semantics are not modelled: non-integral or NaN
  configuration values, and a response whose `status` is undefined rather
  than 0.
- Async interleaving is not modelled. Neither are races between concurrent
  payments on the shared breaker and queue. The model is one sequential caller.
- `execute` takes a closure. Dafny methods are not first-class, so
  `ProcessPayment` inlines it: `Admit`, then the retry loop, then `OnSuccess`
  or `OnFailure`. Its contract is stated with the same `ExecuteStep` that
  `CircuitBreaker.Execute` is proved against. `Execute` itself takes the
  operation's outcome as an input.
- `getState` is `CircuitBreaker.GetState`, a plain field read with no contract
  of its own.
- `HandleError`: gives the caller a `GatewayError` value, not the message text.
  It keeps the status and status text instead of formatting them into a string.
- The singleton export (src/services/paymentGateway.ts:293) is not modelled.
- src/controllers/paymentController.ts and src/routes/paymentRoutes.ts are not
  part of this model. They are HTTP request plumbing around the service.
