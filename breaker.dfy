/** The circuit breaker in front of the payment service: a three-state machine
    that fails fast while the service is believed down and lets one trial call
    through once the reset timeout has passed. */
module Breaker {
  import opened Payments

  datatype CircuitState = Closed | Open | HalfOpen

  datatype BreakerConfig = BreakerConfig(failureThreshold: int, resetTimeout: int)

  /** The configuration the gateway builds its breaker with. */
  const DefaultBreakerConfig: BreakerConfig := BreakerConfig(5, 60000)

  /** The breaker's fields as a value. */
  datatype Health = Health(state: CircuitState, failureCount: nat, lastFailureTime: int)

  const InitialHealth: Health := Health(Closed, 0, 0)

  /** Whether `execute` at time `now` runs the operation rather than rejecting it. */
  predicate Admits(h: Health, cfg: BreakerConfig, now: int)
  {
    h.state != Open || now - h.lastFailureTime >= cfg.resetTimeout
  }

  /** The gate at the top of `execute`: an OPEN breaker whose timeout has passed
      becomes HALF_OPEN; nothing else changes. */
  function AdmitStep(h: Health, cfg: BreakerConfig, now: int): Health
  {
    if h.state == Open && Admits(h, cfg, now) then h.(state := HalfOpen) else h
  }

  /** `onSuccess`: the count is zeroed and a HALF_OPEN breaker closes. */
  function SuccessStep(h: Health): Health
  {
    Health(if h.state == HalfOpen then Closed else h.state, 0, h.lastFailureTime)
  }

  /** `onFailure` at time `now`: one more failure, stamped; OPEN once the
      count reaches the threshold. */
  function FailureStep(h: Health, cfg: BreakerConfig, now: int): Health
  {
    var count := h.failureCount + 1;
    Health(if count >= cfg.failureThreshold then Open else h.state, count, now)
  }

  /** One whole `execute`: admitted at `now` or rejected; if admitted, the
      operation's outcome (`ok`) is recorded at `doneAt`. */
  function ExecuteStep(h: Health, cfg: BreakerConfig, now: int, doneAt: int, ok: bool): (r: Health)
    ensures !Admits(h, cfg, now) ==> r == h
    ensures Admits(h, cfg, now) && ok ==> r == Health(Closed, 0, h.lastFailureTime)
    ensures Admits(h, cfg, now) && !ok ==>
      r.failureCount == h.failureCount + 1 && r.lastFailureTime == doneAt &&
      (r.state == Open <==> h.failureCount + 1 >= cfg.failureThreshold) &&
      (r.state != Open ==> r.state == if h.state == Closed then Closed else HalfOpen)
  {
    if !Admits(h, cfg, now) then h
    else
      var g := AdmitStep(h, cfg, now);
      if ok then SuccessStep(g) else FailureStep(g, cfg, doneAt)
  }

  /** The breaker is CLOSED exactly while fewer failures than the threshold
      have been counted. */
  ghost predicate Consistent(h: Health, cfg: BreakerConfig)
  {
    h.state == Closed <==> h.failureCount < cfg.failureThreshold
  }

  /** With a threshold of at least one, the initial breaker is consistent and
      every `execute` keeps it so. */
  lemma ExecuteKeepsConsistent(h: Health, cfg: BreakerConfig, now: int, doneAt: int, ok: bool)
    requires 1 <= cfg.failureThreshold
    ensures Consistent(InitialHealth, cfg)
    ensures Consistent(h, cfg) ==> Consistent(ExecuteStep(h, cfg, now, doneAt, ok), cfg)
  {
  }

  /** An OPEN breaker whose timeout has passed lets a trial through: success
      closes it with no failures, failure reopens it stamped `doneAt`. */
  lemma TrialDecides(h: Health, cfg: BreakerConfig, now: int, doneAt: int)
    requires Consistent(h, cfg)
    requires h.state == Open && now - h.lastFailureTime >= cfg.resetTimeout
    ensures ExecuteStep(h, cfg, now, doneAt, true) == Health(Closed, 0, h.lastFailureTime)
    ensures ExecuteStep(h, cfg, now, doneAt, false) == Health(Open, h.failureCount + 1, doneAt)
  {
  }

  /** A sequence of failed `execute` calls, the i-th at time times[i]. */
  function AfterFailures(h: Health, cfg: BreakerConfig, times: seq<int>): Health
    decreases |times|
  {
    if times == [] then h
    else AfterFailures(ExecuteStep(h, cfg, times[0], times[0], false), cfg, times[1..])
  }

  /** From CLOSED, consecutive failures are all admitted and counted; the
      breaker opens exactly when the count reaches the threshold, and then
      rejects any call made before the reset timeout. */
  lemma {:induction false} FailuresReachThreshold(h: Health, cfg: BreakerConfig, times: seq<int>)
    requires h.state == Closed && h.failureCount + |times| <= cfg.failureThreshold
    requires times != []
    ensures AfterFailures(h, cfg, times).failureCount == h.failureCount + |times|
    ensures AfterFailures(h, cfg, times).lastFailureTime == times[|times| - 1]
    ensures AfterFailures(h, cfg, times).state == Open <==> h.failureCount + |times| == cfg.failureThreshold
    ensures AfterFailures(h, cfg, times).state != Open ==> AfterFailures(h, cfg, times).state == Closed
    ensures AfterFailures(h, cfg, times).state == Open ==>
      forall now :: now - times[|times| - 1] < cfg.resetTimeout ==> !Admits(AfterFailures(h, cfg, times), cfg, now)
    decreases |times|
  {
    var g := ExecuteStep(h, cfg, times[0], times[0], false);
    if |times| > 1 {
      FailuresReachThreshold(g, cfg, times[1..]);
      assert times[1..][|times[1..]| - 1] == times[|times| - 1];
    }
  }

  /** The breaker object: its three fields are updated in place. */
  class CircuitBreaker {
    var state: CircuitState
    var failureCount: nat
    var lastFailureTime: int
    const config: BreakerConfig

    constructor (config: BreakerConfig)
      ensures this.config == config && Snapshot() == InitialHealth
    {
      this.config := config;
      state := Closed;
      failureCount := 0;
      lastFailureTime := 0;
    }

    function Snapshot(): Health
      reads this
    {
      Health(state, failureCount, lastFailureTime)
    }

    function GetState(): CircuitState
      reads this
    {
      state
    }

    /** The gate at the top of `execute`; `admitted` is false exactly when the
        call is rejected with the circuit-open error. */
    method Admit(now: int) returns (admitted: bool)
      modifies this
      ensures admitted == Admits(old(Snapshot()), config, now)
      ensures Snapshot() == AdmitStep(old(Snapshot()), config, now)
    {
      admitted := true;
      if state == Open {
        if now - lastFailureTime >= config.resetTimeout {
          state := HalfOpen;
        } else {
          admitted := false;
        }
      }
    }

    method OnSuccess()
      modifies this
      ensures Snapshot() == SuccessStep(old(Snapshot()))
    {
      failureCount := 0;
      if state == HalfOpen {
        state := Closed;
      }
    }

    method OnFailure(now: int)
      modifies this
      ensures Snapshot() == FailureStep(old(Snapshot()), config, now)
    {
      failureCount := failureCount + 1;
      lastFailureTime := now;
      if failureCount >= config.failureThreshold {
        state := Open;
      }
    }

    /** `execute` around an operation whose outcome is given: a rejected call
        never sees the operation and returns the circuit-open error; an
        admitted one returns the operation's own outcome unchanged. */
    method Execute<T>(now: int, doneAt: int, outcome: Result<T, Fault>) returns (r: Result<T, Fault>, invoked: bool)
      modifies this
      ensures invoked == Admits(old(Snapshot()), config, now)
      ensures r == if invoked then outcome else Err(CircuitOpenFault)
      ensures Snapshot() == ExecuteStep(old(Snapshot()), config, now, doneAt, outcome.Ok?)
    {
      invoked := Admit(now);
      if !invoked {
        r := Err(CircuitOpenFault);
        return;
      }
      r := outcome;
      if outcome.Ok? {
        OnSuccess();
      } else {
        OnFailure(doneAt);
      }
    }
  }
}
