/** Exponential backoff with jitter: the delay computed before each retry. */
module Backoff {

  /** Retry policy. `maxRetries` stays an integer so that a negative setting,
      which makes the retry loop run zero times, can be stated. */
  datatype RetryConfig = RetryConfig(
    maxRetries: int,
    baseDelay: nat,
    maxDelay: nat,
    backoffMultiplier: nat)

  /** The policy the gateway is constructed with. */
  const DefaultRetryConfig: RetryConfig := RetryConfig(3, 1000, 10000, 2)

  datatype Fraction = Fraction(num: nat, den: nat)

  /** One draw of `Math.random() * 0.3`: a fraction in [0, 0.3). */
  type Jitter = f: Fraction | 0 < f.den && 10 * f.num < 3 * f.den witness Fraction(0, 1)

  function Pow(b: nat, e: nat): nat
  {
    if e == 0 then 1 else b * Pow(b, e - 1)
  }

  /** `min(baseDelay * multiplier^attempt, maxDelay)`: the capped exponential part. */
  function ExponentialDelay(cfg: RetryConfig, attempt: nat): (d: nat)
    ensures d <= cfg.maxDelay
    ensures d <= cfg.baseDelay * Pow(cfg.backoffMultiplier, attempt)
  {
    var raw := cfg.baseDelay * Pow(cfg.backoffMultiplier, attempt);
    if raw <= cfg.maxDelay then raw else cfg.maxDelay
  }

  /** The delay before the retry that follows `attempt`: the capped part plus
      jitter times it, rounded down. The jitter is added after the cap. */
  function BackoffDelay(cfg: RetryConfig, attempt: nat, j: Jitter): (d: nat)
    ensures ExponentialDelay(cfg, attempt) <= d
    ensures 10 * d <= 13 * ExponentialDelay(cfg, attempt)
    ensures 0 < ExponentialDelay(cfg, attempt) ==> 10 * d < 13 * ExponentialDelay(cfg, attempt)
  {
    var e := ExponentialDelay(cfg, attempt);
    JitterBounds(e, j);
    (e * (j.den + j.num)) / j.den
  }

  /** floor(e + e * num / den) lies in [e, 1.3 e], strictly below 1.3 e when e > 0. */
  lemma JitterBounds(e: nat, j: Jitter)
    ensures e <= (e * (j.den + j.num)) / j.den
    ensures 10 * ((e * (j.den + j.num)) / j.den) <= 13 * e
    ensures 0 < e ==> 10 * ((e * (j.den + j.num)) / j.den) < 13 * e
  {
    var num, den := j.num, j.den;
    var n := e * (den + num);
    var d := n / den;
    DivBounds(n, den);
    SplitProduct(e, den, num);
    FloorLower(e, den, e * num, d);
    FloorUpper(e, num, den, d);
  }

  lemma SplitProduct(e: nat, den: nat, num: nat)
    ensures e * (den + num) == e * den + e * num
  {
  }

  lemma DivBounds(n: nat, den: nat)
    requires 0 < den
    ensures den * (n / den) <= n < den * (n / den + 1)
  {
  }

  /** den * d > e * den - den, so d >= e. */
  lemma FloorLower(e: nat, den: nat, extra: nat, d: nat)
    requires e * den + extra < den * (d + 1)
    ensures e <= d
  {
    if d < e {
      MulLeft(den, d + 1, e);
    }
  }

  /** From den * d <= e * den + e * num and 10 num < 3 den. */
  lemma FloorUpper(e: nat, num: nat, den: nat, d: nat)
    requires 0 < den && 10 * num < 3 * den
    requires den * d <= e * den + e * num
    ensures 10 * d <= 13 * e
    ensures 0 < e ==> 10 * d < 13 * e
  {
    MulLeft(e, 10 * num, 3 * den);
    assert 10 * (e * num) <= 3 * (e * den);
    assert den * (10 * d) <= den * (13 * e);
    MulLeCancel(10 * d, 13 * e, den);
    if 0 < e {
      MulLeftStrict(e, 10 * num, 3 * den);
      assert den * (10 * d) < den * (13 * e);
      MulStrictCancel(10 * d, 13 * e, den);
    }
  }

  lemma MulLeft(a: nat, x: nat, y: nat)
    requires x <= y
    ensures a * x <= a * y
  {
  }

  lemma MulLeftStrict(a: nat, x: nat, y: nat)
    requires 0 < a && x < y
    ensures a * x < a * y
  {
  }

  lemma MulStrictCancel(a: nat, b: nat, c: nat)
    requires c * a < c * b
    ensures a < b
  {
    if b <= a {
      MulLeft(c, b, a);
    }
  }

  lemma MulLeCancel(a: nat, b: nat, c: nat)
    requires 0 < c && c * a <= c * b
    ensures a <= b
  {
    if b < a {
      MulLeftStrict(c, b, a);
    }
  }

  lemma {:induction false} PowMonotone(b: nat, i: nat, k: nat)
    requires 1 <= b && i <= k
    ensures Pow(b, i) <= Pow(b, k)
  {
    if i < k {
      PowMonotone(b, i, k - 1);
      MulLeft(Pow(b, k - 1), 1, b);
    }
  }

  /** With a multiplier of at least 1 the capped part never shrinks from one
      attempt to the next. */
  lemma ExponentialMonotone(cfg: RetryConfig, i: nat, k: nat)
    requires 1 <= cfg.backoffMultiplier && i <= k
    ensures ExponentialDelay(cfg, i) <= ExponentialDelay(cfg, k)
  {
    PowMonotone(cfg.backoffMultiplier, i, k);
    MulLeft(cfg.baseDelay, Pow(cfg.backoffMultiplier, i), Pow(cfg.backoffMultiplier, k));
  }

  /** Up to the attempt where the cap first binds, every delay lies between
      base * multiplier^i and 1.3 times that: the jitter never pushes it out of
      the band of its own attempt. */
  lemma BelowCapDelayBounds(cfg: RetryConfig, i: nat, k: nat, j: Jitter)
    requires 1 <= cfg.backoffMultiplier && i <= k
    requires cfg.baseDelay * Pow(cfg.backoffMultiplier, k) <= cfg.maxDelay
    ensures cfg.baseDelay * Pow(cfg.backoffMultiplier, i) <= BackoffDelay(cfg, i, j)
    ensures 10 * BackoffDelay(cfg, i, j) <= 13 * (cfg.baseDelay * Pow(cfg.backoffMultiplier, i))
  {
    PowMonotone(cfg.backoffMultiplier, i, k);
    MulLeft(cfg.baseDelay, Pow(cfg.backoffMultiplier, i), Pow(cfg.backoffMultiplier, k));
  }

  /** Once the cap binds, any jitter worth at least one millisecond puts the
      delay above `maxDelay`, because the jitter is added after the cap. */
  lemma JitterPastCap(cfg: RetryConfig, k: nat, j: Jitter)
    requires ExponentialDelay(cfg, k) == cfg.maxDelay && j.den <= cfg.maxDelay * j.num
    ensures cfg.maxDelay < BackoffDelay(cfg, k, j)
  {
    var e, num, den := cfg.maxDelay, j.num, j.den;
    var n := e * (den + num);
    DivBounds(n, den);
    SplitProduct(e, den, num);
    assert den * (e + 1) == e * den + den;
    MulStrictCancel(e + 1, n / den + 1, den);
  }

  lemma ExactQuotient(q: nat, d: nat)
    requires 0 < d
    ensures (q * d) / d == q
  {
    DivBounds(q * d, d);
    assert q * d == d * q;
    MulLeCancel((q * d) / d, q, d);
    MulStrictCancel(q, (q * d) / d + 1, d);
  }

  /** A jitter that lifts the capped part e exactly to `maxDelay + 1`. */
  lemma PassingJitter(cfg: RetryConfig, k: nat) returns (j: Jitter)
    requires 10 * (cfg.maxDelay + 1) < 13 * ExponentialDelay(cfg, k)
    ensures BackoffDelay(cfg, k, j) == cfg.maxDelay + 1
  {
    var m, e := cfg.maxDelay, ExponentialDelay(cfg, k);
    j := Fraction(10 * (m + 1 - e), 10 * e);
    assert j.den + j.num == 10 * (m + 1);
    assert e * (10 * (m + 1)) == (m + 1) * (10 * e);
    ExactQuotient(m + 1, 10 * e);
  }

  /** The delay passes `maxDelay` for some jitter exactly when 1.3 times the
      capped part e leaves room above it for the floor. No binding cap is
      needed, only e > (maxDelay + 1) / 1.3. */
  lemma JitterCanPassCap(cfg: RetryConfig, k: nat)
    ensures (exists j: Jitter :: cfg.maxDelay < BackoffDelay(cfg, k, j)) <==>
      10 * (cfg.maxDelay + 1) < 13 * ExponentialDelay(cfg, k)
  {
    if 10 * (cfg.maxDelay + 1) < 13 * ExponentialDelay(cfg, k) {
      var j := PassingJitter(cfg, k);
      assert cfg.maxDelay < BackoffDelay(cfg, k, j);
    }
  }

  /** Because jitter is added after the cap, the delay function itself can
      return more than `maxDelay`: for the default base, multiplier and cap,
      attempt 4 is the first capped one, and a jitter of 0.1 makes its delay
      11000. An overshoot does not need a capped attempt
      (`JitterCanPassCap`). */
  lemma JitterCanExceedCap()
    ensures BackoffDelay(DefaultRetryConfig, 4, Fraction(1, 10)) == 11000
    ensures BackoffDelay(DefaultRetryConfig, 4, Fraction(1, 10)) > DefaultRetryConfig.maxDelay
  {
    assert Pow(2, 4) == 16;
    assert ExponentialDelay(DefaultRetryConfig, 4) == 10000;
  }
}
