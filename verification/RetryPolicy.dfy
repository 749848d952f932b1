/** Retry policy of the alert outbox: defaulting and exponential backoff. */
module RetryPolicy {
  const DEFAULT_MAX_ATTEMPTS: int := 3
  const DEFAULT_INITIAL_INTERVAL: int := 10_000_000_000
  const DEFAULT_MAX_INTERVAL: int := 300_000_000_000

  /** Durations are nanosecond counts; all fields may be zero or negative before normalisation. */
  datatype Policy = Policy(maxAttempts: int, initialInterval: int, maxInterval: int)

  /** A policy whose fields can be used as they stand. */
  predicate Usable(p: Policy) {
    1 <= p.maxAttempts && 1 <= p.initialInterval <= p.maxInterval
  }

  function Normalized(p: Policy): (r: Policy)
    ensures Usable(r)
    ensures Usable(p) ==> r == p
    ensures r.maxAttempts == p.maxAttempts || (p.maxAttempts <= 0 && r.maxAttempts == 3)
    ensures r.initialInterval == p.initialInterval || (p.initialInterval <= 0 && r.initialInterval == 10_000_000_000)
    ensures r.maxInterval in {p.maxInterval, 300_000_000_000, r.initialInterval}
    ensures p.maxInterval >= r.initialInterval ==> r.maxInterval == p.maxInterval
  {
    var maxAttempts := if p.maxAttempts <= 0 then DEFAULT_MAX_ATTEMPTS else p.maxAttempts;
    var initial := if p.initialInterval <= 0 then DEFAULT_INITIAL_INTERVAL else p.initialInterval;
    var cap := if p.maxInterval <= 0 then DEFAULT_MAX_INTERVAL else p.maxInterval;
    Policy(maxAttempts, initial, if cap < initial then initial else cap)
  }

  function Pow2(n: nat): (r: nat)
    ensures r >= 1
  {
    if n == 0 then 1 else 2 * Pow2(n - 1)
  }

  function Min(a: int, b: int): int {
    if a <= b then a else b
  }

  lemma {:induction false} Pow2Monotone(m: nat, n: nat)
    requires m <= n
    ensures Pow2(m) <= Pow2(n)
    decreases n - m
  {
    if m < n {
      Pow2Monotone(m + 1, n);
    }
  }

  lemma ScaleMonotone(c: nat, m: nat, n: nat)
    requires m <= n
    ensures c * m <= c * n
  {
  }

  /** The initial interval after n doublings. */
  function Doubled(initial: nat, n: nat): nat {
    initial * Pow2(n)
  }

  lemma DoubledStep(initial: nat, n: nat)
    ensures Doubled(initial, n + 1) == 2 * Doubled(initial, n)
  {
  }

  lemma DoubledMonotone(initial: nat, m: nat, n: nat)
    requires m <= n
    ensures initial <= Doubled(initial, m) <= Doubled(initial, n)
  {
    Pow2Monotone(0, m);
    Pow2Monotone(m, n);
    ScaleMonotone(initial, 1, Pow2(m));
    ScaleMonotone(initial, Pow2(m), Pow2(n));
  }

  /** The delay before attempt number attempts + 1, in closed form. */
  function BackoffSpec(p: Policy, attempts: int): int {
    var q := Normalized(p);
    if attempts <= 1 then q.initialInterval
    else Min(Doubled(q.initialInterval, attempts - 1), q.maxInterval)
  }

  /** The doubling loop. The trail lists every value the loop variable holds: the initial interval
      doubled over and over, never above the cap, so the product cannot overflow where the cap fits. */
  method Backoff(policy: Policy, attempts: int) returns (delay: int, ghost trail: seq<int>)
    ensures delay == BackoffSpec(policy, attempts)
    ensures forall k :: 0 <= k < |trail| ==>
      trail[k] == Doubled(Normalized(policy).initialInterval, k) <= Normalized(policy).maxInterval
  {
    var p := Normalized(policy);
    trail := [];
    if attempts <= 1 {
      return p.initialInterval, [];
    }
    var backoff := p.initialInterval;
    trail := [backoff];
    var i := 1;
    while i < attempts
      invariant 1 <= i <= attempts
      invariant |trail| == i && trail[i - 1] == backoff
      invariant forall k :: 0 <= k < i ==> trail[k] == Doubled(p.initialInterval, k) <= p.maxInterval
    {
      if backoff >= p.maxInterval {
        DoubledMonotone(p.initialInterval, i - 1, attempts - 1);
        return p.maxInterval, trail;
      }
      DoubledStep(p.initialInterval, i - 1);
      if backoff > p.maxInterval / 2 {
        DoubledMonotone(p.initialInterval, i, attempts - 1);
        return p.maxInterval, trail;
      }
      backoff := backoff * 2;
      trail := trail + [backoff];
      i := i + 1;
    }
    if backoff > p.maxInterval {
      return p.maxInterval, trail;
    }
    return backoff, trail;
  }

  /** More failures never shorten the wait, and the wait stays inside the policy's interval. */
  lemma BackoffMonotone(policy: Policy, a: int, b: int)
    requires a <= b
    ensures BackoffSpec(policy, a) <= BackoffSpec(policy, b)
    ensures Normalized(policy).initialInterval <= BackoffSpec(policy, a) <= Normalized(policy).maxInterval
  {
    var p := Normalized(policy);
    if 1 < a {
      DoubledMonotone(p.initialInterval, a - 1, b - 1);
    } else if 1 < b {
      DoubledMonotone(p.initialInterval, 0, b - 1);
    }
  }
}
