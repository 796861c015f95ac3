/** `run_with_retries`: how long one provider evaluation can last, against the lifetime of its claim. */
module Retries {

  datatype Attempt = Attempt(duration: real, succeeds: bool, retryable: bool)

  const RETRY_DELAY_SECONDS := 0.5

  function Power2(n: nat): (p: nat)
    ensures p >= 1
  {
    if n == 0 then 1 else 2 * Power2(n - 1)
  }

  /** Seconds until attempt `attempts` has ended, all earlier ones having been retried. */
  function Elapsed(script: seq<Attempt>, attempts: nat): real
    requires attempts <= |script|
  {
    if attempts == 0 then 0.0
    else
      var delay := if attempts == 1 then 0.0 else 0.5 * Power2(attempts - 2) as real;
      Elapsed(script, attempts - 1) + delay + script[attempts - 1].duration
  }

  /** `script[i]` is what attempt `i` would do. */
  method RunWithRetries(script: seq<Attempt>, maxRetries: nat) returns (attempts: nat, succeeded: bool, elapsed: real)
    requires |script| == maxRetries + 1
    ensures 1 <= attempts <= maxRetries + 1
    ensures forall i :: 0 <= i < attempts - 1 ==> !script[i].succeeds && script[i].retryable
    ensures succeeded == script[attempts - 1].succeeds
    ensures !succeeded ==> attempts == maxRetries + 1 || !script[attempts - 1].retryable
    ensures elapsed == Elapsed(script, attempts)
  {
    elapsed := 0.0;
    attempts := 0;
    while attempts < maxRetries + 1
      invariant attempts <= maxRetries
      invariant forall i :: 0 <= i < attempts ==> !script[i].succeeds && script[i].retryable
      invariant elapsed == Elapsed(script, attempts) +
                           (if attempts == 0 then 0.0 else 0.5 * Power2(attempts - 1) as real)
    {
      var now := script[attempts];
      elapsed := elapsed + now.duration;
      if now.succeeds {
        return attempts + 1, true, elapsed;
      }
      if attempts >= maxRetries || !now.retryable {
        return attempts + 1, false, elapsed;
      }
      elapsed := elapsed + RETRY_DELAY_SECONDS * Power2(attempts) as real;
      attempts := attempts + 1;
    }
  }

  /** `seconds`, `n` times. */
  function Times(seconds: real, n: nat): real {
    seconds * n as real
  }

  lemma OneMore(seconds: real, n: nat)
    ensures Times(seconds, n + 1) == Times(seconds, n) + seconds
  {}

  /** Longest evaluation when no attempt exceeds `timeout`: every attempt and every delay in full. */
  function WorstCase(timeout: real, maxRetries: nat): real {
    Times(timeout, maxRetries + 1) + 0.5 * (Power2(maxRetries) - 1) as real
  }

  /** `claim_timeout_seconds`. */
  function ClaimLifetime(timeout: real, maxRetries: nat): real {
    Times(timeout, maxRetries + 2) + 10.0
  }

  lemma {:induction false} ElapsedBound(script: seq<Attempt>, attempts: nat, timeout: real)
    requires 1 <= attempts <= |script| && timeout >= 0.0
    requires forall i :: 0 <= i < attempts ==> script[i].duration <= timeout
    ensures Elapsed(script, attempts) <= WorstCase(timeout, attempts - 1)
  {
    if attempts > 1 {
      ElapsedBound(script, attempts - 1, timeout);
    }
  }

  lemma {:induction false} WorstCaseMonotone(timeout: real, few: nat, many: nat)
    requires few <= many && timeout >= 0.0
    ensures WorstCase(timeout, few) <= WorstCase(timeout, many)
    decreases many - few
  {
    if few < many {
      WorstCaseMonotone(timeout, few + 1, many);
      OneMore(timeout, few + 1);
    }
  }

  /** Every evaluation whose attempts respect the timeout ends within the worst case... */
  lemma EvaluationWithinWorstCase(script: seq<Attempt>, attempts: nat, maxRetries: nat, timeout: real)
    requires |script| == maxRetries + 1 && 1 <= attempts <= maxRetries + 1 && timeout >= 0.0
    requires forall i :: 0 <= i < attempts ==> script[i].duration <= timeout
    ensures Elapsed(script, attempts) <= WorstCase(timeout, maxRetries)
  {
    ElapsedBound(script, attempts, timeout);
    WorstCaseMonotone(timeout, attempts - 1, maxRetries);
  }

  /** ...and the worst case is reached when every attempt times out. */
  lemma {:induction false} WorstCaseReached(timeout: real, attempts: nat)
    requires attempts >= 1
    ensures Elapsed(seq(attempts, _ => Attempt(timeout, false, true)), attempts) == WorstCase(timeout, attempts - 1)
  {
    var script := seq(attempts, _ => Attempt(timeout, false, true));
    if attempts > 1 {
      WorstCaseReached(timeout, attempts - 1);
      var shorter := seq(attempts - 1, _ => Attempt(timeout, false, true));
      ElapsedPrefix(shorter, script, attempts - 1);
      OneMore(timeout, attempts - 1);
    }
  }

  lemma {:induction false} ElapsedPrefix(a: seq<Attempt>, b: seq<Attempt>, attempts: nat)
    requires attempts <= |a| <= |b| && forall i :: 0 <= i < attempts ==> a[i] == b[i]
    ensures Elapsed(a, attempts) == Elapsed(b, attempts)
  {
    if attempts > 0 {
      ElapsedPrefix(a, b, attempts - 1);
    }
  }

  predicate Respects(script: seq<Attempt>, attempts: nat, maxRetries: nat, timeout: real) {
    && |script| == maxRetries + 1 && 1 <= attempts <= maxRetries + 1
    && forall i :: 0 <= i < attempts ==> script[i].duration <= timeout
  }

  /** The longest evaluation of a provider and its lock waits fit in a claim that another setting may time. */
  predicate Fits(providerTimeout: real, claimTimeout: real, maxRetries: nat, lockWait: real) {
    Times(providerTimeout, maxRetries + 1) + 0.5 * (Power2(maxRetries) - 1) as real + lockWait
    <= Times(claimTimeout, maxRetries + 2) + 10.0
  }

  /** No evaluation outlives its claim, exactly when the longest one and its lock waits fit. */
  lemma ClaimSuffices(providerTimeout: real, claimTimeout: real, maxRetries: nat, lockWait: real)
    requires providerTimeout >= 0.0
    ensures (forall script, attempts :: Respects(script, attempts, maxRetries, providerTimeout) ==>
               Elapsed(script, attempts) + lockWait <= ClaimLifetime(claimTimeout, maxRetries)) <==>
            Fits(providerTimeout, claimTimeout, maxRetries, lockWait)
  {
    forall script, attempts: nat | Respects(script, attempts, maxRetries, providerTimeout)
      ensures Elapsed(script, attempts) <= WorstCase(providerTimeout, maxRetries)
    {
      EvaluationWithinWorstCase(script, attempts, maxRetries, providerTimeout);
    }
    var slowest := seq(maxRetries + 1, _ => Attempt(providerTimeout, false, true));
    WorstCaseReached(providerTimeout, maxRetries + 1);
    assert Respects(slowest, maxRetries + 1, maxRetries, providerTimeout);
  }

  /** When one setting times both, the delays and the lock waits must fit in that timeout plus ten seconds. */
  lemma SameTimeoutFits(timeout: real, maxRetries: nat, lockWait: real)
    ensures Fits(timeout, timeout, maxRetries, lockWait) <==>
            0.5 * (Power2(maxRetries) - 1) as real + lockWait <= timeout + 10.0
  {
    OneMore(timeout, maxRetries + 1);
  }
}
