/** The timing condition of `SingleFlight` is exact: without it two timely requests evaluate one capture. */
module ClaimExpiry {
  import opened Wrappers
  import opened Digests
  import opened Retries
  import opened Transaction
  import opened Protocol
  import opened SingleFlight
  import opened Scenarios

  /** The second request finds the first one's claim expired while its owner is still running on time. */
  lemma SecondClaim(cfg: Config, w: real, s: System, key: Key) returns (s': System)
    requires Live(cfg, w, s) && s.lock.None? && s.tx.evaluations == map[]
    requires s.ops == map[1 := LivenessClaimed(key, s.now), 2 := LivenessKeyRead(key)]
    requires s.tx.evaluationClaims == map[LivenessIdentity(key) := s.now]
    requires WorstCase(cfg.providerTimeout, cfg.vlmMaxRetries) + w > ClaimLifetime(cfg.vlmTimeout, cfg.vlmMaxRetries) > 0.0
    ensures TimelyReachable(cfg, w, s') && !OneEach(s')
  {
    var longest := WorstCase(cfg.providerTimeout, cfg.vlmMaxRetries) + w;
    assert Evaluating(s.ops[1]) && !Evaluating(s.ops[2]);
    var late := ThenWait(cfg, w, s, longest);
    assert ClaimStale(cfg, s.now, late.now);
    s' := Then(cfg, w, late, ClaimLiveness(2));
    assert SameCapture(s'.ops[1], s'.ops[2]);
  }

  lemma OwnerOvertaken(cfg: Config, w: real, attemptId: Bytes, image: Bytes) returns (s: System)
    requires !DelaysFit(cfg, w) && cfg.attemptLimit >= 2 && cfg.vlmTimeout >= 0.0 && cfg.providerTimeout >= 0.0 && w >= 0.0
    requires Uploadable(cfg, attemptId, image)
    ensures TimelyReachable(cfg, w, s) && !OneEach(s)
  {
    LifetimePositive(cfg.vlmTimeout, cfg.vlmMaxRetries);
    assert cfg.providerTimeout * (cfg.vlmMaxRetries + 1) as real >= 0.0;
    FreshIsLive(cfg, w);
    var captured := CaptureNow(cfg, w, Fresh(), 0, attemptId, image, None);
    var claimed := ClaimedOnce(cfg, w, captured);
    s := SecondClaim(cfg, w, claimed, captured.tx.capture.value.key);
  }

  lemma LifetimePositive(timeout: real, maxRetries: nat)
    requires timeout >= 0.0
    ensures ClaimLifetime(timeout, maxRetries) > 0.0
  {
    assert timeout * (maxRetries + 2) as real >= 0.0;
  }

  /**
   * Over every run in which no evaluation outlasts its worst case and `w` seconds of lock waits, one request
   * at a time evaluates a capture: exactly when the longest evaluation of the configured provider and `w` fit
   * in the lifetime of a claim, whichever setting times which.
   */
  lemma SingleFlightExactly(cfg: Config, w: real, attemptId: Bytes, image: Bytes)
    requires cfg.attemptLimit >= 2 && cfg.vlmTimeout >= 0.0 && cfg.providerTimeout >= 0.0 && w >= 0.0
    requires Uploadable(cfg, attemptId, image)
    ensures (forall s :: TimelyReachable(cfg, w, s) ==> OneEach(s)) <==>
            Fits(cfg.providerTimeout, cfg.vlmTimeout, cfg.vlmMaxRetries, w)
  {
    if DelaysFit(cfg, w) {
      forall s | TimelyReachable(cfg, w, s) ensures OneEach(s) {
        SingleFlightHolds(cfg, w, s);
      }
    } else {
      var s := OwnerOvertaken(cfg, w, attemptId, image);
    }
  }

  /** With one setting for both, the retry delays and `w` must fit in the timeout plus ten seconds. */
  lemma SingleFlightWithOneTimeout(cfg: Config, w: real, attemptId: Bytes, image: Bytes)
    requires cfg.attemptLimit >= 2 && cfg.vlmTimeout == cfg.providerTimeout >= 0.0 && w >= 0.0
    requires Uploadable(cfg, attemptId, image)
    ensures (forall s :: TimelyReachable(cfg, w, s) ==> OneEach(s)) <==>
            0.5 * (Power2(cfg.vlmMaxRetries) - 1) as real + w <= cfg.vlmTimeout + 10.0
  {
    SingleFlightExactly(cfg, w, attemptId, image);
    SameTimeoutFits(cfg.vlmTimeout, cfg.vlmMaxRetries, w);
  }

  /** The self-hosted provider with ten minutes per call, and claims timed by the default minute. */
  lemma LocalProviderOutlivesClaim(cfg: Config)
    requires cfg.providerTimeout == 600.0 && cfg.vlmTimeout == 60.0 && cfg.vlmMaxRetries == 0
    ensures !DelaysFit(cfg, 0.0) && 0.5 * (Power2(0) - 1) as real <= cfg.vlmTimeout + 10.0
  {}
}
