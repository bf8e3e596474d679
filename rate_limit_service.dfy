/** The decision step (`checkRateLimit`): derive the effective quota, count the hit, fail open. */
module RateLimiting {
  import opened RateLimitTypes

  /** Quota multiplier for callers the trust oracle vouches for. */
  datatype TrustedConfig = TrustedConfig(bypassFactor: nat)

  /** The engine's configuration. It has no health-based (adaptive) part: that is the
      configuration `adaptive: null`, which leaves the quota unscaled by health. */
  datatype RateLimitConfig = RateLimitConfig(trusted: Option<TrustedConfig>)

  /** The configuration the service is exercised with: bypass factor 10, adaptive scaling off.
      Under it a trusted caller's quota is ten times the policy's and an untrusted caller's is unscaled. */
  function TestConfig(): (config: RateLimitConfig)
    ensures forall max: nat :: EffectiveMax(config, max, true) == 10 * max
    ensures forall max: nat :: EffectiveMax(config, max, false) == max
  {
    RateLimitConfig(Some(TrustedConfig(10)))
  }

  /** The quota enforced for one call: the policy's max, scaled by the bypass factor when the
      trust oracle says the caller is trusted and a trust configuration is present. */
  function EffectiveMax(config: RateLimitConfig, max: nat, trusted: bool): (m: nat)
    ensures m != max ==> trusted && config.trusted.Some?
  {
    if trusted && config.trusted.Some? then max * config.trusted.value.bypassFactor else max
  }

  /** The verdict returned when the store fails: the request is let through. No hit was
      recorded, so nothing of the quota is spent and the window starts now. */
  function FailOpenResult(max: nat, windowMs: nat, now: int): (r: RateLimitResult)
    ensures r.allowed
  {
    RateLimitResult(true, max, now + windowMs, 0, now)
  }

  /** An untrusted caller is counted against the policy's own max. */
  lemma UntrustedUsesPolicyMax(config: RateLimitConfig, max: nat)
    ensures EffectiveMax(config, max, false) == max
  {
  }

  /** Without a trust configuration, trust changes nothing. */
  lemma NoTrustConfigNoScaling(max: nat, trusted: bool)
    ensures EffectiveMax(RateLimitConfig(None), max, trusted) == max
  {
  }

  /** A trusted caller is counted against max times the bypass factor. */
  lemma TrustedScalesByBypassFactor(max: nat, factor: nat)
    ensures EffectiveMax(RateLimitConfig(Some(TrustedConfig(factor))), max, true) == max * factor
  {
  }

  /** With a bypass factor of at least 1, being trusted never lowers the quota. */
  lemma TrustNeverLowersQuota(config: RateLimitConfig, max: nat)
    requires config.trusted.Some? ==> config.trusted.value.bypassFactor >= 1
    ensures EffectiveMax(config, max, false) <= EffectiveMax(config, max, true)
  {
  }

  /** With a bypass factor of at least 2 and a non-zero max, a trusted caller gets a strictly larger quota. */
  lemma TrustIncreasesQuota(max: nat, factor: nat)
    requires max >= 1 && factor >= 2
    ensures EffectiveMax(RateLimitConfig(Some(TrustedConfig(factor))), max, false)
          < EffectiveMax(RateLimitConfig(Some(TrustedConfig(factor))), max, true)
  {
  }

  class RateLimitService {
    const config: RateLimitConfig

    constructor (config: RateLimitConfig)
      ensures this.config == config
    {
      this.config := config;
    }

    /** Counts one request against `key` under `policy`. `trusted` is the trust oracle's answer
        for the caller; `hit` is the counter store's response to a call with given arguments;
        `now` is the clock. Returns the arguments the store was called with and the verdict:
        the store's own result when it answers, an allowing verdict when it fails. */
    method CheckRateLimit(key: string, policy: RateLimitPolicy, trusted: bool,
                          hit: HitRequest -> StoreOutcome, now: int)
      returns (call: HitRequest, r: RateLimitResult)
      ensures call == HitRequest(key, policy.windowMs, EffectiveMax(config, policy.max, trusted))
      ensures hit(call).Ok? ==> r == hit(call).result
      ensures hit(call).Err? ==> r.allowed
    {
      var max := EffectiveMax(config, policy.max, trusted);
      // Health-based scaling is disabled, so `max` is final here.
      call := HitRequest(key, policy.windowMs, max);
      var outcome := hit(call);
      match outcome
      case Ok(result) =>
        r := result;
      case Err =>
        r := FailOpenResult(max, policy.windowMs, now);
    }
  }

  /** An untrusted caller within its limit: the store is asked with the unscaled max and its
      result is passed through unchanged. */
  method AllowWithinLimitScenario(now: int) returns (call: HitRequest, r: RateLimitResult)
    ensures call == HitRequest("test-key", 60000, 100)
    ensures r == RateLimitResult(true, 99, now, 1, now)
  {
    var service := new RateLimitService(TestConfig());
    var stored := RateLimitResult(true, 99, now, 1, now);
    call, r := service.CheckRateLimit("test-key", RateLimitPolicy(60000, 100), false,
                                      (req: HitRequest) => Ok(stored), now);
  }

  /** A trusted caller: the store is asked with 100 * 10 = 1000 and its result is passed through. */
  method TrustedUserScenario(now: int) returns (call: HitRequest, r: RateLimitResult)
    ensures call == HitRequest("test-key", 60000, 1000)
    ensures r == RateLimitResult(true, 999, now, 1, now)
  {
    var service := new RateLimitService(TestConfig());
    var stored := RateLimitResult(true, 999, now, 1, now);
    call, r := service.CheckRateLimit("test-key", RateLimitPolicy(60000, 100), true,
                                      (req: HitRequest) => Ok(stored), now);
  }

  /** The store fails and no identity is supplied: the request is still allowed. */
  method StoreErrorScenario(now: int) returns (call: HitRequest, r: RateLimitResult)
    ensures call == HitRequest("test-key", 60000, 100)
    ensures r.allowed
  {
    var service := new RateLimitService(TestConfig());
    call, r := service.CheckRateLimit("test-key", RateLimitPolicy(60000, 100), false,
                                      (req: HitRequest) => Err, now);
  }
}
