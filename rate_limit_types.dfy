/** Values shared by the rate-limit engine, its key derivation and the counter store it calls. */
module RateLimitTypes {

  datatype Option<+T> = None | Some(value: T)

  /** The identity dimension that selects the bucket a request is counted in. */
  datatype RateLimitType = Global | PerUser | PerIp | PerEndpoint | Combined

  /** A static budget: at most `max` hits per window of `windowMs` milliseconds. */
  datatype RateLimitPolicy = RateLimitPolicy(windowMs: nat, max: nat)

  /** The counter store's verdict for one hit; timestamps are opaque millisecond values. */
  datatype RateLimitResult = RateLimitResult(
    allowed: bool,
    remaining: nat,
    resetTime: int,
    totalHits: nat,
    windowStart: int)

  /** The arguments of one call `hit(key, windowMs, max)` to the counter store. */
  datatype HitRequest = HitRequest(key: string, windowMs: nat, max: nat)

  /** What the store's `hit` produced: its result, or a failure (a rejected promise). */
  datatype StoreOutcome = Ok(result: RateLimitResult) | Err
}
