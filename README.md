# Rate-limit decision engine

A Dafny model of the admission-control core of a NestJS backend: `RateLimitService`,
which derives the bucket key for a request (`generateKey`) and decides whether the request
may proceed (`checkRateLimit`). The service's implementation file is not part of this model.
Its behaviour is taken from what `src/common/__tests__/rate-limit.service.spec.ts` asserts
about it, and only that behaviour is modelled.

- `rate_limit_types.dfy` (`RateLimitTypes`): the key dimensions (`GLOBAL`, `PER_USER`,
  `PER_IP`, `PER_ENDPOINT`, `COMBINED`), the policy `{windowMs, max}`, the store's result
  `{allowed, remaining, resetTime, totalHits, windowStart}`, the arguments of one store
  `hit` call, and a store outcome `Ok(result) | Err`. `Err` stands for a rejected promise.
- `decimal.dfy` (`Decimal`): how a numeric user id is rendered inside a key (`123` gives `"123"`).
  `ParseDigits` reads the rendering back, and the round-trip lemma proves nothing is lost.
- `rate_limit_keys.dfy` (`RateLimitKeys`): `GenerateKey` and `KeyTypeOf`. `KeyTypeOf`
  reads the key type back from a key's prefix. The lemmas cover the tested example keys,
  that keys of different types never coincide, and which identity fields each key type
  records. For example, a per-ip key identifies the ip and ignores user id and endpoint.
- `rate_limit_service.dfy` (`RateLimiting`): the configuration (bypass factor 10, no adaptive
  part), the effective quota, the fail-open verdict, the class `RateLimitService` with its
  `CheckRateLimit` method, and one client method for each tested scenario.

The collaborators are inputs, not code:
- The trust oracle (`isTrustedUser`) is a `bool` argument holding its answer for the caller.
- The counter store's `hit` is an argument `hit: HitRequest -> StoreOutcome`: the store's
  response to a call with given arguments.
- The clock is an argument `now`. It supplies only the placeholder timestamps of the
  fail-open verdict.

`CheckRateLimit` returns the `HitRequest` it passed to the store. Its postconditions cover the
tested assertions:
- the store is called with the caller's key, the policy's window and the effective max;
- when the store answers, its result is returned unchanged;
- when the store fails, the verdict is `allowed = true`.

A COMBINED key writes its fields in the order user id, ip, endpoint, separated by `:`. The
user id is a numeral, so it never contains `:`. When endpoints contain no `:`, a combined key
therefore identifies all three fields, even when the ip is an IPv6 address with colons in it
(`CombinedKeyIdentifiesCaller`). When an endpoint does contain `:`, two different callers can
share a bucket (`CombinedKeyCollision`).

## Model

| member | source | states |
|---|---|---|
| `Decimal.NatToString` | src/common/__tests__/rate-limit.service.spec.ts:121 | the rendering of a user id is a non-empty string of decimal digits with no leading zero |
| `Decimal.ParseNatToString` | src/common/__tests__/rate-limit.service.spec.ts:121 | reading the rendering of n as a decimal numeral gives n back |
| `Decimal.NatToStringInjective` | src/common/__tests__/rate-limit.service.spec.ts:121 | two user ids have the same rendering exactly when they are equal |
| `Decimal.NatToStringExample` | src/common/__tests__/rate-limit.service.spec.ts:121 | user id 123 renders as "123" |
| `RateLimitKeys.GenerateKey` | src/common/__tests__/rate-limit.service.spec.ts:119-125 | every derived key carries the key type it was derived for: reading its prefix gives that type back |
| `RateLimitKeys.DistinctTypesDistinctKeys` | src/common/__tests__/rate-limit.service.spec.ts:119-125 | keys derived for two different key types are never equal, whatever the identity fields |
| `RateLimitKeys.GlobalKeyIgnoresIdentity` | src/common/__tests__/rate-limit.service.spec.ts:120 | the GLOBAL key is exactly "global" for every user id, ip and endpoint |
| `RateLimitKeys.PerUserKeyIdentifiesUser` | src/common/__tests__/rate-limit.service.spec.ts:121 | two PER_USER keys are equal exactly when the user ids are; ip and endpoint do not affect the key |
| `RateLimitKeys.PerIpKeyIdentifiesIp` | src/common/__tests__/rate-limit.service.spec.ts:122 | two PER_IP keys are equal exactly when the ips are; user id (absent or not) and endpoint do not affect the key |
| `RateLimitKeys.PerEndpointKeyIdentifiesEndpoint` | src/common/__tests__/rate-limit.service.spec.ts:123 | two PER_ENDPOINT keys are equal exactly when the endpoints are; user id and ip do not affect the key |
| `RateLimitKeys.CombinedKeyIdentifiesCaller` | src/common/__tests__/rate-limit.service.spec.ts:124 | when endpoints contain no ':', two COMBINED keys are equal exactly when user id, ip and endpoint are all equal |
| `RateLimitKeys.CombinedKeyCollision` | src/common/__tests__/rate-limit.service.spec.ts:124 | with a ':' inside the fields, two different (ip, endpoint) pairs produce the same COMBINED key |
| `RateLimitKeys.SingleFieldKeyExamples` | src/common/__tests__/rate-limit.service.spec.ts:120-123 | the tested keys: "global", "user:123", "ip:192.168.1.1", "endpoint:/api/test" |
| `RateLimitKeys.CombinedKeyExample` | src/common/__tests__/rate-limit.service.spec.ts:124 | the tested COMBINED key is "combined:123:192.168.1.1:/api/test" (user id, ip, endpoint, in that order) |
| `RateLimiting.TestConfig` | src/common/__tests__/rate-limit.service.spec.ts:29-32 | the configuration the service is exercised with (bypass factor 10, adaptive scaling off): under it every trusted quota is ten times the policy's max and every untrusted quota is the policy's max |
| `RateLimiting.EffectiveMax` | src/common/__tests__/rate-limit.service.spec.ts:80-103 | the quota the store is called with: the policy's max, times the bypass factor for a trusted caller; only a trusted caller under a trust configuration ever gets a quota other than the policy's max |
| `RateLimiting.FailOpenResult` | src/common/__tests__/rate-limit.service.spec.ts:105-115 | the verdict given when the store fails allows the request |
| `RateLimiting.UntrustedUsesPolicyMax` | src/common/__tests__/rate-limit.service.spec.ts:66-77 | for an untrusted caller the effective max is the policy's max, unscaled |
| `RateLimiting.NoTrustConfigNoScaling` | src/common/__tests__/rate-limit.service.spec.ts:29-32 | without a trust configuration the effective max is the policy's max, whatever the trust answer |
| `RateLimiting.TrustedScalesByBypassFactor` | src/common/__tests__/rate-limit.service.spec.ts:80-103 | for a trusted caller the effective max is the policy's max times the bypass factor |
| `RateLimiting.TrustNeverLowersQuota` | src/common/__tests__/rate-limit.service.spec.ts:80-103 | with a bypass factor of at least 1, a trusted caller's quota is at least an untrusted caller's |
| `RateLimiting.TrustIncreasesQuota` | src/common/__tests__/rate-limit.service.spec.ts:80-103 | with a bypass factor of at least 2 and a max of at least 1, a trusted caller's quota is strictly larger than an untrusted caller's |
| `RateLimiting.RateLimitService.constructor` | src/common/__tests__/rate-limit.service.spec.ts:26-34 | the service keeps the configuration it is given |
| `RateLimiting.RateLimitService.CheckRateLimit` | src/common/__tests__/rate-limit.service.spec.ts:55-116 | the store is called with (key, policy window, effective max), and its result is returned unchanged; if the store fails, the verdict is allowed |
| `RateLimiting.AllowWithinLimitScenario` | src/common/__tests__/rate-limit.service.spec.ts:56-78 | untrusted caller, policy {60000, 100}: the store is called with ("test-key", 60000, 100) and its result is returned as is |
| `RateLimiting.TrustedUserScenario` | src/common/__tests__/rate-limit.service.spec.ts:80-103 | trusted caller, bypass factor 10: the store is called with ("test-key", 60000, 1000) and its result is returned as is |
| `RateLimiting.StoreErrorScenario` | src/common/__tests__/rate-limit.service.spec.ts:105-115 | the store fails and no identity is given: the request is allowed |

## Left out

- The implementation files `rate-limit.service.ts`, `memory-rate-limit.store.ts`, `trusted-user.service.ts`, `system-health.service.ts` and `rate-limit.enum.ts` are not part of this model. Only the behaviour the test file asserts is modelled.
- Adaptive (health-based) scaling and `getSystemHealth`: the only configuration shown has `adaptive: null`, and no scaling rule is evidenced. The configuration therefore has no adaptive part, which equals `adaptive: null`.
- The counter store's window accounting, `get` and `reset`: they are mocked and never exercised, so the store appears only as the response of its `hit`.
- The trust oracle's rules, and whether it is consulted when no identity is supplied: these are not evidenced. `CheckRateLimit` takes the oracle's answer as `trusted`, so the `userId`, `roles` and `ip` arguments of `checkRateLimit` are not parameters of the model. A failing (rejected) `isTrustedUser` is not modelled either: what the service does then is not evidenced.
- `GenerateKey`: what a key type renders for an absent field it uses (for example PER_USER with no user id) is not evidenced. The model renders it as `undefined`, as a JavaScript template literal does.
- Numbers are narrowed to `nat`: the policy's `windowMs` and `max`, the bypass factor, the `max` passed to `hit`, and user ids. JavaScript numbers may be fractional or negative. A fractional bypass factor (0.5 would halve the quota) and any rounding of `max * bypassFactor` cannot be expressed. Negative or fractional user ids are not modelled.
- `NatToString`: it writes every digit, while JavaScript renders integers from 10^21 upward in exponent form (`1e+21`). Keys for user ids that large are not modelled faithfully.
- `FailOpenResult`: only `allowed = true` is asserted for the fail-open verdict. Its `remaining`, `totalHits`, `resetTime` and `windowStart` are placeholders (the effective max, 0, now plus the window, and now) that no contract constrains.
- `RateLimitService.CheckRateLimit`: asynchronous execution is modelled as a synchronous call, a rejected promise as `Err`, and `Date` values as opaque integers.
- Dependency injection, `ConfigService` wiring and jest spies are left out as test plumbing. The configuration is a constructor argument, and the recorded `hit` arguments are an out-parameter.
- Concurrency and atomicity of store increments: no code for them is part of this model.
