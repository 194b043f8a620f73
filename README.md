# Performance page objects of a k6 login load test

This project models the performance page-object layer that the k6 login script drives.
`BasePerformance` wraps the load engine's HTTP client. It has a fixed header set, a
5000 ms timeout, single GET/PUT/DELETE calls and a POST that is retried while the response
is unsuccessful, up to `retryCount = 2` retries. `AuthPerformance` builds on it. Its login
caches the token of the first successful response whose body carries a truthy
`data.token`. Once a token is cached, every later login on the same object returns a
synthetic success and makes no HTTP call. The invalid login always makes one real call
and never touches the cache.

Files:

- `http_model.dfy` (module `HttpModel`): JSON values and their JavaScript truthiness,
  responses, outcomes (a response or a thrown error), requests, and `Client`. `Client` is a
  scripted stand-in for the k6 HTTP client. The k-th call it receives, counting every verb,
  yields `script(k)`, and each call is appended to its `log`.
- `base_perf.dfy` (module `BasePerf`): the success predicate, the environment fallback,
  the metric tag, `CallsFrom` (the number of attempts one `post` makes), its lemmas, and
  the class `BasePerformance`.
- `auth_perf.dfy` (module `AuthPerf`): credentials objects (compared by identity), the
  result record, the cached result, the mapping from a client outcome to a result, the
  token-cache transition and its lemmas, and the class `AuthPerformance`, whose one
  mutable field is `authToken`.

Where the model had to choose:

- `JSON.stringify` is a parameter of the constructors (`stringify: Json -> string`).
  `response.json()` is part of each scripted response: `Parsed(json)` or `Unparsable`
  (the call threw).
- `timings.duration` is a `real` that is passed through and never computed.
- JavaScript inheritance becomes composition: `AuthPerformance.base` is the
  `BasePerformance` whose client, headers and success predicate it uses.
- In `post` the client's exceptions are not caught. An error thrown by the client ends
  `post` at once. The model returns the `Threw` outcome, which stands for the propagated
  exception.
- The constructor's fallback for `INVALID_PASSWORD` is `invalid123`, as the code has it.
  The k6 script passes its own value for that key anyway.
- With no `API_URL`, the login endpoint is `http://localhost:3000/api/api/auth/login`:
  `/api/auth/login` is appended to an API URL that already ends in `/api`. The model keeps
  this as written.

## Model

| member | source | states |
|---|---|---|
| BasePerf.IsSuccessful | pages/performance/base.perf.js:98-100 | a response is successful iff its status is in [200, 300), so the status-0 failure sentinel is never successful |
| BasePerf.OrDefault | pages/performance/base.perf.js:14-15 | an environment key yields its value unless it is absent or empty, in which case the fallback is used; a non-empty fallback never yields an empty value |
| BasePerf.LastSegmentSpec | pages/performance/base.perf.js:52 | the metric tag is a suffix of the url with no `/` in it, and it is preceded by a `/` unless it is the whole url |
| BasePerf.LastSegmentUnique | pages/performance/base.perf.js:52 | those three properties determine the tag: any string that has them is the tag |
| BasePerf.LastSegmentOfPath | pages/performance/base.perf.js:52 | the tag of `dir/name` is `name` whenever `name` holds no `/` |
| BasePerf.CallsFrom | pages/performance/base.perf.js:57-68 | one `post` makes at least 1 and at most `retryCount + 1` client calls |
| BasePerf.CallsFromStopsAtFirst | pages/performance/base.perf.js:59-68 | every attempt before the last one was unsuccessful and did not throw; the last one succeeded, threw, or used up the retries |
| BasePerf.FirstStopDeterminesCalls | pages/performance/base.perf.js:59-70 | if attempt m+1 is the first successful one, `post` makes exactly m+1 calls; if every attempt fails, it makes exactly `retryCount + 1` calls |
| BasePerf.TwoFailuresThenSuccess | pages/performance/base.perf.js:57-68 | with two retries, two failures followed by a success take exactly three calls, and the last call, the one `post` returns, is the success |
| BasePerf.BasePerformance.constructor | pages/performance/base.perf.js:11-27 | base and API urls fall back to `http://localhost:3000` and `http://localhost:3000/api`; the four fixed headers; timeout 5000, `retryCount` 2, batching on |
| BasePerf.BasePerformance.Get | pages/performance/base.perf.js:35-37 | exactly one GET with the fixed headers and the given query parameters, no retry; returns the client's outcome |
| BasePerf.BasePerformance.Post | pages/performance/base.perf.js:45-71 | the log grows by `CallsFrom(...)` identical requests: same url, same body (a string payload unchanged, anything else serialised), same headers, timeout and tag. Returns the outcome of the last call: the first success, a thrown error, or the last failure |
| BasePerf.BasePerformance.Put | pages/performance/base.perf.js:79-82 | exactly one PUT with the serialised payload and the fixed headers, no retry |
| BasePerf.BasePerformance.Delete | pages/performance/base.perf.js:89-91 | exactly one DELETE with a null body and the fixed headers, no retry |
| AuthPerf.TokenIn | pages/performance/auth.perf.js:89 | the token read from a body (`body.data.token`) is reported only when it is truthy |
| AuthPerf.TokenInIsDataToken | pages/performance/auth.perf.js:89-90 | a token is reported only when the body is an object whose `data` is an object with a `token`, and then it is exactly `body.data.token`; a non-object body or a missing or non-object `data` yields none |
| AuthPerf.TokenInReadsDataToken | pages/performance/auth.perf.js:89-90 | a body whose `data.token` is `t` yields `t` exactly when `t` is truthy |
| AuthPerf.CachedResultCarriesToken | pages/performance/auth.perf.js:42-55 | a cache hit reports success, status 200, duration 0 and `cached`, and its body carries the stored token at `data.token` |
| AuthPerf.ResultAgreesWithStatus | pages/performance/auth.perf.js:94-115 | every result built from a client outcome has `success` iff its status is in [200, 300). A response's status, duration and headers pass through. Only a thrown error sets `error`, and then status and duration are 0 |
| AuthPerf.UnparsableBodyCachesNothing | pages/performance/auth.perf.js:76-92 | an unparsable body becomes the `Invalid JSON response` placeholder, the status still comes from the response, and the cache is unchanged |
| AuthPerf.ThrownErrorCachesNothing | pages/performance/auth.perf.js:101-115 | a thrown error yields success false, status 0, duration 0, the error's message in the body and in `error`, and the cache is unchanged |
| AuthPerf.TokenChangesOnlyOnSuccess | pages/performance/auth.perf.js:88-92 | the cache changes only on a successful response with a truthy `data.token`, and then to that token; a truthy cache stays truthy |
| AuthPerf.LoginHeadersExtendFixed | pages/performance/auth.perf.js:63-67 | login headers are the fixed headers plus `X-Performance-Test: true` |
| AuthPerf.AuthPerformance.constructor | pages/performance/auth.perf.js:13-33 | the endpoint is the API url followed by `/api/auth/login`; the cache starts empty; each credential falls back to its literal default; the prepared payloads are built from the credentials |
| AuthPerf.AuthPerformance.PayloadSelection | pages/performance/auth.perf.js:58-60 | `login` sends the argument's own email and password whichever object is passed; `invalidLogin` sends the invalid pair for the stored object and the argument's pair otherwise |
| AuthPerf.AuthPerformance.Login | pages/performance/auth.perf.js:40-116 | with a truthy cache: the cached result, no call, state unchanged. Otherwise: exactly one POST to the endpoint with the login headers and timeout 5000, the result built from its outcome, and the cache updated by `NextToken`. Every result, cached or not, has `success` iff its status is in [200, 300). The cache is always empty or truthy |
| AuthPerf.AuthPerformance.InvalidLogin | pages/performance/auth.perf.js:123-176 | exactly one POST of the selected payload, the result built from its outcome, and the cache unchanged |

## Left out

- The k6 HTTP client is a scripted sequence of outcomes indexed by call number. Real
  networking, timeouts and the content of response headers are not modelled.
- `JSON.stringify` is a supplied function. `response.json()` is a scripted parse result.
  Neither is implemented.
- `timings.duration` is an opaque real that is passed through, as is the `0` of the cached
  and error paths. No timing is computed.
- A non-cached result in JavaScript has no `cached` key. The model's `cached` field is
  `false` there, which reads the same as the absent key.
- `get`, `put` and `delete` do not catch the client's exceptions either. For them, as for
  `post`, the model returns the `Threw` outcome, which stands for the propagated exception.
- Header objects are maps, so the key order of the object spread is not modelled.
- The fields of `BasePerformance`, `AuthPerformance` and `Credentials` are constants except
  `authToken`, the only field the source updates after construction. Reassigning them from
  outside, which JavaScript allows, is not modelled.
- A caller's credentials object is assumed to carry string `email` and `password`. Missing
  (undefined) keys and the way `JSON.stringify` drops them are not modelled.
- JSON numbers are reals, so NaN is not represented. Falsy values are null, false, 0 and
  the empty string.
- A `TypeError` thrown inside login's `try` block by a malformed response object (no
  `timings`, for instance) is not modelled. Every scripted response is well formed.
