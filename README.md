# Hotel booking frontend: verified model of the API client

This project models the data-access layer of a hotel-booking web frontend. The layer is the axios-based client in
`src/lib/api-client.ts`. It covers three parts:

- **Base-address resolution** (`getBaseURL`, exported again as `getApiBaseUrl`). It is a decision over the build-time
  override `VITE_API_BASE_URL` and the page's hostname. The result is the override, the Render backend or the local
  backend. The model is `BaseUrl.GetBaseUrl`. `String.prototype.includes` is `Js.Includes`, and the lemma
  `Js.IncludesIffOccurs` proves it against an index-based definition.
- **The request interceptor** (`Gateway.Client.DecorateRequest`). It attaches the stored `session_id` token as
  `Authorization: Bearer <token>` when the token is truthy. It also overwrites the request's metadata with
  `retryCount = 0`.
- **The response interceptor**. A success passes through unchanged. On an error, `Gateway.Client.HandleError` does
  the following:
  - a 401 removes `session_id` from both the cookie jar and `localStorage`;
  - a 500 is only logged;
  - a 429 whose counter `c` is below 3 is re-dispatched after `2^c · 1000` ms, with the counter raised to `c + 1`;
  - a failure that got no response and whose counter is below 2 is re-dispatched after 2000 ms;
  - anything else is rejected with the original error.

The decision itself is the pure function `RetryPolicy.Classify`, and the method's contract is stated through it.

**A whole request.** A retry calls `axiosInstance(config)` again, and axios runs the request interceptors on every
such call. The model has no axioms: the assumption is built into its structure in two places:

- `Gateway.Client.Send` calls `DecorateRequest` at the head of every attempt;
- the specification function `RetryPolicy.Run` applies a `CounterPolicy` on every dispatch. `ResetOnEveryDispatch`
  is the code as written. `InitialiseOnce` is the evidently intended interceptor, which sets the counter only when
  the request has none.

The transport is an oracle: `Send` and `Run` take the sequence of replies it gives to successive dispatches. The
Bearer header, the counter and the two token stores are fields of the classes `Gateway.RequestConfig` and
`Gateway.Client`. The methods update those fields in place, as the interceptors do.

The `< 2` cap at src/lib/api-client.ts:113 allows two retries for a failure without a response, provided the counter
survives between attempts; `RetryPolicy.CorrectedNetworkSchedule` states that schedule.

## Model

| member | source | states |
|---|---|---|
| `Js.IncludesIffOccurs` | src/lib/api-client.ts:12-13 | the scanning `includes` used on the hostname holds exactly when the needle occurs at some index of the hostname |
| `BaseUrl.GetBaseUrl` | src/lib/api-client.ts:5-24 | the base address is always the truthy override, the Render URL or `http://localhost:5000` |
| `BaseUrl.OverrideWins` | src/lib/api-client.ts:6-8 | a non-empty override is returned unchanged, and the hostname has no influence on the result |
| `BaseUrl.ProductionHostGivesRender` | src/lib/api-client.ts:11-16 | with no override, a hostname containing the Render host or `vercel.app` yields the Render URL |
| `BaseUrl.LocalhostGivesLocal` | src/lib/api-client.ts:18-20 | with no override, the hostname `localhost` yields `http://localhost:5000`; `localhost` cannot contain either production trigger |
| `BaseUrl.NoOverrideChoice` | src/lib/api-client.ts:11-23 | with no override, the local URL is chosen if and only if the hostname is exactly `localhost`, and every other hostname gets the Render URL |
| `Gateway.Client.constructor` | src/lib/api-client.ts:34-35 | the client's base address is resolved once, when the instance is created |
| `RetryPolicy.AuthHeaders` | src/lib/api-client.ts:46-49 | a truthy token adds `Authorization` = `"Bearer " + token`; a missing or empty token leaves the headers as they were; no other header changes |
| `Gateway.Client.DecorateRequest` | src/lib/api-client.ts:44-62 | the request's headers become `AuthHeaders` of the stored `session_id`, its counter becomes 0, and nothing else changes |
| `Gateway.Client.PassThrough` | src/lib/api-client.ts:66 | a successful response is returned as it is, and the token stores are not touched |
| `RetryPolicy.SuccessPassesThrough` | src/lib/api-client.ts:66 | a successful reply ends the request with that response, no retry and no delay |
| `Gateway.Client.HandleError` | src/lib/api-client.ts:67-128 | a 401 removes `session_id` from both stores and nothing else does; the counter and the outcome follow `Classify`; a rejection carries the original error and a retry carries the same configuration |
| `RetryPolicy.RateLimitedIsRetried` | src/lib/api-client.ts:91-105 | a 429 with counter c < 3 is re-dispatched after 2^c·1000 ms (1000, 2000, 4000) with counter c + 1 |
| `RetryPolicy.RateLimitedExhausted` | src/lib/api-client.ts:91-108 | a 429 whose counter is at least 3, or that has no counter or no configuration, is rejected and its counter is left alone |
| `RetryPolicy.NetworkFailureDecision` | src/lib/api-client.ts:111-127 | with no response, a counter below 2 gives a re-dispatch after exactly 2000 ms with the counter raised by one, and otherwise a rejection |
| `RetryPolicy.OtherStatusRejected` | src/lib/api-client.ts:72-88 | every status other than 429, including 401 and 500, is rejected with the counter unchanged |
| `RetryPolicy.RedispatchStepBounds` | src/lib/api-client.ts:91-125 | within one handler call, a re-dispatch needs a counter, raises it by exactly one to at most 3, and waits 1000, 2000 or 4000 ms |
| `RetryPolicy.OutcomeIsLastReply` | src/lib/api-client.ts:65-127 | no error becomes a success: a request's outcome is the transport's reply to its last attempt, and every earlier attempt failed |
| `Gateway.Client.Send` | src/lib/api-client.ts:44-127 | a request run through both interceptors on every dispatch yields `Run` under the as-written policy; the stores are cleared only when it ends in a 401 |
| `RetryPolicy.RateLimitNeverSurfaces` | src/lib/api-client.ts:59-105 | as written, any number of consecutive 429s is retried every time, each after 1000 ms, and never reaches the caller |
| `RetryPolicy.NetworkFailureNeverSurfaces` | src/lib/api-client.ts:59-122 | as written, any number of failures without a response is retried every time, each after 2000 ms |
| `RetryPolicy.FourthRateLimitIsRetried` | src/lib/api-client.ts:96-105 | as written, four consecutive 429s followed by a success give waits of 1000, 1000, 1000 and 1000 ms and then the success |
| `RetryPolicy.AsWrittenDelaysAreFlat` | src/lib/api-client.ts:99-100 | as written, every wait in a request is 1000 or 2000 ms, so the exponential backoff never takes effect |
| `RetryPolicy.CorrectedRetriesBounded` | src/lib/api-client.ts:91-125 | with the counter kept across dispatches, a request is re-dispatched at most 3 times in all, and any 4 replies settle it |
| `RetryPolicy.FreshRequestRetriesBounded` | src/lib/api-client.ts:91-125 | with the counter kept across dispatches, a fresh request (no counter yet) is re-dispatched at most 3 times, and more than 3 replies always settle it |
| `RetryPolicy.CorrectedRateLimitSchedule` | src/lib/api-client.ts:98-100 | with the counter kept, consecutive 429s wait 1000, 2000 and 4000 ms, and the fourth 429 is rejected |
| `RetryPolicy.CorrectedNetworkSchedule` | src/lib/api-client.ts:111-122 | with the counter kept, failures without a response are retried twice, 2000 ms apart, and the third is rejected |

## Findings

| source | as written | input that shows it | evidently intended | confidence | as-written member | corrected member |
|---|---|---|---|---|---|---|
| src/lib/api-client.ts:59 | the request interceptor sets `retryCount` to 0 on every dispatch, and every retry re-dispatches through that interceptor, so the `< 3` cap never binds | four consecutive 429 replies: waits of 1000, 1000, 1000 and 1000 ms, and the fourth 429 is retried | waits of 1 s, 2 s and 4 s, then the fourth 429 is rejected, as the comment at line 98 says | high; not executed | `RetryPolicy.FourthRateLimitIsRetried` | `RetryPolicy.CorrectedRateLimitSchedule` |
| src/lib/api-client.ts:59 | the same reset makes the `< 2` cap for failures without a response ineffective | any number n of failures without a response: n retries, each after 2000 ms, and no rejection | at most two retries, then the error is rejected | high; not executed | `RetryPolicy.NetworkFailureNeverSurfaces` | `RetryPolicy.CorrectedNetworkSchedule` |

The corrected definition is `Run` under `InitialiseOnce`, and `RetryPolicy.CorrectedRetriesBounded` proves its overall
bound. `Gateway.Client` keeps the code as written, so that `Send` shows what the deployed client does.

## Left out

- Logging (`console.log`, `console.warn`, `console.error`) and the URL path split made for log messages: they are side effects with no bearing on any outcome.
- Real waiting (`setTimeout` and promise suspension): a delay is a returned number of milliseconds.
- The axios transport and its configuration (`withCredentials`, the 30 s timeout, the `Content-Type` default): the transport is an oracle whose replies are given as a sequence.
- Send: a request still retrying when the scripted replies run out ends as `Unresolved`. This is a bound on the model, not on the code, which as written may retry forever.
- Concurrent in-flight requests: the code has no coordination between them.
- `retryCount` is a natural number, because the code only ever writes 0 and increments it. A negative counter, which would make `Math.pow` return a fraction, cannot arise.
- `import.meta.env`, `window.location`, `localStorage` and the cookie jar are not ambient globals: they are inputs, or fields of `Gateway.Client`.
- `getApiBaseUrl` is the same function as `getBaseURL`, so it has no separate member.
- src/shared/types.ts (type declarations only) and vite.config.ts (development proxy configuration) are not part of this model.
