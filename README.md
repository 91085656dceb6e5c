# Lenders proxy: rate limiter and request handler

This project models the serverless function that proxies reads of the
"Lenders" spreadsheet. It covers the function's in-memory, per-client
sliding-window rate limiter and the handler's decision logic. It proves
properties of both.

- `RateLimit` (rate_limit.dfy) covers the limiter. The process-wide `requestLog`
  maps a client identifier to the timestamps of its admitted requests.
  `RateLimit.RateLimiter` is a class with that map as a field. Its method
  `CheckRateLimit` updates the map in place. The pure function `Step` specifies
  that method, and `Replay` runs a series of calls.
  - A timestamp `t` counts at time `now` when `now - t < WINDOW_MS`, with
    `WINDOW_MS` = 3 600 000.
  - A call is rejected when 100 (`RATE_LIMIT`) or more timestamps count.
  - An admitted call stores the timestamps that count, in order, followed by
    `now`.
  - A rejected call writes nothing.
  - The clock is the parameter `now`.
- `Handler` (handler.dfy) covers the handler's decisions, in order:
  1. A CORS preflight is answered with 200 and an empty body.
  2. The client id is chosen by header fallback.
  3. A throttled client gets 429.
  4. A missing API key or spreadsheet id gives 500.
  5. Otherwise the upstream answer is relayed.

  `Handle` takes these inputs: the request method and headers, the
  configuration as two optional strings, the upstream's answer as a value
  (`Reply(status, body)` or `NetErr(message)`), and the limiter's log. It returns
  the response, the new log, and the upstream read if one was made.

The comment at netlify/functions/get-lenders.js:12 suggests that every check
prunes old timestamps. The code returns `false` at line 16, before the `set` at
line 20, so a rejected call writes nothing. On every log the limiter can reach,
this agrees with pruning on every check. Each stored list holds at most 100
timestamps. A rejection therefore finds exactly 100, all in the window, so
there is nothing to prune. `RateLimit.RejectionFindsNothingStale` proves this.

## Model

| member | source | states |
|---|---|---|
| RateLimit.Recent | netlify/functions/get-lenders.js:13 | the filtered list is no longer than the stored one, and every timestamp it keeps is in the window and comes from the stored list |
| RateLimit.Step | netlify/functions/get-lenders.js:8-22 | admits exactly when fewer than 100 stored timestamps of the ip (none for an unseen ip) are in the window. A rejection leaves the whole map unchanged. An admission stores the ip's in-window timestamps followed by `now`, so its list holds at most 100 timestamps, all in the window. No key is removed, and other keys keep their lists |
| RateLimit.RateLimiter.constructor | netlify/functions/get-lenders.js:4 | the request log starts empty and satisfies the bound invariant |
| RateLimit.RateLimiter.CheckRateLimit | netlify/functions/get-lenders.js:8-22 | returns true exactly when fewer than 100 stored timestamps are in the window. On admission the ip's entry becomes its in-window timestamps followed by `now` and every other entry is unchanged. On rejection the map is unchanged. Keeps every list at most 100 long |
| RateLimit.Replay | netlify/functions/get-lenders.js:8-22 | a series of checks gives one verdict per call, and the log's key set only grows |
| RateLimit.RecentAppend | netlify/functions/get-lenders.js:13 | filtering a concatenation is the concatenation of the filtered parts, so the filter keeps the original order |
| RateLimit.RecentCounts | netlify/functions/get-lenders.js:13 | the filter keeps every occurrence of an in-window timestamp and drops every occurrence of any other |
| RateLimit.RecentLater | netlify/functions/get-lenders.js:13 | filtering at an earlier time and then at a later time is the same as filtering at the later time (so filtering is idempotent) |
| RateLimit.RecentAllStale | netlify/functions/get-lenders.js:13 | when no timestamp is in the window the filter keeps nothing |
| RateLimit.RecentAllFresh | netlify/functions/get-lenders.js:13 | when every timestamp is in the window the filter keeps the list unchanged |
| RateLimit.RecentSorted | netlify/functions/get-lenders.js:13 | the filter keeps a non-decreasing list non-decreasing |
| RateLimit.ReplayKeepsBounded | netlify/functions/get-lenders.js:15-20 | over any series of checks no stored list exceeds 100 timestamps |
| RateLimit.StepKeepsOrdered | netlify/functions/get-lenders.js:13-20 | with a clock that never goes back, every stored list stays non-decreasing and no later than the latest `now` |
| RateLimit.OtherCallsLeaveQuota | netlify/functions/get-lenders.js:10-20 | checks for other ips leave an ip's stored list untouched |
| RateLimit.QuotasIndependent | netlify/functions/get-lenders.js:10-20 | an ip's next verdict and stored list are the same whatever other ips did before it |
| RateLimit.BurstFrom | netlify/functions/get-lenders.js:5-20 | starting from `j` timestamps equal to `now`, call `i` of a burst at `now` is admitted exactly when `j + i < 100` |
| RateLimit.FreshClientBurst | netlify/functions/get-lenders.js:5-20 | for an unseen ip at a fixed `now`, calls 1 to 100 are admitted and call 101 is rejected |
| RateLimit.AdmittedAfterWindow | netlify/functions/get-lenders.js:6-21 | once every stored timestamp is at least `WINDOW_MS` old, the ip is admitted and its list restarts as `[now]` |
| RateLimit.WindowBoundIsStrict | netlify/functions/get-lenders.js:6-21 | a quota filled at `t0` still rejects at `t0 + WINDOW_MS - 1` and admits at `t0 + WINDOW_MS`, because a timestamp exactly `WINDOW_MS` old is dropped |
| RateLimit.RecentFullLength | netlify/functions/get-lenders.js:13 | a filter that keeps as many timestamps as it was given keeps the list unchanged |
| RateLimit.RejectionFindsNothingStale | netlify/functions/get-lenders.js:15-20 | on a log whose lists hold at most 100 timestamps, a rejected ip has exactly 100 stored timestamps, all in the window. Writing its pruned list back would leave the log unchanged, so returning before the `set` agrees with pruning on every check |
| Handler.ClientId | netlify/functions/get-lenders.js:39 | the key is `x-forwarded-for` when that is non-empty, else `client-ip` when that is non-empty, else `unknown`. It is never empty |
| Handler.Relay | netlify/functions/get-lenders.js:75-99 | an upstream 200 is passed through with its body unchanged. Any other upstream status is kept, with an error body whose details are the upstream body. A transport error gives 500 with "Network error: " and the message. Every response has the CORS headers and is never the handler's own 429 response or its 500 configuration-error response |
| Handler.Handle | netlify/functions/get-lenders.js:24-101 | OPTIONS gives 200 with an empty body, leaves the log unchanged and makes no upstream read. The response is the 429 "too many requests" response exactly when the client is throttled. It is the 500 configuration-error response exactly when the client is admitted and the key or id is missing. The upstream is read, and its answer relayed, exactly when the request is admitted and configured. Every other request updates the log as one rate-limit check of its client id |
| Handler.ThrottlingComesFirst | netlify/functions/get-lenders.js:38-60 | a throttled request's outcome depends neither on the configuration nor on the upstream, and it leaves the log unchanged |
| Handler.MissingConfigSkipsUpstream | netlify/functions/get-lenders.js:48-66 | with a missing key or id the outcome does not depend on the upstream, and no upstream read is made |
| Handler.HandleAll | netlify/functions/get-lenders.js:24-101 | handling a series of invocations, each with its own time, configuration and upstream answer, gives one response per invocation and never removes a key from the log |
| Handler.Checks | netlify/functions/get-lenders.js:34-40 | a series of invocations makes at most one rate-limit check per invocation |
| Handler.HandleAllIsReplay | netlify/functions/get-lenders.js:34-46 | after any series of invocations, the log is the log left by their rate-limit checks alone: one check of the client id at its own time for each request that is not OPTIONS, whatever the configuration and upstream answers |
| Handler.PreflightsLeaveLog | netlify/functions/get-lenders.js:33-36 | any number of OPTIONS requests, at any times, each get 200 with an empty body and leave the rate limiter's log unchanged |

## Left out

- The HTTPS GET, its chunked body and the Promise wrapper (lines 66-101) are network I/O. The upstream answer is an input value.
- `Reply.body` stands for the assembled string `data` of lines 68-72, not for the upstream's bytes. `data += chunk` decodes each chunk separately, so a multi-byte UTF-8 character split across two chunks is not preserved. This decoding is not modelled, and "body unchanged" means unchanged from `data`.
- Bodies are compared as tagged values, not as JSON text. A relayed 200 body is `Raw`, so it is never equal to the handler's own `Error` bodies, even when its text is the same JSON. The contracts that tell the handler's own error responses apart compare whole responses, status included, and they also hold for the JSON text.
- Every upstream read is assumed to end, in a reply or a transport error. The source sets no timeout, so a read that never ends is cut off by the platform's own timeout. By then the rate-limit log was already updated at line 40.
- `Date.now()` (line 9) is a foreign clock. It is the integer parameter `now`.
- `process.env` (lines 49-50) is read as two optional strings. `console.error` (lines 54, 82, 94) is logging and is not modelled.
- `JSON.stringify` output and the upstream URL text (lines 44, 58, 63, 86-89, 98) are library serialisation. Bodies are tagged values that keep the source's message texts. The read's URL is reduced to the spreadsheet id and key it is built from.
- Each function instance has its own `requestLog`, and a cold start begins with an empty one, so the quota holds per instance. The model has a single log. Within one instance, calls are atomic in the source as in the model. `checkRateLimit` is synchronous, and the handler calls it before its first suspension point (line 66), so Node's single thread runs no other invocation between the `get` at line 10 and the `set` at line 20.
- The log grows without bound across distinct clients. The source has no eviction, so only "keys are never removed" is stated.
- Headers other than `x-forwarded-for` and `client-ip`, and the request body and context, are not modelled. The handler never reads them.
