# Resilient request layer and form validators — a Dafny model

This project models the session-keeping HTTP layer of the social-app
frontend (`src/interceptor/api.ts`) and its three form validators. It also
proves properties of the model.

The HTTP layer has five parts:

- **`CircuitBreaker`** gates the token refresh. It is CLOSED, OPEN or
  HALF_OPEN, counts failures, and refuses while OPEN until `nextAttempt`.
- **`PriorityQueue`** holds the requests that failed with 401 while a refresh
  was in flight. It has three FIFO tiers and a size bound. When full, it
  evicts the oldest low-priority request, or refuses.
- **`exponentialBackoff`** retries the refresh. **`retryRequest`** and
  **`shouldRetryRequest`** retry idempotent requests after transient failures.
- **`EnterpriseTokenManager`** chooses which failures it takes over. It keeps
  a single refresh in flight. Every other 401 waits in the queue. When the
  refresh settles, the queue is drained: each request is reissued with
  `_retry` set, or rejected with the refresh error. The manager also owns the
  silent-refresh gate, `forceRefresh`, the cross-tab `TOKEN_REFRESHED`
  message, and `clearQueue`/`getQueueSize`.
- **The response interceptor** rejects `_retry` requests as they are. It
  passes every other failure to the manager. A failure the manager rejects
  at once is retried through `retryRequest` when `shouldRetryRequest`
  accepts it.

The validators are `validationRegisterForm`, `validationLogin` and
`validateResetPassword`. Each is a set of functions on strings. The model
reads every regular expression literally, over explicit character classes,
and proves what each one accepts.

Modules, one concept each:

| module | file | what it holds |
|---|---|---|
| `Wrappers` | wrappers.dfy | `Option` |
| `Text` | text.dfy | the JavaScript whitespace set, `trim`, `includes`, ASCII `toLowerCase` |
| `Chars` | chars.dfy | the regex character classes and the password-strength predicate |
| `RegisterValidation`, `LoginValidation`, `ResetPasswordValidation` | register.dfy, login.dfy, reset.dfy | the three validators |
| `Http` | http.dfy | request config, failure, transport reply, outcome |
| `CircuitBreakers` | breaker.dfy | class `CircuitBreaker` |
| `RequestQueue` | queue.dfy | the queue as functions on its three tiers, and class `PriorityQueue` tied to them |
| `Retry` | retry.dfy | one loop for both retry policies, and `shouldRetryRequest` |
| `TokenManager`, `TokenManagerScenarios` | manager.dfy | class `EnterpriseTokenManager`, the interceptor, and client scenarios |

How the model stands in for what it cannot see:

- **Clock.** Time is a parameter `now`.
- **Transport.** The transport is a function `net` fixed when the manager is
  built. The k-th request the manager sends is logged as `sent[k]` and gets
  the reply `net(k)`. The first `/refresh` POST is logged when the refresh
  starts, as in the source. Its later attempts are logged when the refresh
  settles.
- **Promises.** Every promise the manager hands out gets a number. The log
  `settled` records, in order, how each promise settled.
- **Await points.** Each method stops wherever the source stops at an
  `await` that other requests can overtake:
  - `CircuitBreaker.call` becomes `Enter` (the gate), then `Success` or `Failure` once `fn` has settled.
  - `refreshToken` becomes `RefreshToken`, then `CompleteRefresh` once the refresh settles. `RefreshToken` is everything up to the first `await`: it sets `isRefreshing`, passes the breaker's gate and sends the first `/refresh` POST, because `circuitBreaker.call` and `exponentialBackoff` call their `fn` before they first await.
  - `handleError` hands a `Pending` promise back to the interceptor.
- **Refresh invariant.** The class invariant `Valid()` says:
  - `isRefreshing` holds exactly while a refresh is in flight;
  - a refresh the breaker admitted finds it not OPEN;
  - every rejection in `settled` has a reason that `shouldRetryRequest` refuses. So when a queued promise settles, the interceptor's catch block passes it on unchanged.

Code behaviours the model states as written:

- **Public endpoint `"/"`.** `publicEndpoints` contains `"/"` and the test is
  `includes`. So no URL with a slash is ever intercepted
  (`SlashedUrlNotIntercepted`). With the default lists, only non-empty
  slash-free URLs are intercepted (`DefaultInterceptIff`).
- **Attempt count.** Both retry loops make up to `maxRetries + 1` attempts,
  not `maxRetries`.
- **Interceptor retry.** The interceptor's `retryRequest` sends its retry with
  `_retry` set. So that retry is sent at most once (`RetriedCallsOnce`), not
  up to three times.
- **When `isRefreshing` clears.** `isRefreshing` is cleared in the `finally`,
  after the queue has been drained, not before.

## Model

| member | source | states |
|---|---|---|
| RegisterValidation.NameError | src/validation/RegisterValidation.ts:20-31 | definition: a name blank after trimming gets its field's required message, one shorter than 3 gets "Минимум 3 символа", any other none; its meaning is `NameRule` |
| RegisterValidation.EmailError | src/validation/RegisterValidation.ts:34-38 | definition: blank after trimming gives "Email обязателен", not matching the pattern "Некорректный email", else none; its meaning is `EmailRule` |
| RegisterValidation.PasswordError | src/validation/RegisterValidation.ts:41-57 | definition: the first failing check in source order gives its message; its meaning is `PasswordRule` |
| RegisterValidation.ValidationRegisterForm | src/validation/RegisterValidation.ts:3-60 | definition: the record of the four fields' errors, a key only for a field with an error; its meaning is `FieldEntry`, `EmptyIffAllPass` and `RegisterAcceptedIff` |
| LoginValidation.EmailError | src/validation/LoginValidation.ts:6-13 | definition: empty gives "Введите email", not matching the pattern "Введите корректный email", else none; its meaning is `LoginValidation.EmailRule` |
| LoginValidation.PasswordError | src/validation/LoginValidation.ts:15-19 | definition: empty gives "Введите пароль", shorter than 6 the length message, else none; its meaning is `LoginValidation.PasswordRule` |
| LoginValidation.ValidationLogin | src/validation/LoginValidation.ts:3-22 | definition: the record of the email and password errors; its meaning is `LoginEntries` and `LoginAcceptedIff` |
| ResetPasswordValidation.MatchesPasswordPattern | src/validation/ResetPasswordValidate.ts:2-3 | definition: the four lookaheads, each read as "some character before the first line terminator", and at least 8 allowed characters; its meaning is `PatternIsStrength` |
| ResetPasswordValidation.ValidateResetPassword | src/validation/ResetPasswordValidate.ts:1-14 | definition: empty gives the required message, a non-matching one the strength message, else `undefined`; its meaning is `ResetRule` |
| Text.TrimEmptyIff | src/validation/RegisterValidation.ts:20 | `!s.trim()` holds exactly when every character of `s` is JavaScript whitespace |
| Text.ToLower | src/interceptor/api.ts:191 | `toLowerCase` keeps the length and lower-cases each character |
| RegisterValidation.NameRule | src/validation/RegisterValidation.ts:20-31 | a blank name gets the required message, a short one "Минимум 3 символа", and the name passes exactly when it is not blank and has at least 3 characters |
| RegisterValidation.EmailPatternParts | src/validation/RegisterValidation.ts:36 | `/^\S+@\S+\.\S+$/` matches exactly a whitespace-free string `a@b.c` with `a`, `b`, `c` non-empty |
| RegisterValidation.EmailRule | src/validation/RegisterValidation.ts:34-38 | a blank email gets "Email обязателен", a non-matching one "Некорректный email", and it passes exactly when the pattern matches |
| RegisterValidation.PasswordRule | src/validation/RegisterValidation.ts:41-57 | each failed check, in source order, yields its own message, and the password passes exactly when it is a strong password |
| RegisterValidation.FieldEntry | src/validation/RegisterValidation.ts:3-60 | the errors record has a key for a field exactly when that field's check failed, holding that check's message |
| RegisterValidation.EmptyIffAllPass | src/validation/RegisterValidation.ts:3-60 | the errors record is empty exactly when all four field checks pass |
| RegisterValidation.RegisterAcceptedIff | src/validation/RegisterValidation.ts:3-60 | a form is accepted exactly when both names are non-blank with at least 3 characters, the email matches and the password is strong |
| RegisterValidation.EntryDependsOnlyOnField | src/validation/RegisterValidation.ts:19-57 | the entry for a field depends only on that field's value |
| LoginValidation.LoginEntries | src/validation/LoginValidation.ts:3-22 | the errors record holds an email or password entry exactly when that check failed, with its message, and is empty exactly when both pass |
| LoginValidation.LoginEmailShape | src/validation/LoginValidation.ts:9 | `/^[^\s@]+@[^\s@]+\.[^\s@]+$/` matches exactly a whitespace-free string with a single `@`, not first, followed later by a `.` that leaves at least one character on each side |
| LoginValidation.EmailRule | src/validation/LoginValidation.ts:6-13 | an empty email gets "Введите email", a non-matching one "Введите корректный email", and it passes exactly when the pattern matches |
| LoginValidation.PasswordRule | src/validation/LoginValidation.ts:15-19 | an empty password gets "Введите пароль", one shorter than 6 the length message, and it passes exactly when it has at least 6 characters |
| LoginValidation.LoginAcceptedIff | src/validation/LoginValidation.ts:3-22 | the login form is accepted exactly when the email matches and the password has at least 6 characters |
| LoginValidation.NothingTrimmed | src/validation/LoginValidation.ts:6-19 | login does not trim: an all-blank email is "not valid" rather than missing, and a blank 6-character password passes |
| ResetPasswordValidation.PatternIsStrength | src/validation/ResetPasswordValidate.ts:2-3 | the lookahead pattern accepts exactly the strong passwords that the register form accepts |
| ResetPasswordValidation.ResetRule | src/validation/ResetPasswordValidate.ts:1-14 | empty gives the required message, a weak password gives the strength message, and `undefined` is returned exactly for a strong password |
| ResetPasswordValidation.ResetAgreesWithRegister | src/validation/ResetPasswordValidate.ts:2-3 | the reset check accepts a password exactly when the register form has no password error for it |
| CircuitBreakers.CircuitBreaker.constructor | src/interceptor/api.ts:23-29 | a new breaker is CLOSED with no failures and `nextAttempt` now |
| CircuitBreakers.CircuitBreaker.Admits | src/interceptor/api.ts:32-37 | definition: the gate lets `fn` run unless the breaker is OPEN and `nextAttempt` has not come; `Enter` is tied to it |
| CircuitBreakers.CircuitBreaker.Enter | src/interceptor/api.ts:32-37 | an OPEN breaker before `nextAttempt` refuses and changes nothing; from then on it turns HALF_OPEN and admits; it never stays OPEN after admitting |
| CircuitBreakers.CircuitBreaker.Success | src/interceptor/api.ts:49-52 | a success zeroes the count and leaves the breaker CLOSED |
| CircuitBreakers.CircuitBreaker.Failure | src/interceptor/api.ts:54-60 | a failure adds one; reaching the threshold opens the breaker until now plus `timeout`; a failed HALF_OPEN probe reopens |
| RequestQueue.TierOf | src/interceptor/api.ts:106-116 | definition: "high" and "low" name their tier, any other priority is normal |
| RequestQueue.Admit | src/interceptor/api.ts:83-120 | definition: at capacity the oldest low item is evicted to make room, or nothing is added; otherwise the item goes to the tail of its tier; its meaning is `AdmitBound` and `AdmitEvictsOldestLow` |
| RequestQueue.Take | src/interceptor/api.ts:122-126 | definition: the head of high, else of normal, else of low; its meaning is `TakeIsHeadOfOrder` |
| RequestQueue.AdmitBound | src/interceptor/api.ts:83-120 | `add` keeps the size bound, grows by one unless it evicts, and refuses exactly when full with no low item, changing nothing |
| RequestQueue.AdmitEvictsOldestLow | src/interceptor/api.ts:87-94 | when full, exactly the oldest low item is evicted and the new item goes to the tail of its tier |
| RequestQueue.TakeIsHeadOfOrder | src/interceptor/api.ts:122-126 | `getNext` hands out the head of high-then-normal-then-low order, and nothing exactly when the queue is empty |
| RequestQueue.DrainIsOrder | src/interceptor/api.ts:122-126 | repeated `getNext` yields all high, then all normal, then all low items, each in arrival order |
| RequestQueue.ScenarioOrder | src/interceptor/api.ts:106-126 | items queued as low, high, normal, high leave as high, high, normal, low |
| RequestQueue.PriorityQueue.constructor | src/interceptor/api.ts:79-81 | a new queue is empty with the given bound |
| RequestQueue.PriorityQueue.Add | src/interceptor/api.ts:83-120 | the new tiers, the added flag and the evicted item are those of `Admit` on the old tiers |
| RequestQueue.PriorityQueue.GetNext | src/interceptor/api.ts:122-126 | the item handed out and the remaining tiers are those of `Take` on the old tiers |
| RequestQueue.PriorityQueue.IsEmpty | src/interceptor/api.ts:128-134 | empty exactly when no item is waiting, which is a size of 0 |
| RequestQueue.PriorityQueue.Clear | src/interceptor/api.ts:136-152 | every waiting item is returned, high to low, to be rejected; the queue is then empty |
| RequestQueue.PriorityQueue.GetSize | src/interceptor/api.ts:154-156 | `currentSize` is the number of waiting items |
| Retry.ShouldRetryRequest | src/interceptor/api.ts:185-203 | definition, with line 189 read as `return false`: no config, `_retry` set, or a method outside get, head, options, put and patch gives false; otherwise a missing response, a 5xx, `ECONNABORTED`, `NETWORK_ERROR` or a 429 gives true; its partners are the lemmas below |
| Retry.ShouldRetryRequestAsWritten | src/interceptor/api.ts:185-203 | definition, line for line: as `ShouldRetryRequest` except that `_retry` set throws a `ReferenceError` for `fal`; its partners are `RetryFlagThrowsAsWritten` and `AsWrittenAgreesWithoutFlag` |
| Retry.RetryFlagThrowsAsWritten | src/interceptor/api.ts:189 | as written, a `_retry`-flagged GET failing with 503 makes the test throw a `ReferenceError`, where the intended result is false |
| Retry.RetryFlagNeverRetried | src/interceptor/api.ts:186-189 | as intended, a request already marked `_retry` is never retried |
| Retry.AsWrittenAgreesWithoutFlag | src/interceptor/api.ts:185-203 | without the `_retry` flag, the code as written returns what the intended reading returns |
| Retry.RetryScenarios | src/interceptor/api.ts:191-202 | a POST failing with 500 is not retried; a GET failing with 503 is |
| Retry.Run | src/interceptor/api.ts:160-182 | definition: attempts `i` to `maxRetries` in order, stopping at the first success, the last attempt, or a failure the policy does not retry; its meaning is `RunCharacterisation` |
| Retry.Backoff | src/interceptor/api.ts:160-182 | the loop's outcome and number of calls are those of `Run`; the pre-jitter delay before attempt `j + 1` is `baseDelay * 2^j` |
| Retry.RunCharacterisation | src/interceptor/api.ts:205-224 | with `maxRetries >= 0`, between 1 and `maxRetries + 1` calls are made; every earlier call failed in a way the policy retries; the outcome is the last call's; with `maxRetries < 0`, no call is made and the exhaustion error is thrown |
| Retry.RunBound | src/interceptor/api.ts:165 | from attempt `i`, at least one more and at most `maxRetries + 1` calls in all |
| Retry.RunLast | src/interceptor/api.ts:165-181 | from attempt `i` within the bound, at least one more call is made and the outcome is that of the last call made |
| Retry.RefreshStopsOnClientError | src/interceptor/api.ts:173-175 | the refresh policy gives up at once on a response whose status is set and below 500 |
| Retry.RetriedCallsOnce | src/interceptor/api.ts:214 | a request whose failures all carry `_retry` is called at most once by the general policy |
| TokenManager.ShouldIntercept | src/interceptor/api.ts:281-287 | definition: a URL is present and non-empty and includes none of the public and skip endpoints; its meaning with the default lists is `DefaultInterceptIff` |
| TokenManager.IsAuthError | src/interceptor/api.ts:289-295 | definition: status 401 and a URL, when there is one, that includes neither `/login` nor `/public`; its partner is `InterceptedAuthIff` |
| TokenManager.InterceptedAuthIff | src/interceptor/api.ts:289-295 | on a URL the default lists intercept, a failure is an auth error exactly when its status is 401 |
| TokenManager.SlashedUrlNotIntercepted | src/interceptor/api.ts:281-287 | when `"/"` is a public endpoint, no URL containing a slash is intercepted |
| TokenManager.DefaultInterceptIff | src/interceptor/api.ts:249-250 | with the default endpoint lists, exactly the non-empty slash-free URLs are intercepted |
| TokenManager.PriorityTag | src/interceptor/api.ts:381 | `_priority \|\| "normal"` is never empty and puts the request in the tier of its priority, defaulting to normal |
| TokenManager.Resolve | src/interceptor/api.ts:253-260 | without options the settings are 5, 30000, 3, 1000, 100 and 300000; each of the six options, when given, is taken as is |
| TokenManager.FirstRefreshSettles | src/interceptor/api.ts:340-349 | an admitted refresh whose first POST is answered, or that has no retries, settles with that first reply after one request |
| TokenManager.RefreshPostNotRetried | src/interceptor/api.ts:343-345 | a failure of the refresh POST is not one `shouldRetryRequest` accepts |
| TokenManager.RefreshAttemptIsPost | src/interceptor/api.ts:340-347 | every refresh attempt that fails, fails with the `/refresh` POST config |
| TokenManager.RefreshErrorFinal | src/interceptor/api.ts:514-530 | whatever error the breaker-wrapped refresh throws, the interceptor does not retry it |
| TokenManager.RetriedAnswerFinal | src/interceptor/api.ts:317-327 | the failure of a reissue sent with `_retry` is not retried again |
| TokenManager.DrainWithError | src/interceptor/api.ts:314-315 | with an error, the drain rejects every queued request with it, in queue order |
| TokenManager.EnterpriseTokenManager.constructor | src/interceptor/api.ts:252-279 | the settings are the resolved defaults, the queue is empty with bound `maxQueueSize`, the breaker is CLOSED, and nothing is refreshing, sent or settled |
| TokenManager.EnterpriseTokenManager.FirstSend | src/interceptor/api.ts:340-347 | definition: an admitted refresh with `maxRetries >= 0` sends one `/refresh` POST at once, and otherwise nothing; used by the contracts below |
| TokenManager.EnterpriseTokenManager.RefreshToken | src/interceptor/api.ts:332-349 | while a refresh is in flight, the caller joins it and nothing else changes, nothing is sent and the breaker is untouched; otherwise exactly one refresh starts, recorded with its starter, the breaker's admission and the number of the first POST, which is sent at once when admitted; the breaker turns HALF_OPEN from OPEN when it admits and is unchanged when it refuses |
| TokenManager.EnterpriseTokenManager.ProcessQueue | src/interceptor/api.ts:309-330 | the queue ends empty; each queued request, in order, is rejected with the error or is reissued with `_retry` and settled with its reply |
| TokenManager.EnterpriseTokenManager.DrainStep | src/interceptor/api.ts:311-328 | one turn of the drain: the head of the queue in high-normal-low order leaves it and is rejected with the refresh error, or is reissued once with `_retry` and settled with its reply; nothing else is sent |
| TokenManager.EnterpriseTokenManager.RunRefresh | src/interceptor/api.ts:340-349 | an admitted refresh sends the backoff's later attempts and reports to the breaker: success closes it with a zero count; failure adds one, opens it until now plus `timeout` at the threshold, keeps it CLOSED below it, and reopens a HALF_OPEN probe; a refused one throws the OPEN error, sends nothing and leaves state, count and `nextAttempt` unchanged |
| TokenManager.EnterpriseTokenManager.SendRefreshes | src/interceptor/api.ts:340-349 | the outcome and number of `/refresh` POSTs of an admitted run are those of `Run` under the refresh policy, the attempts after the first are sent, and the outcome is one the interceptor does not retry |
| TokenManager.EnterpriseTokenManager.Report | src/interceptor/api.ts:38-46 | the breaker hears the run's verdict: success leaves it CLOSED with a zero count and `nextAttempt` as it was; failure adds one, opens it until now plus `timeout` at the threshold, keeps it CLOSED below it, and reopens a HALF_OPEN probe |
| TokenManager.EnterpriseTokenManager.WindUp | src/interceptor/api.ts:351-363 | success drains by reissuing, sets `lastRefreshTime` and broadcasts on a client; failure drains by rejecting, and a 401 ends the session on a client |
| TokenManager.EnterpriseTokenManager.Resume | src/interceptor/api.ts:385-395 | after a successful refresh the original request is reissued once with `_retry`; after a failed one it is rejected with the refresh error; a `forceRefresh` caller gets the outcome |
| TokenManager.EnterpriseTokenManager.FinishRefresh | src/interceptor/api.ts:351-367 | a settled refresh is wound up: joiners get its outcome, the queue is drained and ends empty, the starter is resumed, the time, broadcast and session end are recorded as `WindUp` states, and `isRefreshing` and `refreshCall` are cleared |
| TokenManager.EnterpriseTokenManager.CompleteRefresh | src/interceptor/api.ts:340-367 | `RunRefresh` then `FinishRefresh`: the whole log of sends and settlements of a settled refresh, in order the later refresh attempts, joiners, drain and starter; `isRefreshing` and `refreshCall` are cleared; the breaker ends as `RunRefresh` states |
| TokenManager.EnterpriseTokenManager.Intercepts | src/interceptor/api.ts:371-378 | definition: the failure has a config, `shouldIntercept` accepts its URL, it is an auth error, and `_retry` is not set |
| TokenManager.EnterpriseTokenManager.HandleError | src/interceptor/api.ts:370-399 | a failure not taken over is rejected as is and changes nothing; one taken over while refreshing is queued at its priority, or refused with "Request queue is full", sending nothing and leaving the breaker; otherwise it starts the one refresh, sends its first POST when admitted, and moves the breaker as `RefreshToken` states |
| TokenManager.EnterpriseTokenManager.SilentDue | src/interceptor/api.ts:402-406 | definition: no refresh in flight, `lastRefreshTime` set and non-zero, and at least `silentRefreshInterval` since it |
| TokenManager.EnterpriseTokenManager.RefreshTokenSilently | src/interceptor/api.ts:401-415 | a refresh starts exactly when `SilentDue` holds, sending its first POST when admitted and moving the breaker as `RefreshToken` states; otherwise nothing changes |
| TokenManager.EnterpriseTokenManager.ForceRefresh | src/interceptor/api.ts:493-496 | `lastRefreshTime` is unset first; the caller then starts a refresh, sending its first POST when admitted and moving the breaker as `RefreshToken` states, or joins the one in flight with nothing sent |
| TokenManager.EnterpriseTokenManager.OnBroadcast | src/interceptor/api.ts:272-277 | on a client, `TOKEN_REFRESHED` drains the queue by reissuing and records the time; any other message changes nothing |
| TokenManager.EnterpriseTokenManager.ClearQueue | src/interceptor/api.ts:489-491 | every waiting request is rejected with "Queue cleared", high to low, and the queue is empty |
| TokenManager.EnterpriseTokenManager.GetQueueSize | src/interceptor/api.ts:485-487 | the number of requests waiting for the refresh |
| TokenManager.OnResponseError | src/interceptor/api.ts:502-533 | a `_retry` request is rejected as is and changes nothing; a failure the manager does not take over leaves the queue, the refresh, the breaker and the settlements as they were, and is retried once with `_retry` when eligible, settling with that reply; one taken over while refreshing is queued, refused or evicts as in `HandleError`; otherwise it starts the one refresh and sends at most its first POST; at most one request is sent |
| TokenManagerScenarios.SlashFreeAuthError | src/interceptor/api.ts:281-295 | a 401 on a non-empty slash-free URL is an auth error the default lists intercept |
| TokenManagerScenarios.OneUnauthorized | src/interceptor/api.ts:370-383 | under the default settings, a first 401 on `users` starts the refresh, admitted, and sends its first POST; the queue stays empty |
| TokenManagerScenarios.ThreeUnauthorized | src/interceptor/api.ts:370-383 | three 401s under the default settings: the first starts the refresh and sends its first POST at once, the other two wait in the queue, high priority first |
| CircuitBreakers.ThresholdScenario | src/interceptor/api.ts:32-60 | scenario, no contract: five failures open the breaker, it refuses until `timeout` has passed, and a failed HALF_OPEN probe reopens it |
| RequestQueue.OverflowScenario | src/interceptor/api.ts:83-120 | scenario, no contract: eviction of the oldest low item and refusal at capacity |
| TokenManagerScenarios.SingleFlightScenario | src/interceptor/api.ts:309-395 | scenario, no contract: the three 401s share one refresh, and the queue is drained high first, before the request that started the refresh |
| TokenManagerScenarios.SilentRefreshScenario | src/interceptor/api.ts:401-415 | scenario, no contract: the silent-refresh gate before and after one interval, and `forceRefresh` handing its caller the outcome |
| TokenManagerScenarios.ForcedRefreshDone | src/interceptor/api.ts:493-496 | no silent refresh is due before the first refresh; a forced refresh answered 200 hands its caller the response, records the time and leaves the breaker CLOSED |
| TokenManagerScenarios.BreakerScenario | src/interceptor/api.ts:340-349 | scenario, no contract: with a threshold of one and no retries a failed refresh opens the breaker, and a forced refresh a moment later is refused with "Circuit breaker is OPEN" and sends nothing |
| TokenManagerScenarios.BreakerOpened | src/interceptor/api.ts:32-60 | with a threshold of one and no retries, one forced refresh answered 503 opens the breaker with one failure until now plus 30000 |

The scenario methods check one concrete run each against the contracts above.

## Left out

- The axios transport itself is not modelled. It is the function `net`. The
  response interceptor applies to the requests the manager sends as well. For
  those requests (`_retry` set, or the `/refresh` POST) the interceptor passes
  failures through unchanged, so `net` includes that pass.
- Delays are not modelled. The model records the pre-jitter delays
  `baseDelay * 2^i`. The `Math.random()` jitter and the `setTimeout` waits are
  left out because they only delay.
- The queue item `id` from `Math.random()` and its `timestamp` are not
  modelled. The model numbers promises with `nextId` instead. Nothing reads
  the timestamp.
- Interleavings inside one drain are not modelled. `processQueue` awaits each
  reissue, and other failures could be handled in between. The model treats
  one drain as one step.
- Interleavings inside one refresh run are not modelled. Between the first
  `/refresh` POST and the moment the refresh settles, the model lets any
  number of other failures, `forceRefresh` calls and silent refreshes happen.
  The retries after the first POST, and the backoff waits between them, are
  one step inside `CompleteRefresh`. So nothing can happen between two
  attempts of the same refresh, and a request handled during the backoff is
  logged after all the refresh attempts rather than between them. Each such
  request gets its own reply from `net`, whatever its place in the log.
- `AbortController`, `destroy`, `init`, `startTokenMonitor`,
  `stopTokenMonitor` and the visibility handler are not modelled. They deal
  with timers, listeners and cancelling the transport. The model keeps their
  effect on the manager through `RefreshTokenSilently` and `ClearQueue`.
- Browser side effects are reduced to counters: `broadcasts` for
  `BroadcastChannel.postMessage`, and `sessionEnds` for
  `handleCriticalAuthFailure` (clearing `localStorage`/`sessionStorage` and
  the redirect).
- The interceptor's success handler `(res) => res` is the identity and has no
  member.
- Text.ToLower: lower-cases ASCII letters only. The only non-ASCII letter
  whose lower case is ASCII is the Kelvin sign, which becomes `k`. No
  idempotent method name contains `k`, so the retry test decides the same.
- Lengths count characters, not UTF-16 code units. The two differ only
  outside the Basic Multilingual Plane.
- The Redux slices and the `.tsx` pages that call the validators are not part
  of this model.

## Findings

| source | as written | input that shows it | evidently intended | confidence | as-written member | corrected member |
|---|---|---|---|---|---|---|
| src/interceptor/api.ts:189 | `if (config._retry) return fal;` evaluates the undefined identifier `fal` and throws a `ReferenceError` | an `AxiosError` whose config is a GET to `/users` with `_retry: true` and status 503 (`Retry.RetryFlagThrowsAsWritten`) | `return false`: a request already retried is not retried again | not executed | Retry.ShouldRetryRequestAsWritten | Retry.ShouldRetryRequest |

The intended property of the corrected member is proved twice:
`Retry.RetryFlagNeverRetried` for one call, and `Retry.RetriedCallsOnce` for
the retry loop. The rest of the model uses the corrected member.
