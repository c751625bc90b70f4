# retry — a verified model of the sequential retry engine

The `retry` library wraps an HTTP GET in a retry loop. Each attempt gets a
deadline. A failed attempt is retried with the deadline multiplied by a
growth factor. A response whose status is in a configured list counts as a
failure. Once the retries are spent, the call fails with
`All retries failed. Url: <url>`. A process-wide *dynamic timeout
controller* keeps a cumulative mean of the observed response times. When
that mean is above half of the shared base timeout, it multiplies the
timeout by the growth factor. When the mean is below a quarter of it, it
scales the timeout by 1.5/growthFactor. That is a reduction only when
growthFactor > 1.5, and ×0.75 at the default of 2.

This project models three pieces and proves properties about them:

- `constants.dfy` (module `Constants`) holds the default configuration and
  `getTotalTime`. The latter is a loop proved equal to
  `timeout * (1 + growthFactor)^retries`.
- `retry.dfy` (module `Retry`) holds the module-level state as the class
  `RetryModule`, whose fields are the shared `retryOptions` values and the
  two latency counters. `UpdateBaseTimeout` is the controller.
  `FetchWithRetry` is a loop over attempts; each pass resolves the defaults,
  makes one attempt, feeds the controller, and either returns or continues
  with one retry less and a grown timeout. Both methods are proved against
  pure functions on a `ModuleState` snapshot (`Observe`, `RetryRun`). The
  properties are lemmas about those functions.
- `powers.dfy` (module `Powers`) holds the power function both closed forms
  use.

The request primitive (`fetchWithTimeout`, i.e. `fetch` with an abort timer)
is replaced by a sequence of attempt outcomes. `outcomes[k]` says what
attempt k produced: `Received(status, elapsed)` or `Rejected(elapsed)`. A
rejection covers both an aborted deadline and a transport error. The
elapsed time that the source measures with `Date.now()` is part of each
outcome.

`src/retry.js:24-35` scales the timeout by growthFactor when the mean is
above 1/2 of it and by 1.5/growthFactor when the mean is below 1/4 of it, on
every sample. It has no outlier clamp, no hysteresis and no min/max clamp.
`RETRY_DYNAMIC_MAX_TIMEOUT`, `RETRY_DYNAMIC_MIN_TIMEOUT` and
`RETRY_DYNAMIC_HEURISTIC` are declared in `src/constants.js` and read by
nothing; the model declares them and uses them only in `DefaultsWellFormed`.

Two details of the code shape the model:

- The controller scales by the *shared* `retryOptions.growthFactor`, not by
  the growth factor the caller passed. No modelled code changes that shared
  value, so `RetryModule.FetchWithRetry` keeps it fixed.
- `fetchWithRetry` re-reads the defaults on every recursive call. The clone
  passed down sets `retries` and `timeout` explicitly. `growthFactor` and
  `statusCodes` stay as the caller gave them, or keep falling back to the
  shared values.

## Model

| member | source | states |
|---|---|---|
| Constants.TotalTime | src/constants.js:19-25 | the closed form `timeout * (1 + growthFactor)^r` (r = `retries` if positive, else 0) that `GetTotalTime` is proved equal to; its properties are the three lemmas below |
| Constants.GetTotalTime | src/constants.js:19-25 | the loop returns `timeout * (1 + growthFactor)^r`, where r is `retries` if positive and 0 otherwise |
| Constants.TotalTimeWithoutRetries | src/constants.js:20-24 | for `retries <= 0` the total is the timeout unchanged |
| Constants.TotalTimeStep | src/constants.js:21-22 | one more retry multiplies the total by `1 + growthFactor` |
| Constants.TotalTimeMonotone | src/constants.js:21-22 | for non-negative timeout and growth factor, the total is at least the timeout and never decreases as retries grow |
| Constants.DefaultsWellFormed | src/constants.js:2-17 | min timeout <= default timeout <= max timeout; growth factor > 1; attempts >= 0; heuristic > 0; 408 is a retry status and 401 is not |
| Retry.AverageResponseTime | src/retry.js:20-22 | called only with at least one sample; the mean times the count gives back the sum |
| Retry.Observe | src/retry.js:24-35 | when disabled, the state is unchanged; when enabled, the count grows by exactly 1 and the sum by the sample; retries, growth factor, status codes and the enabled flag never change; the new timeout is stated by ObserveTimeoutBands |
| Retry.NextTimeout | src/retry.js:29-34 | the band rule on a given mean: ×growthFactor above half the timeout, ×(1/growthFactor)·1.5 below a quarter, unchanged otherwise; what it means is stated by ObserveTimeoutBands, NextTimeoutDirection and ContractionShrinksIff |
| Retry.ObserveTimeoutBands | src/retry.js:26-34 | for any growth factor and a non-negative timeout, an enabled call compares the NEW mean (old sum plus the sample, over old count plus one) against the OLD timeout: above half gives timeout × growthFactor, within [1/4, 1/2] keeps it, below a quarter gives timeout × (1/growthFactor) × 1.5 |
| Retry.NextTimeoutDirection | src/retry.js:29-34 | for a positive timeout and growth factor above 1.5: the timeout grows iff the mean is above half of it, shrinks iff the mean is below a quarter, and stays put iff the mean is within the band |
| Retry.ContractionShrinksIff | src/retry.js:32-33 | for a positive growth factor, the "reduce" branch lowers the timeout iff the growth factor is above 1.5 |
| Retry.DefaultAdjustmentFactors | src/retry.js:29-34 | with the default growth factor 2 and a non-negative timeout: an expansion gives 2x, the dead band gives 1x, a contraction gives 0.75x |
| Retry.ContractionChainExample | test/integration/dynamicTimeout.test.js:36-49 | from 1600 with growth factor 2 and a 50 ms mean, successive contractions give 1200, 900, 675, 506.25, 379.6875 and 284.765625, i.e. 1600 * 0.75^6 |
| Retry.ObserveOneAdjustment | src/retry.js:29-34 | one controller call leaves the timeout unchanged or applies exactly one of the two factors |
| Retry.ObserveAllCounters | src/retry.js:24-27 | over any sample sequence: disabled means nothing changes; enabled means count + n and sum + the samples' total; the configuration never changes |
| Retry.ObserveAllTimeoutFactors | src/retry.js:29-34 | after n samples the timeout is the old one times growthFactor^a times (1.5/growthFactor)^b with a + b <= n |
| Retry.ObserveAllKeepsTimeoutPositive | src/retry.js:29-34 | for a positive growth factor, a positive timeout stays positive however the controller is fed |
| Retry.Resolve | src/retry.js:62-67 | each of retries, timeout, growthFactor and statusCodes is the caller's value when given, and the shared `retryOptions` value when absent |
| Retry.OptionsCopy | src/retry.js:79-81 | the clone resolves, against any shared state, to one retry less and the timeout times the growth factor; its growthFactor and statusCodes are the caller's, unchanged |
| Retry.RetryRun | src/retry.js:61-87 | the fetchWithRetry recursion over an outcome sequence; it makes at least one and at most R + 1 attempts for R resolved retries (one for R <= 0), so the recursion ends |
| Retry.RetryRunStep | src/retry.js:76-82 | a failed attempt with retries left recurses with one retry less, the timeout times the growth factor, and the same growth factor and status codes |
| Retry.RetryRunOutcome | src/retry.js:61-87 | between 1 and R + 1 attempts are made, and all but the last failed; success returns the status of the last attempt, which did not fail; failure means exactly R + 1 attempts, the last failed, and the message names the URL |
| Retry.SucceedsIffSomeAttemptAccepted | src/retry.js:70-75 | a call succeeds iff one of its first R + 1 outcomes is a response whose status is not a retry status |
| Retry.ExhaustedAfterBudget | src/retry.js:78-85 | when every attempt within the budget fails, exactly R + 1 attempts (one for R <= 0) are made and the result is `All retries failed. Url: <url>` |
| Retry.AttemptTimeoutsGrow | src/retry.js:79-82 | each attempt's timeout is the previous one times the growth factor, starting from the resolved timeout |
| Retry.GeometricAt | src/retry.js:79-82 | in such a sequence, attempt k has timeout `timeout * growthFactor^k` |
| Retry.ControllerFedOncePerAttempt | src/retry.js:74-77 | the controller is fed exactly once per attempt, success or failure, with that attempt's elapsed time, in order, and the run makes no more attempts than there are outcomes |
| Retry.AttemptsCounted | src/retry.js:74-77 | with the controller enabled, a call adds its number of attempts to the count; disabled, the state is untouched; the shared retries, growth factor and status codes never change |
| Retry.StatusExamples | test/integration/retry.test.js:90-114 | with the default status codes, a 408 then a 200 gives the 200 after two attempts (timeouts 500, 1000); a 401 is returned after one attempt (timeout 500) |
| Retry.SecondRetryExample | test/integration/retry.test.js:49-59 | two aborted attempts then a 200 give the 200, with attempt timeouts 500, 1000 and 2000 |
| Retry.RetryModule.constructor | src/retry.js:9-18 | at module load `retryOptions` holds the defaults and both counters are zero |
| Retry.RetryModule.UpdateBaseTimeout | src/retry.js:24-35 | the new state equals `Observe` of the old one, so the new timeout follows ObserveTimeoutBands; disabled, nothing changes; enabled, count + 1 and sum + sample; the configuration never changes |
| Retry.RetryModule.FetchWithRetry | src/retry.js:61-87 | the result, the state afterwards and the per-attempt timeouts are exactly those of `RetryRun` on the state before |

## Left out

- `fetchWithTimeout` (src/retry.js:43-53) is not modelled. It is an `AbortController`, a `setTimeout` timer and `fetch`, i.e. timers and network I/O. It is replaced by the outcome sequence.
- The model does not tie an outcome to the deadline its attempt was given. A rejection may carry any elapsed time, and so may a response.
- `Date.now()` (src/retry.js:68, 74, 77) is not modelled: each outcome carries its elapsed time.
- The oracle must supply at least R + 1 outcomes for R retries. This is a requirement of the model, not of the source, so that every attempt has an answer.
- `preserveFetchPromise` and `fetchWithRacedRetries` are not part of this model. They are not defined in `src/retry.js` and are based on racing promises.
- Hysteresis and min/max clamping are not modelled, because the code has none. Their constants are declared only.
- IEEE floating point is not modelled: timeouts, sums and means are `real`. A growth factor of 0 would make `1 / growthFactor` infinite in JavaScript; the model instead requires a non-zero shared growth factor.
- Retry counts are integers. A fractional `retries` passed by a caller is not modelled.
- `structuredClone` and the `RequestInit` fields passed to `fetch` are not modelled. The options are a record of `retries`, `timeout`, `growthFactor` and `statusCodes`. Because that record is a value, the caller's options are never changed, by construction.
- Concurrent calls sharing the module state are not modelled. Each model call runs to completion before the next starts.
- `retryOptions` can be overwritten by callers between calls. The model allows any starting state, but does not model the writes themselves.
- Retry.ContractionChainExample: states the adjustment steps only. It does not show that the test's 50 calls stop at 284.765625, which depends on the measured times and on samples left by earlier tests.
