# MoneyMate back end: call budgeting, jobs, guards, time buckets and validation

This project models the core of the MoneyMate back end, an Express service
that reads bank-statement images with a hosted language model. It models:

- **Call budgeting around the model API** (`CostTracking`, `RateLimiting`,
  `Retry`, `Analysis`):
  - the cost ledger, with its day rollover, its capped history and its
    spending ceilings checked after the spend is recorded;
  - the sliding one-minute rate-limit window;
  - the bounded retry loop with capped exponential backoff;
  - the cache, throttle, call, bill and cache-set flow of a single analysis;
  - the batch loop: slices of requests analysed one item after another, with a
    pause between batches, which amounts to analysing every request in turn.
- **Processing-job records** (`ProcessingJobs`): a table of rows keyed by id
  that is created, patched, listed per owner and cleaned up.
- **Request guards and error mapping** (`Auth`, `ErrorHandling`):
  - the strict bearer-token guard chain;
  - the optional guard;
  - the error-to-HTTP-status middleware, an ordered series of substring tests.
- **Chart series** (`FrameFilter`): readings bucketed by hour for the daily
  chart and by day for the weekly and monthly ones. The series have 24, 7 or
  30 slots.
- **The `/estimate` route** (`CostEstimate`): its token and price arithmetic.
- **The batch-analysis request schema** (`BatchValidation`): a Joi schema,
  modelled as an issue reporter, a validity predicate and a stripping,
  defaulting normaliser.

Modelling conventions:

- **Numbers and time.** Money is `real`. Milliseconds and days are `int`.
- **Environment inputs become parameters.** These are the clock, the local
  date text of a clock reading (a function, read by the ledger at the moment
  it bills, so a batch that runs past midnight rolls the daily total over
  mid-batch), the HTTP reply of the model API, `jwt.decode`, the hours and
  dates `moment()` would give, and fresh job ids.
- **Errors are message strings.** The retry loop and the error middleware
  test these messages for substrings, as the source does.
- **Object form.** Objects whose fields the source updates in place are
  classes: `CostTracker`, `RateLimiter`, the analysis service and the job
  table. Each method is specified by a function on the old state, and the
  properties are lemmas about those functions.

The request to the API always names the Sonnet model, while the bill uses
the rates of the `model` argument. The model keeps that as written
(`Analysis.RequestFor` and `Analysis.Settle`).

The hourly guard in `getDailyData` tests a key that is never written, so a
later reading for the same date and hour overwrites an earlier one
(`FrameFilter.HourlyLastWins`).

## Model

| member | source | states |
|---|---|---|
| Retry.Doubled | src/services/analyze.service.js:281 | doubling the base delay i times gives the base delay times 2^i |
| Retry.Backoff | src/services/analyze.service.js:281 | the delay after attempt i is at most the base delay times 2^i and at most 10000 ms, and it equals one of the two |
| Retry.RunFromProperties | src/services/analyze.service.js:265-286 | fn is called at most maxRetries times; every call but the last failed with an error that may be retried; the k-th delay is the capped backoff; the run ends with the last call's value or its error, unchanged |
| Retry.RetryRunProperties | src/services/analyze.service.js:265-286 | with maxRetries <= 0 fn is never called, nothing is slept and undefined is returned |
| Retry.NoRetryIsImmediate | src/services/analyze.service.js:272-279 | a first attempt failing with an error naming 401, 403 or "cost limit" is rethrown at once: one call, no delay |
| Retry.RunFromRetries | src/services/analyze.service.js:269-284 | a retryable failure that is not the last attempt waits the backoff and goes on with the next attempt |
| Retry.RetryWithBackoff | src/services/analyze.service.js:265-286 | the loop's outcome, call count and delays are exactly those of the specified run |
| RateLimiting.Prune | src/services/analyze.service.js:155 | pruning never lengthens the window |
| RateLimiting.PruneAppend | src/services/analyze.service.js:155 | pruning works entry by entry: pruning two windows joined is joining the two pruned windows |
| RateLimiting.PruneKeeps | src/services/analyze.service.js:155 | a timestamp survives pruning exactly when it is less than 60000 ms old |
| RateLimiting.PruneTwice | src/services/analyze.service.js:155 | pruning later removes at least what pruning earlier did |
| RateLimiting.PruneDrops | src/services/analyze.service.js:155-158 | a window holding a timestamp that has aged out shrinks when pruned |
| RateLimiting.PruneSorted | src/services/analyze.service.js:155 | pruning a time-ordered window keeps it time-ordered |
| RateLimiting.AdmitPruned | src/services/analyze.service.js:153-165 | admission depends only on the pruned window |
| RateLimiting.AdmitProperties | src/services/analyze.service.js:153-165 | every wait is positive and the waits add up to the delay; the call is let through when fewer than requestsPerMinute calls lie in the trailing minute; with room in the window it goes through at once with no wait; otherwise the first wait lasts until the oldest call in the window is a minute old |
| RateLimiting.AdmitWaits | src/services/analyze.service.js:157-161 | on a full pruned window, admission waits until the oldest entry is a minute old and then starts again from the later time |
| RateLimiting.AdmitLoopStep | src/services/analyze.service.js:155-161 | one wait is positive, shrinks the window, and keeps the window the original pruned at the later clock, sorted, with the waits so far followed by the waits still to come making up the whole admission |
| RateLimiting.RateLimiter.constructor | src/services/analyze.service.js:148-151 | the window starts empty and valid, with the given ceiling |
| RateLimiting.RateLimiter.Throttle | src/services/analyze.service.js:153-165 | the admission time is now plus the positive waits; the window becomes the pruned window plus that time; it stays time-ordered and no longer than the ceiling |
| RateLimiting.RateLimiter.GetStats | src/services/analyze.service.js:167-179 | the current count is the pruned window's size; the available count is ceiling minus current; the next reset is the oldest entry plus a minute, or now when the window is empty |
| CostTracking.KeepLast | src/services/analyze.service.js:79-81 | the last n entries: a suffix of the history, never longer than n |
| CostTracking.TrackDisabledIsNoOp | src/services/analyze.service.js:48 | with tracking off a call returns a zero cost and changes no field |
| CostTracking.TrackRecordsSpend | src/services/analyze.service.js:51-68 | the cost is priced at the model's per-million rates, haiku's for an unknown name; the same cost goes to the daily and monthly totals and the count grows by one; the daily total restarts exactly when the date text changed; all of this holds even when the call then throws |
| CostTracking.TrackLimitCheck | src/services/analyze.service.js:85-99 | the call throws exactly when a new total crosses its ceiling, daily checked first, and the error names that ceiling |
| CostTracking.ChargeResultProperties | src/services/analyze.service.js:85-119 | an error is thrown exactly on a crossed ceiling and always says "cost limit"; otherwise the usage breakdown is returned |
| CostTracking.LimitMessagesMentionCostLimit | src/services/analyze.service.js:86-98 | both ceiling messages contain "cost limit" |
| CostTracking.Ticks4 | src/services/analyze.service.js:87-97 | the amount's magnitude in ten-thousandths, rounded to the nearest: within half a ten-thousandth of it |
| CostTracking.TrimFraction | src/services/analyze.service.js:86-95 | trimming the padding of a decimal keeps a prefix of it |
| CostTracking.TrimZeroStep | src/services/analyze.service.js:86-95 | a trailing zero makes no difference to the trimmed decimal |
| CostTracking.Fixed4Example | src/services/analyze.service.js:87-97 | `toFixed(4)` of 1.23456 prints "1.2346": the fourth decimal is rounded |
| CostTracking.LimitTextExample | src/services/analyze.service.js:86-95 | a limit of 100.5 prints as "100.5", without padding zeros |
| CostTracking.TrackHistory | src/services/analyze.service.js:71-82 | the history never exceeds 1000 entries; it ends with the new entry; the older ones keep their order and are dropped only from the front |
| CostTracking.CostTracker.constructor | src/services/analyze.service.js:39-45 | a fresh tracker holds the reset ledger for today |
| CostTracking.CostTracker.TrackUsage | src/services/analyze.service.js:47-120 | the fields become the ledger of the specified call, and the result is its charge or its ceiling error |
| CostTracking.CostTracker.RecordUsage | src/services/analyze.service.js:51-82 | the rollover, totals and history are recorded; the input and output costs are returned at the model's rates |
| CostTracking.CostTracker.GetStats | src/services/analyze.service.js:122-133 | the totals as stored; the average is monthly cost over request count, or 0; the recent requests are the last ten of the history |
| CostTracking.CostTracker.Reset | src/services/analyze.service.js:135-141 | every counter becomes zero, the history becomes empty and the reset date becomes today |
| Analysis.OptimizedPromptProperties | src/services/analyze.service.js:240-262 | the prompt is never blank; a custom prompt with a visible character is sent verbatim, anything else gives the default; the choice is idempotent |
| Analysis.CacheKeySeparatesModels | src/services/analyze.service.js:299-302 | the same image and prompt asked of the two models have different cache keys |
| Analysis.CacheKeyMergesImageAndPrompt | src/services/analyze.service.js:299-302 | the key does not keep image and prompt apart: two different statements, one with text moved from the start of its prompt to the end of its image, share a key and so a cached analysis |
| Analysis.Slept | src/services/analyze.service.js:281-283 | the time the retry loop sleeps is never negative and is the plain sum of the delays when no delay is negative (`setTimeout` treats a negative delay as no wait) |
| Analysis.AuthRefusalsAreNotRetried | src/services/analyze.service.js:371-376 | the error the call throws for an API 401 or 403 is one the retry loop does not retry |
| Analysis.BackoffNonNegative | src/services/analyze.service.js:281 | with a non-negative base delay every backoff is non-negative |
| Analysis.Slice | src/services/analyze.service.js:451 | the slice has size entries, fewer at the end and none past it, and each is the request at its offset |
| Analysis.BatchesPartition | src/services/analyze.service.js:439-451 | there are ceil(n/size) batches, all non-empty and full but the last, and concatenated they give the requests in order |
| Analysis.BatchAt | src/services/analyze.service.js:450-452 | the b-th batch is the slice the loop takes at request b·size |
| Analysis.BatchStep | src/services/analyze.service.js:450-497 | one turn of the loop takes the slice at i, numbers it i/size+1, adds one result per request of the slice, and pauses unless it was the last batch |
| Analysis.BatchDone | src/services/analyze.service.js:450-498 | when the loop ends every request has a result, and there is one pause fewer than there are batches, each of 2000 ms |
| Analysis.AsResultProperties | src/services/analyze.service.js:422-429 | a call returns exactly when it is done; a rethrown error is passed on unchanged; a ledger error says "cost limit" |
| Analysis.AnalyzeCacheHit | src/services/analyze.service.js:305-315 | a cache hit returns the stored result marked cached, at once, with no throttle, API call or cost; its processing time is this call's (none elapses), and it keeps the timestamp stored with the result |
| Analysis.AnalyzeMissThrottles | src/services/analyze.service.js:318-386 | on a miss the window had room at the admission time and gains that time; the calls and delays are those of the retry loop started then |
| Analysis.SettleEffects | src/services/analyze.service.js:390-413 | an answered call is billed even when the ledger throws; only an accepted result is cached, under its key, unmarked, with the time from start to end as its processing time and the end as its timestamp |
| Analysis.AnalyzeBillsAtFinish | src/services/analyze.service.js:392-407 | on a miss the ledger bills on the local date of the moment the retries end, so a call ending on a new day rolls the daily total over; a result made by the call has processing time end minus start and the end as timestamp |
| Analysis.AnalyzeFailure | src/services/analyze.service.js:386-429 | on a miss the call fails unbilled exactly when nothing could be read from the retried call; a failure leaves ledger and cache as they were; when the retry loop gave up the error is the last attempt's, unchanged; with no attempt permitted the call fails reading from undefined |
| Analysis.SettleOverBudget | src/services/analyze.service.js:390-413 | with tracking on, settling fails only on a spending ceiling; the spend is recorded and nothing is cached |
| Analysis.AnsweredOverBudget | src/services/analyze.service.js:386-413 | with tracking on, an answered call fails only on a spending ceiling |
| Analysis.AnalyzeOverBudget | src/services/analyze.service.js:289-430 | when the API answered and tracking is on, a failure can only be a ceiling error; the spend is recorded and nothing is cached |
| Analysis.RetryDelaysNonNegative | src/services/analyze.service.js:281-283 | with a non-negative base delay the delays add up to a non-negative total, which is exactly the time slept |
| Analysis.RetryNegativeDelayIsImmediate | src/services/analyze.service.js:281-283 | with a base delay of zero or less every backoff is zero or less and the retries sleep no time at all |
| Analysis.AnalyzeClock | src/services/analyze.service.js:289-430 | the clock only moves forward, and every window entry lies at or before the moment the call is done |
| Analysis.AnalysisService.constructor | src/services/analyze.service.js:29-35 | the service starts valid, with an empty cache and the given tracker, limiter and retry settings, any base delay included |
| Analysis.AnalysisService.AnalyzeStatement | src/services/analyze.service.js:289-430 | result (with its processing time and timestamp), call count, end time and new state are those of the specified analysis, billed on the date of the end time; the clock never runs back |
| Analysis.AnalysisService.CallAndRecord | src/services/analyze.service.js:384-413 | after the throttle, result and state are those of the specified throttled call |
| Analysis.AnalysisService.Record | src/services/analyze.service.js:390-413 | result, ledger and cache are those of the specified settlement |
| Analysis.ItemEntryProperties | src/services/analyze.service.js:459-480 | an entry is a success exactly when its analysis returned, and then it is that analysis; a failure carries the thrown message, unchanged, and the request id; a ceiling failure says "cost limit" |
| Analysis.SliceRunEntries | src/services/analyze.service.js:459-484 | a slice run has one entry per item, in order, entry k made for item k in the state and at the time the first k left |
| Analysis.SequentialRunEntries | src/services/analyze.service.js:450-497 | running the requests one by one gives one entry per request, in order, entry k made for request k after the first k and the pause before its batch |
| Analysis.SliceEntryOutcome | src/services/analyze.service.js:459-484 | entry k of a slice succeeds exactly when the k-th analysis, run where the one before it ended, returned; a failed one carries its message and the id from the slice's batch number and k |
| Analysis.SequentialEntryOutcome | src/services/analyze.service.js:450-497 | entry k of the whole run succeeds exactly when the analysis of request k returned; a failed one carries its message and the id from batch k/size+1 and index k%size |
| Analysis.SliceRunIds | src/services/analyze.service.js:475-478 | every failed entry of a slice carries its item's id, or batch_<batchNumber>_<index> |
| Analysis.SequentialRunIds | src/services/analyze.service.js:450-478 | every failed entry of the whole run carries its request's id, or the one its batch and position give |
| Analysis.SliceRunAppends | src/services/analyze.service.js:483-484 | a slice's entries are appended after the earlier results, and what it produces does not depend on them |
| Analysis.SliceRunInBatch | src/services/analyze.service.js:450-497 | the slice at a batch start, run after the pause, gives what running the requests one by one gives up to each of its items |
| Analysis.SliceExtendsSequential | src/services/analyze.service.js:450-497 | the earlier results followed by the slice's entries are the one-by-one run up to the end of that slice |
| Analysis.BatchesAreSequential | src/services/analyze.service.js:450-498 | the loop over slices, with a 2000 ms pause between batches, ends exactly where analysing the requests one after another ends |
| Analysis.BatchLoopStep | src/services/analyze.service.js:450-497 | one turn of the loop keeps its description: the slice's results are appended, the pause follows unless it was the last slice, every window entry is no later than the clock, and the rest of the loop still ends where the whole loop does |
| Analysis.BatchLoopDone | src/services/analyze.service.js:450-498 | when the loop stops it has produced the whole loop's results: one per request, failures carrying their ids, a pause between consecutive batches |
| Analysis.AnalysisService.AnalyzeItem | src/services/analyze.service.js:459-480 | the entry, end time and new state are those of analysing the item's statement, billed on the date its own call ends; a failure carries its request id |
| Analysis.AnalysisService.AnalyzeSlice | src/services/analyze.service.js:459-484 | the results, end time and new state are those of the slice analysed item by item, each billed on the date its call ends; one result per item, in order; a failed item carries its id or batch_<batchNumber>_<index> |
| Analysis.AnalysisService.AnalyzeStatementsBatch | src/services/analyze.service.js:433-498 | results, end time and new state are those of the loop over slices, itself analysing the requests one after another, each billed on the date its call ends; one result per request, in order; a failed one carries the id its batch and position give; ceil(n/size)-1 pauses of 2000 ms; no requests change nothing |
| ProcessingJobs.TextOrNull | src/services/database.service.js:38 | present and non-empty text is kept; anything else becomes null |
| ProcessingJobs.NumberOrNull | src/services/database.service.js:39-41 | a present non-zero number is kept; anything else becomes null |
| ProcessingJobs.NewJobRecordProperties | src/services/database.service.js:29-50 | no owner gives "User ID is required"; a new job is pending under the fresh id and owner, with zero counters and progress, all three timestamps now, and each optional field kept only when truthy |
| ProcessingJobs.Round2Bounds | src/services/database.service.js:79 | a percentage rounded to hundredths stays between 0 and 100 |
| ProcessingJobs.ProgressBounds | src/services/database.service.js:78-80 | progress stays between 0 and 100 while no more chunks are processed than there are |
| ProcessingJobs.UpdateDataProperties | src/services/database.service.js:71-86 | the time is always stamped; progress is recomputed exactly when both chunk counts come with the update; completed_at is stamped exactly for completed or failed; every other column is the caller's |
| ProcessingJobs.UpdateRowsOnlyTarget | src/services/database.service.js:71-93 | an update changes only the row with that id; in it the id stays, every column the update carries takes the carried value, and every other column keeps its value |
| ProcessingJobs.GetProcessingJobScoped | src/services/database.service.js:103-131 | both ids are required, owner first; a job is returned only to its owner, and another user's job looks exactly like a missing one |
| ProcessingJobs.CleanupProperties | src/services/database.service.js:195-207 | exactly the completed or failed rows finished before the cutoff are removed; pending, processing and cancelled rows survive; a second cleanup removes nothing; a later cutoff removes at least as much |
| ProcessingJobs.TakeNewest | src/services/database.service.js:143-156 | the listed rows as stored, newest first, within the cap; a candidate is left out only when the cap is full and it is no newer than any listed row |
| ProcessingJobs.JobStore.CreateProcessingJob | src/services/database.service.js:24-63 | the result is the specified record or error; the row is inserted under the fresh id only on success |
| ProcessingJobs.JobStore.UpdateProcessingJob | src/services/database.service.js:66-100 | the table becomes the patched table; the result is the updated row, or the no-row error for an unknown id |
| ProcessingJobs.JobStore.GetUserProcessingJobs | src/services/database.service.js:134-165 | an error exactly when no user id is given; otherwise that owner's rows with the status filter, newest first, at most limit of them |
| ProcessingJobs.JobStore.CleanupOldJobs | src/services/database.service.js:195-212 | the table becomes the table cleaned at the cutoff instant |
| Auth.TokenOfProperties | src/middleware/auth.middleware.js:31-41 | the token is the header less an exact leading "Bearer ", or the whole header; it is empty only for an empty header or exactly "Bearer " |
| Auth.UserIdOfProperties | src/middleware/auth.middleware.js:64-73 | the id is the first non-empty one of sub, userId and id, and there is one exactly when one of them is non-empty |
| Auth.AuthenticateProperties | src/middleware/auth.middleware.js:17-95 | every refusal is a 401 with its own code for each failed guard; a request is admitted exactly when all guards pass, with the claimed id and the bearer token |
| Auth.OptionalAuthProperties | src/middleware/auth.middleware.js:117-152 | never refuses; no header or no token gives no user; the id is a non-empty prefix of the token up to its first "_", and there is none exactly when the token starts with "_" |
| ErrorHandling.ClassifyProperties | src/app.js:89-144 | each status is given exactly when its test matches and no earlier one did; only 429 carries retryAfter 60; the raw API message is shown only in development |
| ErrorHandling.ApiErrorsAre502 | src/app.js:93-117 | every error the API call throws for a refused request is 502, even an API 429 |
| ErrorHandling.CostMessageIs402 | src/app.js:120-130 | a "cost limit" message with no 'A', no 'q' and no "ra" passes the two earlier tests and is classified as 402 COST_LIMIT_EXCEEDED by the error middleware |
| ErrorHandling.CeilingErrorsAre402 | src/app.js:120-130 | both spending-ceiling errors of the ledger are classified as 402 by the error middleware |
| ErrorHandling.OverBudgetOutcomeIs402 | src/app.js:120-130 | a service outcome of a crossed ceiling is classified as 402 by the error middleware |
| FrameFilter.RoundHalfAwayProperties | src/utils/filter/index.js:48 | the stored value lies within a half of the reading, and halves round away from zero |
| FrameFilter.HourlyValuesProperties | src/utils/filter/index.js:44-50 | the loop throws exactly when some reading lacks its hour or its date; every stored key holds a '-' |
| FrameFilter.AssignLastWins | src/utils/filter/index.js:44-50 | the keys written are the pairs' keys, each holding the value of the last pair with that key |
| FrameFilter.HourlyLastWins | src/utils/filter/index.js:47-48 | the bare-hour guard never holds a reading back, so each date-hour key holds its last reading |
| FrameFilter.SlotAtClosed | src/utils/filter/index.js:58-70 | from an hour of the day the countdown visits that hour and those before it on the start date, then 23 downwards on the previous date |
| FrameFilter.CountdownReversedAt | src/utils/filter/index.js:58-74 | reversed, the countdown runs through the hours after the start on the previous date, then up to the start hour on the start date |
| FrameFilter.DailyDataShape | src/utils/filter/index.js:42-75 | it fails exactly when the storing loop fails; otherwise 24 entries covering every hour once and ending with the start hour, the hours after the start read on the previous date and the rest on the start date |
| FrameFilter.StoreReadings | src/utils/filter/index.js:44-50 | the storing loop leaves exactly the specified hourly values or the error |
| FrameFilter.CollectHours | src/utils/filter/index.js:56-70 | the 24 labels and values are those of the countdown slots, newest first |
| FrameFilter.GetDailyData | src/utils/filter/index.js:42-75 | the result is the specified daily series, reversed in place into chronological order |
| Common.ReverseInPlace | src/utils/filter/index.js:73 | the array is reversed in place, swapping the two ends and moving inwards until they meet |
| Common.SwapEnds | src/utils/filter/index.js:73 | one swap of the outermost unreversed pair extends both reversed ends by one and leaves the middle as it was |
| Common.EndsMet | src/utils/filter/index.js:73 | once the two ends meet, the whole sequence is the reversal of the original |
| FrameFilter.RecentDays | src/utils/filter/index.js:19-39 | count labels, oldest first, the last one today's |
| FrameFilter.BucketsCount | src/utils/filter/index.js:79-90 | a day has a bucket exactly when it has readings, holding their number and total |
| FrameFilter.GroupByDay | src/utils/filter/index.js:79-90 | the grouping loop leaves exactly the specified buckets |
| FrameFilter.AverageOfReadings | src/utils/filter/index.js:98 | a day's value is the mean of its readings when it has any, else 0 |
| FrameFilter.DaySeries | src/utils/filter/index.js:94-101 | the labels are the days and each value is that day's average |
| FrameFilter.Filter | src/utils/filter/index.js:139-144 | daily gives the hourly series; weekly and monthly give 7 and 30 day averages, oldest first; any other frame returns the payload unchanged |
| CostEstimate.EstimatedTokens | src/routes/analyze.route.js:22 | tokens are 500 plus the ceiling of a quarter of the image size, so at least 500 for a non-negative size |
| CostEstimate.EstimatedTokensMonotone | src/routes/analyze.route.js:22 | a larger image never gets fewer tokens |
| CostEstimate.EstimateRoute | src/routes/analyze.route.js:18-36 | the response echoes the model, "haiku" by default, and the token count, in USD |
| CostEstimate.EstimateRouteProperties | src/routes/analyze.route.js:19-28 | no model is priced as haiku; every other name is priced as Sonnet; haiku is strictly cheaper and at least 2.4; cost never falls with size |
| CostEstimate.EstimateOverstates | src/routes/analyze.route.js:23-28 | the route's rates are the ledger's per-million rates over a thousand, so its estimate is a thousand times the bill plus 500 input-priced tokens |
| CostEstimate.EstimateOverstatesExample | src/routes/analyze.route.js:18-36 | an empty haiku image is estimated at 2.4 USD where the ledger bills 0.002 USD |
| CostEstimate.IntendedCost | src/routes/analyze.route.js:22-28 | the corrected estimate is never negative |
| CostEstimate.IntendedCostMatchesTracker | src/routes/analyze.route.js:22-28 | the corrected estimate equals the ledger's bill for such a call and never falls with size |
| BatchValidation.TrailingPadProperties | src/validations/batchAnalyzeValidation.js:32 | the trailing run of '=' is all '=' and not preceded by another |
| BatchValidation.Base64ShapedIsPattern | src/validations/batchAnalyzeValidation.js:32 | the check agrees with the pattern: alphabet characters followed by at most two '=' |
| BatchValidation.KindsAccept | src/validations/batchAnalyzeValidation.js:7-89 | a value draws no error exactly when its rule admits it |
| BatchValidation.ItemKeysDistinct | src/validations/batchAnalyzeValidation.js:7-49 | the request schema names each key once |
| BatchValidation.TopKeysDistinct | src/validations/batchAnalyzeValidation.js:60-89 | the settings schema names each key once |
| BatchValidation.ItemDefaultsPass | src/validations/batchAnalyzeValidation.js:47 | the default priority passes its own rule |
| BatchValidation.TopDefaultsPass | src/validations/batchAnalyzeValidation.js:60-89 | every settings default passes its own rule |
| BatchValidation.ObjectIssuesEmpty | src/validations/batchAnalyzeValidation.js:7-49 | an object draws no issue exactly when every schema key is acceptable |
| BatchValidation.ObjectIssuesSound | src/validations/batchAnalyzeValidation.js:49 | every issue lies under a schema key whose value is not acceptable |
| BatchValidation.ObjectIssuesComplete | src/validations/batchAnalyzeValidation.js:90-93 | every unacceptable schema key draws an issue at its path |
| BatchValidation.ObjectIssuesName | src/validations/batchAnalyzeValidation.js:90-93 | an issue is reported under a schema key exactly when its value is not acceptable |
| BatchValidation.StripAt | src/validations/batchAnalyzeValidation.js:47-49 | the stripped object holds exactly the schema keys present or defaulted, with the sent value or the default |
| BatchValidation.OutsideKeyIgnored | src/validations/batchAnalyzeValidation.js:49 | values under keys outside the schema change neither the issues nor the stripped object |
| BatchValidation.StripIdempotent | src/validations/batchAnalyzeValidation.js:49 | stripping a conforming object gives a conforming object that stripping leaves alone |
| BatchValidation.IssuesEmpty | src/validations/batchAnalyzeValidation.js:5-93 | a body draws no issue exactly when it meets the schema |
| BatchValidation.ValidateAccepts | src/validations/batchAnalyzeValidation.js:90-93 | a body is accepted exactly when it meets the schema; a rejected body carries all its issues, at least one |
| BatchValidation.RequestsIssuesPaths | src/validations/batchAnalyzeValidation.js:5-58 | issues of requests lie at the key only for a missing, non-array or wrongly sized value, and otherwise under one request |
| BatchValidation.TopIssuesPaths | src/validations/batchAnalyzeValidation.js:60-89 | issues of the settings lie directly under a settings key |
| BatchValidation.SettingNamed | src/validations/batchAnalyzeValidation.js:60-93 | a setting is named in the report exactly when it breaks its rule |
| BatchValidation.RequestsNamed | src/validations/batchAnalyzeValidation.js:5-58 | requests is named exactly when missing, not an array, or outside 1 to 100 entries |
| BatchValidation.RequestNamed | src/validations/batchAnalyzeValidation.js:7 | a request is named as a whole exactly when it is not an object |
| BatchValidation.RequestFieldNamed | src/validations/batchAnalyzeValidation.js:8-48 | a field of any request is named exactly when that request is an object whose field breaks its rule |
| BatchValidation.AcceptedForm | src/validations/batchAnalyzeValidation.js:49-93 | the accepted body keeps requests and the settings sent or defaulted, with their values, and each request in order |
| BatchValidation.AcceptedRequestForm | src/validations/batchAnalyzeValidation.js:47-49 | each accepted request is the sent one reduced to its schema keys, with priority defaulted |
| BatchValidation.ValidateIdempotent | src/validations/batchAnalyzeValidation.js:90-93 | validating an accepted body accepts it unchanged |

## Left out

- The HTTP call to the model API (`fetch`, abort timer, headers) is an input: a function from the request and attempt number to a reply or an error status.
- Image optimisation with `sharp` is left out; the image is sent as given.
- The md5 digest of the cache key is left out: the key is the text it digests.
- NodeCache's time-to-live and its key ceiling are left out: the cache is a map that never forgets and never fills. With `maxKeys` reached, `cache.set` throws inside `analyzeStatement`'s try (src/services/analyze.service.js:29-35, 409-413), so a miss then fails after it has been billed; the model always stores the accepted result.
- The time the API call itself takes is not modelled: the clock moves only by the throttle's waits, the retry delays and the batch pauses, so a result's processing time is the sum of those. Its timestamp is the clock reading at the end of the call, not the `toISOString` text of it.
- Sleeping is not modelled. Throttle waits, retry delays and batch pauses are returned as values, and the clock is advanced by them. A retry delay below zero advances the clock by nothing; the 1 ms minimum `setTimeout` applies to such a delay is not modelled.
- Concurrency is not modelled. Batch items run one after another, and the per-item stagger of `index * 100` ms is not modelled.
- Number formatting is left out:
  - `toFixed` in log lines and in the weekly and monthly series (two-decimal strings there, exact averages here);
  - the string `toFixed(2)` progress (a number rounded to hundredths here);
  - the rupee conversions of the statistics.
- Logging and the 80% spending warning are left out.
- `Number(VALUE)` parsing is not modelled: readings carry numeric values.
- `moment()` is not modelled: the start hour, the start and previous dates and the day labels are parameters.
- The internals of `jwt.decode` are not modelled; signatures are never checked.
- Auth.Authenticate: the catch-all that answers 500 `AUTH_SERVICE_ERROR` (a claim that is not text, say) is left out, since claims are text or absent here.
- `getHealthMetrics`, `getBatchStatus` and `getProcessingJobs` are not part of this model.
- Supabase is not modelled; the job table is a map. Its setup and the "Database not configured" branches are left out. Database errors other than a missing row are left out.
- Job ids are fresh by precondition instead of coming from `uuidv4`.
- Joi coercion of strings to numbers or booleans is left out: values must already have the schema's type. Lengths count characters, not UTF-16 units.
- Joi's default texts for errors without a custom message are left out: such an issue carries no message.
- Joi's `number.infinity` check is not modelled: JSON numbers are finite.
- CostEstimate.EstimateRoute: a missing or non-numeric `imageSize` is left out; the size is a number. A `model` of `null` is treated like an absent one.
- CostTracking.Fixed4: rounds the exact amount, a tie going up. `toFixed` rounds the binary double, so an amount stored just below a tie prints one ten-thousandth lower in JavaScript. Amounts are exact reals here.
- CostTracking.LimitText: a limit with more than four decimals is printed rounded to four. JavaScript prints every digit of the double's shortest form.
- ProcessingJobs.JobStore.UpdateProcessingJob: an update carrying `id` is not modelled, so re-keying a row or colliding with another row is not captured. Setting a nullable column back to null is not modelled either: a carried column always holds a value. Columns outside the table are not modelled.
- ProcessingJobs.UpdateRowsOnlyTarget: states the update for the columns a patch can carry, so the same two cases (`id`, null) are outside it.
- ProcessingJobs.JobStore.CleanupOldJobs: the cutoff is a parameter, the instant `daysOld` (7 by default) calendar days before now. Stepping back local calendar days with `setDate` is not modelled; across a daylight-saving change it is an hour away from a fixed day length.
- Analysis.AnalysisService.AnalyzeStatementsBatch: requires a positive batch size whenever there are requests. With a size of 0 or less the source loop never ends.
- RateLimiting.RateLimiter.constructor: requires a ceiling of at least 1. `parseInt(RATE_LIMIT_PER_MINUTE) || 45` (src/config/index.js:27) turns 0 into 45 but lets a negative value through. With such a ceiling the check at src/services/analyze.service.js:157 holds even for an empty window, the wait is computed from `requests[0]`, which is undefined, and `throttle` calls itself forever. That non-termination is not modelled.
- Configuration loading is left out: prices, limits, retry count, delay and the default prompt are constants or constructor arguments.

## Findings

| source | as written | input that shows it | evidently intended | confidence | as-written member | corrected member |
|---|---|---|---|---|---|---|
| src/routes/analyze.route.js:23-28 | the rates 0.0008 and 0.004 (haiku), 0.003 and 0.015 (Sonnet) are applied per token, yet they are per-thousand-token prices (the ledger bills 0.8 and 4.0 per million); the 500 output tokens are also counted in the input tokens | imageSize 0 with no model: the route answers 2.4 USD, while the ledger bills 0.002 USD for that call | the ledger's bill for a call reading ceil(imageSize/4) tokens and writing 500 | high, not executed | CostEstimate.EstimateOverstates | CostEstimate.IntendedCost |
