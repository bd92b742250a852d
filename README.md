# memo-fns client utilities, modelled in Dafny

This project models the three browser utilities of the repository's `js/` folder:

- **`$fetch`** (`js/fetch.old.js`): a `fetch` wrapper.
  - A `Fetch` instance keeps an abort hook, an overall timeout with its hook, and a retry policy. The policy is a delay sequence (default, immediately, fibonacci, progressive), a bounded retry count and an `onRetry` hook.
  - `clone()` copies those settings.
  - `yield()` hands out a runner whose `fetch` retries failed requests by that policy and settles to the response, `false` (aborted or timed out) or the final error.
- **`AmountManager`** (`js/amount.js`): amount and currency validation, `Amount` and `ChargeAmount` with their fee and discount, and the singleton manager.
  - The manager fixes an initial currency and amount.
  - It re-expresses the charge in a convertible currency.
- **`createTimer` / `createDelay`** (`js/timer.js`): a one-second countdown.
  - It writes "MM:SS" and a duration string to watched `<time>` elements.
  - It counts hidden-page time as elapsed.
  - `createDelay` is a delay with the same visibility handling.

Modules, one file each:

- `Wrappers`: `Option` and `Result`.
- `JsValues`: JavaScript values as the code observes them, plus `getNumber`/`getBoundedNumber`.
- `Backoff`: the delay sequences and the Fibonacci memo.
- `Retry`: the retry loop as a pure specification over scripted attempt outcomes, and its properties.
- `FetchClient`: the `Fetch` class with its setters and `clone`, and the runner whose `fetch` loop is proved to produce exactly the call `Retry.Run` specifies.
- `Amounts`: the amount and currency code.
- `Countdown`: the timer code.

How the model treats the environment:

- The network, timers and the promise races are not modelled.
- An attempt's outcome is an input: ok, not ok, a network error, or aborted. Aborted records why (explicit abort, a newer `fetch`, or the overall timeout) and whether it happened before the request was sent.
- The clock is an input to `createDelay`'s arithmetic.
- Page visibility reaches the timer as `Freeze`/`Resume` calls.

## Model

| member | source | states |
|---|---|---|
| JsValues.GetNumber | js/fetch.old.js:23-27 | an integer is returned as is; anything else yields the default if that is an integer, otherwise Infinity |
| JsValues.GetBoundedNumber | js/fetch.old.js:29-39 | the result lies between the smaller and the larger bound whichever order they are given in, equals the value when it is in range, and equals the nearer bound otherwise |
| JsValues.BoundedNumberSymmetric | js/fetch.old.js:34-36 | swapping the bounds does not change the result |
| JsValues.GetNumberIdempotent | js/fetch.old.js:114-115 | normalising a `getNumber` result again changes nothing |
| Backoff.Fib | js/fetch.old.js:134-138 | fib is at least 1 from 1 on (its recursive calls' contracts give the sum's bound) |
| Backoff.FibonacciDelay | js/fetch.old.js:89-91 | the fibonacci delay never exceeds 1000 ms and is 0 only before the first retry |
| Backoff.ProgressiveDelay | js/fetch.old.js:93-95 | the progressive delay is a whole number of 100 ms steps within [100, 500] |
| Backoff.Delay | js/fetch.old.js:86-95 | the default sequence always waits 100 ms and the immediate one 0; every sequence waits at most 1000 ms; the progressive one at least 100 and at most 500; the fibonacci one 0 only before the first retry |
| Backoff.SequenceDelay | js/fetch.old.js:218-220 | the delay a call uses is at most 1000 ms, and the constant 100 ms when no sequence was ever selected |
| Backoff.ProgressiveSteps | js/fetch.old.js:93-95 | the progressive delay is 100 for retries 0-3, 200 for 4-7, 400 for 8-11 and 500 from 12 on |
| Backoff.ProgressiveMonotone | js/fetch.old.js:93-95 | the progressive delay never decreases and stays within [100, 500] |
| Backoff.FibMonotone | js/fetch.old.js:131-140 | fib is at least 1 from 1 on and never decreases |
| Backoff.Fib12 | js/fetch.old.js:131-140 | fib(12) is 144 |
| Backoff.FibonacciDelayMonotone | js/fetch.old.js:89-91 | the fibonacci delay never decreases, never exceeds 1000, and is 1000 from retry 12 on |
| Backoff.FibonacciMemo.constructor | js/fetch.old.js:131-133 | a fresh memo has an empty cache, and every entry is correct |
| Backoff.FibonacciMemo.Get | js/fetch.old.js:134-139 | the memoised fib returns the plain recursive fib, keeps every cached entry correct, and only adds entries |
| Retry.RetryLimit | js/fetch.old.js:233 | the loop's retry bound is 0 exactly when `__maxRetries__` is unset or 0 |
| Retry.Final | js/fetch.old.js:283-290 | the last attempt resolves the call exactly when it is ok, declines it (`false`) exactly when it was aborted, and rejects it exactly when it is a retryable failure |
| Retry.Run | js/fetch.old.js:207-290 | a call started at attempt `retries` consumes that attempt's outcome at least (its full shape is stated by `Retry.RunShape`) |
| Retry.RunStep | js/fetch.old.js:222-240 | one attempt either hands over to the next attempt after its own events (a retryable failure with retries left) or ends the call with its settlement and the runner's counters |
| Retry.RunContinues | js/fetch.old.js:233-235 | seen from its start, a call whose attempt k is retried continues with attempt k + 1 at the sequence's delay, after attempt k's own events |
| Retry.RunEnds | js/fetch.old.js:231-239 | seen from its start, a call whose attempt k is not retried ends there, settled by that attempt, with `retries` bumped only for a retryable failure when maxRetries is positive |
| Retry.OnlyStep | js/fetch.old.js:222-240 | the events of any one kind in a call are the first attempt's, then those of the retried rest or of the hooks its abort runs |
| Retry.StartEvents | js/fetch.old.js:223-230 | the events `Retry.Start` gives one attempt: `onRetry` (retries after the first only, with that retry's count and delay) and then its request, unless aborted while waiting; never an abort or timeout hook |
| Retry.RunShape | js/fetch.old.js:231-239 | a call is a run of retryable failures, each with retries left, ended by one attempt that alone decides the settlement; a retryable last attempt means the retries were used up; there are at most maxRetries + 1 attempts |
| Retry.RetriesCounted | js/fetch.old.js:233-234 | the runner's `retries` counts every retried failure, plus the final failure when maxRetries is positive (the post-increment); `delay` is the last attempt's delay |
| Retry.AbortedAttemptIsLast | js/fetch.old.js:233 | an attempt ending in an AbortError is never retried, and the call declines |
| Retry.SingleAttempt | js/fetch.old.js:233 | with maxRetries unset or 0 there is exactly one attempt, requested with delay 0, with no `onRetry` |
| Retry.FailingRequests | js/fetch.old.js:233-235 | when every attempt fails, retries r..N each send one request, with the sequence's delay for their count |
| Retry.FailingRetryHooks | js/fetch.old.js:224-228 | when every attempt fails, retries r..N each call `onRetry` with {count, delay = sequence(count), max = N}, and none runs without a hook |
| Retry.FailedRetryStep | js/fetch.old.js:224-235 | a failed retry r ≤ N contributes exactly one request at sequence(r) and, with a hook, one `onRetry` {r, sequence(r), N}, ahead of the next retry's |
| Retry.RequestsAt | js/fetch.old.js:234 | the i-th request of retries r..N waits sequence(r + i) |
| Retry.RetryHooksAt | js/fetch.old.js:224-228 | the i-th `onRetry` call of retries r..N reports count r + i and delay sequence(r + i) |
| Retry.AllAttemptsFail | js/fetch.old.js:207-240 | with maxRetries N and every attempt failing: N + 1 attempts; a first request at delay 0; retries 1..N announced and delayed by the sequence; rejection with the last failure; no abort or timeout hook |
| Retry.AbortHookEvents | js/fetch.old.js:266-287 | the hooks `Retry.AbortHooks` runs on an abort are `onTimeout` exactly when the timeout caused it and a hook is set, and `onAbort` exactly when one is set; never a request or `onRetry` |
| Retry.AbortHookOnDecline | js/fetch.old.js:283-287 | `onAbort` runs once exactly when the call declines and a hook is set, never on a resolved or rejected call |
| Retry.AbortHookIsLast | js/fetch.old.js:283-287 | a declined call's last event is `onAbort` |
| Retry.TimeoutHookOnTimeout | js/fetch.old.js:265-269 | `onTimeout` runs once exactly when the timeout aborted the last attempt and a hook is set |
| Retry.TimeoutStep | js/fetch.old.js:265-269 | a retried attempt adds no `onTimeout` call and leaves the attempt count to the rest of the call; a last attempt runs it exactly when the timeout aborted it |
| Retry.LateHooksAsWritten | js/fetch.old.js:265-281 | as written, `onTimeout` runs after settlement exactly when the call resolved, a timeout and an `onTimeout` hook are set and the timer elapses, and then it is that one hook |
| Retry.TimeoutHookAfterSuccess | js/fetch.old.js:265-281 | a call resolved with a 200 ms timeout and an `onTimeout` hook set sees that hook run after it resolved |
| Retry.TimeoutHookOnlyWhenDeclined | js/fetch.old.js:265-281 | with the timer released at settlement, `onTimeout` in a call's events means the call declined because the timeout aborted it |
| FetchClient.RetryCount | js/fetch.old.js:114-118 | the stored count is the integer count clamped into [0, 12]; a non-integer count means 1, and `null` means 0 |
| FetchClient.RetrySettingAsWritten | js/fetch.old.js:106-123 | as written, a policy is stored exactly when the second argument is a function; two functions are swapped (count 1), otherwise the count is `RetryCount` of the first |
| FetchClient.RetrySetting | js/fetch.old.js:106-123 | a policy (count ≤ 12) is stored exactly when the only argument or the second one is a function; a lone function is the callback with count 1; two functions are swapped, so the first is the callback, with count 1; a first argument that is not a function is the count, given a function second; anything else, a lone non-function included, clears the policy |
| FetchClient.RetryCallbackAloneAsWritten | js/fetch.old.js:107 | `retry(callback)` alone clears the policy as written, and stores count 1 with the callback once corrected |
| FetchClient.RetryRoundTrip | js/fetch.old.js:192-196 | re-applying a stored count and callback stores them unchanged |
| FetchClient.TimeoutDuration | js/fetch.old.js:163-171 | `null` gives 0; an integer is floored at 0; a function is called for its value; anything else gives 5000 |
| FetchClient.TimeoutSetting | js/fetch.old.js:158-178 | `timeout(callback)` alone gives 5000 ms; otherwise a timeout is stored exactly when the second argument is a function |
| FetchClient.TimeoutRoundTrip | js/fetch.old.js:186-190 | re-applying a stored duration and hook stores them unchanged |
| FetchClient.Callback | js/fetch.old.js:81 | a setter keeps its argument exactly when it is a function, and then that function |
| FetchClient.Fetch.Settings | js/fetch.old.js:218-233 | a valid client hands a call each hook together with its number, at most 12 retries, and a selected sequence whenever retries are on |
| FetchClient.Fetch.constructor | js/fetch.old.js:71-77 | a new client has no hook, timeout, retry policy or sequence |
| FetchClient.Fetch.Abort | js/fetch.old.js:80-83 | `abort(callback)` keeps a function and clears anything else |
| FetchClient.Fetch.Retry | js/fetch.old.js:103-127 | the sequence is selected in every case, and the count and hook are stored or cleared together as the corrected `RetrySetting` says (so a lone callback is kept with count 1, where the source clears the policy; see Findings) |
| FetchClient.Fetch.Timeout | js/fetch.old.js:158-178 | the duration and hook are stored or cleared together as `TimeoutSetting` says |
| FetchClient.Fetch.Clone | js/fetch.old.js:180-199 | fails exactly when no sequence was ever selected; otherwise a fresh client with the same hooks, timeout and retry policy, which selects the sequence only when a policy was copied |
| FetchClient.Fetch.Yield | js/fetch.old.js:201-298 | a fresh runner bound to this client, with no call in flight |
| FetchClient.Runner.Abort | js/fetch.old.js:203-205 | aborts the current call's signal, if there is one |
| FetchClient.Runner.Fetch | js/fetch.old.js:207-290 | the previous call's signal is aborted; events, settlement, final `retries` and `delay` are exactly `Retry.Run` from 0 with the client's current settings; the new signal ends aborted exactly when the call declined |
| FetchClient.Runner.Attempts | js/fetch.old.js:221-251 | the attempt chain from retries = delay = 0 yields exactly `Retry.Run` from 0, and leaves `retries` and `delay` as that call's final counters |
| Amounts.ParseAmount | js/amount.js:28-36 | accepts exactly the numbers ≥ 0, including 0, and returns them unchanged; NaN and negatives are an invalid amount |
| Amounts.TrimStart | js/amount.js:39 | drops exactly the leading white space |
| Amounts.TrimEnd | js/amount.js:39 | drops exactly the trailing white space |
| Amounts.Upper | js/amount.js:39 | upper-cases every character and keeps the length |
| Amounts.Normalize | js/amount.js:39 | the looked-up code is no longer than the input and has no lower-case ASCII letter left |
| Amounts.TrimEnds | js/amount.js:39 | `trim` leaves a string that neither starts nor ends with white space |
| Amounts.TrimTrimmed | js/amount.js:39 | a string with no white space at either end is its own trim |
| Amounts.UpperKeepsWhite | js/amount.js:39 | upper-casing maps white space to white space and nothing else to it |
| Amounts.UpperIdempotent | js/amount.js:39 | upper-casing twice is upper-casing once |
| Amounts.ParseCurrency | js/amount.js:38-45 | succeeds exactly when the trimmed, upper-cased code is non-empty and in the list (`CURRENCIES` when the list is missing or empty), and returns that code |
| Amounts.NormalizeIdempotent | js/amount.js:39 | trimming and upper-casing a normalised code changes nothing |
| Amounts.ParseCurrencyIdempotent | js/amount.js:38-45 | an accepted code, fed back in, is accepted as itself |
| Amounts.BlankCurrencyRejected | js/amount.js:39 | blank input is rejected whatever the list |
| Amounts.CapitalsNormal | js/amount.js:39 | a code of ASCII capitals normalises to itself |
| Amounts.ListedCode | js/amount.js:7-14 | every listed currency is a three-letter code of ASCII capitals |
| Amounts.DccListed | js/amount.js:7-23 | every conversion currency is one of the listed currencies |
| Amounts.Code3Normal | js/amount.js:39 | a three-letter code of capitals is non-empty and normalises to itself |
| Amounts.ListedAccepted | js/amount.js:38-45 | a listed code is accepted as itself against the default list |
| Amounts.CurrenciesAccepted | js/amount.js:7-14 | every listed and every conversion currency is accepted as itself by default |
| Amounts.FractionDigits | js/amount.js:92 | 0 digits exactly for the rounded currencies, 2 otherwise |
| Amounts.ValueOf | js/amount.js:91-100 | the value is a whole multiple of 10^-digits within half a unit of `computed` |
| Amounts.RoundHalfAway | js/amount.js:94-99 | rounding lands within half of the value, and a tie goes away from zero |
| Amounts.NewAmount | js/amount.js:79-85 | the amount is checked before the currency; success exactly when both are valid, with `computed` (line 84) equal to the parsed amount, so never negative |
| Amounts.ChargeAmount.constructor | js/amount.js:117-125 | a charge starts with fee 0 and discount 0, so `computed` is its base |
| Amounts.ChargeAmount.New | js/amount.js:117-125 | fails exactly as `new Amount` does; otherwise a fresh valid charge with computed = base |
| Amounts.ChargeAmount.UpdateFee | js/amount.js:60-69 | stores a valid fee, keeps the old one otherwise, returns the charge itself and never fails; `computed` (line 124) is then base + fee − discount |
| Amounts.ChargeAmount.UpdateDiscount | js/amount.js:60-69 | stores a valid discount, keeps the old one otherwise, returns the charge itself and never fails; `computed` (line 124) is then base + fee − discount |
| Amounts.Dedup | js/amount.js:159-161 | keeps exactly the same elements without repeats |
| Amounts.DedupDistinct | js/amount.js:159-161 | a list without repeats is unchanged |
| Amounts.Convertible | js/amount.js:159-161 | the convertible currencies are exactly the DCC currencies and the initial one, each once |
| Amounts.ConvertibleShape | js/amount.js:159-161 | the convertible list is the DCC list, followed by the initial currency unless it is one of them, and holds only listed currencies |
| Amounts.Rate | js/amount.js:167-168 | the rate is 1 for the initial currency and whenever the table is empty; otherwise 1 or the table's entry for the currency |
| Amounts.AmountManager.constructor | js/amount.js:135-150 | a new manager has nothing set |
| Amounts.AmountManager.SetCurrency | js/amount.js:154-173 | the first valid code fixes the currency, an invalid first code throws and leaves it unset; later codes never throw or change the currency, and replace the charge by the initial amount in the accepted code (fee and discount 0) only when an initial amount exists |
| Amounts.AmountManager.FixCurrency | js/amount.js:155-161 | given the parsed first code, stores a valid code with its conversion list, or throws the parse error and leaves the currency unset |
| Amounts.AmountManager.ConvertCharge | js/amount.js:162-172 | given a later code parsed against the convertible list: an accepted code with an initial amount makes a fresh charge of the same base in that code with fee and discount 0; a rejected code or a missing initial amount leaves the charge |
| Amounts.AmountManager.SetInitialAmount | js/amount.js:178-185 | throws before a currency is set and for an invalid amount, changing nothing; otherwise sets the initial amount and a fresh charge in the initial currency with fee and discount 0 |
| Amounts.AmountManager.SetChargeAmount | js/amount.js:190-194 | throws exactly while the currency is unset, and stores nothing |
| Amounts.ManagerSlot.Get | js/amount.js:136-144 | the first call creates the manager, and every later call returns that same instance |
| Countdown.NormalizeDuration | js/timer.js:118 | NaN and values rounding up to 0 take the fallback; a positive value is rounded up; values ≤ -1 give 0 |
| Countdown.NormalizeInteger | js/timer.js:170 | on integers: d > 0 is kept, 0 takes the fallback, d < 0 gives 0 |
| Countdown.TimerArguments | js/timer.js:56-61 | the caller's function runs at completion exactly when the first argument is a function; a lone non-function argument is the duration; a lone function, no arguments, or a function as the second argument leave the duration NaN (so 60 s); otherwise the second argument is the duration |
| Countdown.TimerSeconds | js/timer.js:118 | `createTimer(callback)` alone runs for 60 seconds |
| Countdown.Ticking | js/timer.js:22-24 | the timer keeps ticking exactly while time remains or `current` has just reached the duration |
| Countdown.Remaining | js/timer.js:27 | the remaining time is zero exactly once `current` reaches the duration, and their difference before |
| Countdown.Seconds | js/timer.js:28-29 | seconds are below 60 and minutes·60 + seconds is the remaining time |
| Countdown.Digits | js/timer.js:32 | the decimal text starts with a digit and ends in the last digit, preceded by the tens digit from 10 on; one character exactly below 10 |
| Countdown.DigitsHaveNoLetters | js/timer.js:32 | the decimal text holds no character other than digits |
| Countdown.Pad2 | js/timer.js:32 | a padded piece is exactly the tens and units digits |
| Countdown.Pad2Value | js/timer.js:32 | a padded piece reads back as the value modulo 100 |
| Countdown.TimeString | js/timer.js:31-33 | the "MM:SS" text has five characters, a colon in the middle and digits elsewhere |
| Countdown.TimeStringShape | js/timer.js:31-33 | the time string has five characters with a colon in the middle, and reads back as minutes modulo 100 and seconds |
| Countdown.DurationString | js/timer.js:35-45 | the `datetime` value starts with a digit and ends in 'm' or 's' |
| Countdown.DurationStringShape | js/timer.js:35-45 | 'm' appears exactly when there are minutes; 's' exactly when there are seconds or no minutes; never empty; "0s" at zero |
| Countdown.DurationStringReadsBack | js/timer.js:35-45 | read left to right, the digits before 'm' as minutes and those before 's' as seconds, the `datetime` value is exactly the time remaining, with no bound on the minutes |
| Countdown.ReadDigits | js/timer.js:37-43 | the decimal text of n reads as n, whatever follows it |
| Countdown.Updater | js/timer.js:26-50 | every tick writes a five-character "MM:SS" text and a non-empty `datetime` value |
| Countdown.UpdaterReadsBack | js/timer.js:26-50 | the `datetime` value the updater writes reads back as exactly the seconds remaining; with under 100 minutes left, so does the "MM:SS" text |
| Countdown.TimeStringReadsBack | js/timer.js:27-33 | with under 6000 seconds remaining, the "MM:SS" text reads back as minutes·60 + seconds = the remaining time |
| Countdown.UpdaterAtEnd | js/timer.js:26-45 | once `current` reaches the duration the updater writes "00:00" and "0s" |
| Countdown.CompletedRunShowsZero | js/timer.js:22-45 | the last `current` a completed countdown reports makes the updater write "00:00" and "0s" |
| Countdown.Timer.constructor | js/timer.js:114-120 | a timer starts at 0 with its normalised duration, a tick scheduled and no watched elements; it calls back the caller's function exactly when `TimerArguments` found one, and has not yet |
| Countdown.Timer.Schedule | js/timer.js:120-124 | `setTimeout` hands out the next handle and moves the counter on by one, so no two calls get the same handle |
| Countdown.Timer.Stop | js/timer.js:153-156 | `stopTimer` leaves no pending tick |
| Countdown.Timer.Tick | js/timer.js:135-146 | the updater sees the current value, which then advances; ticking goes on while current ≤ duration, and otherwise the timer stops, drops its elements and completes once, running the caller's function once if there is one |
| Countdown.Timer.Freeze | js/timer.js:129-133 | hiding the page stops the pending tick |
| Countdown.Timer.Resume | js/timer.js:121-125 | the hidden seconds count as elapsed and a tick is scheduled at once |
| Countdown.Timer.AddWatchElement | js/timer.js:75-82 | a time element is added, once, exactly while the timer runs, and the result says whether it was |
| Countdown.Timer.RemoveWatchElement | js/timer.js:87-89 | returns true exactly when the element was watched, and then removes it |
| Countdown.Timer.RunToCompletion | js/timer.js:135-146 | with the page visible the updater sees current, current + 1, …, duration in order, and the timer then completes exactly once with no pending tick and no elements, having run the caller's function once if there is one |
| Countdown.DelayAfterResumesAsWritten | js/timer.js:177-180 | as written, each resume subtracts the time since creation from the already shortened duration |
| Countdown.DelayAfterResumesClosedForm | js/timer.js:177-180 | as written, after shows at resume_1..resume_k the duration is duration − Σ (resume_i − start) |
| Countdown.DelayResumedTwiceFiresEarly | js/timer.js:175-179 | one hide/show cycle keeps a 10 s deadline, and a second one fires at 7 s |
| Countdown.DelayResumedTwiceFiresBeforeDeadline | js/timer.js:175-179 | as written, after a second show the delay fires before creation + duration, early by the time up to the first show |
| Countdown.DelayAfterResume | js/timer.js:177-180 | measured from the original duration, a resumed delay fires at creation + duration, or at once if that has passed |

## Left out

- The network call, `setTimeout`/`clearTimeout`, the promise races, `AbortController` events and `delay().end` (js/fetch.old.js:41-62, 245-282) are asynchronous plumbing.
  - A call is modelled as its sequence of attempt outcomes.
  - An abort, a superseding `fetch` or the overall timeout appears as the `Aborted` outcome of the attempt it interrupts.
  - The interleavings of several concurrent calls are not modelled.
  - A setter called while a call is in flight is not modelled: `FetchClient.Runner.Fetch` reads the client's settings once, at the start, where the source reads `__maxRetries__`, `__onRetry__`, `__onTimeout__` and `__onAbort__` each time it uses them (js/fetch.old.js:224-233, 268, 285).
- `FetchClient.Fetch.Retry` applies the corrected `FetchClient.RetrySetting`, so `retry(callback)` alone stores count 1 with the callback; the source as written clears the policy in that case (`FetchClient.RetrySettingAsWritten`, second Findings row). `FetchClient.Fetch.Clone` and `FetchClient.Runner.Fetch` inherit that corrected state.
- The attempt outcomes given to `Retry.Run` are not constrained by the policy: an outcome aborted by the timeout is admitted even when no timeout is set. The retry lemmas hold for every outcome script, so they also cover scripts the source cannot produce.
- `FetchClient.Runner.Fetch` models the overall timeout's timer as released when the call settles, the evidently intended behaviour. As written, the timer survives a resolved call and later runs `this.abort()` and `onTimeout`; that half is `Retry.LateHooksAsWritten` with `Retry.TimeoutHookAfterSuccess` (first Findings row), and it is not threaded into the runner's state. `FetchClient.Runner.Fetch` also marks its own signal aborted when the call declines; in the source, a superseding call is instead aborted by the next `fetch`.
- The hooks are taken not to throw. In the source a throwing `onRetry` (js/fetch.old.js:224-228) rejects the call with its error before that attempt's request is sent; a throwing `onAbort` (line 285) turns the declined `false` into a rejection with its error; a throwing `onTimeout` (line 268) runs after `this.abort()`, so the call still declines. `Retry.Run` and `FetchClient.Runner.Fetch` cover calls whose hooks return.
- `resource` and `init` are not modelled: the outcomes stand for the `fetch` they are passed to.
- Property descriptors, `exposeAsProperties`, `defineAccessorProperty` and the `$fetch` getters are represented as fields, methods and the `Fetch` constructor.
  - Each `$fetch` getter creates a fresh instance, which is what the constructor gives.
- The setters' `return this` for chaining is not modelled. `FetchClient.Fetch.Abort`, `Retry` and `Timeout` return nothing. `updateFee`/`updateDiscount` do return the charge.
- Calling a `timeout` duration function is reduced to the number it returns. Its side effects are not modelled.
- Infinite durations and retry counts are not modelled: the integers are unbounded and `Infinity` appears only inside `getNumber`.
- `retry >> 2` wraps for 32-bit overflow only beyond 2^31 retries, which the 12-retry bound excludes.
- The rebinding of `fibonacci` at js/fetch.old.js:134, which keeps one cache per client, is modelled as one `Backoff.FibonacciMemo` object; the delay functions use the plain `Backoff.Fib`, which `Backoff.FibonacciMemo.Get` is proved to agree with.
- `Number()` string parsing in `parseAmount` and `parseFloat` in `createDelay` are library conversions. Amounts and durations are taken as already-parsed numbers, `NaN` included. Floating point is modelled as exact reals, so `Amounts.ValueOf` rounds exact values and not binary doubles.
- `Amounts.Upper`: only ASCII letters are upper-cased. JavaScript's full Unicode case mapping (for example 'ı' to 'I') is not modelled, so a few non-ASCII spellings of a code that the source accepts are rejected here.
- `toString` (js/amount.js:103-113) is `Intl.NumberFormat` grouping of `valueOf`, a locale library call.
- The `Amount`/`ChargeAmount` fields stay writable in the source; the model treats `base` and `currency` as fixed after construction.
- The conversion table is `{}` in the source and is never filled, so every rate is 1. The model keeps the table and proves it stays empty.
- js/visibility.js is not part of this model. It measures hidden time with `performance` and `localStorage`, and that time reaches the timer as `Countdown.Timer.Resume`'s argument.
- `Countdown.Timer.Resume` requires a running timer: the visibility callback is unregistered on completion (js/timer.js:141).
  - A resume arriving while a tick is already pending overwrites the handle, as the source does.
  - The earlier pending tick is not tracked.
- DOM writes (`innerText`, `datetime`), the `visibilitychange` listener and the `HTMLTimeElement` test are reduced as follows:
  - the strings the updater would write, as `Countdown.TimeString` and `Countdown.DurationString`;
  - the log of `current` values it is called with;
  - the `Freeze` method;
  - a flag on `Element`.
- `createTimer` returning `null` (js/timer.js:94) is not modelled: it cannot happen, because `tick` is always supplied.
- `createDelay`'s scheduling and callback (js/timer.js:168-206) are not modelled beyond its duration normalisation and its resume arithmetic; the clock is an argument.

## Findings

| source | as written | input that shows it | evidently intended | confidence | as-written member | corrected member |
|---|---|---|---|---|---|---|
| js/fetch.old.js:265-281 | the overall timeout's timer is cleared only when the call rejects, so after a resolved call it still fires: `this.abort()` and `onTimeout` run after the caller has its response; that late `this.abort()` also aborts whatever call the runner holds by then, so a later `fetch` on the same runner is declined early and runs `onTimeout` and `onAbort` | `timeout(200, hook)`, first response ok and resolved before 200 ms; a second `fetch` started at 100 ms is then aborted at 200 ms | the timer is released when the call settles, so `onTimeout` runs only for a call it aborted | high (not executed) | Retry.LateHooksAsWritten, Retry.TimeoutHookAfterSuccess | Retry.TimeoutHookOnlyWhenDeclined |
| js/fetch.old.js:107 | `arguments` inside the two arrow functions belongs to the function at line 85, which `.call(this)` at line 156 invokes with no arguments, so `arguments.length === 1` never holds and a lone callback is not swapped | `retry(callback)` | a lone function argument is the callback, with the default count 1, as `timeout(callback)` does | high (not executed) | FetchClient.RetrySettingAsWritten, FetchClient.RetryCallbackAloneAsWritten | FetchClient.RetrySetting |
| js/timer.js:175-179 | every resume subtracts the time since creation from a duration an earlier resume has already shortened | `createDelay(cb, 10000)` at time 0, page shown again at 3000 and at 5000 (hidden in between): fires at 7000 | the delay fires at creation + duration, as a single hide/show cycle does | medium (not executed) | Countdown.DelayAfterResumesAsWritten, Countdown.DelayResumedTwiceFiresEarly, Countdown.DelayResumedTwiceFiresBeforeDeadline | Countdown.DelayAfterResume |
