# Token-bucket rate limiter

This project models `TokenBucketRateLimiter`, a token-bucket limiter, and proves properties about it. The limiter holds a bounded count of tokens, starting at `maxTokens`, and the time of its last refill. Its one operation, `tryConsume(tokensRequested)`, works in two steps:

1. It refills. It adds the tokens earned since the last refill, rounded toward zero and capped at `maxTokens`. It then moves the refill baseline to the current time.
2. It decides. If the refilled count covers the request, it debits the request and answers `true`. Otherwise it answers `false` and keeps the refilled count.

The model has two files.

- `ratelimiter.dfy` (module `RateLimiter`):
  - the value-level step functions `TokensToAdd`, `Refill` and `Step`;
  - the class `TokenBucketRateLimiter`, with the two mutable fields `tokens` and `lastRefillTimeMillis`. Its methods `TryConsume` and `RefillTokens` are proved to move the object's state exactly as `Step` and `Refill` say.
- `properties.dfy` (module `RateLimiterProperties`): runs whole sequences of calls with `Run` and proves:
  - the bound `0 <= tokens <= maxTokens` holds over any sequence of calls that starts within the bound, uses non-negative requests and a non-decreasing clock, and has a non-negative rate;
  - the burst limit: a fresh limiter called at its construction instant admits `maxTokens` single-token calls and rejects the next;
  - exactly `min(n, C)` admissions when the rate is zero and the start is within the bound, where `n` is the number of single-token callers and `C` the starting balance;
  - the fraction of a token earned between two refills is lost, so two short refills can earn a token less than one long one;
  - what a clock that goes backward or a negative request does.

How the model stands in for parts of the source:

- **Clock.** The clock reading is a parameter `now`, in milliseconds.
- **Refill rate.** The rate is the exact rational `refillRateNum / refillRateDen` tokens per second, with `refillRateDen > 0`. The source computes `(elapsed / 1000.0 * rate).toInt()`. The model computes `TruncDiv(elapsed * refillRateNum, 1000 * refillRateDen)`, which is division truncating toward zero, as `toInt()` truncates.
- **Atomicity.** Each `@Synchronized` call is one atomic step. So any interleaving of concurrent callers is one sequence of `Step`s, which is what `Run` computes.

What the code does not check, kept as written:

- **Backward clock.** Negative elapsed time is not clamped (src/main/kotlin/lowleveldesign/Ratelimiter.kt:31). `BackwardClockRemovesTokens` shows that, with a positive rate, a clock that goes back by at least one token period removes tokens.
- **Timestamp.** The baseline is set to `now` on every call (line 34). So it moves back whenever the clock does; under a non-decreasing clock it never moves back (`RunKeepsBounds`).
- **Refill.** The earned amount has the sign of `elapsed * rate` (line 32). A refill is guaranteed never to remove tokens under a forward clock, a non-negative rate and a count no greater than `maxTokens` (`RefillNeverRemoves`); outside those conditions it can remove them (`BackwardClockRemovesTokens`).
- **Request.** The code does not validate `tokensRequested` (line 21). From a bucket that is full after the refill, a negative request is admitted and raises the count above `maxTokens` (`NegativeRequestOverfills`). So the bound lemmas require non-negative requests.
- **Constructor.** The code does not validate `maxTokens` or the rate (line 14). The constructor accepts any values and establishes the bound only when `maxTokens >= 0`.

## Model

| member | source | states |
|---|---|---|
| `RateLimiter.Min` | src/main/kotlin/lowleveldesign/Ratelimiter.kt:33 | the result is no larger than either argument and equals one of them, as `min` does |
| `RateLimiter.TruncDiv` | src/main/kotlin/lowleveldesign/Ratelimiter.kt:32 | the quotient rounds toward zero: for a non-negative dividend it is the largest `q >= 0` with `q*d <= a`; for a negative one it is the smallest `q <= 0` with `a <= q*d`; a non-negative dividend below the divisor gives 0 |
| `RateLimiter.TokensToAdd` | src/main/kotlin/lowleveldesign/Ratelimiter.kt:30-32 | the tokens earned are the truncation of `elapsed * rate / 1000`; the sign follows `elapsed * rate`, since neither the elapsed time nor the rate is clamped; an elapsed time shorter than one token period earns 0 |
| `RateLimiter.Refill` | src/main/kotlin/lowleveldesign/Ratelimiter.kt:29-35 | after a refill the count is at most `maxTokens` and is either `maxTokens` or the old count plus the earned tokens, never more than that sum; the baseline is always reset to `now`, even when nothing was earned |
| `RateLimiter.Step` | src/main/kotlin/lowleveldesign/Ratelimiter.kt:19-26 | a call is admitted iff the refilled count is at least the request; if admitted, the count drops by exactly the request; if rejected, it stays at the refilled count; either way the baseline becomes `now` |
| `RateLimiter.RefillNeverRemoves` | src/main/kotlin/lowleveldesign/Ratelimiter.kt:30-33 | with a forward clock, a non-negative rate and a count no greater than `maxTokens`, a refill never lowers the count, and the count stays at most `maxTokens` |
| `RateLimiter.StepKeepsBounds` | src/main/kotlin/lowleveldesign/Ratelimiter.kt:19-35 | from a state within the bound, one call with a non-negative request, a forward clock and a non-negative rate keeps `0 <= tokens <= maxTokens` |
| `RateLimiter.TokenBucketRateLimiter.constructor` | src/main/kotlin/lowleveldesign/Ratelimiter.kt:14-16 | a new limiter holds exactly `maxTokens` tokens, its baseline is the construction time, and it satisfies the bound when `maxTokens >= 0` |
| `RateLimiter.TokenBucketRateLimiter.TryConsume` | src/main/kotlin/lowleveldesign/Ratelimiter.kt:18-26 | the answer and the new fields are exactly those of `Step` on the old fields: admitted iff the refilled count covers the request; debited by exactly the request on `true`; left at the refilled count on `false`; baseline set to `now`. The object bound is preserved for a non-negative request, a forward clock and a non-negative rate |
| `RateLimiter.TokenBucketRateLimiter.RefillTokens` | src/main/kotlin/lowleveldesign/Ratelimiter.kt:28-35 | the new fields are exactly `Refill` of the old ones at `now` |
| `RateLimiterProperties.Run` | src/main/kotlin/lowleveldesign/Ratelimiter.kt:19-26 | a sequence of calls yields one answer per call; the final baseline is the clock reading of the last call, or the initial state if there were no calls |
| `RateLimiterProperties.RunKeepsBounds` | src/main/kotlin/lowleveldesign/Ratelimiter.kt:14-35 | from a state within the bound, after any sequence of calls with non-negative requests, a non-decreasing clock and a non-negative rate, `0 <= tokens <= maxTokens` holds and the baseline has not moved back |
| `RateLimiterProperties.RunWithoutAccrual` | src/main/kotlin/lowleveldesign/Ratelimiter.kt:19-26 | from a count no greater than `maxTokens`, with non-negative requests and no call earning a token, the final count is the starting count minus the sum of the admitted requests, and it is never negative if the start was not |
| `RateLimiterProperties.AdmittedWithinBalance` | src/main/kotlin/lowleveldesign/Ratelimiter.kt:15-26 | from a state within the bound, with non-negative requests and before any token is earned, the total admitted never exceeds the starting balance, so it never exceeds `maxTokens` |
| `RateLimiterProperties.SingleTokenBurst` | src/main/kotlin/lowleveldesign/Ratelimiter.kt:19-26 | from a state within the bound, with no accrual and single-token requests, call `i` is admitted iff `i` is below the starting balance |
| `RateLimiterProperties.ZeroRateAdmitsExactly` | src/main/kotlin/lowleveldesign/Ratelimiter.kt:18-26 | with a zero rate and a state within the bound, `n` single-token calls in any serial order are admitted exactly `min(n, balance)` times |
| `RateLimiterProperties.ZeroRateNoAccrual` | src/main/kotlin/lowleveldesign/Ratelimiter.kt:32 | a zero rate earns no token on any call |
| `RateLimiterProperties.SameInstantNoAccrual` | src/main/kotlin/lowleveldesign/Ratelimiter.kt:30-32 | calls made at the baseline instant earn no token |
| `RateLimiterProperties.FreshLimiterBurst` | src/main/kotlin/lowleveldesign/Ratelimiter.kt:15-26 | a fresh limiter with `maxTokens >= 0`, called `maxTokens + 1` times at its construction instant with single-token requests, answers `maxTokens` times `true` and then `false` |
| `RateLimiterProperties.ShortGapsStarve` | src/main/kotlin/lowleveldesign/Ratelimiter.kt:32-34 | calls spaced less than one token period apart earn nothing at all, because each refill drops the fraction earned |
| `RateLimiterProperties.DrainedBucketStaysDrained` | src/main/kotlin/lowleveldesign/Ratelimiter.kt:19-34 | with `maxTokens >= 0`, a drained bucket polled at gaps below one token period rejects every positive request |
| `RateLimiterProperties.TruncDivSuperadditive` | src/main/kotlin/lowleveldesign/Ratelimiter.kt:32 | truncating two non-negative parts separately gives no more than truncating their sum |
| `RateLimiterProperties.SplitRefillNeverGains` | src/main/kotlin/lowleveldesign/Ratelimiter.kt:29-35 | with a forward clock, a non-negative rate and a count no greater than `maxTokens`, two refills over an interval never yield more tokens than one refill over the whole interval |
| `RateLimiterProperties.SplitRefillLosesFraction` | src/main/kotlin/lowleveldesign/Ratelimiter.kt:32-34 | at one token per second, refills at 600 ms and at 1200 ms earn nothing, while one refill at 1200 ms earns a token |
| `RateLimiterProperties.SplitRefillLosesToken` | src/main/kotlin/lowleveldesign/Ratelimiter.kt:29-35 | with a positive rate and room below `maxTokens`, if both parts of an interval are shorter than a token period but the whole is at least one, two refills leave the count unchanged while one refill over the whole interval raises it |
| `RateLimiterProperties.DrainedRefillAccrues` | src/main/kotlin/lowleveldesign/Ratelimiter.kt:31-33 | a drained bucket whose elapsed time is worth between `k` and `k+1` tokens (`0 <= k <= maxTokens`) holds exactly `k` after refill; e.g. at 1 token/s: 0 before 1000 ms, 1 from 1000 ms to 1999 ms |
| `RateLimiterProperties.BackwardClockRemovesTokens` | src/main/kotlin/lowleveldesign/Ratelimiter.kt:31-33 | elapsed time is not clamped: with a positive rate and a count no greater than `maxTokens`, a clock that goes back by at least one token period lowers the count |
| `RateLimiterProperties.NegativeRequestOverfills` | src/main/kotlin/lowleveldesign/Ratelimiter.kt:21-22 | the request is not validated: with `maxTokens >= 0`, from a bucket that is full after the refill, a negative request is admitted and leaves more than `maxTokens` tokens |

## Left out

- `main()` (src/main/kotlin/lowleveldesign/Ratelimiter.kt:38-51) is left out. It is a demonstration loop that prints and sleeps, and it has no logic of its own.
- `System.currentTimeMillis()` is left out. The clock reading is the parameter `now`, in the constructor and in every call.
- `@Synchronized` is left out. Each call is modelled as one atomic step, and no interleaving within a call is modelled.
- `Double` arithmetic is left out. The rate is an exact rational and the quotient is truncated exactly. So floating-point rounding of `elapsed / 1000.0 * rate` is not modelled. Neither is the saturation of `toInt()` at the `Int` bounds, nor a NaN or infinite rate.
- 32-bit `Int` and 64-bit `Long` overflow are left out. Integers are unbounded, so `tokens + tokensToAdd` and `tokens - tokensRequested` never wrap around.
