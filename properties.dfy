/**
 Properties of a limiter over whole sequences of `tryConsume` calls. Each call
 is one atomic step (the source serialises calls on the limiter's monitor), so
 any interleaving of concurrent callers is one of these sequences.
 */
module RateLimiterProperties {
  import opened RateLimiter

  /** The answers of a sequence of calls and the state they leave. */
  datatype Trace = Trace(admitted: seq<bool>, final: Bucket)

  /** Run the calls one after the other from state `b`. */
  function Run(cfg: Config, b: Bucket, calls: seq<Call>): (t: Trace)
    ensures |t.admitted| == |calls|
    ensures calls == [] ==> t.final == b
    ensures calls != [] ==> t.final.lastRefillTimeMillis == calls[|calls| - 1].now
    decreases |calls|
  {
    if calls == [] then
      Trace([], b)
    else
      var d := Step(cfg, b, calls[0]);
      var rest := Run(cfg, d.after, calls[1..]);
      Trace([d.admitted] + rest.admitted, rest.final)
  }

  /** The clock never goes back: each call sees a reading no earlier than the
      previous one, starting from `last`. */
  predicate Chronological(last: int, calls: seq<Call>)
    decreases |calls|
  {
    calls == [] || (last <= calls[0].now && Chronological(calls[0].now, calls[1..]))
  }

  predicate NonNegativeRequests(calls: seq<Call>)
  {
    forall i :: 0 <= i < |calls| ==> calls[i].tokensRequested >= 0
  }

  /** No call accrues a token: the refill of every call adds zero. */
  predicate NoAccrual(cfg: Config, last: int, calls: seq<Call>)
    decreases |calls|
  {
    calls == []
    || (TokensToAdd(cfg, calls[0].now - last) == 0 && NoAccrual(cfg, calls[0].now, calls[1..]))
  }

  /** Every call comes less than one token period after the previous one. */
  predicate GapsBelowPeriod(cfg: Config, last: int, calls: seq<Call>)
    decreases |calls|
  {
    calls == []
    || (0 <= (calls[0].now - last) * cfg.refillRateNum < Period(cfg)
        && GapsBelowPeriod(cfg, calls[0].now, calls[1..]))
  }

  /** Total tokens debited: the sum of the requests that were admitted. */
  function AdmittedTokens(calls: seq<Call>, admitted: seq<bool>): int
    requires |admitted| == |calls|
    decreases |calls|
  {
    if calls == [] then 0
    else (if admitted[0] then calls[0].tokensRequested else 0)
         + AdmittedTokens(calls[1..], admitted[1..])
  }

  lemma NonNegativeTail(calls: seq<Call>)
    requires calls != [] && NonNegativeRequests(calls)
    ensures calls[0].tokensRequested >= 0 && NonNegativeRequests(calls[1..])
  {
    forall i | 0 <= i < |calls[1..]| ensures calls[1..][i].tokensRequested >= 0 {
      assert calls[1..][i] == calls[i + 1];
    }
  }

  function CountAdmitted(admitted: seq<bool>): nat
  {
    if admitted == [] then 0 else (if admitted[0] then 1 else 0) + CountAdmitted(admitted[1..])
  }

  /** `0 <= tokens <= maxTokens` holds after any sequence of calls with
      non-negative requests, a forward clock and a non-negative rate, and
      the refill baseline does not move back. */
  lemma {:induction false} RunKeepsBounds(cfg: Config, b: Bucket, calls: seq<Call>)
    requires cfg.refillRateNum >= 0
    requires InBounds(cfg, b)
    requires Chronological(b.lastRefillTimeMillis, calls)
    requires NonNegativeRequests(calls)
    ensures InBounds(cfg, Run(cfg, b, calls).final)
    ensures Run(cfg, b, calls).final.lastRefillTimeMillis >= b.lastRefillTimeMillis
    decreases |calls|
  {
    if calls != [] {
      var d := Step(cfg, b, calls[0]);
      assert calls[0].tokensRequested >= 0;
      StepKeepsBounds(cfg, b, calls[0]);
      NonNegativeTail(calls);
      RunKeepsBounds(cfg, d.after, calls[1..]);
    }
  }

  /** When no call accrues a token, every token admitted comes out of the
      starting balance: the final count is the balance minus the admitted
      requests, and it never goes below zero. */
  lemma {:induction false} RunWithoutAccrual(cfg: Config, b: Bucket, calls: seq<Call>)
    requires NoAccrual(cfg, b.lastRefillTimeMillis, calls)
    requires b.tokens <= cfg.maxTokens
    requires NonNegativeRequests(calls)
    ensures Run(cfg, b, calls).final.tokens
            == b.tokens - AdmittedTokens(calls, Run(cfg, b, calls).admitted)
    ensures b.tokens >= 0 ==> Run(cfg, b, calls).final.tokens >= 0
    decreases |calls|
  {
    if calls != [] {
      var d := Step(cfg, b, calls[0]);
      assert Refill(cfg, b, calls[0].now).tokens == b.tokens;
      NonNegativeTail(calls);
      RunWithoutAccrual(cfg, d.after, calls[1..]);
      var t := Run(cfg, b, calls);
      assert t.admitted[1..] == Run(cfg, d.after, calls[1..]).admitted;
    }
  }

  /** Before any token accrues, the requests admitted in total never exceed
      the starting balance (at most `maxTokens` for a fresh limiter). */
  lemma AdmittedWithinBalance(cfg: Config, b: Bucket, calls: seq<Call>)
    requires NoAccrual(cfg, b.lastRefillTimeMillis, calls)
    requires InBounds(cfg, b)
    requires NonNegativeRequests(calls)
    ensures AdmittedTokens(calls, Run(cfg, b, calls).admitted) <= b.tokens
  {
    RunWithoutAccrual(cfg, b, calls);
  }

  /** With no accrual and single-token requests, call `i` is admitted exactly
      when `i` is below the starting balance. */
  lemma {:induction false} SingleTokenBurst(cfg: Config, b: Bucket, calls: seq<Call>)
    requires NoAccrual(cfg, b.lastRefillTimeMillis, calls)
    requires InBounds(cfg, b)
    requires forall i :: 0 <= i < |calls| ==> calls[i].tokensRequested == 1
    ensures forall i :: 0 <= i < |calls| ==> (Run(cfg, b, calls).admitted[i] <==> i < b.tokens)
    decreases |calls|
  {
    if calls != [] {
      var d := Step(cfg, b, calls[0]);
      assert Refill(cfg, b, calls[0].now).tokens == b.tokens;
      assert d.after.tokens == if b.tokens >= 1 then b.tokens - 1 else b.tokens;
      SingleTokenBurst(cfg, d.after, calls[1..]);
      var t := Run(cfg, b, calls);
      forall i | 0 <= i < |calls| ensures t.admitted[i] <==> i < b.tokens {
        if i > 0 {
          assert t.admitted[i] == Run(cfg, d.after, calls[1..]).admitted[i - 1];
        }
      }
    }
  }

  lemma {:induction false} CountPrefix(s: seq<bool>, k: int)
    requires forall i :: 0 <= i < |s| ==> (s[i] <==> i < k)
    ensures CountAdmitted(s) == if k <= 0 then 0 else Min(|s|, k)
    decreases |s|
  {
    if s != [] {
      CountPrefix(s[1..], k - 1);
    }
  }

  /** With a zero refill rate, `n` callers each asking for one token get
      exactly `min(n, tokens)` admissions, whatever order the monitor gives
      them. */
  lemma ZeroRateAdmitsExactly(cfg: Config, b: Bucket, calls: seq<Call>)
    requires cfg.refillRateNum == 0
    requires InBounds(cfg, b)
    requires forall i :: 0 <= i < |calls| ==> calls[i].tokensRequested == 1
    ensures CountAdmitted(Run(cfg, b, calls).admitted) == Min(|calls|, b.tokens)
  {
    ZeroRateNoAccrual(cfg, b.lastRefillTimeMillis, calls);
    SingleTokenBurst(cfg, b, calls);
    CountPrefix(Run(cfg, b, calls).admitted, b.tokens);
  }

  lemma {:induction false} ZeroRateNoAccrual(cfg: Config, last: int, calls: seq<Call>)
    requires cfg.refillRateNum == 0
    ensures NoAccrual(cfg, last, calls)
    decreases |calls|
  {
    if calls != [] {
      ZeroRateNoAccrual(cfg, calls[0].now, calls[1..]);
    }
  }

  /** Calls that all see the baseline instant accrue nothing. */
  lemma {:induction false} SameInstantNoAccrual(cfg: Config, last: int, calls: seq<Call>)
    requires forall i :: 0 <= i < |calls| ==> calls[i].now == last
    ensures NoAccrual(cfg, last, calls)
    decreases |calls|
  {
    if calls != [] {
      assert calls[0].now == last;
      SameInstantNoAccrual(cfg, last, calls[1..]);
    }
  }

  /** A fresh limiter, called repeatedly at its construction instant with
      single-token requests, admits exactly `maxTokens` of them and rejects
      the next. */
  lemma FreshLimiterBurst(maxTokens: int, refillRateNum: int, refillRateDen: PosInt, t0: int)
    requires maxTokens >= 0
    ensures var cfg := Config(maxTokens, refillRateNum, refillRateDen);
            var calls := seq(maxTokens + 1, _ => Call(1, t0));
            Run(cfg, Bucket(maxTokens, t0), calls).admitted == seq(maxTokens, _ => true) + [false]
  {
    var cfg := Config(maxTokens, refillRateNum, refillRateDen);
    var calls := seq(maxTokens + 1, _ => Call(1, t0));
    SameInstantNoAccrual(cfg, t0, calls);
    SingleTokenBurst(cfg, Bucket(maxTokens, t0), calls);
  }

  /** Calls spaced less than one token period apart accrue nothing: the
      fraction earned between two calls is dropped at every refill, so such a
      caller never sees the bucket refill at all. */
  lemma {:induction false} ShortGapsStarve(cfg: Config, last: int, calls: seq<Call>)
    requires GapsBelowPeriod(cfg, last, calls)
    ensures NoAccrual(cfg, last, calls)
    decreases |calls|
  {
    if calls != [] {
      ShortGapsStarve(cfg, calls[0].now, calls[1..]);
    }
  }

  /** A drained bucket, polled with gaps below one token period, rejects
      every positive request. */
  lemma {:induction false} DrainedBucketStaysDrained(cfg: Config, b: Bucket, calls: seq<Call>)
    requires b.tokens == 0 && cfg.maxTokens >= 0
    requires GapsBelowPeriod(cfg, b.lastRefillTimeMillis, calls)
    requires forall i :: 0 <= i < |calls| ==> calls[i].tokensRequested > 0
    ensures forall i :: 0 <= i < |calls| ==> !Run(cfg, b, calls).admitted[i]
    decreases |calls|
  {
    if calls != [] {
      ShortGapsStarve(cfg, b.lastRefillTimeMillis, calls);
      var d := Step(cfg, b, calls[0]);
      assert Refill(cfg, b, calls[0].now).tokens == 0;
      DrainedBucketStaysDrained(cfg, d.after, calls[1..]);
      var t := Run(cfg, b, calls);
      forall i | 0 <= i < |calls| ensures !t.admitted[i] {
        if i > 0 {
          assert t.admitted[i] == Run(cfg, d.after, calls[1..]).admitted[i - 1];
        }
      }
    }
  }

  /** Truncation toward zero is superadditive on non-negative amounts. */
  lemma TruncDivSuperadditive(x: int, y: int, d: PosInt)
    requires x >= 0 && y >= 0
    ensures TruncDiv(x, d) + TruncDiv(y, d) <= TruncDiv(x + y, d)
  {
    var p, q, r := TruncDiv(x, d), TruncDiv(y, d), TruncDiv(x + y, d);
    assert (p + q) * d == p * d + q * d;
    if p + q > r {
      MulNonNegative(p + q - r - 1, d);
    }
  }

  /** Refilling twice over an interval never yields more than refilling once
      over the whole of it: the fraction dropped at the first refill is lost. */
  lemma SplitRefillNeverGains(cfg: Config, b: Bucket, t1: int, t2: int)
    requires cfg.refillRateNum >= 0
    requires b.lastRefillTimeMillis <= t1 <= t2
    requires b.tokens <= cfg.maxTokens
    ensures Refill(cfg, Refill(cfg, b, t1), t2).tokens <= Refill(cfg, b, t2).tokens
  {
    var x := (t1 - b.lastRefillTimeMillis) * cfg.refillRateNum;
    var y := (t2 - t1) * cfg.refillRateNum;
    MulNonNegative(t1 - b.lastRefillTimeMillis, cfg.refillRateNum);
    MulNonNegative(t2 - t1, cfg.refillRateNum);
    assert x + y == (t2 - b.lastRefillTimeMillis) * cfg.refillRateNum;
    TruncDivSuperadditive(x, y, Period(cfg));
  }

  /** The loss is real: at one token per second, two refills 600 ms apart
      add nothing, while one refill after 1200 ms adds a token. */
  lemma SplitRefillLosesFraction()
    ensures var cfg := Config(10, 1, 1);
            var b := Bucket(0, 0);
            Refill(cfg, Refill(cfg, b, 600), 1200).tokens == 0 && Refill(cfg, b, 1200).tokens == 1
  {
    var cfg := Config(10, 1, 1);
    assert TokensToAdd(cfg, 600) == 0;
    assert TokensToAdd(cfg, 1200) == 1;
  }

  /** In general: when both parts of an interval are shorter than a token
      period but the whole is at least one, two refills earn nothing while
      one refill over the whole interval earns a token, room permitting. */
  lemma SplitRefillLosesToken(cfg: Config, b: Bucket, t1: int, t2: int)
    requires cfg.refillRateNum > 0
    requires b.lastRefillTimeMillis <= t1 <= t2
    requires b.tokens < cfg.maxTokens
    requires (t1 - b.lastRefillTimeMillis) * cfg.refillRateNum < Period(cfg)
    requires (t2 - t1) * cfg.refillRateNum < Period(cfg)
    requires (t2 - b.lastRefillTimeMillis) * cfg.refillRateNum >= Period(cfg)
    ensures Refill(cfg, Refill(cfg, b, t1), t2).tokens == b.tokens
    ensures Refill(cfg, b, t2).tokens > b.tokens
  {
    MulNonNegative(t1 - b.lastRefillTimeMillis, cfg.refillRateNum);
    MulNonNegative(t2 - t1, cfg.refillRateNum);
    var n := TokensToAdd(cfg, t2 - b.lastRefillTimeMillis);
    if n <= 0 {
      MulNonNegative(-n, Period(cfg));
    }
  }

  /** Truncation has one answer: the bounds of `TokensToAdd` fix it. */
  lemma QuotientUnique(a: int, n: int, k: int, d: PosInt)
    requires n * d <= a < n * d + d
    requires k * d <= a < k * d + d
    ensures n == k
  {
    if n < k {
      MulNonNegative(k - n - 1, d);
    } else if k < n {
      MulNonNegative(n - k - 1, d);
    }
  }

  /** A drained bucket refilled after an elapsed time worth between `k` and
      `k + 1` tokens holds exactly `k` tokens, up to the capacity. */
  lemma DrainedRefillAccrues(cfg: Config, b: Bucket, now: int, k: int)
    requires b.tokens == 0 && 0 <= k <= cfg.maxTokens
    requires k * Period(cfg) <= (now - b.lastRefillTimeMillis) * cfg.refillRateNum
             < k * Period(cfg) + Period(cfg)
    ensures Refill(cfg, b, now).tokens == k
  {
    var a := (now - b.lastRefillTimeMillis) * cfg.refillRateNum;
    MulNonNegative(k, Period(cfg));
    QuotientUnique(a, TokensToAdd(cfg, now - b.lastRefillTimeMillis), k, Period(cfg));
  }

  /** The refill does not clamp a clock that went back: with a positive rate,
      going back by a token period or more takes tokens away. */
  lemma BackwardClockRemovesTokens(cfg: Config, b: Bucket, now: int)
    requires cfg.refillRateNum > 0
    requires b.tokens <= cfg.maxTokens
    requires (now - b.lastRefillTimeMillis) * cfg.refillRateNum + Period(cfg) <= 0
    ensures Refill(cfg, b, now).tokens < b.tokens
  {
    var n := TokensToAdd(cfg, now - b.lastRefillTimeMillis);
    if n >= 0 {
      MulNonNegative(n, Period(cfg));
    }
  }

  /** The request is not validated: a negative one is admitted and pushes
      the count above `maxTokens`. */
  lemma NegativeRequestOverfills(cfg: Config, b: Bucket, c: Call)
    requires c.tokensRequested < 0 && cfg.maxTokens >= 0
    requires Refill(cfg, b, c.now).tokens == cfg.maxTokens
    ensures Step(cfg, b, c).admitted
    ensures Step(cfg, b, c).after.tokens > cfg.maxTokens
  {
  }
}
