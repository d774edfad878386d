/**
 A token-bucket rate limiter: a bounded counter of tokens that regenerates with
 elapsed time and is debited by admitted requests.

 The refill rate is an exact rational `refillRateNum / refillRateDen` tokens per
 second, the clock reading is a parameter `now` in milliseconds, and integers
 are unbounded.
 */
module RateLimiter {

  type PosInt = n: int | n > 0 witness 1

  /** The fixed configuration of one limiter: capacity and refill rate. */
  datatype Config = Config(maxTokens: int, refillRateNum: int, refillRateDen: PosInt)

  /** The mutable part of a limiter, as a value. */
  datatype Bucket = Bucket(tokens: int, lastRefillTimeMillis: int)

  /** One call of `tryConsume`: the amount asked for and the clock reading it sees. */
  datatype Call = Call(tokensRequested: int, now: int)

  /** The result of one call: the admit/reject answer and the state it leaves. */
  datatype Decision = Decision(admitted: bool, after: Bucket)

  function Min(a: int, b: int): (m: int)
    ensures m <= a && m <= b
    ensures m == a || m == b
  {
    if a <= b then a else b
  }

  /** Integer division truncating toward zero, as a conversion of a real
      quotient to an integer does; the bounds pin the quotient down uniquely. */
  function TruncDiv(a: int, d: PosInt): (q: int)
    ensures a >= 0 ==> 0 <= q && q * d <= a < q * d + d
    ensures a < 0 ==> q <= 0 && q * d - d < a <= q * d
    ensures 0 <= a < d ==> q == 0
  {
    if a >= 0 then
      var q := a / d;
      FloorDivBounds(a, d);
      q
    else
      var p := (-a) / d;
      FloorDivBounds(-a, d);
      assert (-p) * d == -(p * d);
      -p
  }

  /** Dafny's division on a non-negative dividend, stated as bounds. */
  lemma FloorDivBounds(a: int, d: PosInt)
    requires a >= 0
    ensures 0 <= a / d && (a / d) * d <= a < (a / d) * d + d
    ensures a < d ==> a / d == 0
  {
    var q, r := a / d, a % d;
    assert a == q * d + r && 0 <= r < d;
    if q < 0 {
      MulStrictlyNegative(q, d);
    }
  }

  lemma MulStrictlyNegative(x: int, d: PosInt)
    requires x < 0
    ensures x * d < 0
  {
    MulNonNegative(-x - 1, d);
    assert x * d == -((-x - 1) * d) - d;
  }

  lemma MulNonNegative(x: int, y: int)
    requires x >= 0 && y >= 0
    ensures x * y >= 0
  {
  }

  /** The number of milliseconds in which a rate of one token per second
      accrues `refillRateDen` tokens; `elapsed * refillRateNum` is compared
      against multiples of it. */
  function Period(cfg: Config): PosInt
  {
    1000 * cfg.refillRateDen
  }

  /** Tokens accrued over `elapsedMillis`: the exact amount
      `elapsedMillis / 1000 * refillRateNum / refillRateDen`, truncated
      toward zero. Negative elapsed time is not clamped. */
  function TokensToAdd(cfg: Config, elapsedMillis: int): (n: int)
    ensures var accrued := elapsedMillis * cfg.refillRateNum;
      accrued >= 0 ==> 0 <= n && n * Period(cfg) <= accrued < n * Period(cfg) + Period(cfg)
    ensures var accrued := elapsedMillis * cfg.refillRateNum;
      accrued < 0 ==> n <= 0 && n * Period(cfg) - Period(cfg) < accrued <= n * Period(cfg)
    ensures 0 <= elapsedMillis * cfg.refillRateNum < Period(cfg) ==> n == 0
  {
    TruncDiv(elapsedMillis * cfg.refillRateNum, Period(cfg))
  }

  /** The refill step: accrue tokens for the time since the last refill, cap
      the count at `maxTokens`, and move the baseline to `now` whatever was
      added, so the fractional part of the accrual is dropped. */
  function Refill(cfg: Config, b: Bucket, now: int): (r: Bucket)
    ensures r.lastRefillTimeMillis == now
    ensures r.tokens <= cfg.maxTokens
    ensures r.tokens <= b.tokens + TokensToAdd(cfg, now - b.lastRefillTimeMillis)
    ensures r.tokens == cfg.maxTokens || r.tokens == b.tokens + TokensToAdd(cfg, now - b.lastRefillTimeMillis)
  {
    var tokensToAdd := TokensToAdd(cfg, now - b.lastRefillTimeMillis);
    Bucket(Min(cfg.maxTokens, b.tokens + tokensToAdd), now)
  }

  /** One call of `tryConsume`: refill, then admit and debit if the refilled
      count covers the request, else reject and keep the refilled count. */
  function Step(cfg: Config, b: Bucket, c: Call): (d: Decision)
    ensures d.after.lastRefillTimeMillis == c.now
    ensures d.admitted <==> Refill(cfg, b, c.now).tokens >= c.tokensRequested
    ensures d.admitted ==> d.after.tokens == Refill(cfg, b, c.now).tokens - c.tokensRequested
    ensures !d.admitted ==> d.after.tokens == Refill(cfg, b, c.now).tokens
  {
    var refilled := Refill(cfg, b, c.now);
    if refilled.tokens >= c.tokensRequested then
      Decision(true, Bucket(refilled.tokens - c.tokensRequested, refilled.lastRefillTimeMillis))
    else
      Decision(false, refilled)
  }

  /** The bound the limiter is meant to keep: `0 <= tokens <= maxTokens`. */
  predicate InBounds(cfg: Config, b: Bucket)
  {
    0 <= b.tokens <= cfg.maxTokens
  }

  /** Refill caps the count at `maxTokens` and, with a forward clock and a
      non-negative rate, never takes tokens away. */
  lemma RefillNeverRemoves(cfg: Config, b: Bucket, now: int)
    requires cfg.refillRateNum >= 0 && now >= b.lastRefillTimeMillis
    requires b.tokens <= cfg.maxTokens
    ensures b.tokens <= Refill(cfg, b, now).tokens <= cfg.maxTokens
  {
    var elapsed := now - b.lastRefillTimeMillis;
    MulNonNegative(elapsed, cfg.refillRateNum);
  }

  /** One call with a non-negative request and a forward clock keeps
      `0 <= tokens <= maxTokens`. */
  lemma StepKeepsBounds(cfg: Config, b: Bucket, c: Call)
    requires cfg.refillRateNum >= 0 && c.now >= b.lastRefillTimeMillis
    requires c.tokensRequested >= 0
    requires InBounds(cfg, b)
    ensures InBounds(cfg, Step(cfg, b, c).after)
  {
    RefillNeverRemoves(cfg, b, c.now);
  }

  /** The limiter object: two private mutable fields behind one atomic
      operation. */
  class TokenBucketRateLimiter {
    const maxTokens: int
    const refillRateNum: int
    const refillRateDen: PosInt
    var tokens: int
    var lastRefillTimeMillis: int

    function Cfg(): Config
    {
      Config(maxTokens, refillRateNum, refillRateDen)
    }

    function State(): Bucket
      reads this
    {
      Bucket(tokens, lastRefillTimeMillis)
    }

    ghost predicate Valid()
      reads this
    {
      InBounds(Cfg(), State())
    }

    /** A new limiter is full and takes the construction time as its refill
        baseline. Neither the capacity nor the rate is validated. */
    constructor (maxTokens: int, refillRateNum: int, refillRateDen: PosInt, now: int)
      ensures Cfg() == Config(maxTokens, refillRateNum, refillRateDen)
      ensures State() == Bucket(maxTokens, now)
      ensures maxTokens >= 0 ==> Valid()
    {
      this.maxTokens := maxTokens;
      this.refillRateNum := refillRateNum;
      this.refillRateDen := refillRateDen;
      this.tokens := maxTokens;
      this.lastRefillTimeMillis := now;
    }

    /** Admit `tokensRequested` tokens if the refilled bucket holds them. */
    method TryConsume(tokensRequested: int, now: int) returns (admitted: bool)
      modifies this
      ensures Decision(admitted, State()) == Step(Cfg(), old(State()), Call(tokensRequested, now))
      ensures admitted <==> Refill(Cfg(), old(State()), now).tokens >= tokensRequested
      ensures tokens == if admitted then Refill(Cfg(), old(State()), now).tokens - tokensRequested
                        else Refill(Cfg(), old(State()), now).tokens
      ensures lastRefillTimeMillis == now
      ensures (old(Valid()) && tokensRequested >= 0 && now >= old(lastRefillTimeMillis)
               && refillRateNum >= 0) ==> Valid()
    {
      ghost var before := State();
      RefillTokens(now);
      if tokens >= tokensRequested {
        tokens := tokens - tokensRequested;
        admitted := true;
      } else {
        admitted := false;
      }
      if InBounds(Cfg(), before) && tokensRequested >= 0 && now >= before.lastRefillTimeMillis
         && refillRateNum >= 0 {
        StepKeepsBounds(Cfg(), before, Call(tokensRequested, now));
      }
    }

    /** Accrue tokens for the time since the last refill and reset the
        baseline to `now`. */
    method RefillTokens(now: int)
      modifies this
      ensures State() == Refill(Cfg(), old(State()), now)
    {
      var timeElapsedMillis := now - lastRefillTimeMillis;
      var tokensToAdd := TokensToAdd(Cfg(), timeElapsedMillis);
      tokens := Min(maxTokens, tokens + tokensToAdd);
      lastRefillTimeMillis := now;
    }
  }
}
