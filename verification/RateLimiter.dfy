/** The token bucket in front of the broker's API. */
module RateLimiting {
  import opened Collections

  /** Tokens that accrue over a span of time. */
  function Accrued(rate: real, span: real): real { rate * span }

  lemma AccrualAdds(rate: real, a: real, b: real)
    ensures Accrued(rate, a + b) == Accrued(rate, a) + Accrued(rate, b)
  {
  }

  lemma AccrualGrows(rate: real, a: real, b: real)
    requires rate > 0.0 && a <= b
    ensures Accrued(rate, a) <= Accrued(rate, b)
  {
    assert rate * (b - a) >= 0.0;
    assert rate * (b - a) == rate * b - rate * a;
  }

  /** Waiting for the missing part of a token accrues exactly that part. */
  lemma WaitAccrues(rate: real, missing: real)
    requires rate > 0.0
    ensures Accrued(rate, missing / rate) == missing
  {
  }

  /** From any grant on, the grants that followed and the tokens left fit in one burst and what accrued since. */
  ghost predicate Fits(grants: seq<real>, tokens: real, rate: real, burst: real, last: real) {
    forall i :: 0 <= i < |grants| ==> FitsFrom(grants[i], |grants| - i, tokens, rate, burst, last)
  }

  ghost predicate FitsFrom(first: real, count: int, tokens: real, rate: real, burst: real, last: real) {
    first <= last && count as real + tokens <= burst + Accrued(rate, last - first)
  }

  /** Any grants i to j number at most the burst and the rate times the time between them. */
  ghost predicate Bounded(grants: seq<real>, rate: real, burst: real) {
    forall i, j :: 0 <= i <= j < |grants| ==> WithinBound(grants[i], grants[j], j - i + 1, rate, burst)
  }

  ghost predicate WithinBound(first: real, last: real, count: int, rate: real, burst: real) {
    first <= last && count as real <= burst + Accrued(rate, last - first)
  }

  lemma RefillFits(grants: seq<real>, tokens: real, more: real, rate: real, burst: real, last: real, now: real)
    requires rate > 0.0 && last <= now && more <= tokens + Accrued(rate, now - last)
    requires Fits(grants, tokens, rate, burst, last)
    ensures Fits(grants, more, rate, burst, now)
  {
    forall i | 0 <= i < |grants| ensures FitsFrom(grants[i], |grants| - i, more, rate, burst, now) {
      assert FitsFrom(grants[i], |grants| - i, tokens, rate, burst, last);
      AccrualAdds(rate, last - grants[i], now - last);
      assert (last - grants[i]) + (now - last) == now - grants[i];
    }
  }

  lemma GrantFits(grants: seq<real>, tokens: real, rate: real, burst: real, now: real)
    requires 1.0 <= tokens <= burst
    requires Fits(grants, tokens, rate, burst, now) && Bounded(grants, rate, burst)
    ensures Fits(grants + [now], tokens - 1.0, rate, burst, now)
    ensures Bounded(grants + [now], rate, burst)
  {
    var more := grants + [now];
    assert Accrued(rate, 0.0) == 0.0;
    forall i | 0 <= i < |more| ensures FitsFrom(more[i], |more| - i, tokens - 1.0, rate, burst, now) {
      if i < |grants| { assert FitsFrom(grants[i], |grants| - i, tokens, rate, burst, now); }
    }
    forall i, j | 0 <= i <= j < |more| ensures WithinBound(more[i], more[j], j - i + 1, rate, burst) {
      if j < |grants| {
        assert WithinBound(grants[i], grants[j], j - i + 1, rate, burst);
      } else {
        assert FitsFrom(more[i], |more| - i, tokens - 1.0, rate, burst, now);
      }
    }
  }

  /** Sleeping wakes up no earlier than asked. */
  method Sleep(now: real, wait: real) returns (woke: real)
    ensures woke >= now + wait
  {
    var late: real := *;
    woke := now + wait + if late > 0.0 then late else 0.0;
  }

  class RateLimiter {
    const rate: real
    const burst: int
    var tokens: real
    var lastRefill: real
    ghost var grants: seq<real>

    /** A bucket is never overdrawn and never holds more than a burst, and its grants keep to the bound. */
    ghost predicate Valid()
      reads this
    {
      && rate > 0.0 && 0 <= burst
      && 0.0 <= tokens <= burst as real
      && Fits(grants, tokens, rate, burst as real, lastRefill)
      && Bounded(grants, rate, burst as real)
    }

    /** No burst size, or zero, means the whole part of the rate, which is zero for a rate below one. */
    constructor (rate: real, burst: Option<int>, now: real)
      requires rate > 0.0 && (burst.Some? ==> burst.value >= 0)
      ensures Valid() && grants == [] && tokens == this.burst as real && lastRefill == now && this.rate == rate
      ensures this.burst == if burst.Some? && burst.value != 0 then burst.value else rate.Floor
    {
      this.rate := rate;
      this.burst := if burst.Some? && burst.value != 0 then burst.value else rate.Floor;
      tokens := (if burst.Some? && burst.value != 0 then burst.value else rate.Floor) as real;
      lastRefill := now;
      grants := [];
    }

    method Refill(now: real)
      requires Valid() && lastRefill <= now
      modifies this`tokens, this`lastRefill
      ensures Valid() && lastRefill == now
      ensures tokens == MinR(burst as real, old(tokens) + Accrued(rate, now - old(lastRefill)))
    {
      var elapsed := now - lastRefill;
      AccrualGrows(rate, 0.0, elapsed);
      var more := MinR(burst as real, tokens + Accrued(rate, elapsed));
      RefillFits(grants, tokens, more, rate, burst as real, lastRefill, now);
      tokens, lastRefill := more, now;
    }

    /** Waits for a token. With room for at least one the wait computed after the first look is always enough;
        with room for none there would be no end to it. */
    method Acquire(asked: real) returns (granted: real)
      requires Valid() && lastRefill <= asked && burst >= 1
      modifies this`tokens, this`lastRefill, this`grants
      ensures Valid() && granted >= asked && grants == old(grants) + [granted] && lastRefill == granted
      ensures old(tokens) + Accrued(rate, asked - old(lastRefill)) >= 1.0 ==> granted == asked
    {
      var now := asked;
      ghost var looks := 0;
      while true
        invariant Valid() && lastRefill <= now && asked <= now && grants == old(grants)
        invariant 0 <= looks <= 1
        invariant looks == 0 ==> now == asked && tokens == old(tokens) && lastRefill == old(lastRefill)
        invariant looks == 1 ==>
          && tokens + Accrued(rate, now - lastRefill) >= 1.0
          && old(tokens) + Accrued(rate, asked - old(lastRefill)) < 1.0
        decreases 1 - looks
      {
        Refill(now);
        if tokens >= 1.0 {
          GrantFits(grants, tokens, rate, burst as real, now);
          tokens := tokens - 1.0;
          grants := grants + [now];
          return now;
        }
        var wait := (1.0 - tokens) / rate;
        WaitAccrues(rate, 1.0 - tokens);
        var woke := Sleep(now, wait);
        AccrualGrows(rate, wait, woke - lastRefill);
        AccrualGrows(rate, 0.0, wait);
        WaitIsPositive(rate, wait);
        now := woke;
        looks := looks + 1;
      }
    }

    /** Looking at the tokens only brings them up to date. */
    method AvailableTokens(now: real) returns (available: real)
      requires Valid() && lastRefill <= now
      modifies this`tokens, this`lastRefill
      ensures Valid() && available == tokens && lastRefill == now
      ensures available == MinR(burst as real, old(tokens) + Accrued(rate, now - old(lastRefill)))
    {
      Refill(now);
      available := tokens;
    }

    /** A bucket that holds less than one token never reaches one, however long the wait. */
    lemma EmptyBucketNeverGrants(now: real)
      requires Valid() && burst < 1 && lastRefill <= now
      ensures MinR(burst as real, tokens + Accrued(rate, now - lastRefill)) < 1.0
    {
    }
  }

  lemma WaitIsPositive(rate: real, wait: real)
    requires rate > 0.0 && Accrued(rate, wait) > 0.0
    ensures wait > 0.0
  {
    assert Accrued(rate, 0.0) == 0.0;
    if wait <= 0.0 { AccrualGrows(rate, wait, 0.0); }
  }
}
