/** The token bucket in front of each router; times in seconds, exact reals in place of floating point. */
module RateLimit {
  import opened Basics

  datatype Bucket = Bucket(tokens: real, capacity: real, rate: real, last: real)

  /** Admitted, or the whole seconds to wait. */
  datatype Verdict = Admit | Wait(seconds: nat)

  const U64_MAX: nat := 0xFFFF_FFFF_FFFF_FFFF

  function Min(a: real, b: real): real { if a < b then a else b }

  /** A clock reading from before the last one counts as no time. */
  function Since(now: real, last: real): real { if now < last then 0.0 else now - last }

  function Ceil(x: real): int { -((-x).Floor) }

  /** Tokens that accrue in `x` seconds. */
  function Earned(rate: real, x: real): real { rate * x }

  lemma EarnedAdds(rate: real, x: real, y: real)
    ensures Earned(rate, x + y) == Earned(rate, x) + Earned(rate, y)
  {
  }

  lemma EarnedGrows(rate: real, x: real, y: real)
    requires rate >= 0.0 && x <= y
    ensures Earned(rate, x) <= Earned(rate, y) && Earned(rate, 0.0) == 0.0
  {
    assert rate * (y - x) >= 0.0;
  }

  function Refill(b: Bucket, now: real): real { Min(b.tokens + Earned(b.rate, Since(now, b.last)), b.capacity) }

  /** Division by a zero rate gives infinity, and the cast to an integer stops at its largest value. */
  function WaitFor(tokens: real, rate: real): nat
    requires tokens < 1.0 && rate >= 0.0
  {
    if rate == 0.0 then U64_MAX
    else
      var w := Ceil((1.0 - tokens) / rate);
      if w < 0 then 0 else if w > U64_MAX then U64_MAX else w
  }

  ghost predicate Valid(b: Bucket) { 0.0 <= b.tokens <= b.capacity && b.rate >= 0.0 }

  function After(b: Bucket, now: real): Bucket {
    var t := Refill(b, now);
    b.(tokens := if t >= 1.0 then t - 1.0 else t, last := now)
  }

  predicate Admits(b: Bucket, now: real) { Refill(b, now) >= 1.0 }

  function Run(b: Bucket, times: seq<real>): Bucket
    decreases |times|
  {
    if times == [] then b else Run(After(b, times[0]), times[1..])
  }

  function Admitted(b: Bucket, times: seq<real>): nat
    decreases |times|
  {
    if times == [] then 0 else (if Admits(b, times[0]) then 1 else 0) + Admitted(After(b, times[0]), times[1..])
  }

  /** The time that passes between consecutive calls, steps back counting as none. */
  function Climb(last: real, times: seq<real>): real
    decreases |times|
  {
    if times == [] then 0.0 else Since(times[0], last) + Climb(times[0], times[1..])
  }

  // ---- how many ------------------------------------------------------------------------

  lemma AfterValid(b: Bucket, now: real)
    requires Valid(b)
    ensures Valid(After(b, now)) && After(b, now).capacity == b.capacity && After(b, now).rate == b.rate
    ensures Refill(b, now) >= 0.0
  {
    EarnedGrows(b.rate, 0.0, Since(now, b.last));
  }

  lemma {:induction false} RunValid(b: Bucket, times: seq<real>)
    requires Valid(b)
    ensures var b' := Run(b, times); Valid(b') && b'.capacity == b.capacity && b'.rate == b.rate
    decreases |times|
  {
    if times != [] {
      AfterValid(b, times[0]);
      RunValid(After(b, times[0]), times[1..]);
    }
  }

  /** Every admission is paid for from the starting balance or from time that passed. */
  lemma {:induction false} Paid(b: Bucket, times: seq<real>)
    requires Valid(b)
    ensures Admitted(b, times) as real <= b.tokens + Earned(b.rate, Climb(b.last, times))
    decreases |times|
  {
    hide Earned;
    if times != [] {
      var now, rest := times[0], times[1..];
      AfterValid(b, now);
      Paid(After(b, now), rest);
      EarnedAdds(b.rate, Since(now, b.last), Climb(now, rest));
    } else {
      EarnedGrows(b.rate, 0.0, 0.0);
    }
  }

  /** Any stretch of calls, at whatever times: the burst, and the rate for the time that passed between its calls. */
  lemma StretchBound(b: Bucket, times: seq<real>)
    requires Valid(b) && times != []
    ensures Admitted(b, times) as real <= b.capacity + Earned(b.rate, Climb(times[0], times[1..]))
  {
    hide Earned;
    var now, rest := times[0], times[1..];
    AfterValid(b, now);
    Paid(After(b, now), rest);
  }

  predicate NonDecreasing(times: seq<real>) { forall i, j :: 0 <= i <= j < |times| ==> times[i] <= times[j] }

  lemma {:induction false} ClimbIsSpan(last: real, times: seq<real>)
    requires NonDecreasing([last] + times)
    ensures Climb(last, times) == if times == [] then 0.0 else times[|times| - 1] - last
    decreases |times|
  {
    if times != [] {
      var all := [last] + times;
      assert all[0] <= all[1];
      forall i, j | 0 <= i <= j < |times| ensures times[i] <= times[j] { assert all[i + 1] <= all[j + 1]; }
      assert [times[0]] + times[1..] == times;
      ClimbIsSpan(times[0], times[1..]);
    }
  }

  /**
   * In any run from a full bucket, any window of calls whose times do not decrease and span at most `span` seconds
   * admits at most `burst + rate * span` calls.
   */
  lemma WindowBound(burst: nat, rate: real, start: real, before: seq<real>, window: seq<real>, span: real)
    requires rate >= 0.0 && span >= 0.0 && NonDecreasing(window)
    requires (window != [] ==> window[|window| - 1] - window[0] <= span)
    ensures Admitted(Run(Full(burst, rate, start), before), window) as real <= burst as real + Earned(rate, span)
  {
    hide Earned;
    var b := Run(Full(burst, rate, start), before);
    RunValid(Full(burst, rate, start), before);
    if window != [] {
      StretchBound(b, window);
      assert [window[0]] + window[1..] == window;
      ClimbIsSpan(window[0], window[1..]);
      EarnedGrows(rate, Climb(window[0], window[1..]), span);
    } else {
      EarnedGrows(rate, 0.0, span);
    }
  }

  function Full(burst: nat, rate: real, start: real): Bucket { Bucket(burst as real, burst as real, rate, start) }

  /** `n` calls at the same time. */
  function Together(now: real, n: nat): seq<real> { seq(n, i => now) }

  function Least(a: int, b: int): int { if a < b then a else b }

  lemma {:induction false} BurstFrom(b: Bucket, n: nat)
    requires Valid(b)
    ensures Admitted(b, Together(b.last, n)) == Least(n, b.tokens.Floor)
    decreases n
  {
    hide Earned;
    if n > 0 {
      EarnedGrows(b.rate, 0.0, 0.0);
      assert Together(b.last, n)[1..] == Together(b.last, n - 1) && Refill(b, b.last) == b.tokens;
      AfterValid(b, b.last);
      BurstFrom(After(b, b.last), n - 1);
    }
  }

  /** What is left over and what was earned since the last call, up to the burst. */
  function Balance(b: Bucket, now: real): real {
    var filled := b.tokens + b.rate * (if now < b.last then 0.0 else now - b.last);
    if filled < b.capacity then filled else b.capacity
  }

  lemma BalanceIsRefill(b: Bucket, now: real)
    ensures Refill(b, now) == Balance(b, now)
  {
  }

  /**
   * How many of `n` calls at one moment are admitted, exactly: as many as there are whole tokens. So a full bucket
   * admits its whole burst at once.
   */
  lemma BurstExactly(b: Bucket, now: real, n: nat)
    requires Valid(b)
    ensures Admitted(b, Together(now, n)) == Least(n, Balance(b, now).Floor)
  {
    hide Admitted, Balance, Refill;
    BalanceIsRefill(b, now);
    BurstAt(b, now, n);
  }

  lemma BurstAt(b: Bucket, now: real, n: nat)
    requires Valid(b)
    ensures Admitted(b, Together(now, n)) == Least(n, Refill(b, now).Floor)
  {
    hide Earned;
    AfterValid(b, now);
    if n > 0 {
      assert Together(now, n)[1..] == Together(now, n - 1);
      BurstFrom(After(b, now), n - 1);
    }
  }

  // ---- how long ---------------------------------------------------------------------------

  lemma CeilBounds(x: real, k: int)
    ensures k >= Ceil(x) <==> k as real >= x
  {
    var f := (-x).Floor;
    assert f as real <= -x < f as real + 1.0;
  }

  lemma Quotient(k: real, y: real, rate: real)
    requires rate > 0.0
    ensures k >= y / rate <==> k * rate >= y
  {
    var q := y / rate;
    assert q * rate == y;
    if k >= q { assert (k - q) * rate >= 0.0; } else { assert (q - k) * rate > 0.0; }
  }

  lemma LeastWait(t: real, rate: real, k: nat)
    requires 0.0 <= t < 1.0 && rate >= 0.0 && rate * (U64_MAX as real) >= 1.0
    ensures k >= WaitFor(t, rate) <==> t + Earned(rate, k as real) >= 1.0
    ensures WaitFor(t, rate) >= 1
  {
    var y := 1.0 - t;
    CeilBounds(y / rate, k);
    Quotient(k as real, y, rate);
    CeilBounds(y / rate, U64_MAX);
    Quotient(U64_MAX as real, y, rate);
    CeilBounds(y / rate, 0);
    Quotient(0.0, y, rate);
  }

  /**
   * With room for a whole token and a rate that is not absurdly small, an undisturbed retry after `k` seconds succeeds
   * exactly from the given wait on.
   */
  lemma WaitIsLeast(b: Bucket, now: real, k: nat)
    requires Valid(b) && !Admits(b, now) && b.capacity >= 1.0 && b.rate * (U64_MAX as real) >= 1.0
    ensures Admits(After(b, now), now + k as real) <==> k >= WaitFor(Refill(b, now), b.rate)
    ensures WaitFor(Refill(b, now), b.rate) >= 1
  {
    var t := Refill(b, now);
    AfterValid(b, now);
    LeastWait(t, b.rate, k);
    assert Since(now + k as real, now) == k as real;
  }

  /** Without that room, or without a rate, no retry ever succeeds, whatever wait was announced. */
  lemma {:induction false} NeverAgain(b: Bucket, times: seq<real>)
    requires Valid(b) && b.tokens < 1.0 && (b.capacity < 1.0 || b.rate == 0.0)
    ensures Admitted(b, times) == 0
    decreases |times|
  {
    if times != [] {
      AfterValid(b, times[0]);
      assert !Admits(b, times[0]);
      NeverAgain(After(b, times[0]), times[1..]);
    }
  }

  /**
   * A limiter built with no burst announces a wait of at most a minute and then refuses the retry, whatever the rate.
   */
  lemma NoBurstRefusesAgain(perMinute: nat, start: real, now: real, times: seq<real>)
    requires perMinute >= 1
    ensures var b := Full(0, perMinute as real / 60.0, start);
            !Admits(b, now) && 1 <= WaitFor(Refill(b, now), b.rate) <= 60 && Admitted(After(b, now), times) == 0
  {
    var b := Full(0, perMinute as real / 60.0, start);
    AfterValid(b, now);
    WithinAMinute(b, now, perMinute);
    NeverAgain(After(b, now), times);
  }

  lemma EmptyRefill(b: Bucket, now: real)
    requires Valid(b) && b.capacity == 0.0
    ensures Refill(b, now) == 0.0
  {
    AfterValid(b, now);
  }

  lemma OnePerMinute(rate: real)
    requires rate == 1.0 / 60.0
    ensures Earned(rate, 59.0) < 1.0 && rate * (U64_MAX as real) >= 1.0
  {
  }

  /** One request a minute, no burst: refused at nought with a wait of sixty seconds, and refused again after them. */
  lemma SixtySecondsForNothing(b: Bucket)
    requires b == Full(0, 1 as real / 60.0, 0.0)
    ensures !Admits(b, 0.0) && WaitFor(Refill(b, 0.0), b.rate) == 60 && !Admits(After(b, 0.0), 60.0)
  {
    hide Earned, WaitFor, Refill, After;
    OnePerMinute(b.rate);
    NoBurstRefusesAgain(1, 0.0, 0.0, [60.0]);
    assert Admitted(After(b, 0.0), [60.0]) == 0;
    EmptyRefill(b, 0.0);
    LeastWait(0.0, b.rate, 59);
  }

  /** A burst of one and no rate: one request is admitted, and none after it, however long one waits. */
  lemma NoRateAdmitsOnce(start: real, now: real, times: seq<real>)
    ensures var b := Full(1, 0.0, start);
            Admits(b, now) && Admitted(After(b, now), times) == 0
  {
    var b := Full(1, 0.0, start);
    AfterValid(b, now);
    EarnedGrows(0.0, 0.0, Since(now, start));
    assert Refill(b, now) == 1.0;
    NeverAgain(After(b, now), times);
  }

  /** As configured per minute, a refusal announces between one and sixty seconds. */
  lemma WithinAMinute(b: Bucket, now: real, perMinute: nat)
    requires Valid(b) && !Admits(b, now) && perMinute >= 1 && b.rate == perMinute as real / 60.0
    ensures 1 <= WaitFor(Refill(b, now), b.rate) <= 60
  {
    AfterValid(b, now);
    var y := 1.0 - Refill(b, now);
    assert b.rate >= 1.0 / 60.0;
    CeilBounds(y / b.rate, 60);
    Quotient(60.0, y, b.rate);
    assert 60.0 * b.rate >= 1.0;
    CeilBounds(y / b.rate, 0);
    Quotient(0.0, y, b.rate);
  }

  // ---- the limiter --------------------------------------------------------------------------

  class RateLimiter {
    var tokens: real
    var last: real
    const capacity: real
    const refillPerSec: real

    constructor (perMinute: nat, burst: nat, now: real)
      ensures Model() == Full(burst, perMinute as real / 60.0, now) && Valid(Model())
    {
      tokens, capacity := burst as real, burst as real;
      refillPerSec := perMinute as real / 60.0;
      last := now;
    }

    function Model(): Bucket
      reads this
    {
      Bucket(tokens, capacity, refillPerSec, last)
    }

    /** Take one token, or say how long until there is one. */
    method TryAcquireAt(now: real) returns (r: Verdict)
      requires Valid(Model())
      modifies this
      ensures Valid(Model()) && Model() == After(old(Model()), now)
      ensures r == if Admits(old(Model()), now) then Admit else Wait(WaitFor(Refill(old(Model()), now), refillPerSec))
    {
      hide Earned;
      AfterValid(Model(), now);
      var elapsed := if now < last then 0.0 else now - last;
      var filled := tokens + Earned(refillPerSec, elapsed);
      tokens := if filled < capacity then filled else capacity;
      last := now;
      if tokens >= 1.0 {
        tokens := tokens - 1.0;
        r := Admit;
      } else {
        r := Wait(WaitFor(tokens, refillPerSec));
      }
    }
  }
}
