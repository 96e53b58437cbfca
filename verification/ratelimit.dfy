/** The token bucket of internal/guardrails/ratelimit.go. Times are nanoseconds. */
module RateLimit {
  import opened Arithmetic

  type Time = int

  const SECOND: Time := 1_000_000_000

  /** Tokens never exceed the burst; each full second since the last refill is worth `rate` tokens. */
  datatype Bucket = Bucket(burst: int, rate: int, tokens: int, lastRefill: Time) {
    ghost predicate Valid() {
      burst >= 1 && rate >= 1 && 0 <= tokens <= burst
    }
  }

  /** Whole seconds from t0 to t; none if time has not advanced. */
  function Seconds(t0: Time, t: Time): nat {
    if t <= t0 then 0 else (t - t0) / SECOND
  }

  /** Tokens added per second for a configured number of requests per minute. */
  function Rate(requestsPerMinute: int): int {
    Max(1, requestsPerMinute / 60)
  }

  function NewBucket(requestsPerMinute: int, burstSize: int, now: Time): Bucket
    requires requestsPerMinute > 0
  {
    var burst := if burstSize <= 0 then requestsPerMinute else burstSize;
    Bucket(burst, Rate(requestsPerMinute), burst, now)
  }

  function Refill(b: Bucket, now: Time): Bucket {
    var refills := Seconds(b.lastRefill, now);
    if refills == 0 then b
    else b.(tokens := Min(b.burst, b.tokens + refills * b.rate), lastRefill := now)
  }

  function AllowStep(b: Bucket, now: Time): (Bucket, bool) {
    var r := Refill(b, now);
    if r.tokens > 0 then (r.(tokens := r.tokens - 1), true) else (r, false)
  }

  class RateLimiter {
    const requestsPerMinute: int
    const burstSize: int
    var tokens: int
    var lastRefill: Time
    const tokensPerRefill: int

    ghost function Contents(): Bucket
      reads this
    {
      Bucket(burstSize, tokensPerRefill, tokens, lastRefill)
    }

    constructor (requestsPerMinute: int, burstSize: int, now: Time)
      requires requestsPerMinute > 0
      ensures this.requestsPerMinute == requestsPerMinute
      ensures Contents() == NewBucket(requestsPerMinute, burstSize, now) && Contents().Valid()
    {
      var burst := burstSize;
      if burst <= 0 {
        burst := requestsPerMinute;
      }
      var tokensPerSecond := requestsPerMinute / 60;
      if tokensPerSecond < 1 {
        tokensPerSecond := 1;
      }
      this.requestsPerMinute := requestsPerMinute;
      this.burstSize, this.tokens := burst, burst;
      this.lastRefill := now;
      this.tokensPerRefill := tokensPerSecond;
    }

    method Allow(now: Time) returns (allowed: bool)
      modifies this
      ensures (Contents(), allowed) == AllowStep(old(Contents()), now)
    {
      var elapsed := now - lastRefill;
      if elapsed > 0 {
        var refills := elapsed / SECOND;
        if refills > 0 {
          var newTokens := refills * tokensPerRefill;
          tokens := tokens + newTokens;
          if tokens > burstSize {
            tokens := burstSize;
          }
          lastRefill := now;
        }
      }
      if tokens > 0 {
        tokens := tokens - 1;
        return true;
      }
      return false;
    }
  }

  /** NewRateLimiter: no limiter at all unless the configured rate is positive. */
  method NewRateLimiter(requestsPerMinute: int, burstSize: int, now: Time) returns (limiter: RateLimiter?)
    ensures limiter == null <==> requestsPerMinute <= 0
    ensures limiter != null ==> fresh(limiter) && limiter.Contents() == NewBucket(requestsPerMinute, burstSize, now)
  {
    if requestsPerMinute <= 0 {
      return null;
    }
    limiter := new RateLimiter(requestsPerMinute, burstSize, now);
  }

  // ----- Runs -----

  /** Clock readings from `from` to `to`, never going backwards. */
  ghost predicate InOrder(times: seq<Time>, from: Time, to: Time) {
    if times == [] then from <= to else from <= times[0] && InOrder(times[1..], times[0], to)
  }

  function Run(b: Bucket, times: seq<Time>): Bucket
    decreases |times|
  {
    if times == [] then b else Run(AllowStep(b, times[0]).0, times[1..])
  }

  /** How many of the calls made at these times are allowed. */
  function Accepted(b: Bucket, times: seq<Time>): nat
    decreases |times|
  {
    if times == [] then 0
    else
      var (b', allowed) := AllowStep(b, times[0]);
      (if allowed then 1 else 0) + Accepted(b', times[1..])
  }

  /** Whole seconds of two adjacent stretches never add up to more than those of the whole. */
  lemma SecondsAddUp(a: Time, b: Time, c: Time)
    requires a <= b <= c
    ensures Seconds(a, b) + Seconds(b, c) <= Seconds(a, c)
  {}

  /** The most that one full second can be worth: a refill never fills past the burst. */
  function Gain(burst: int, rate: int): int {
    Min(burst, rate)
  }

  lemma RefillKeepsValid(b: Bucket, now: Time)
    requires b.Valid()
    ensures Refill(b, now).Valid() && AllowStep(b, now).0.Valid()
    ensures Refill(b, now).tokens <= b.tokens + Gain(b.burst, b.rate) * Seconds(b.lastRefill, now)
  {
    var n, gain := Seconds(b.lastRefill, now), Gain(b.burst, b.rate);
    Product(n, b.rate);
    if n > 0 {
      ScaleUp(gain, 1, n);
    }
  }

  lemma Product(x: int, y: int)
    requires x >= 0 && y >= 0
    ensures x * y >= 0
  {}

  lemma ScaleUp(rate: int, m: int, n: int)
    requires rate >= 0 && m <= n
    ensures rate * m <= rate * n
  {
    Product(rate, n - m);
    assert rate * n == rate * m + rate * (n - m);
  }

  /** Calls up to time t spend the tokens in hand and the gain of each whole second since the last refill. */
  lemma {:induction false} AcceptedFromTokens(b: Bucket, times: seq<Time>, from: Time, to: Time)
    requires b.Valid() && b.lastRefill <= from && InOrder(times, from, to)
    ensures Accepted(b, times) <= b.tokens + Gain(b.burst, b.rate) * Seconds(b.lastRefill, to)
    decreases |times|
  {
    if times == [] {
      Product(Gain(b.burst, b.rate), Seconds(b.lastRefill, to));
    } else {
      var now := times[0];
      var (b', allowed) := AllowStep(b, now);
      InOrderEnds(times[1..], now, to);
      RefillKeepsValid(b, now);
      AcceptedFromTokens(b', times[1..], now, to);
      if Seconds(b.lastRefill, now) > 0 {
        SecondsAddUp(b.lastRefill, now, to);
        var gain := Gain(b.burst, b.rate);
        ScaleUp(gain, Seconds(b.lastRefill, now) + Seconds(now, to), Seconds(b.lastRefill, to));
        assert gain * (Seconds(b.lastRefill, now) + Seconds(now, to))
               == gain * Seconds(b.lastRefill, now) + gain * Seconds(now, to);
      }
    }
  }

  lemma {:induction false} InOrderEnds(times: seq<Time>, from: Time, to: Time)
    requires InOrder(times, from, to)
    ensures from <= to
  {
    if times != [] {
      InOrderEnds(times[1..], times[0], to);
    }
  }

  /** From its creation at t0 until any time t a limiter lets through at most its burst plus the gain of each
      whole second that has passed. */
  lemma AcceptedSinceCreation(requestsPerMinute: int, burstSize: int, t0: Time, times: seq<Time>, t: Time)
    requires requestsPerMinute > 0 && InOrder(times, t0, t)
    ensures var b := NewBucket(requestsPerMinute, burstSize, t0);
            Accepted(b, times) <= b.burst + Gain(b.burst, Rate(requestsPerMinute)) * Seconds(t0, t)
  {
    AcceptedFromTokens(NewBucket(requestsPerMinute, burstSize, t0), times, t0, t);
  }

  /** In any window, whatever happened before it, at most burst + gain * (whole seconds + 1) calls pass. */
  lemma AcceptedInWindow(b: Bucket, times: seq<Time>, start: Time, end: Time)
    requires b.Valid() && b.lastRefill <= start && InOrder(times, start, end)
    ensures Accepted(b, times) <= b.burst + Gain(b.burst, b.rate) * (Seconds(start, end) + 1)
  {
    if times == [] {
      Product(Gain(b.burst, b.rate), Seconds(start, end) + 1);
    } else {
      var first := times[0];
      InOrderEnds(times[1..], first, end);
      var r := Refill(b, first);
      RefillKeepsValid(b, first);
      assert AllowStep(r, first) == AllowStep(b, first);
      assert Accepted(r, times) == Accepted(b, times);
      AcceptedFromTokens(r, times, first, end);
      assert Seconds(r.lastRefill, first) == 0;
      assert Seconds(r.lastRefill, end) <= Seconds(first, end) + 1 <= Seconds(start, end) + 1;
      ScaleUp(Gain(b.burst, b.rate), Seconds(r.lastRefill, end), Seconds(start, end) + 1);
    }
  }

  /** The window bound applies at every point of every run: earlier calls leave a valid bucket behind. */
  lemma {:induction false} RunKeepsValid(b: Bucket, times: seq<Time>, from: Time, to: Time)
    requires b.Valid() && b.lastRefill <= from && InOrder(times, from, to)
    ensures var b' := Run(b, times);
            b'.Valid() && b'.lastRefill <= to && b'.burst == b.burst && b'.rate == b.rate
    decreases |times|
  {
    if times != [] {
      RefillKeepsValid(b, times[0]);
      RunKeepsValid(AllowStep(b, times[0]).0, times[1..], times[0], to);
    }
  }

  lemma AcceptedInAnyLaterWindow(requestsPerMinute: int, burstSize: int, t0: Time, earlier: seq<Time>,
                                 window: seq<Time>, start: Time, end: Time)
    requires requestsPerMinute > 0 && InOrder(earlier, t0, start) && InOrder(window, start, end)
    ensures var b := NewBucket(requestsPerMinute, burstSize, t0);
            Accepted(Run(b, earlier), window)
            <= b.burst + Gain(b.burst, Rate(requestsPerMinute)) * (Seconds(start, end) + 1)
  {
    var b := NewBucket(requestsPerMinute, burstSize, t0);
    RunKeepsValid(b, earlier, t0, start);
    AcceptedInWindow(Run(b, earlier), window, start, end);
  }

  /** A caller who waits a full second between calls is never turned away... */
  ghost predicate Spaced(times: seq<Time>) {
    forall i | 0 < i < |times| :: times[i] - times[i - 1] >= SECOND
  }

  lemma {:induction false} SpacedCallsAllPass(b: Bucket, times: seq<Time>)
    requires b.Valid() && Spaced(times)
    requires times != [] ==> b.lastRefill <= times[0] && (b.tokens >= 1 || times[0] - b.lastRefill >= SECOND)
    ensures Accepted(b, times) == |times|
    decreases |times|
  {
    if times != [] {
      var now := times[0];
      var r := Refill(b, now);
      RefillKeepsValid(b, now);
      if Seconds(b.lastRefill, now) > 0 {
        ScaleUp(b.rate, 1, Seconds(b.lastRefill, now));
      }
      assert r.tokens >= 1;
      var b' := AllowStep(b, now).0;
      if |times| > 1 {
        assert times[1] - now >= SECOND;
        assert times[1] - b'.lastRefill >= SECOND;
      }
      assert forall i | 0 < i < |times[1..]| :: times[1..][i] == times[i + 1] && times[1..][i - 1] == times[i];
      SpacedCallsAllPass(b', times[1..]);
    }
  }

  /** ...so every limiter, whatever it is configured for, lets one through every second; one for a single request per
      minute lets through sixty. */
  lemma OnePerMinuteMeansOnePerSecond(requestsPerMinute: int, burstSize: int, t0: Time, calls: nat)
    requires requestsPerMinute > 0
    ensures Accepted(NewBucket(requestsPerMinute, burstSize, t0), seq(calls, i => t0 + i * SECOND)) == calls
  {
    SpacedCallsAllPass(NewBucket(requestsPerMinute, burstSize, t0), seq(calls, i => t0 + i * SECOND));
  }

  // ----- When does "requests per minute" hold? -----

  const MINUTE := 60 * SECOND

  /** Calls made within one minute, after any earlier ones, are accepted at most `limit` times. */
  ghost predicate MinuteHolds(b: Bucket, limit: int, t0: Time, earlier: seq<Time>, start: Time, minute: seq<Time>) {
    InOrder(earlier, t0, start) && InOrder(minute, start, start + MINUTE - 1) ==>
      Accepted(Run(b, earlier), minute) <= limit
  }

  ghost predicate NeverMoreInAMinute(b: Bucket, limit: int, t0: Time) {
    forall earlier, start, minute :: MinuteHolds(b, limit, t0, earlier, start, minute)
  }

  /** The busiest minute: everything the bucket holds, then everything each of sixty refills brings. */
  function BusiestMinute(b: Bucket): int {
    b.burst + 60 * Gain(b.burst, b.rate)
  }

  /** "Never more than the configured requests in any minute" holds if and only if the burst and sixty refills fit. */
  lemma PerMinuteHoldsExactlyWhen(requestsPerMinute: int, burstSize: int, t0: Time)
    requires requestsPerMinute > 0
    ensures var b := NewBucket(requestsPerMinute, burstSize, t0);
            NeverMoreInAMinute(b, requestsPerMinute, t0) <==> BusiestMinute(b) <= requestsPerMinute
  {
    var b := NewBucket(requestsPerMinute, burstSize, t0);
    if BusiestMinute(b) <= requestsPerMinute {
      forall earlier, start, minute ensures MinuteHolds(b, requestsPerMinute, t0, earlier, start, minute) {
        if InOrder(earlier, t0, start) && InOrder(minute, start, start + MINUTE - 1) {
          AcceptedInAnyLaterWindow(requestsPerMinute, burstSize, t0, earlier, minute, start, start + MINUTE - 1);
        }
      }
    } else {
      BusiestMinuteHappens(b);
      BusyCallsFitAMinute(b, t0, t0 + SECOND - 1);
      assert !MinuteHolds(b, requestsPerMinute, t0, [], t0 + SECOND - 1, BusyCalls(b, t0));
    }
  }

  /** With no burst configured, which is how the Keeper creates its limiter, it never holds: the full bucket is already
      the whole minute's worth, and one second later more pass. */
  lemma DefaultBurstExceeds(requestsPerMinute: int, burstSize: int, t0: Time)
    requires requestsPerMinute > 0 && burstSize <= 0
    ensures !NeverMoreInAMinute(NewBucket(requestsPerMinute, burstSize, t0), requestsPerMinute, t0)
    ensures Accepted(NewBucket(requestsPerMinute, burstSize, t0), Burst(t0, requestsPerMinute) + [t0 + SECOND])
            == requestsPerMinute + 1
  {
    PerMinuteHoldsExactlyWhen(requestsPerMinute, burstSize, t0);
    var b := NewBucket(requestsPerMinute, burstSize, t0);
    BurstPasses(b, t0, requestsPerMinute, [t0 + SECOND]);
    assert [t0 + SECOND][1..] == [];
  }

  /** The same call time, n times over. */
  function Burst(t: Time, n: nat): seq<Time> {
    seq(n, _ => t)
  }

  /** The full bucket just before the first refill is due, then every refill of the minute as it comes. */
  function BusyCalls(b: Bucket, t0: Time): seq<Time>
    requires b.Valid()
  {
    Burst(t0 + SECOND - 1, b.burst) + Refills(t0 + SECOND, t0 + MINUTE, Gain(b.burst, b.rate))
  }

  /** `n` calls at `t` and at every full second after it, up to `until`. */
  function Refills(t: Time, until: Time, n: nat): seq<Time>
    decreases until - t
  {
    if until < t then [] else Burst(t, n) + Refills(t + SECOND, until, n)
  }

  /** Calls at one instant, before the next refill is due, pass as long as there are tokens. */
  lemma {:induction false} BurstPasses(b: Bucket, t: Time, n: nat, rest: seq<Time>)
    requires b.Valid() && n <= b.tokens && Seconds(b.lastRefill, t) == 0
    ensures Accepted(b, Burst(t, n) + rest) == n + Accepted(b.(tokens := b.tokens - n), rest)
    decreases n
  {
    var calls := Burst(t, n) + rest;
    if n == 0 {
      assert calls == rest;
    } else {
      assert calls[1..] == Burst(t, n - 1) + rest;
      BurstPasses(b.(tokens := b.tokens - 1), t, n - 1, rest);
    }
  }

  lemma {:induction false} RefillsPass(b: Bucket, t: Time, until: Time, seconds: nat)
    requires b.Valid() && b.tokens == 0 && b.lastRefill < t && Seconds(b.lastRefill, t) == 1
    requires until == t + (seconds - 1) * SECOND
    ensures Accepted(b, Refills(t, until, Gain(b.burst, b.rate))) == seconds * Gain(b.burst, b.rate)
    decreases seconds
  {
    if seconds > 0 {
      var gain := Gain(b.burst, b.rate);
      var calls, rest := Refills(t, until, gain), Refills(t + SECOND, until, gain);
      var r := Refill(b, t);
      assert r == b.(tokens := gain, lastRefill := t);
      assert AllowStep(r, t) == AllowStep(b, t);
      assert Accepted(r, calls) == Accepted(b, calls);
      BurstPasses(r, t, gain, rest);
      RefillsPass(r.(tokens := 0), t + SECOND, until, seconds - 1);
    }
  }

  lemma {:induction false} RefillsInOrder(t: Time, until: Time, n: nat, from: Time, to: Time)
    requires from <= t && until <= to && from <= to
    ensures InOrder(Refills(t, until, n), from, to)
    decreases until - t
  {
    if t <= until {
      RefillsInOrder(t + SECOND, until, n, t, to);
      BurstInOrder(t, n, Refills(t + SECOND, until, n), from, to);
    }
  }

  lemma {:induction false} BurstInOrder(t: Time, n: nat, rest: seq<Time>, from: Time, to: Time)
    requires from <= t && InOrder(rest, t, to)
    ensures InOrder(Burst(t, n) + rest, from, to)
    decreases n
  {
    var calls := Burst(t, n) + rest;
    if n == 0 {
      assert calls == rest;
      InOrderEnds(rest, t, to);
    } else {
      assert calls[1..] == Burst(t, n - 1) + rest;
      BurstInOrder(t, n - 1, rest, t, to);
    }
  }

  lemma BusiestMinuteHappens(b: Bucket)
    requires b.Valid() && b.tokens == b.burst
    ensures Accepted(b, BusyCalls(b, b.lastRefill)) == BusiestMinute(b)
  {
    var t0 := b.lastRefill;
    BurstPasses(b, t0 + SECOND - 1, b.burst, Refills(t0 + SECOND, t0 + MINUTE, Gain(b.burst, b.rate)));
    RefillsPass(b.(tokens := 0), t0 + SECOND, t0 + MINUTE, 60);
  }

  lemma BusyCallsFitAMinute(b: Bucket, t0: Time, start: Time)
    requires b.Valid() && start == t0 + SECOND - 1
    ensures InOrder(BusyCalls(b, t0), start, start + MINUTE - 1)
  {
    var refills := Refills(t0 + SECOND, t0 + MINUTE, Gain(b.burst, b.rate));
    RefillsInOrder(t0 + SECOND, t0 + MINUTE, Gain(b.burst, b.rate), start, start + MINUTE - 1);
    BurstInOrder(start, b.burst, refills, start, start + MINUTE - 1);
  }

  // ----- Exactly how many calls pass, in the configured numbers -----

  /** Of calls made together exactly as many pass as there are tokens. */
  lemma {:induction false} TogetherPass(b: Bucket, t: Time, calls: nat)
    requires b.Valid()
    ensures Accepted(b, Burst(t, calls)) == Min(calls, Refill(b, t).tokens)
    decreases calls
  {
    RefillKeepsValid(b, t);
    if calls > 0 {
      assert Burst(t, calls)[1..] == Burst(t, calls - 1);
      var b' := AllowStep(b, t).0;
      RefillKeepsValid(b, t);
      assert Refill(b', t) == b';
      TogetherPass(b', t, calls - 1);
    }
  }

  lemma {:induction false} TogetherSpend(b: Bucket, t: Time, calls: nat, rest: seq<Time>)
    requires b.Valid() && Seconds(b.lastRefill, t) == 0 && calls <= b.tokens
    ensures Accepted(b, Burst(t, calls) + rest) == calls + Accepted(b.(tokens := b.tokens - calls), rest)
  {
    BurstPasses(b, t, calls, rest);
  }

  /** A new limiter, first called at any time, passes exactly its burst at once: burstSize calls if that is positive,
      and otherwise as many as requests per minute. */
  lemma NewPassesItsBurst(requestsPerMinute: int, burstSize: int, t0: Time, t: Time, calls: nat)
    requires requestsPerMinute > 0
    ensures Accepted(NewBucket(requestsPerMinute, burstSize, t0), Burst(t, calls))
            == Min(calls, if burstSize > 0 then burstSize else requestsPerMinute)
  {
    var b := NewBucket(requestsPerMinute, burstSize, t0);
    TogetherPass(b, t, calls);
    Product(Seconds(t0, t), b.rate);
  }

  /** Emptied when it was new, it passes k seconds later exactly k times r calls made together, or the burst if that is
      less, where r is a sixtieth of the requests per minute, rounded down, and at least one. */
  lemma EmptiedPassesRefills(requestsPerMinute: int, burstSize: int, t0: Time, k: nat, late: Time, calls: nat, r: int)
    requires requestsPerMinute > 0 && 0 <= late < 1_000_000_000
    requires if requestsPerMinute < 60 then r == 1 else 60 * r <= requestsPerMinute < 60 * (r + 1)
    ensures var burst := if burstSize > 0 then burstSize else requestsPerMinute;
            Accepted(NewBucket(requestsPerMinute, burstSize, t0),
                     Burst(t0, burst) + Burst(t0 + k * 1_000_000_000 + late, calls))
            == burst + Min(calls, Min(burst, k * r))
  {
    var b, t := NewBucket(requestsPerMinute, burstSize, t0), t0 + k * 1_000_000_000 + late;
    TogetherSpend(b, t0, b.burst, Burst(t, calls));
    TogetherPass(b.(tokens := 0), t, calls);
    assert Seconds(t0, t) == k;
    assert b.rate == r;
  }

  lemma {:induction false} RunTwice(b: Bucket, times: seq<Time>, more: seq<Time>)
    ensures Run(b, times + more) == Run(Run(b, times), more)
    decreases |times|
  {
    if times == [] {
      assert times + more == more;
    } else {
      assert (times + more)[1..] == times[1..] + more;
      RunTwice(AllowStep(b, times[0]).0, times[1..], more);
    }
  }

  /** Enough calls together empty the bucket. */
  lemma {:induction false} TogetherEmpty(b: Bucket, t: Time, calls: nat)
    requires b.Valid() && calls > 0 && calls >= Refill(b, t).tokens
    ensures Run(b, Burst(t, calls)) == Refill(b, t).(tokens := 0)
    decreases calls
  {
    RefillKeepsValid(b, t);
    var b' := AllowStep(b, t).0;
    assert Burst(t, calls)[1..] == Burst(t, calls - 1) && Refill(b', t) == b';
    if calls > 1 {
      TogetherEmpty(b', t, calls - 1);
    } else {
      assert Burst(t, 0) == [];
    }
  }

  /** The same whatever went before, as long as that was a second or more ago: a burst of calls empties the limiter, and
      k seconds later k times r calls pass, or the burst if that is less. */
  lemma EmptiedLaterPassesRefills(requestsPerMinute: int, burstSize: int, t0: Time, earlier: seq<Time>, t: Time, k: nat,
                                  late: Time, calls: nat, r: int)
    requires requestsPerMinute > 0 && InOrder(earlier, t0, t - 1_000_000_000) && 0 <= late < 1_000_000_000
    requires if requestsPerMinute < 60 then r == 1 else 60 * r <= requestsPerMinute < 60 * (r + 1)
    ensures var burst := if burstSize > 0 then burstSize else requestsPerMinute;
            var emptied := Run(NewBucket(requestsPerMinute, burstSize, t0), earlier + Burst(t, burst));
            Accepted(emptied, Burst(t + k * 1_000_000_000 + late, calls)) == Min(calls, Min(burst, k * r))
  {
    var b := NewBucket(requestsPerMinute, burstSize, t0);
    var b1 := Run(b, earlier);
    RunKeepsValid(b, earlier, t0, t - SECOND);
    RefillKeepsValid(b1, t);
    RunTwice(b, earlier, Burst(t, b.burst));
    TogetherEmpty(b1, t, b.burst);
    var emptied := Refill(b1, t).(tokens := 0);
    assert emptied.lastRefill == t && emptied.burst == b.burst && emptied.rate == r;
    TogetherPass(emptied, t + k * SECOND + late, calls);
    assert Seconds(t, t + k * SECOND + late) == k;
  }
}
