/** Theorems about whole runs of the rate limiter. */
module LimiterRuns {
  import opened RateLimiter

  datatype Call = Call(now: int, permits: nat)

  function After(c: Config, s: Bucket, calls: seq<Call>): Bucket
    requires c.Valid()
  {
    if calls == [] then s
    else
      var k := |calls| - 1;
      AfterCall(c, After(c, s, calls[..k]), calls[k].now, calls[k].permits)
  }

  /** The state in which call i consumes, and the instant it is granted. */
  function Refilled(c: Config, s: Bucket, calls: seq<Call>, i: nat): Bucket
    requires c.Valid() && i < |calls|
  {
    Refill(c, After(c, s, calls[..i]), calls[i].now)
  }

  function GrantOf(c: Config, s: Bucket, calls: seq<Call>, i: nat): int
    requires c.Valid() && i < |calls|
  {
    Grant(c, After(c, s, calls[..i]), calls[i].now)
  }

  /** Permits asked for by calls i, ..., j - 1. */
  function Permits(calls: seq<Call>, i: nat, j: nat): (n: nat)
    requires i <= j <= |calls|
  {
    if i == j then 0 else Permits(calls, i, j - 1) + calls[j - 1].permits
  }

  predicate Bounded(c: Config, s: Bucket) { 0 <= s.stored <= c.burst }

  lemma AfterNext(c: Config, s: Bucket, calls: seq<Call>, i: nat)
    requires c.Valid() && i < |calls|
    ensures After(c, s, calls[..i + 1]) == Consume(c, Refilled(c, s, calls, i), calls[i].permits)
  {
    assert calls[..i + 1][..i] == calls[..i];
  }

  lemma RefillBounded(c: Config, s: Bucket, now: int)
    requires c.Valid() && Bounded(c, s)
    ensures Bounded(c, Refill(c, s, now))
  {
    assert now > s.nextFree ==> (now - s.nextFree) / c.interval >= 0;
  }

  lemma {:induction false} StaysBounded(c: Config, s: Bucket, calls: seq<Call>)
    requires c.Valid() && Bounded(c, s)
    ensures Bounded(c, After(c, s, calls))
  {
    if calls != [] {
      var k := |calls| - 1;
      StaysBounded(c, s, calls[..k]);
      RefillBounded(c, After(c, s, calls[..k]), calls[k].now);
    }
  }

  // ---------------------------------------------------------------- window rate bound

  lemma {:induction false} PotentialFalls(c: Config, s: Bucket, calls: seq<Call>, i: nat, j: nat)
    requires c.Valid() && i < j <= |calls|
    ensures Potential(c, After(c, s, calls[..j])) + Permits(calls, i, j) * c.interval
         <= Potential(c, Refilled(c, s, calls, i))
  {
    hide Refill, Consume, Potential;
    var before, p := Permits(calls, i, j - 1), calls[j - 1].permits;
    AfterNext(c, s, calls, j - 1);
    ConsumeLowersExactly(c, Refilled(c, s, calls, j - 1), p);
    Distribute(before, p, c.interval);
    assert Permits(calls, i, j) == before + p;
    if i + 1 < j {
      PotentialFalls(c, s, calls, i, j - 1);
      RefillNeverRaises(c, After(c, s, calls[..j - 1]), calls[j - 1].now);
    } else {
      assert before == 0;
    }
  }

  lemma Distribute(a: int, b: int, d: int)
    ensures (a + b) * d == a * d + b * d
  {
  }

  /** In any window of any run, whatever the arrival times, the permits granted are worth at
      most the burst plus the time between the first and the last grant. */
  lemma WindowRateBound(c: Config, s: Bucket, calls: seq<Call>, i: nat, j: nat)
    requires c.Valid() && Bounded(c, s) && i <= j < |calls|
    ensures c.interval * Permits(calls, i, j)
         <= c.interval * c.burst + (GrantOf(c, s, calls, j) - GrantOf(c, s, calls, i))
  {
    StaysBounded(c, s, calls[..i]);
    StaysBounded(c, s, calls[..j]);
    RefillBounded(c, After(c, s, calls[..i]), calls[i].now);
    RefillBounded(c, After(c, s, calls[..j]), calls[j].now);
    var a, b := Refilled(c, s, calls, i), Refilled(c, s, calls, j);
    Monotone(a.stored, c.burst, c.interval);
    Monotone(0, b.stored, c.interval);
    if i < j {
      PotentialFalls(c, s, calls, i, j);
      RefillNeverRaises(c, After(c, s, calls[..j]), calls[j].now);
    }
  }

  lemma Monotone(a: int, b: int, d: int)
    requires a <= b && d >= 0
    ensures a * d <= b * d
  {
  }

  /** The instant by which an untouched bucket has filled up. */
  function FullBy(c: Config): int { c.burst * c.interval + 1 }

  lemma FullBucket(c: Config)
    requires c.Valid()
    ensures Refill(c, FRESH, FullBy(c)) == Bucket(c.burst, FullBy(c))
  {
    Monotone(0, c.burst, c.interval);
    QuotientIsLargest(c.burst, FullBy(c), c.interval);
  }

  /** The bound is attained for every number of permits from the burst upwards. */
  lemma WindowRateBoundIsTight(c: Config, n: nat)
    requires c.Valid() && n >= c.burst
    ensures var calls := [Call(FullBy(c), n), Call(FullBy(c), 0)];
      Permits(calls, 0, 1) == n
      && c.interval * n == c.interval * c.burst + (GrantOf(c, FRESH, calls, 1) - GrantOf(c, FRESH, calls, 0))
      && GrantOf(c, FRESH, calls, 1) - GrantOf(c, FRESH, calls, 0) == (n - c.burst) * c.interval
  {
    var calls := [Call(FullBy(c), n), Call(FullBy(c), 0)];
    FullBucket(c);
    assert calls[..0] == [] && calls[..1] == [calls[0]];
    AfterNext(c, FRESH, calls, 0);
    assert Permits(calls, 0, 1) == Permits(calls, 0, 0) + n;
    Monotone(0, n - c.burst, c.interval);
  }

  /** What a user of the limiter reads into its constructor: in any window, at most rate
      permits a second on top of the burst. */
  ghost predicate NominalRateKept(rate: real)
    requires 0.0 < rate < MicrosPerSecond()
    requires ConfigOf(rate).Valid()
  {
    forall calls: seq<Call>, i: nat, j: nat | i <= j < |calls| ::
      WithinNominal(rate, Permits(calls, i, j),
        GrantOf(ConfigOf(rate), FRESH, calls, j) - GrantOf(ConfigOf(rate), FRESH, calls, i))
  }

  predicate WithinNominal(rate: real, permits: nat, elapsed: int) {
    (permits - rate.Floor) as real * TICKS_PER_SECOND as real <= rate * elapsed as real
  }

  /** 1e6 / rate is a whole number, so truncating it loses nothing. */
  predicate WholeInterval(rate: real)
    requires 0.0 < rate
  {
    (MicrosPerSecond() / rate).Floor as real * rate == MicrosPerSecond()
  }

  /** True exactly for the rates whose interval is a whole number of microseconds: for any
      other rate the truncated interval lets more through. */
  lemma NominalRateIff(rate: real)
    requires 0.0 < rate < MicrosPerSecond()
    ensures ConfigOf(rate).Valid()
    ensures NominalRateKept(rate) <==> WholeInterval(rate)
  {
    hide MicrosPerSecond, WithinNominal, GrantOf, Permits;
    IntervalIs(rate);
    var us := (MicrosPerSecond() / rate).Floor;
    if WholeInterval(rate) {
      WholeIntervalKeeps(rate, us);
    } else {
      ShortIntervalBreaks(rate, us);
    }
  }

  lemma WholeIntervalKeeps(rate: real, us: int)
    requires 0.0 < rate < MicrosPerSecond() && us >= 1 && us as real * rate == MicrosPerSecond()
    requires ConfigOf(rate) == Config(us * TICKS_PER_MICROSECOND, rate.Floor)
    ensures NominalRateKept(rate)
  {
    hide MicrosPerSecond, ConfigOf, WithinNominal, GrantOf, Permits;
    var c := ConfigOf(rate);
    forall calls: seq<Call>, i: nat, j: nat | i <= j < |calls|
      ensures WithinNominal(rate, Permits(calls, i, j), GrantOf(c, FRESH, calls, j) - GrantOf(c, FRESH, calls, i))
    {
      WindowRateBound(c, FRESH, calls, i, j);
      Excess(c.interval, Permits(calls, i, j), c.burst, GrantOf(c, FRESH, calls, j) - GrantOf(c, FRESH, calls, i));
      ExactIntervalSuffices(rate, us, c.interval, Permits(calls, i, j),
        GrantOf(c, FRESH, calls, j) - GrantOf(c, FRESH, calls, i));
    }
  }

  lemma ShortIntervalBreaks(rate: real, us: int)
    requires 0.0 < rate < MicrosPerSecond() && us >= 1 && us as real * rate < MicrosPerSecond()
    requires ConfigOf(rate) == Config(us * TICKS_PER_MICROSECOND, rate.Floor)
    ensures !NominalRateKept(rate)
  {
    hide MicrosPerSecond, ConfigOf, WithinNominal, GrantOf, Permits;
    var c := ConfigOf(rate);
    var n := c.burst + 1;
    var calls := [Call(FullBy(c), n), Call(FullBy(c), 0)];
    WindowRateBoundIsTight(c, n);
    ShortIntervalFails(rate, us, n);
    assert 0 <= 1 < |calls|
      && !WithinNominal(rate, Permits(calls, 0, 1), GrantOf(c, FRESH, calls, 1) - GrantOf(c, FRESH, calls, 0));
  }

  lemma Excess(interval: int, permits: int, burst: int, elapsed: int)
    requires interval * permits <= interval * burst + elapsed
    ensures (permits - burst) * interval <= elapsed
  {
  }

  lemma ExactIntervalSuffices(rate: real, us: int, interval: int, permits: nat, elapsed: int)
    requires rate > 0.0 && us as real * rate == MicrosPerSecond() && interval == us * TICKS_PER_MICROSECOND
    requires (permits - rate.Floor) * interval <= elapsed
    ensures WithinNominal(rate, permits, elapsed)
  {
    var excess := permits - rate.Floor;
    var worth := excess * (us * TICKS_PER_MICROSECOND);
    ScaleUp(rate, worth as real, elapsed as real);
    WorthOf(rate, us, excess);
  }

  lemma ShortIntervalFails(rate: real, us: int, permits: nat)
    requires rate > 0.0 && us as real * rate < MicrosPerSecond() && permits == rate.Floor + 1
    ensures !WithinNominal(rate, permits, us * TICKS_PER_MICROSECOND)
  {
    assert rate * (us * TICKS_PER_MICROSECOND) as real == (us as real * rate) * 1000.0;
  }

  lemma ScaleUp(m: real, a: real, b: real)
    requires m >= 0.0 && a <= b
    ensures m * a <= m * b
  {
  }

  lemma WorthOf(rate: real, us: int, excess: int)
    requires us as real * rate == MicrosPerSecond()
    ensures rate * (excess * (us * TICKS_PER_MICROSECOND)) as real == excess as real * TICKS_PER_SECOND as real
  {
    calc {
      rate * (excess * (us * TICKS_PER_MICROSECOND)) as real;
      rate * (excess as real * (us as real * 1000.0));
      excess as real * ((us as real * rate) * 1000.0);
      excess as real * TICKS_PER_SECOND as real;
    }
  }
}
